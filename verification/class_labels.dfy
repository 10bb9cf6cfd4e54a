/** The fixed label table of the fruit-ripeness classifier. The order of the
    table is the order of the trained model's output vector: index `i` of the
    score vector is the classifier's score for label `ClassNames[i]`, so
    reordering the table silently relabels every prediction. */
module ClassLabels {

  /** The five fruit kinds, in the order the table lists them
      (apple, orange, melon, banana, tomato). */
  datatype Fruit = Apel | Jeruk | Melon | Pisang | Tomat

  /** The three ripeness states, in the order the table lists them
      within each fruit (rotten, fresh, half-fresh). */
  datatype Ripeness = Busuk | Segar | SetengahSegar

  /** The table as the application defines it. */
  const ClassNames: seq<string> := [
    "apel busuk", "apel segar", "apel setengah segar",
    "jeruk busuk", "jeruk segar", "jeruk setengah segar",
    "melon busuk", "melon segar", "melon setengah segar",
    "pisang busuk", "pisang segar", "pisang setengah segar",
    "tomat busuk", "tomat segar", "tomat setengah segar"
  ]

  const Fruits: seq<Fruit> := [Apel, Jeruk, Melon, Pisang, Tomat]
  const States: seq<Ripeness> := [Busuk, Segar, SetengahSegar]

  function FruitName(f: Fruit): string {
    match f
    case Apel => "apel"
    case Jeruk => "jeruk"
    case Melon => "melon"
    case Pisang => "pisang"
    case Tomat => "tomat"
  }

  function RipenessName(r: Ripeness): string {
    match r
    case Busuk => "busuk"
    case Segar => "segar"
    case SetengahSegar => "setengah segar"
  }

  /** The label a (fruit, ripeness) pair is displayed under. */
  function LabelOf(f: Fruit, r: Ripeness): string {
    FruitName(f) + " " + RipenessName(r)
  }

  /** Position of a fruit in `Fruits`. */
  function FruitRank(f: Fruit): (k: nat)
    ensures k < |Fruits| && Fruits[k] == f
  {
    match f
    case Apel => 0
    case Jeruk => 1
    case Melon => 2
    case Pisang => 3
    case Tomat => 4
  }

  /** Position of a ripeness state in `States`. */
  function RipenessRank(r: Ripeness): (k: nat)
    ensures k < |States| && States[k] == r
  {
    match r
    case Busuk => 0
    case Segar => 1
    case SetengahSegar => 2
  }

  /** The table is fruit-major: the entry for fruit `f` in state `r` sits at
      `3 * rank(f) + rank(r)`, and it reads "<fruit> <state>". */
  function ClassIndex(f: Fruit, r: Ripeness): (i: nat)
    ensures i < |ClassNames|
    ensures ClassNames[i] == LabelOf(f, r)
  {
    LabelLayout(f, r);
    3 * FruitRank(f) + RipenessRank(r)
  }

  /** Each entry reads "<fruit> <state>" for the pair its position encodes. */
  lemma LabelLayout(f: Fruit, r: Ripeness)
    ensures ClassNames[3 * FruitRank(f) + RipenessRank(r)] == LabelOf(f, r)
  {
    var base := 3 * FruitRank(f);
    match f
    case Apel => RowAt(base, "apel");
    case Jeruk => RowAt(base, "jeruk");
    case Melon => RowAt(base, "melon");
    case Pisang => RowAt(base, "pisang");
    case Tomat => RowAt(base, "tomat");
  }

  /** The three labels of the fruit called `name` start at position `base`. */
  lemma RowAt(base: nat, name: string)
    requires base + 3 <= |ClassNames|
    requires ClassNames[base] == name + " busuk"
    requires ClassNames[base + 1] == name + " segar"
    requires ClassNames[base + 2] == name + " setengah segar"
    ensures forall r :: ClassNames[base + RipenessRank(r)] == name + " " + RipenessName(r)
  {
  }

  /** The (fruit, ripeness) pair that table entry `i` names. */
  function ClassOf(i: nat): (fr: (Fruit, Ripeness))
    requires i < |ClassNames|
    ensures ClassIndex(fr.0, fr.1) == i
    ensures ClassNames[i] == LabelOf(fr.0, fr.1)
  {
    (Fruits[i / 3], States[i % 3])
  }

  /** Every pair has exactly one entry: `ClassIndex` and `ClassOf` are
      inverse bijections between pairs and table positions. */
  lemma ClassIndexRoundTrip(f: Fruit, r: Ripeness)
    ensures ClassOf(ClassIndex(f, r)) == (f, r)
  {
  }

  /** The table has 5 * 3 = 15 entries and no label appears twice, so a
      label names its output index unambiguously. */
  lemma ClassNamesDistinct()
    ensures |ClassNames| == |Fruits| * |States| == 15
    ensures forall i, j :: 0 <= i < j < |ClassNames| ==> ClassNames[i] != ClassNames[j]
  {
  }
}
