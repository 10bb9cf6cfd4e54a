# Fruit-ripeness classifier: label selection and thumbnail crop

The application is a web page around a pretrained image classifier that
sorts a photo of a fruit into one of fifteen classes: five fruits (apel,
jeruk, melon, pisang, tomat) in three ripeness states (busuk, segar,
setengah segar). Nearly all of it is user interface, file handling and calls
into the neural-network and imaging libraries. This project models the two
pieces of the page's own logic and proves what they promise:

- **Label selection** (`predict_image`): the classifier returns a score per
  class; the page takes the index of the highest score (first one on ties,
  as NumPy's `argmax` does) and shows the label at that index of the fixed
  class table, with that score as the confidence.
- **Thumbnail crop box** (`prepare_square_image_from_path`): for a `w` by `h`
  image the page crops the largest centred square, side `min(w, h)`, at
  offsets `(w - side) // 2` and `(h - side) // 2`.

Files:

- `wrappers.dfy`: `Result`, standing in for a call that may raise.
- `class_labels.dfy`: the class table, the fruit and ripeness datatypes and
  the fruit-major layout of the table (`3 * fruit + state`).
- `classifier.dfy`: first-occurrence argmax, the prediction with its two
  error paths, and facts about the confidence.
- `square_crop.dfy`: the crop box and its geometry.

Scores are `real` numbers: the model keeps the selection rule exact and
abstracts away 32-bit floating point. The score vector is the single row of
the network's (1, N) output. A flat argmax over a one-row array gives the
same index as an argmax over that row. The model does not require the vector
to have fifteen entries. Instead it models what Python and NumPy do
otherwise: an empty vector makes `argmax` raise, and an index past the end
of the table makes the list lookup raise.

The confidence is in [0, 1] only when the network's scores are probabilities
(its last layer is a softmax). The code does not check this, so
`ConfidenceIsProbability` and `ConfidenceAtLeastUniform` take it as a
hypothesis, not as something the page guarantees.

## Model

| member | source | states |
|---|---|---|
| `ClassLabels.ClassIndex` | app.py:17-23 | the position it returns is inside the table and holds "<fruit> <state>"; since the entries are distinct, it is the unique such position |
| `ClassLabels.ClassOf` | app.py:17-23 | every table position names a (fruit, ripeness) pair whose index is that position and whose label is the entry |
| `ClassLabels.LabelLayout` | app.py:17-23 | the entry for fruit `f` in state `r` is at position `3 * rank(f) + rank(r)`: each row of three entries lists one fruit in the states busuk, segar, setengah segar; the fruits come in the order apel, jeruk, melon, pisang, tomat |
| `ClassLabels.ClassIndexRoundTrip` | app.py:17-23 | decoding a pair's position gives back the pair, so positions and (fruit, ripeness) pairs are in one-to-one correspondence |
| `ClassLabels.ClassNamesDistinct` | app.py:17-23 | the table has 5 * 3 = 15 entries and no two entries are equal |
| `Classifier.ArgMax` | app.py:31 | the selected index is in range, its score is at least every score, and every earlier score is strictly smaller (lowest index on ties) |
| `Classifier.ArgMaxIsTheFirstMax` | app.py:31 | an index is the lowest maximum of the scores exactly when it is the one argmax selects |
| `Classifier.Predict` | app.py:31-32 | an empty vector is the empty-scores error and nothing else is; a first maximum past the end of the table is the out-of-range error carrying that index, and only then; a vector no longer than the table always yields a prediction; a prediction's label is a table entry and its confidence is a score no smaller than any other |
| `Classifier.PredictNamesFirstMax` | app.py:31-32 | the prediction is (table entry `i`, score `i`) if and only if `i` is the lowest index holding the maximum score |
| `Classifier.PredictFullVector` | app.py:17-32 | a 15-score vector always yields a prediction, labelled with the fruit and ripeness of the argmax position |
| `Classifier.ConfidenceIsProbability` | app.py:32 | when all scores lie in [0, 1] so does the confidence |
| `Classifier.ConfidenceAtLeastUniform` | app.py:31-32 | when the scores sum to at least `1 - eps` (one, up to rounding), the confidence times the number of scores is at least `1 - eps` |
| `SquareCrop.ShorterSide` | app.py:39 | the side fits both dimensions and equals one of them, so it is `min(w, h)` |
| `SquareCrop.CentreOffset` | app.py:40-41 | the offset splits the leftover into a near margin and a far margin that is equal or one pixel wider |
| `SquareCrop.CropBox` | app.py:38-42 | the box is square with side `min(w, h)`, lies inside the image, is centred to within one pixel on both axes, and spans the whole of the shorter dimension |
| `SquareCrop.CropBoxIsTheCentredSquare` | app.py:38-42 | a box is a largest square inside the image, centred with any odd pixel on the far side, if and only if it is the crop box |
| `SquareCrop.CropBoxIsLargest` | app.py:39 | no square inside the image has a larger side than the crop box |
| `SquareCrop.SquareImageUncropped` | app.py:38-42 | a square image's crop box is the whole image |

## Left out

- Loading the trained network and running it (app.py:10-14, 30): opaque library calls. The score vector is an input of the model.
- Resizing to 224 by 224, dividing pixel values by 255 and adding the batch dimension (app.py:27-29): floating-point array work done by the imaging and array libraries.
- Decoding the image file, converting it to RGB, executing the crop and resizing the thumbnail to `size` by `size` (app.py:36-37, 42-43, 130): the imaging library does these. The model computes the box handed to `crop`, not the cropped pixels. That the thumbnail ends up `size` by `size` is the library's promise, not this code's.
- Returning `None` when opening or decoding the image fails (app.py:35, 45-46): it reacts only to I/O errors, which the model does not have.
- NaN scores: NumPy's `argmax` treats NaN as the maximum. Scores here are reals, which have no NaN.
- 32-bit floating-point scores: the model uses exact reals, so rounding, NaN and positive or negative infinity are not represented. The selection rule is exact on any scores that are finite numbers.
- Classifier.ConfidenceIsProbability: the code itself does not bound the confidence to [0, 1]. The bound holds only for a network whose outputs are probabilities, so the lemma assumes that.
- The page navigation, buttons, session state, the descriptive text tables, the emoji and example-image tables, path handling and the percentage formatting of the confidence (app.py:8-9, 49-137): presentation and file-system plumbing with no logic to state.
