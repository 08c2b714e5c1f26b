# Ocean plastic detection: the filter-and-annotate loop of `/predict`

This project models the core of the backend of an ocean-plastic detection
service. A caller uploads an image to `POST /predict`. The service runs an
object detector on it and keeps only the boxes whose class is `"Plastic"`.
It draws each kept box as a red rectangle with a label on a copy of the
image, and answers with the list of kept detections, their count and the
annotated image.

What is modelled is the loop that turns the detector's output into that
answer (`backend/main.py`, lines 71-90), with the response shapes
`Detection` and `PredictResponse` (lines 44-52).

- `wrappers.dfy`: module `Wrappers`, the `Result` type for the error path.
- `predict_spec.dfy`: module `PredictSpecification`.
  - The data: `RawBox` is one detector box. `Detection`, `PredictResponse`
    and `AnnotatedImage` are the response. `DrawCommand` is one call on the
    drawing surface. `Error` is the failure of the label lookup, the one
    failure the model represents (drawing is taken never to fail; see
    "Left out").
  - The specification functions: `FilterBoxes`, `Flatten`, `DrawLog` and
    `PredictSpec`.
  - The reference definition `KeptIndices`: the positions of the target
    boxes.
  - The lemmas about all of the above.
- `predict.dfy`: module `Predict`.
  - The class `Draw` is the drawing surface on the copied image. It keeps
    an append-only log of the rectangles and texts drawn on it.
  - `Predict` is the handler's outer loop, over the results. `AnnotateBoxes`
    is its inner loop, over the boxes of one result. The inner loop is its
    own method only to keep each proof small. It runs in the same order and
    updates the same counter, list and drawing surface.
  - Both methods are proved against the specification functions.

Inputs that the handler gets from outside code become parameters:
- the decoded upload (`Image`);
- the model's label table `model.names` (a `map<int, string>`);
- the detector's output (`seq<seq<RawBox>>`, one sequence of boxes per
  result).

Details of the code that the model follows:
- The class name of a box is not part of the detector's box. It is looked
  up as `model.names[int(cls)]`, where `int` truncates toward zero
  (`TruncToInt`).
- A class id missing from the table raises `KeyError`, and that aborts the
  request with no partial result. The model returns
  `Failure(UnknownClassId(id))` for the first such box, in visiting order.
- A confidence of at least 0.5 is a promise of the detector, which receives
  `conf=0.5`. The loop itself does not check it. `ConfidenceAtLeast` shows
  that the loop keeps such a lower bound.

## Model

| member | source | states |
|---|---|---|
| `PredictSpecification.TruncToInt` | backend/main.py:76 | the class id is the float truncated toward zero: for x >= 0 it is the largest integer not above x; for x < 0 it is the smallest integer not below x |
| `PredictSpecification.KeptIndices` | backend/main.py:78-82 | reference for what survives the filter: strictly increasing positions, each of a box whose looked-up name is exactly "Plastic", and every such box's position is among them |
| `PredictSpecification.FilterKeepsTargetsInOrder` | backend/main.py:74-90 | on success the detections are one per kept position, in the original order; each has class name "Plastic" and the box's confidence and corners `[x1, y1, x2, y2]` unchanged |
| `PredictSpecification.FilterSucceedsIff` | backend/main.py:76-78 | the loop finishes without error iff every box's class id is a key of the label table |
| `PredictSpecification.FilterFailsAtFirstUnknown` | backend/main.py:74-78 | a failure carries the id of the first box, in visiting order, whose class id is missing from the table; every earlier box's id is present |
| `PredictSpecification.FilterAppend` | backend/main.py:74-75 | filtering boxes visited one after another gives the first part's detections followed by the second's, and the first error wins |
| `PredictSpecification.FlattenAppend` | backend/main.py:74-75 | the visiting order (results first, then boxes within a result) of split results is the visiting order of each part, concatenated |
| `PredictSpecification.FlattenMembership` | backend/main.py:74-75 | a box is visited iff it belongs to one of the results |
| `PredictSpecification.ConfidenceAtLeast` | backend/main.py:77-90 | confidences are passed through unchanged: if every detector box has confidence at least t, so has every detection |
| `PredictSpecification.DrawLogShape` | backend/main.py:87-88 | two draw calls per detection, in detection order: a red rectangle of width 3 at its `[x1, y1, x2, y2]`, then a red label of its name and confidence at `(x1, y1 - 10)` |
| `PredictSpecification.PredictReportsTargets` | backend/main.py:71-90 | a successful response lists exactly the "Plastic" boxes of the flattened results in order, with count equal to their number; it draws on the unchanged copy one rectangle and one label per kept box and nothing else |
| `PredictSpecification.PredictWithoutTargets` | backend/main.py:68-90 | when no box is of class "Plastic", the response has no detections, count 0, and the copy of the upload has nothing drawn on it |
| `PredictSpecification.PredictFailsIff` | backend/main.py:74-78 | a request fails iff some box of some result has a class id missing from the label table |
| `Predict.Draw.constructor` | backend/main.py:68-69 | the drawing surface starts as a copy of the upload with nothing drawn |
| `Predict.Draw.Rectangle` | backend/main.py:87 | drawing a rectangle appends exactly that rectangle to the log and changes nothing else |
| `Predict.Draw.Text` | backend/main.py:88 | drawing a text label appends exactly that label to the log and changes nothing else |
| `Predict.AnnotateBoxes` | backend/main.py:75-90 | for one result's boxes: on error, the first unknown class id; otherwise the detections so far extended by that result's filtered boxes, the count equal to the list length, and the log extended by their rectangles and labels |
| `Predict.Predict` | backend/main.py:71-101 | the response equals the specification `PredictSpec` over all results: the ordered "Plastic" detections, a count equal to their number, and the upload's copy with their annotations; or the first unknown class id |

## Left out

- Detector inference `model.predict(source=image, conf=0.5)` and loading the YOLO model (lines 30, 65). These are calls into an external library. Their output and the label table are parameters.
- Reading the upload and decoding it to RGB (lines 61-62). The decoded image is a parameter and its pixels are never inspected.
- JPEG encoding and base64 encoding of the annotated image (lines 93-95). The response carries the annotated image as the copied upload plus its ordered log of draw calls.
- Drawing is taken never to fail. Pillow's `ImageDraw.rectangle` (line 87) raises `ValueError` when x2 < x1 or y2 < y1; the model's `Draw.Rectangle` accepts any corners. The detector's xyxy boxes are ordered corner pairs, so that error does not arise for its output. For a box with reversed corners, `PredictSpecification.PredictReportsTargets` and `PredictSpecification.PredictFailsIff` describe a success that the program does not produce.
- The pixel effect of drawing: clipping, colours on the canvas, the width of the stroke. Only the calls and their arguments are recorded.
- The text `f"{class_name} {confidence:.2f}"` (line 88). It is modelled as an opaque `Label(name, confidence)`, since formatting a float is not part of the loop's logic.
- Floating point. Confidences and coordinates are `real`, `float(...)` is the identity, and `y1 - 10` is exact. Tensor indexing (`box.cls[0]`, `box.conf[0]`, `box.xyxy[0]`) is folded into the fields of `RawBox`.
- `int(...)` of a NaN or infinite class value raises in Python. Reals have no such values.
- Model-file discovery and the startup `FileNotFoundError` (lines 14-28). These depend on the file system.
- The FastAPI application, routing, `/health`, CORS, pydantic validation and the mapping of exceptions to HTTP status codes (lines 33-42, 54-59).
- frontend/src/App.jsx is not part of this model. It is user-interface state and one network call.
