/**
 * The `/predict` request handler after decoding and inference: the nested
 * loop over the detector's results that filters the boxes to the target
 * class, counts them, draws them on a copy of the upload and collects the
 * `Detection` records.
 */
module Predict {
  import opened Wrappers
  import opened PredictSpecification

  /**
   * A drawing surface over a copy of the uploaded image. Every call is
   * recorded, in order; the copy's pixels themselves are not modelled.
   */
  class Draw {
    const image: Image
    var ops: seq<DrawCommand>

    /** A fresh surface on a copy of `image`, with nothing drawn yet. */
    constructor (image: Image)
      ensures this.image == image && ops == []
    {
      this.image := image;
      ops := [];
    }

    /** Draws a rectangle outline with the given corners, colour and stroke width. */
    method Rectangle(xy: Box, outline: string, width: nat)
      modifies this
      ensures ops == old(ops) + [DrawRectangle(xy, outline, width)]
    {
      ops := ops + [DrawRectangle(xy, outline, width)];
    }

    /** Draws a text label with its top-left corner at `(x, y)`. */
    method Text(x: real, y: real, text: Label, fill: string)
      modifies this
      ensures ops == old(ops) + [DrawText(x, y, text, fill)]
    {
      ops := ops + [DrawText(x, y, text, fill)];
    }

    /** The copy together with everything drawn on it so far. */
    function Rendered(): AnnotatedImage
      reads this
    {
      AnnotatedImage(image, ops)
    }
  }

  /**
   * The inner loop of the handler, over the boxes of one result: each box's
   * class id is looked up in `names` (an unknown id aborts), boxes not of the
   * target class are skipped, and each target box is counted, drawn as a
   * rectangle and a label, and appended to `detections`.
   */
  method AnnotateBoxes(draw: Draw, names: map<int, string>, boxes: seq<RawBox>,
                       detections: seq<Detection>, plasticCount: int)
    returns (r: Result<seq<Detection>, Error>, count: int)
    requires plasticCount == |detections|
    requires draw.ops == DrawLog(detections)
    modifies draw
    ensures r == match FilterBoxes(names, boxes)
                 case Failure(e) => Failure(e)
                 case Success(kept) => Success(detections + kept)
    ensures r.Success? ==> count == |r.value| && draw.ops == DrawLog(r.value)
  {
    var dets := detections;
    count := plasticCount;
    ghost var kept: seq<Detection> := [];
    var j := 0;
    while j < |boxes|
      invariant 0 <= j <= |boxes|
      invariant FilterBoxes(names, boxes[..j]) == Success(kept)
      invariant dets == detections + kept
      invariant count == |dets|
      invariant draw.ops == DrawLog(dets)
    {
      var box := boxes[j];
      assert boxes[..j + 1] == boxes[..j] + [box];
      FilterStep(names, boxes[..j], box, kept);

      var cls := TruncToInt(box.cls);
      var confidence := box.conf;
      if cls !in names {
        FailureAbsorbs(names, boxes[..j + 1], boxes[j + 1..]);
        assert boxes[..j + 1] + boxes[j + 1..] == boxes;
        return Failure(UnknownClassId(cls)), count;
      }
      var className := names[cls];

      if className == Target {
        count := count + 1;

        var x1, y1, x2, y2 := box.x1, box.y1, box.x2, box.y2;
        draw.Rectangle(Box(x1, y1, x2, y2), Red, OutlineWidth);
        draw.Text(x1, y1 - LabelRise, Label(className, confidence), Red);

        var detection := Detection(className, confidence, Box(x1, y1, x2, y2));
        DrawLogStep(dets, detection);
        dets := dets + [detection];
        kept := kept + [detection];
      }
      j := j + 1;
    }
    assert boxes[..j] == boxes;
    r := Success(dets);
  }

  /**
   * Builds the response for one decoded upload `image`, the model's label
   * table `names` and the detector's `results` (one sequence of boxes per
   * result). A class id missing from `names` aborts the request.
   */
  method Predict(image: Image, names: map<int, string>, results: seq<seq<RawBox>>)
    returns (r: Result<PredictResponse, Error>)
    ensures r == PredictSpec(image, names, results)
    ensures r.Success? ==> r.value.plasticCount == |r.value.plasticDetections|
    ensures r.Success? ==> r.value.annotatedImage.base == image
  {
    var draw := new Draw(image);
    var detections: seq<Detection> := [];
    var plasticCount := 0;

    var i := 0;
    while i < |results|
      invariant 0 <= i <= |results|
      invariant FilterBoxes(names, Flatten(results[..i])) == Success(detections)
      invariant plasticCount == |detections|
      invariant draw.image == image && draw.ops == DrawLog(detections)
    {
      var outcome;
      outcome, plasticCount := AnnotateBoxes(draw, names, results[i], detections, plasticCount);
      FilterAppend(names, Flatten(results[..i]), results[i]);
      FlattenStep(results, i);
      if outcome.Failure? {
        FlattenAppend(results[..i + 1], results[i + 1..]);
        assert results[..i + 1] + results[i + 1..] == results;
        FailureAbsorbs(names, Flatten(results[..i + 1]), Flatten(results[i + 1..]));
        return Failure(outcome.error);
      }
      detections := outcome.value;
      i := i + 1;
    }
    assert results[..i] == results;

    r := Success(PredictResponse(detections, plasticCount, draw.Rendered()));
  }
}
