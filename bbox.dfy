/** The dataset capture state: the boxes drawn on the current frame, the
    label new boxes get, and whether a capture is in progress. Coordinates
    are normalised fractions of the frame; they are kept as reals, since the
    state never computes with them. */
module BoundingBoxes {
  datatype BoundingBox = BoundingBox(boxLabel: string, x: real, y: real, w: real, h: real)

  datatype Capture = Capture(boxes: seq<BoundingBox>, currentLabel: string, isCapturing: bool)

  const InitialCapture := Capture([], "manusia", false)

  /** `startCapture`: clears the boxes and enters capture mode. */
  function Started(c: Capture): (r: Capture)
    ensures r.boxes == [] && r.isCapturing && r.currentLabel == c.currentLabel
  {
    c.(boxes := [], isCapturing := true)
  }

  /** `finishCapture`: leaves capture mode and keeps the boxes. */
  function Finished(c: Capture): (r: Capture)
    ensures !r.isCapturing && r.boxes == c.boxes && r.currentLabel == c.currentLabel
  {
    c.(isCapturing := false)
  }

  /** `addBox`: appends, in capture mode or not. */
  function WithBox(c: Capture, box: BoundingBox): (r: Capture)
    ensures r.boxes == c.boxes + [box] && r.isCapturing == c.isCapturing && r.currentLabel == c.currentLabel
  {
    c.(boxes := c.boxes + [box])
  }

  /** A run of `addBox` calls, in order. */
  function AddBoxes(c: Capture, bs: seq<BoundingBox>): Capture
    decreases |bs|
  {
    if |bs| == 0 then c else AddBoxes(WithBox(c, bs[0]), bs[1..])
  }

  /** Adding boxes one by one appends them in the order they were drawn and
      changes neither the label nor the mode. */
  lemma {:induction false} AddBoxesAppends(c: Capture, bs: seq<BoundingBox>)
    ensures AddBoxes(c, bs) == c.(boxes := c.boxes + bs)
    decreases |bs|
  {
    if |bs| > 0 {
      AddBoxesAppends(WithBox(c, bs[0]), bs[1..]);
      assert c.boxes + [bs[0]] + bs[1..] == c.boxes + bs;
    }
  }

  /** A capture session (start, draw, finish) ends with exactly the boxes
      drawn in it, whatever was on the frame before. */
  lemma CaptureSession(c: Capture, bs: seq<BoundingBox>)
    ensures var r := Finished(AddBoxes(Started(c), bs));
      r.boxes == bs && !r.isCapturing && r.currentLabel == c.currentLabel
  {
    AddBoxesAppends(Started(c), bs);
  }

  class BoundingBoxViewModel {
    var boxes: seq<BoundingBox>
    var currentLabel: string
    var isCapturing: bool

    ghost function State(): Capture
      reads this
    {
      Capture(boxes, currentLabel, isCapturing)
    }

    constructor ()
      ensures State() == InitialCapture
    {
      boxes := [];
      currentLabel := "manusia";
      isCapturing := false;
    }

    method StartCapture()
      modifies this
      ensures State() == Started(old(State()))
    {
      boxes := [];
      isCapturing := true;
    }

    method FinishCapture()
      modifies this
      ensures State() == Finished(old(State()))
    {
      isCapturing := false;
    }

    method AddBox(box: BoundingBox)
      modifies this
      ensures State() == WithBox(old(State()), box)
    {
      boxes := boxes + [box];
    }
  }
}
