/** Ground-truth boxes and the COCO-style annotation converter (preprocess_anns). */
module Annotations {
  import opened Geometry

  /** A COCO `bbox` entry: top-left corner, then width and height. */
  datatype CocoBbox = CocoBbox(x: real, y: real, width: real, height: real)

  /** The two keys of a COCO annotation record that the converter reads. */
  datatype CocoAnnotation = CocoAnnotation(bbox: CocoBbox, categoryId: int)

  /** A ground-truth tuple (x1, y1, x2, y2, class_id). */
  datatype TrueBox = TrueBox(box: Box, classId: int)

  /** One annotation record to one corner-form tuple. */
  function ToTrueBox(a: CocoAnnotation): (t: TrueBox)
    ensures t.box.x1 == a.bbox.x && t.box.y1 == a.bbox.y
    ensures t.box.x2 - t.box.x1 == a.bbox.width && t.box.y2 - t.box.y1 == a.bbox.height
    ensures t.classId == a.categoryId
    ensures a.bbox.width >= 0.0 && a.bbox.height >= 0.0 <==> WellFormed(t.box)
  {
    TrueBox(Box(a.bbox.x, a.bbox.y, a.bbox.x + a.bbox.width, a.bbox.y + a.bbox.height), a.categoryId)
  }

  /** The inverse direction: a corner-form tuple back to top-left, width and height. */
  function ToCoco(t: TrueBox): CocoAnnotation {
    CocoAnnotation(CocoBbox(t.box.x1, t.box.y1, t.box.x2 - t.box.x1, t.box.y2 - t.box.y1), t.classId)
  }

  /** Converts every annotation of one image, keeping their number and order. */
  function PreprocessAnns(anns: seq<CocoAnnotation>): (r: seq<TrueBox>)
    ensures |r| == |anns|
    ensures forall i :: 0 <= i < |anns| ==> ToCoco(r[i]) == anns[i]
  {
    seq(|anns|, i requires 0 <= i < |anns| => ToTrueBox(anns[i]))
  }

  /** Converting corner form back to width and height and then again is the identity. */
  lemma {:induction false} ToTrueBoxToCoco(t: TrueBox)
    ensures ToTrueBox(ToCoco(t)) == t
  {
  }

  /** Annotations with nonnegative width and height become boxes that IoU treats as well formed. */
  lemma PreprocessWellFormed(anns: seq<CocoAnnotation>)
    requires forall i :: 0 <= i < |anns| ==> anns[i].bbox.width >= 0.0 && anns[i].bbox.height >= 0.0
    ensures forall i :: 0 <= i < |anns| ==> WellFormed(PreprocessAnns(anns)[i].box)
  {
  }
}
