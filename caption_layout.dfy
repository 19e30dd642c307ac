/**
 * Placement of the two caption overlays over the meme image.
 *
 * The captions are elements whose `left`, `top`, `bottom` and `fontSize`
 * style properties the component assigns in place; here each caption is an
 * object of class `Caption` holding those four numbers.  Bounding boxes are
 * passed in as values and pixel arithmetic is exact (`real`).
 */
module CaptionLayout {

  import MemeEditor

  /** A point in page coordinates. */
  datatype Point = Point(x: real, y: real)

  /** A bounding box in page coordinates, as the browser reports it. */
  datatype Rect = Rect(left: real, top: real, right: real, bottom: real) {
    function Width(): real { right - left }
    function Height(): real { bottom - top }
  }

  /** How far inside the image's top and bottom edges the captions sit. */
  const EdgeInset: real := 20.0

  /** The drag payload written at drag start is "top" or "bottom"; the drop
      handler moves the top caption for "top" and the bottom one otherwise. */
  datatype Which = TopCaption | BottomCaption

  function DropTarget(tag: string): (w: Which)
    ensures w == TopCaption <==> tag == "top"
  {
    if tag == "top" then TopCaption else BottomCaption
  }

  /** A point relative to the top-left corner of a box. */
  function RelativeTo(p: Point, box: Rect): Point {
    Point(p.x - box.left, p.y - box.top)
  }

  /** The centre of a box of the given rendered size whose top-left corner
      is at `corner`. */
  function CentreOf(corner: Point, size: Rect): Point {
    Point(corner.x + size.Width() / 2.0, corner.y + size.Height() / 2.0)
  }

  /** Where a dropped caption's corner goes: the drop point relative to the
      image, less half the caption's rendered width and height.  This is the
      one corner that puts the caption's centre on the drop point. */
  function DropCorner(client: Point, image: Rect, rendered: Rect): (corner: Point)
    ensures CentreOf(corner, rendered) == RelativeTo(client, image)
    ensures forall q :: CentreOf(q, rendered) == RelativeTo(client, image) ==> q == corner
  {
    var p := RelativeTo(client, image);
    Point(p.x - rendered.Width() / 2.0, p.y - rendered.Height() / 2.0)
  }

  /** The drop point is measured from the image's corner, while the
      caption's `left` and `top` are offsets inside the image's containing
      box.  The dropped caption's centre, read in the container's frame,
      is on the drop point exactly when the two corners coincide. */
  lemma DropFramesAgree(client: Point, image: Rect, container: Rect, rendered: Rect)
    ensures CentreOf(DropCorner(client, image, rendered), rendered) == RelativeTo(client, container)
            <==> image.left == container.left && image.top == container.top
  {
  }

  /** The vertical offsets the anchoring routine gives the captions. */
  datatype Anchors = Anchors(top: real, bottom: real)

  /** The top caption's `top` is measured down from the container's top
      edge, the bottom caption's `bottom` up from the container's bottom
      edge; both put the caption's outer edge `EdgeInset` pixels inside the
      image's corresponding edge. */
  function AnchorOffsets(image: Rect, container: Rect): (a: Anchors)
    ensures container.top + a.top == image.top + EdgeInset
    ensures container.bottom - a.bottom == image.bottom - EdgeInset
    ensures container.top <= image.top ==> a.top >= EdgeInset
    ensures image.bottom <= container.bottom ==> a.bottom >= EdgeInset
  {
    Anchors((image.top - container.top) + EdgeInset, (container.bottom - image.bottom) + EdgeInset)
  }

  /** The style state of one caption element. */
  class Caption {
    var left: real
    var top: real
    var bottom: real
    var fontSize: int

    constructor (left: real, top: real, bottom: real, fontSize: int)
      ensures this.left == left && this.top == top
      ensures this.bottom == bottom && this.fontSize == fontSize
    {
      this.left := left;
      this.top := top;
      this.bottom := bottom;
      this.fontSize := fontSize;
    }

    /** The corner of the caption's box as its `left` and `top` say. */
    function Corner(): Point
      reads this
    {
      Point(left, top)
    }

    /** Assigns `left` and `top`, leaving `bottom` and the font size. */
    method MoveTo(corner: Point)
      modifies this
      ensures Corner() == corner
      ensures bottom == old(bottom) && fontSize == old(fontSize)
    {
      left := corner.x;
      top := corner.y;
    }
  }

  /** The drop handler: the caption named by the drag payload gets its
      centre on the drop point, measured from the image's top-left corner;
      the other caption is untouched. */
  method HandleDrop(tag: string, client: Point, image: Rect,
                    topCaption: Caption, topRendered: Rect,
                    bottomCaption: Caption, bottomRendered: Rect)
    requires topCaption != bottomCaption
    modifies topCaption, bottomCaption
    ensures var moved := if DropTarget(tag) == TopCaption then topCaption else bottomCaption;
            var size := if DropTarget(tag) == TopCaption then topRendered else bottomRendered;
            CentreOf(moved.Corner(), size) == RelativeTo(client, image)
            && moved.Corner() == DropCorner(client, image, size)
            && moved.bottom == old(moved.bottom) && moved.fontSize == old(moved.fontSize)
    ensures tag == "top" ==> unchanged(bottomCaption)
    ensures tag != "top" ==> unchanged(topCaption)
  {
    if tag == "top" {
      topCaption.MoveTo(DropCorner(client, image, topRendered));
    } else {
      bottomCaption.MoveTo(DropCorner(client, image, bottomRendered));
    }
  }

  /** The anchoring routine: measured against the image's containing box,
      the top caption's `top` and the bottom caption's `bottom` are set
      `EdgeInset` pixels inside the image, and both captions take the
      editor's font size.  Horizontal positions are left as they are. */
  method AdjustTextPosition(meme: MemeEditor.MemeState, image: Rect, container: Rect,
                            topCaption: Caption, bottomCaption: Caption)
    requires topCaption != bottomCaption
    modifies topCaption, bottomCaption
    ensures container.top + topCaption.top == image.top + EdgeInset
    ensures container.bottom - bottomCaption.bottom == image.bottom - EdgeInset
    ensures topCaption.fontSize == meme.fontSize && bottomCaption.fontSize == meme.fontSize
    ensures MemeEditor.FontSizeValid(meme) ==>
              topCaption.fontSize >= MemeEditor.MinFontSize && bottomCaption.fontSize >= MemeEditor.MinFontSize
    ensures topCaption.left == old(topCaption.left) && topCaption.bottom == old(topCaption.bottom)
    ensures bottomCaption.left == old(bottomCaption.left) && bottomCaption.top == old(bottomCaption.top)
  {
    var anchors := AnchorOffsets(image, container);
    topCaption.top := anchors.top;
    bottomCaption.bottom := anchors.bottom;
    topCaption.fontSize := meme.fontSize;
    bottomCaption.fontSize := meme.fontSize;
  }
}
