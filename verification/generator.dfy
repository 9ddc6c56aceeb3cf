/**
 * The certificate layout editor (src/pages/Certificate/generator/Generator.tsx):
 * five overlays drawn over the rendered background can be moved by
 * drag-and-drop, by the arrow keys and by touch. Coordinates are offsets in
 * CSS pixels from the top-left corner of the certificate preview.
 */
module Generator {
  import opened Wrappers
  import Types

  /**
   * The five overlays, one per `renderDraggable` call, stored in the editor
   * under the labels "Name", "Course", "Tenure", "Description" and "QR".
   */
  datatype Key = Name | Course | Tenure | Description | QR

  datatype Pos = Pos(x: real, y: real)

  /** A bounding client rectangle. */
  datatype Rect = Rect(left: real, top: real, width: real, height: real)

  /** Where inside an overlay the finger first touched it. */
  datatype TouchAnchor = TouchAnchor(offsetX: real, offsetY: real)

  /** The position an overlay has before it is first moved. */
  const Start := Pos(50.0, 50.0)
  /** The distance one arrow key press moves an overlay. */
  const Step: real := 5.0
  /** The overlay size assumed when clamping a touch move. */
  const TouchBox: real := 50.0

  function Max(a: real, b: real): real { if a >= b then a else b }
  function Min(a: real, b: real): real { if a <= b then a else b }

  /** `Math.max(0, Math.min(v, hi))`: `v` kept inside `[0, hi]`, with 0 winning when the range is empty. */
  function Clamp(v: real, hi: real): (r: real)
    ensures 0.0 <= r
    ensures 0.0 <= hi ==> r <= hi
    ensures 0.0 <= v <= hi ==> r == v
    ensures v < 0.0 || hi < 0.0 ==> r == 0.0
    ensures 0.0 <= hi < v ==> r == hi
  {
    Max(0.0, Min(v, hi))
  }

  /**
   * The drop position of a drag ending at the pointer `(clientX, clientY)`:
   * never left of or above the preview, never sticking out of it when the
   * overlay fits, and exactly under the pointer whenever that is allowed.
   */
  function DragTarget(clientX: real, clientY: real, parent: Rect, elem: Rect): (r: Pos)
    ensures 0.0 <= r.x && 0.0 <= r.y
    ensures elem.width <= parent.width ==> r.x + elem.width <= parent.width
    ensures elem.height <= parent.height ==> r.y + elem.height <= parent.height
    ensures 0.0 <= clientX - parent.left <= parent.width - elem.width ==> r.x == clientX - parent.left
    ensures 0.0 <= clientY - parent.top <= parent.height - elem.height ==> r.y == clientY - parent.top
  {
    Pos(Clamp(clientX - parent.left, parent.width - elem.width),
        Clamp(clientY - parent.top, parent.height - elem.height))
  }

  /**
   * The effect of one key press on a position: `None` for a key that is not
   * an arrow. Up and Left move one step but not past the top or left edge;
   * Down and Right move one step with no limit.
   */
  function Nudge(p: Pos, key: string): (r: Option<Pos>)
    ensures r.None? <==> key !in {"ArrowUp", "ArrowDown", "ArrowLeft", "ArrowRight"}
    ensures key == "ArrowDown" ==> r == Some(Pos(p.x, p.y + Step))
    ensures key == "ArrowRight" ==> r == Some(Pos(p.x + Step, p.y))
    ensures key == "ArrowUp" ==> r.Some? && r.value.x == p.x
                                 && (p.y >= Step ==> r.value.y == p.y - Step)
                                 && (p.y < Step ==> r.value.y == 0.0)
    ensures key == "ArrowLeft" ==> r.Some? && r.value.y == p.y
                                   && (p.x >= Step ==> r.value.x == p.x - Step)
                                   && (p.x < Step ==> r.value.x == 0.0)
    ensures r.Some? && 0.0 <= p.x && 0.0 <= p.y ==> 0.0 <= r.value.x && 0.0 <= r.value.y
  {
    if key == "ArrowUp" then Some(Pos(p.x, Max(0.0, p.y - Step)))
    else if key == "ArrowDown" then Some(Pos(p.x, p.y + Step))
    else if key == "ArrowLeft" then Some(Pos(Max(0.0, p.x - Step), p.y))
    else if key == "ArrowRight" then Some(Pos(p.x + Step, p.y))
    else None
  }

  /** Down then Up puts an overlay back where it was. */
  lemma DownThenUp(p: Pos)
    requires 0.0 <= p.y
    ensures Nudge(Nudge(p, "ArrowDown").value, "ArrowUp") == Some(p)
  {
  }

  /** Right then Left puts an overlay back where it was. */
  lemma RightThenLeft(p: Pos)
    requires 0.0 <= p.x
    ensures Nudge(Nudge(p, "ArrowRight").value, "ArrowLeft") == Some(p)
  {
  }

  /** Up then Down is not an inverse at the top edge: the overlay ends one step lower. */
  lemma UpThenDownAtTopEdge(p: Pos)
    requires p.y == 0.0
    ensures Nudge(Nudge(p, "ArrowUp").value, "ArrowDown") == Some(Pos(p.x, Step))
  {
  }

  /** The position a key press starts from: the stored one, or `Start` before the first move. */
  function StoredOrStart(elements: map<Key, Pos>, k: Key): (r: Pos)
    ensures k in elements ==> r == elements[k]
    ensures k !in elements ==> r == Start
  {
    if k in elements then elements[k] else Start
  }

  /** Where the finger touches an overlay, relative to the overlay's corner. */
  function AnchorAt(touchX: real, touchY: real, elem: Rect): (r: TouchAnchor)
    ensures elem.left + r.offsetX == touchX && elem.top + r.offsetY == touchY
  {
    TouchAnchor(touchX - elem.left, touchY - elem.top)
  }

  /**
   * The position of an overlay while a finger drags it: the overlay's corner
   * follows the finger at the anchor's distance, kept inside the preview for
   * a `TouchBox`-sized overlay.
   */
  function TouchTarget(touchX: real, touchY: real, parent: Rect, anchor: TouchAnchor): (r: Pos)
    ensures 0.0 <= r.x && 0.0 <= r.y
    ensures TouchBox <= parent.width ==> r.x + TouchBox <= parent.width
    ensures TouchBox <= parent.height ==> r.y + TouchBox <= parent.height
    ensures 0.0 <= touchX - parent.left - anchor.offsetX <= parent.width - TouchBox ==>
              r.x == touchX - parent.left - anchor.offsetX
    ensures 0.0 <= touchY - parent.top - anchor.offsetY <= parent.height - TouchBox ==>
              r.y == touchY - parent.top - anchor.offsetY
  {
    Pos(Clamp(touchX - parent.left - anchor.offsetX, parent.width - TouchBox),
        Clamp(touchY - parent.top - anchor.offsetY, parent.height - TouchBox))
  }

  /**
   * An overlay drawn at `p` inside the preview, touched at one point and then
   * dragged by `(dx, dy)`, moves by exactly `(dx, dy)` as long as it stays in
   * range; with `dx == dy == 0` it does not jump when touched.
   */
  lemma TouchFollowsFinger(p: Pos, parent: Rect, elem: Rect, touchX: real, touchY: real, dx: real, dy: real)
    requires elem.left == parent.left + p.x && elem.top == parent.top + p.y
    requires 0.0 <= p.x + dx <= parent.width - TouchBox
    requires 0.0 <= p.y + dy <= parent.height - TouchBox
    ensures TouchTarget(touchX + dx, touchY + dy, parent, AnchorAt(touchX, touchY, elem)) == Pos(p.x + dx, p.y + dy)
  {
  }

  /** `v || 50`: a missing coordinate and a stored 0 both draw at 50. */
  function DisplayCoord(v: Option<real>): (r: real)
    ensures r != 0.0
    ensures v.Some? && v.value != 0.0 ==> r == v.value
    ensures v.None? || v.value == 0.0 ==> r == 50.0
  {
    if v.Some? && v.value != 0.0 then v.value else 50.0
  }

  /** The position at which an overlay is drawn. */
  function DisplayPosition(elements: map<Key, Pos>, k: Key): (r: Pos)
    ensures k !in elements ==> r == Start
    ensures r.x != 0.0 && r.y != 0.0
  {
    if k in elements then Pos(DisplayCoord(Some(elements[k].x)), DisplayCoord(Some(elements[k].y)))
    else Pos(DisplayCoord(None), DisplayCoord(None))
  }

  /** An overlay whose stored coordinates are both non-zero is drawn where it is stored. */
  lemma DisplayMatchesStore(elements: map<Key, Pos>, k: Key)
    requires k in elements && elements[k].x != 0.0 && elements[k].y != 0.0
    ensures DisplayPosition(elements, k) == elements[k]
  {
  }

  /**
   * An overlay dragged against the left edge is stored at x = 0 but drawn at
   * x = 50, whatever the preview's size.
   */
  lemma {:induction false} LeftEdgeDrawnAtFifty(elements: map<Key, Pos>, k: Key, clientX: real, clientY: real, parent: Rect, elem: Rect)
    requires clientX <= parent.left
    ensures DisplayPosition(elements[k := DragTarget(clientX, clientY, parent, elem)], k).x == 50.0
  {
    var p := DragTarget(clientX, clientY, parent, elem);
    assert p.x == 0.0;
  }

  /** The downloaded file's name: the candidate's name, or `certificate` when it is missing or empty, plus `.pdf`. */
  function ExportFileName(candidateName: Option<string>): (r: string)
    ensures |r| >= 4 && r[|r| - 4..] == ".pdf"
    ensures candidateName.Some? && candidateName.value != "" ==> r[..|r| - 4] == candidateName.value
    ensures candidateName.None? || candidateName.value == "" ==> r[..|r| - 4] == "certificate"
  {
    var stem := if candidateName.Some? && candidateName.value != "" then candidateName.value else "certificate";
    assert (stem + ".pdf")[..|stem|] == stem;
    stem + ".pdf"
  }

  /**
   * The overlays on screen: all five, in drawing order, once a non-empty
   * background image and the form data are both present; none otherwise.
   */
  function VisibleOverlays(bgImage: Option<string>, formData: Option<Types.CourseData>): (r: seq<Key>)
    ensures r != [] <==> bgImage.Some? && bgImage.value != "" && formData.Some?
    ensures r != [] ==> |r| == 5
    ensures forall i, j :: 0 <= i < j < |r| ==> r[i] != r[j]
  {
    if bgImage.Some? && bgImage.value != "" && formData.Some? then [Name, Course, Tenure, Description, QR] else []
  }

  /** When the overlays are shown, every one of the five is among them. */
  lemma {:induction false} VisibleOverlaysCoverAll(bgImage: Option<string>, formData: Option<Types.CourseData>, k: Key)
    requires bgImage.Some? && bgImage.value != "" && formData.Some?
    ensures k in VisibleOverlays(bgImage, formData)
  {
    var r := VisibleOverlays(bgImage, formData);
    match k
    case Name => assert r[0] == k;
    case Course => assert r[1] == k;
    case Tenure => assert r[2] == k;
    case Description => assert r[3] == k;
    case QR => assert r[4] == k;
  }

  /** The editor's layout state. */
  class Session {
    /** `elements`: the stored position of every overlay moved so far. */
    var elements: map<Key, Pos>
    /** `focusedElement`. */
    var focused: Option<Key>
    /** `touchRefs`: the anchor of the last touch on each overlay. */
    var touchAnchors: map<Key, TouchAnchor>

    /** No stored coordinate is negative. */
    ghost predicate Valid()
      reads this
    {
      forall k :: k in elements ==> 0.0 <= elements[k].x && 0.0 <= elements[k].y
    }

    constructor ()
      ensures elements == map[] && focused == None && touchAnchors == map[]
      ensures Valid()
    {
      elements := map[];
      focused := None;
      touchAnchors := map[];
    }

    /** `handleDrag`: a drop moves the overlay to its drop position; without a preview nothing changes. */
    method HandleDrag(k: Key, parent: Option<Rect>, elem: Rect, clientX: real, clientY: real)
      requires Valid()
      modifies this`elements
      ensures Valid()
      ensures parent.None? ==> elements == old(elements)
      ensures parent.Some? ==> elements == old(elements)[k := DragTarget(clientX, clientY, parent.value, elem)]
    {
      if parent.Some? {
        var p := DragTarget(clientX, clientY, parent.value, elem);
        elements := elements[k := p];
      }
    }

    /**
     * `handleKeyDown`: only the focused overlay reacts; an arrow key nudges
     * it from its stored position (or from `Start`), any other key changes nothing.
     */
    method HandleKeyDown(k: Key, key: string)
      requires Valid()
      modifies this`elements
      ensures Valid()
      ensures focused != Some(k) || Nudge(StoredOrStart(old(elements), k), key).None? ==>
                elements == old(elements)
      ensures focused == Some(k) && Nudge(StoredOrStart(old(elements), k), key).Some? ==>
                elements == old(elements)[k := Nudge(StoredOrStart(old(elements), k), key).value]
    {
      if focused != Some(k) {
        return;
      }
      var next := Nudge(StoredOrStart(elements, k), key);
      if next.Some? {
        elements := elements[k := next.value];
      }
    }

    /** `handleTouchStart`: with a preview present, remembers where the finger touched the overlay. */
    method HandleTouchStart(k: Key, touchX: real, touchY: real, parent: Option<Rect>, elem: Rect)
      modifies this`touchAnchors
      ensures parent.None? ==> touchAnchors == old(touchAnchors)
      ensures parent.Some? ==> touchAnchors == old(touchAnchors)[k := AnchorAt(touchX, touchY, elem)]
    {
      if parent.Some? {
        touchAnchors := touchAnchors[k := AnchorAt(touchX, touchY, elem)];
      }
    }

    /** `handleTouchMove`: with a preview and a recorded anchor, the overlay follows the finger. */
    method HandleTouchMove(k: Key, touchX: real, touchY: real, parent: Option<Rect>)
      requires Valid()
      modifies this`elements
      ensures Valid()
      ensures parent.None? || k !in touchAnchors ==> elements == old(elements)
      ensures parent.Some? && k in touchAnchors ==>
                elements == old(elements)[k := TouchTarget(touchX, touchY, parent.value, touchAnchors[k])]
    {
      if parent.Some? && k in touchAnchors {
        var p := TouchTarget(touchX, touchY, parent.value, touchAnchors[k]);
        elements := elements[k := p];
      }
    }

    /** `onFocus`: the overlay becomes the focused one. */
    method HandleFocus(k: Key)
      modifies this`focused
      ensures focused == Some(k)
    {
      focused := Some(k);
    }

    /** `onBlur`: focus is cleared, whichever overlay held it. */
    method HandleBlur(k: Key)
      modifies this`focused
      ensures focused == None
    {
      focused := None;
    }
  }
}
