// The layout canvas (src/App.tsx): the registry of placed elements, the
// one-slot drag session and the grid snap that positions a dragged element.

module App {
  import opened Shared
  import opened Barcode

  // ---------------------------------------------------------------------------
  // Elements

  /** The kinds the format picker offers: every symbology, a QR code, or text. */
  datatype ElementType = BarcodeOf(format: BarcodeType) | QrCode | Text

  /** A key handed out by the unique-id counter (the "id" prefix is not modelled). */
  type Key = nat

  /** `DrawingElement`: one variant per kind, each with the data it is drawn from and its key. */
  datatype DrawingElement =
    | QrElement(data: string, key: Key, scale: int)
    | TextElement(data: string, height: int, key: Key)
    | BarcodeElement(format: BarcodeType, data: string, key: Key, moduleWidth: int, height: int)

  function TypeOf(e: DrawingElement): ElementType
  {
    match e
    case QrElement(_, _, _) => QrCode
    case TextElement(_, _, _) => Text
    case BarcodeElement(format, _, _, _, _) => BarcodeOf(format)
  }

  /**
   * The element `addElement` appends for the picked kind: it is of that kind
   * and carries the key and the data; a QR code takes the module width as its
   * scale, text takes the height, a barcode takes both.
   */
  function NewElement(kind: ElementType, key: Key, data: string, height: int, moduleWidth: int): (e: DrawingElement)
    ensures TypeOf(e) == kind && e.key == key && e.data == data
    ensures e.QrElement? ==> e.scale == moduleWidth
    ensures e.TextElement? ==> e.height == height
    ensures e.BarcodeElement? ==> e.height == height && e.moduleWidth == moduleWidth
  {
    match kind
    case Text => TextElement(data, height, key)
    case QrCode => QrElement(data, key, moduleWidth)
    case BarcodeOf(format) => BarcodeElement(format, data, key, moduleWidth, height)
  }

  // ---------------------------------------------------------------------------
  // The element list

  /** Keys grow strictly along the list; in particular no key occurs twice. */
  ghost predicate KeysIncreasing(s: seq<DrawingElement>)
  {
    forall i, j :: 0 <= i < j < |s| ==> s[i].key < s[j].key
  }

  /** `r` is `s` with some elements left out and the rest in their order. */
  ghost predicate IsSubsequence(r: seq<DrawingElement>, s: seq<DrawingElement>)
    decreases |s|
  {
    if r == [] then true
    else if s == [] then false
    else if r[0] == s[0] then IsSubsequence(r[1..], s[1..])
    else IsSubsequence(r, s[1..])
  }

  /**
   * The delete button's filter: every element with the key goes, the others
   * stay in their order, and a key that is not present changes nothing.
   */
  function WithoutKey(s: seq<DrawingElement>, key: Key): (r: seq<DrawingElement>)
    ensures forall e :: e in r <==> e in s && e.key != key
    ensures IsSubsequence(r, s)
    ensures (forall e :: e in s ==> e.key != key) ==> r == s
  {
    if s == [] then []
    else if s[0].key != key then [s[0]] + WithoutKey(s[1..], key)
    else WithoutKey(s[1..], key)
  }

  /** A subsequence of a list with increasing keys has increasing keys. */
  lemma {:induction false} SubsequenceKeepsKeysIncreasing(r: seq<DrawingElement>, s: seq<DrawingElement>)
    requires IsSubsequence(r, s) && KeysIncreasing(s)
    ensures KeysIncreasing(r)
    ensures forall e :: e in r ==> e in s
    decreases |s|
  {
    if r != [] {
      assert s != [];
      assert KeysIncreasing(s[1..]);
      if r[0] == s[0] {
        SubsequenceKeepsKeysIncreasing(r[1..], s[1..]);
        forall i, j | 0 <= i < j < |r| ensures r[i].key < r[j].key {
          assert r[j] == r[1..][j - 1];
          if i > 0 {
            assert r[i] == r[1..][i - 1];
          } else {
            assert r[j] in s[1..];
            var m :| 0 <= m < |s[1..]| && s[1..][m] == r[j];
            assert r[j] == s[m + 1];
          }
        }
        forall e | e in r ensures e in s {
          if e != r[0] {
            assert e in r[1..];
          }
        }
      } else {
        SubsequenceKeepsKeysIncreasing(r, s[1..]);
      }
    }
  }

  /** With distinct keys, deleting a key that is present removes exactly one element. */
  lemma {:induction false} DeletePresentKeyRemovesOne(s: seq<DrawingElement>, key: Key)
    requires KeysIncreasing(s)
    requires exists e :: e in s && e.key == key
    ensures |WithoutKey(s, key)| == |s| - 1
  {
    assert s != [];
    assert KeysIncreasing(s[1..]);
    if s[0].key == key {
      forall e | e in s[1..] ensures e.key != key {
        var j :| 0 <= j < |s[1..]| && s[1..][j] == e;
        assert e == s[j + 1];
      }
    } else {
      var e :| e in s && e.key == key;
      assert e in s[1..];
      DeletePresentKeyRemovesOne(s[1..], key);
    }
  }

  // ---------------------------------------------------------------------------
  // Grid snap

  /** Euclidean division facts the snap proofs rest on. */
  lemma MultipleIsDivisible(q: int, g: int)
    requires g >= 1
    ensures (q * g) % g == 0 && (q * g) / g == q
  {
    var d, m := (q * g) / g, (q * g) % g;
    assert q * g == g * d + m && 0 <= m < g;
    assert g * (q - d) == m;
    MulBounds(g, q - d);
  }

  /** A non-zero multiple of `g` is at least `g` away from zero. */
  lemma MulBounds(g: int, k: int)
    requires g >= 1
    ensures k >= 1 ==> g * k >= g
    ensures k <= -1 ==> g * k <= -g
    decreases if k >= 0 then k else -k
  {
    if k > 1 {
      MulBounds(g, k - 1);
      assert g * k == g * (k - 1) + g;
    } else if k < -1 {
      MulBounds(g, k + 1);
      assert g * k == g * (k + 1) - g;
    }
  }

  /**
   * `Math.round(v / g) * g` for integers: JavaScript rounds halves towards
   * positive infinity, so this is the multiple of `g` nearest to `v`, ties
   * going up.
   */
  function Snap(v: int, g: int): (s: int)
    requires g >= 1
    ensures s % g == 0
    ensures -g < 2 * (s - v) <= g
  {
    var q := (2 * v + g) / (2 * g);
    assert 2 * v + g == (2 * g) * q + (2 * v + g) % (2 * g);
    MultipleIsDivisible(q, g);
    q * g
  }

  /** The window `-g < 2 * (s - v) <= g` holds one multiple of `g`: Snap is the nearest multiple. */
  lemma SnapIsNearestMultiple(v: int, g: int, m: int)
    requires g >= 1 && m % g == 0 && -g < 2 * (m - v) <= g
    ensures Snap(v, g) == m
  {
    var s := Snap(v, g);
    var a, b := m / g, s / g;
    assert m == g * a && s == g * b;
    assert -g < g * (a - b) < g;
    OnlyZeroTimesIsInsideOneCell(g, a - b);
  }

  /** The only multiple of `g` strictly between `-g` and `g` is zero. */
  lemma OnlyZeroTimesIsInsideOneCell(g: int, k: int)
    requires g >= 1 && -g < g * k < g
    ensures k == 0
  {
  }


  /** A coordinate already on the grid stays put, so snapping twice is snapping once. */
  lemma SnapIsIdempotent(v: int, g: int)
    requires g >= 1
    ensures v % g == 0 ==> Snap(v, g) == v
    ensures Snap(Snap(v, g), g) == Snap(v, g)
  {
    if v % g == 0 {
      SnapIsNearestMultiple(v, g, v);
    }
    SnapIsNearestMultiple(Snap(v, g), g, Snap(v, g));
  }

  /** Moving the raw coordinate by whole cells moves the snapped one by the same cells. */
  lemma SnapShiftsByWholeCells(v: int, g: int, k: int)
    requires g >= 1
    ensures Snap(v + k * g, g) == Snap(v, g) + k * g
  {
    var s := Snap(v, g);
    var b := s / g;
    assert s == g * b;
    assert s + k * g == (b + k) * g;
    MultipleIsDivisible(b + k, g);
    SnapIsNearestMultiple(v + k * g, g, s + k * g);
  }

  /** `Math.round` takes halves towards positive infinity, on both sides of zero. */
  lemma SnapRoundsHalvesUp()
    ensures Snap(5, 10) == 10 && Snap(-5, 10) == 0 && Snap(-15, 10) == -10
  {
    SnapIsNearestMultiple(5, 10, 10);
    SnapIsNearestMultiple(-5, 10, 0);
    SnapIsNearestMultiple(-15, 10, -10);
  }

  function SnapPoint(p: Point, g: int): Point
    requires g >= 1
  {
    Point(Snap(p.x, g), Snap(p.y, g))
  }

  // ---------------------------------------------------------------------------
  // Where a drag puts the element

  /**
   * The raw position `handleMouseMove` computes, as written: the pointer's
   * page position, less the canvas's viewport bounds minus the scroll, less
   * the grab offset.
   */
  function MoveTarget(page: Point, canvasBounds: Point, scroll: Point, offset: Point): (p: Point)
    ensures Add(Add(Sub(canvasBounds, scroll), offset), p) == page
  {
    Point(page.x - (canvasBounds.x - scroll.x) - offset.x, page.y - (canvasBounds.y - scroll.y) - offset.y)
  }

  /**
   * The raw position with the canvas's page position taken as its viewport
   * bounds plus the scroll, the convention the grab offset uses.
   */
  function IntendedMoveTarget(page: Point, canvasBounds: Point, scroll: Point, offset: Point): (p: Point)
    ensures Add(Add(Add(canvasBounds, scroll), offset), p) == page
  {
    Sub(Sub(page, Add(canvasBounds, scroll)), offset)
  }

  /**
   * With the intended convention, a drag moves an element that sits on the
   * grid by the snapped pointer delta, whatever the grab point and scroll.
   */
  lemma IntendedDragMovesBySnappedDelta(p0: Point, bounds: Point, canvas: Point, scroll: Point, p1: Point, g: int)
    requires g >= 1
    requires (bounds.x - canvas.x) % g == 0 && (bounds.y - canvas.y) % g == 0
    ensures SnapPoint(IntendedMoveTarget(p1, canvas, scroll, GrabOffset(p0, bounds, scroll)), g)
         == Add(Sub(bounds, canvas), SnapPoint(Sub(p1, p0), g))
  {
    var rel := Sub(bounds, canvas);
    var kx, ky := rel.x / g, rel.y / g;
    assert rel.x == kx * g && rel.y == ky * g;
    SnapShiftsByWholeCells(p1.x - p0.x, g, kx);
    SnapShiftsByWholeCells(p1.y - p0.y, g, ky);
  }

  /**
   * As written, the same holds while the page is not scrolled: the
   * element moves by the snapped pointer delta.
   */
  lemma UnscrolledDragMovesBySnappedDelta(p0: Point, bounds: Point, canvas: Point, p1: Point, g: int)
    requires g >= 1
    requires (bounds.x - canvas.x) % g == 0 && (bounds.y - canvas.y) % g == 0
    ensures SnapPoint(MoveTarget(p1, canvas, Point(0, 0), GrabOffset(p0, bounds, Point(0, 0))), g)
         == Add(Sub(bounds, canvas), SnapPoint(Sub(p1, p0), g))
  {
    IntendedDragMovesBySnappedDelta(p0, bounds, canvas, Point(0, 0), p1, g);
  }

  /** As written, the raw position is off from the intended one by twice the scroll. */
  lemma MoveTargetIsOffByTwiceTheScroll(page: Point, canvas: Point, scroll: Point, offset: Point)
    ensures MoveTarget(page, canvas, scroll, offset)
         == Add(IntendedMoveTarget(page, canvas, scroll, offset), Point(2 * scroll.x, 2 * scroll.y))
  {
  }

  /**
   * As written, for any scroll, a move event at the grab position moves an
   * on-grid element by twice the scroll snapped to the grid: nothing for a
   * small scroll, a jump once twice the scroll reaches half a cell.
   */
  lemma ScrolledGrabMovesBySnappedDoubleScroll(p0: Point, bounds: Point, canvas: Point, scroll: Point, g: int)
    requires g >= 1
    requires (bounds.x - canvas.x) % g == 0 && (bounds.y - canvas.y) % g == 0
    ensures SnapPoint(MoveTarget(p0, canvas, scroll, GrabOffset(p0, bounds, scroll)), g)
         == Add(Sub(bounds, canvas), SnapPoint(Point(2 * scroll.x, 2 * scroll.y), g))
  {
    var rel := Sub(bounds, canvas);
    var kx, ky := rel.x / g, rel.y / g;
    assert kx * g == rel.x && ky * g == rel.y;
    SnapShiftsByWholeCells(2 * scroll.x, g, kx);
    SnapShiftsByWholeCells(2 * scroll.y, g, ky);
    assert MoveTarget(p0, canvas, scroll, GrabOffset(p0, bounds, scroll)) == Point(2 * scroll.x + kx * g, 2 * scroll.y + ky * g);
  }

  /**
   * The counterexample family: with the page scrolled by `scroll`, and twice
   * the scroll a whole number of grid cells, an element that sits on the grid
   * and receives a move event at the grab position jumps by twice the scroll,
   * where the intended transform leaves it where it is. (For other scrolls it
   * moves by the snapped double scroll, see
   * `ScrolledGrabMovesBySnappedDoubleScroll`.) A move 1 px from the grab position snaps to the same cell: text at
   * viewport (30, 40) on a canvas at (0, 0), page scrolled down by 5, grid 10,
   * grabbed at page (35, 50) and moved to (35, 51), lands at top 50 instead
   * of 40.
   */
  lemma ScrolledGrabJumps(p0: Point, bounds: Point, canvas: Point, scroll: Point, g: int)
    requires g >= 1
    requires (bounds.x - canvas.x) % g == 0 && (bounds.y - canvas.y) % g == 0
    requires (2 * scroll.x) % g == 0 && (2 * scroll.y) % g == 0
    ensures SnapPoint(MoveTarget(p0, canvas, scroll, GrabOffset(p0, bounds, scroll)), g)
         == Add(Sub(bounds, canvas), Point(2 * scroll.x, 2 * scroll.y))
    ensures SnapPoint(IntendedMoveTarget(p0, canvas, scroll, GrabOffset(p0, bounds, scroll)), g)
         == Sub(bounds, canvas)
  {
    var rel := Sub(bounds, canvas);
    SnapIsIdempotent(rel.x, g);
    SnapIsIdempotent(rel.y, g);
    var kx, ky := (2 * scroll.x) / g, (2 * scroll.y) / g;
    assert kx * g == 2 * scroll.x && ky * g == 2 * scroll.y;
    SnapShiftsByWholeCells(rel.x, g, kx);
    SnapShiftsByWholeCells(rel.y, g, ky);
    assert MoveTarget(p0, canvas, scroll, GrabOffset(p0, bounds, scroll)) == Point(rel.x + kx * g, rel.y + ky * g);
    assert IntendedMoveTarget(p0, canvas, scroll, GrabOffset(p0, bounds, scroll)) == rel;
  }



  // ---------------------------------------------------------------------------
  // The App component's state

  class AppState {
    /** The `dragging` ref: the drag session, if one is active. */
    var dragging: Option<ElementClickData>
    /** The snap grid's cell size, set by a range input from 1 to 50. */
    var gridSize: int
    /** The placed elements, in the order they were added. */
    var elements: seq<DrawingElement>
    /** The unique-id counter: the last key handed out. */
    var idCounter: nat

    ghost predicate Valid()
      reads this
    {
      && 1 <= gridSize <= 50
      && KeysIncreasing(elements)
      && forall e :: e in elements ==> 1 <= e.key <= idCounter
    }

    constructor ()
      ensures Valid()
      ensures dragging == None && gridSize == 10 && elements == [] && idCounter == 0
    {
      dragging := None;
      gridSize := 10;
      elements := [];
      idCounter := 0;
    }

    /** The snap grid slider. */
    method SetGridSize(size: int)
      requires Valid() && 1 <= size <= 50
      modifies this`gridSize
      ensures Valid() && gridSize == size
    {
      gridSize := size;
    }

    /**
     * `addElement`: draws a fresh key, larger than every key handed out
     * before, and appends one element of the picked kind; the elements
     * already there are unchanged.
     */
    method AddElement(kind: ElementType, data: string, height: int, moduleWidth: int)
      requires Valid()
      modifies this`elements, this`idCounter
      ensures Valid()
      ensures idCounter == old(idCounter) + 1
      ensures elements == old(elements) + [NewElement(kind, idCounter, data, height, moduleWidth)]
      ensures forall e :: e in old(elements) ==> e.key < idCounter
    {
      idCounter := idCounter + 1;
      var key := idCounter;
      elements := elements + [NewElement(kind, key, data, height, moduleWidth)];
    }

    /** The delete button of the element with `key`. */
    method DeleteElement(key: Key)
      requires Valid()
      modifies this`elements
      ensures Valid()
      ensures elements == WithoutKey(old(elements), key)
      ensures forall e :: e in elements ==> e.key != key
    {
      var kept := WithoutKey(elements, key);
      SubsequenceKeepsKeysIncreasing(kept, elements);
      elements := kept;
    }

    /** `handleMouseDown` of a text element: starts a session with the grab offset. */
    method HandleMouseDown(target: Element, page: Point, bounds: Point, scroll: Point)
      requires Valid()
      modifies this`dragging
      ensures Valid()
      ensures dragging == Some(ElementClickData(target, GrabOffset(page, bounds, scroll)))
      ensures Add(Add(bounds, scroll), dragging.value.offset) == page
    {
      dragging := Some(ElementClickData(target, Point(page.x - (bounds.x + scroll.x), page.y - (bounds.y + scroll.y))));
    }

    /** The callback a QR code or barcode reports its pointer-down to: it becomes the session. */
    method StartDrag(click: ElementClickData)
      requires Valid()
      modifies this`dragging
      ensures Valid()
      ensures dragging == Some(click)
    {
      dragging := Some(click);
    }

    /** The window's mouse-up listener: the session ends wherever the pointer is. */
    method HandleMouseUp()
      requires Valid()
      modifies this`dragging
      ensures Valid()
      ensures dragging == None
    {
      dragging := None;
    }

    /**
     * `handleMouseMove` on the canvas: without a session nothing changes;
     * with one, only the dragged element's position is written, snapped to
     * the grid.
     */
    method HandleMouseMove(page: Point, canvasBounds: Point, scroll: Point)
      requires Valid()
      modifies if dragging.Some? then {dragging.value.element} else {}
      ensures dragging.Some? ==>
                var p := SnapPoint(MoveTarget(page, canvasBounds, scroll, dragging.value.offset), gridSize);
                dragging.value.element.left == p.x && dragging.value.element.top == p.y
    {
      if dragging.None? {
        return;
      }
      var dragInfo := dragging.value;
      var x := page.x - (canvasBounds.x - scroll.x) - dragInfo.offset.x;
      var y := page.y - (canvasBounds.y - scroll.y) - dragInfo.offset.y;
      dragInfo.element.left := Snap(x, gridSize);
      dragInfo.element.top := Snap(y, gridSize);
    }
  }

  // ---------------------------------------------------------------------------
  // Event sequences

  /**
   * Grab a text element and move the pointer, the page unscrolled: an
   * element that sat on the grid moves by the snapped pointer delta.
   */
  method GrabAndMove(app: AppState, el: Element, p0: Point, bounds: Point, canvas: Point, p1: Point)
    requires app.Valid()
    requires (bounds.x - canvas.x) % app.gridSize == 0 && (bounds.y - canvas.y) % app.gridSize == 0
    modifies app`dragging, el
    ensures app.dragging.Some? && app.dragging.value.element == el
    ensures Point(el.left, el.top) == Add(Sub(bounds, canvas), SnapPoint(Sub(p1, p0), app.gridSize))
  {
    app.HandleMouseDown(el, p0, bounds, Point(0, 0));
    app.HandleMouseMove(p1, canvas, Point(0, 0));
    UnscrolledDragMovesBySnappedDelta(p0, bounds, canvas, p1, app.gridSize);
  }

  /** After a mouse-up, a mouse-move moves nothing until the next mouse-down. */
  method ReleaseAndMove(app: AppState, el: Element, page: Point, canvas: Point, scroll: Point)
    requires app.Valid()
    modifies app`dragging
    ensures app.dragging == None
    ensures el.left == old(el.left) && el.top == old(el.top)
  {
    app.HandleMouseUp();
    app.HandleMouseMove(page, canvas, scroll);
  }
}
