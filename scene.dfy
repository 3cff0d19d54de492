/**
 * The scene: the catalog of earring types, the placed items in z-order (the
 * last one is drawn on top) and the selection index, with the hit test that
 * finds the topmost item under a point.
 */
module SceneModel {
  import opened Transform

  /** A catalog entry. `scalableLength` says whether length varies independently of size. */
  datatype JewelryType = JewelryType(name: string, url: string, scalableLength: bool)

  const CatalogSize: nat := 39

  /** The decimal digits of n, padded to two with a leading '0' (padStart(2, '0')). */
  function TwoDigits(n: nat): (s: string)
    requires n < 100
    ensures |s| == 2 && '0' <= s[0] <= '9' && '0' <= s[1] <= '9'
    ensures (s[0] as int - '0' as int) * 10 + (s[1] as int - '0' as int) == n
  {
    [('0' as int + n / 10) as char, ('0' as int + n % 10) as char]
  }

  /** The catalog entry numbered num: earring_NN, drawn from img/earring_NN.png. */
  function Entry(num: nat): JewelryType
    requires num < 100
  {
    var name := "earring_" + TwoDigits(num);
    JewelryType(name, "img/" + name + ".png", false)
  }

  /** The 39 earring types, numbered from 1. None of them sets scalableLength. */
  function Catalog(): (c: seq<JewelryType>)
    ensures |c| == CatalogSize
    ensures forall t :: t in c ==> !t.scalableLength
  {
    seq(CatalogSize, i requires 0 <= i < CatalogSize => Entry(i + 1))
  }

  /** Distinct catalog entries have distinct names, so each has its own image-cache slot. */
  lemma CatalogNamesDistinct(i: nat, j: nat)
    requires i < j < CatalogSize
    ensures Catalog()[i].name != Catalog()[j].name
  {
    var a, b := TwoDigits(i + 1), TwoDigits(j + 1);
    assert Catalog()[i].name[8..] == a;
    assert Catalog()[j].name[8..] == b;
  }

  /** A placed earring: position in image space, size, length and rotation in degrees. */
  datatype Jewelry = Jewelry(kind: JewelryType, x: real, y: real, size: int, length: int, rotation: int)
  {
    function Position(): Point { Point(x, y) }

    /** The diameter of the hit circle; a zero length is falsy and falls back to size. */
    function HitSize(): (d: int)
      ensures length == 0 ==> d == size
      ensures length != 0 ==> d >= size && d >= length && (d == size || d == length)
    {
      if length != 0 then if size >= length then size else length else size
    }
  }

  /**
   * The hit test of one item: the distance from (px, py) to the item's
   * position is less than half its hit size. Written without a square root.
   */
  predicate Contains(j: Jewelry, px: real, py: real): (hit: bool)
    ensures hit ==> j.HitSize() > 0
    ensures j.Position() == Point(px, py) ==> (hit <==> j.HitSize() > 0)
  {
    var dx := px - j.x;
    var dy := py - j.y;
    var radius := j.HitSize() as real / 2.0;
    if 0.0 < radius then PositiveProduct(radius, radius); dx * dx + dy * dy < radius * radius
    else false
  }

  /** Contains agrees with `distance < radius` for the true (non-negative) distance. */
  lemma ContainsIsDistanceTest(j: Jewelry, px: real, py: real, distance: real)
    requires distance >= 0.0
    requires distance * distance == (px - j.x) * (px - j.x) + (py - j.y) * (py - j.y)
    ensures Contains(j, px, py) <==> distance < j.HitSize() as real / 2.0
  {
    var radius := j.HitSize() as real / 2.0;
    var squared := (px - j.x) * (px - j.x) + (py - j.y) * (py - j.y);
    assert Contains(j, px, py) <==> 0.0 < radius && squared < radius * radius;
    if distance < radius {
      SquaresOrdered(distance, radius);
    }
    if 0.0 < radius <= distance {
      if radius < distance {
        SquaresOrdered(radius, distance);
      }
    }
  }

  /** On non-negative reals, squaring keeps strict order. */
  lemma SquaresOrdered(a: real, b: real)
    requires 0.0 <= a < b
    ensures a * a < b * b
  {
    PositiveProduct(b - a, b + a);
    assert b * b - a * a == (b - a) * (b + a);
  }

  lemma PositiveProduct(a: real, b: real)
    requires a > 0.0 && b > 0.0
    ensures a * b > 0.0
  {
  }

  /**
   * r is the answer of getJewelryAtPosition: either -1 or an index of an item
   * that contains the point, and no item above r contains it (for -1: none does).
   */
  predicate IsTopmostHit(items: seq<Jewelry>, px: real, py: real, r: int) {
    -1 <= r < |items| &&
    (r != -1 ==> Contains(items[r], px, py)) &&
    forall k :: r < k < |items| ==> !Contains(items[k], px, py)
  }

  /**
   * The topmost item containing the point, scanning from the last item down;
   * -1 if none. The functional specification of the hit test, used by the
   * handlers' contracts; App.Editor.GetJewelryAtPosition is the loop itself.
   */
  function Topmost(items: seq<Jewelry>, px: real, py: real): (r: int)
    ensures -1 <= r < |items|
  {
    if |items| == 0 then -1
    else if Contains(items[|items| - 1], px, py) then |items| - 1
    else Topmost(items[..|items| - 1], px, py)
  }

  lemma {:induction false} TopmostCorrect(items: seq<Jewelry>, px: real, py: real)
    ensures IsTopmostHit(items, px, py, Topmost(items, px, py))
  {
    if |items| != 0 && !Contains(items[|items| - 1], px, py) {
      var prefix := items[..|items| - 1];
      TopmostCorrect(prefix, px, py);
      assert forall k :: 0 <= k < |prefix| ==> prefix[k] == items[k];
    }
  }

  /** IsTopmostHit has exactly one solution, Topmost. */
  lemma TopmostUnique(items: seq<Jewelry>, px: real, py: real, r: int)
    ensures IsTopmostHit(items, px, py, r) <==> r == Topmost(items, px, py)
  {
    TopmostCorrect(items, px, py);
  }

  /** Of two items that both contain the point, the later (higher) one wins. */
  lemma TopmostPrefersLater(items: seq<Jewelry>, px: real, py: real, i: int, j: int)
    requires 0 <= i < j < |items|
    requires Contains(items[i], px, py) && Contains(items[j], px, py)
    ensures Topmost(items, px, py) >= j
  {
    TopmostCorrect(items, px, py);
  }

  /** The placed items and selectedJewelryIndex (-1 for none). */
  datatype Scene = Scene(items: seq<Jewelry>, selected: int)
  {
    /** The selection invariant: no selection, or a valid index. */
    predicate Valid() { selected == -1 || 0 <= selected < |items| }
  }

  /**
   * placeNewJewelry: append an item of the given kind at (x, y) with rotation
   * 0, the size slider's value as size and, unless the kind has scalableLength,
   * the size as length too; then select it.
   */
  function Place(s: Scene, kind: JewelryType, x: real, y: real, sizeValue: int, lengthValue: int): (r: Scene)
    ensures r.Valid()
    ensures |r.items| == |s.items| + 1 && r.items[..|s.items|] == s.items
    ensures r.selected == |s.items|
    ensures var j := r.items[|s.items|];
      j.kind == kind && j.Position() == Point(x, y) && j.rotation == 0 && j.size == sizeValue &&
      (kind.scalableLength ==> j.length == lengthValue) &&
      (!kind.scalableLength ==> j.length == j.size)
  {
    var length := if kind.scalableLength then lengthValue else sizeValue;
    var items := s.items + [Jewelry(kind, x, y, sizeValue, length, 0)];
    Scene(items, |items| - 1)
  }

  /** A freshly placed item of positive size is what the hit test finds at its own position. */
  lemma PlacedItemIsHit(s: Scene, kind: JewelryType, x: real, y: real, sizeValue: int, lengthValue: int)
    requires sizeValue > 0 && (kind.scalableLength ==> lengthValue >= 0)
    ensures Topmost(Place(s, kind, x, y, sizeValue, lengthValue).items, x, y) == |s.items|
  {
    var r := Place(s, kind, x, y, sizeValue, lengthValue);
    var j := r.items[|s.items|];
    assert j.HitSize() >= sizeValue;
    assert Contains(j, x, y);
  }

  /**
   * deleteSelectedJewelry: with a selection, remove exactly that item (the
   * later ones shift down one place) and deselect; without one, do nothing.
   */
  function DeleteSelected(s: Scene): (r: Scene)
    requires s.Valid()
    ensures r.Valid()
    ensures s.selected == -1 ==> r == s
    ensures s.selected != -1 ==>
      r.selected == -1 && |r.items| == |s.items| - 1 &&
      (forall k :: 0 <= k < s.selected ==> r.items[k] == s.items[k]) &&
      (forall k :: s.selected <= k < |r.items| ==> r.items[k] == s.items[k + 1])
  {
    if s.selected == -1 then s
    else Scene(s.items[..s.selected] + s.items[s.selected + 1..], -1)
  }

  /** The three fields the sliders write. */
  datatype Field = Size | Length | Rotation

  function Get(j: Jewelry, f: Field): int {
    match f
    case Size => j.size
    case Length => j.length
    case Rotation => j.rotation
  }

  function With(j: Jewelry, f: Field, v: int): Jewelry {
    match f
    case Size => j.(size := v)
    case Length => j.(length := v)
    case Rotation => j.(rotation := v)
  }

  /**
   * The size, length and rotation handlers: write v into field f of the
   * selected item, leaving everything else as it was; no-op without a
   * selection. A size write does not touch length.
   */
  function SetField(s: Scene, f: Field, v: int): (r: Scene)
    requires s.Valid()
    ensures r.Valid() && r.selected == s.selected && |r.items| == |s.items|
    ensures forall k :: 0 <= k < |s.items| && k != s.selected ==> r.items[k] == s.items[k]
    ensures s.selected != -1 ==>
      var (was, now) := (s.items[s.selected], r.items[s.selected]);
      Get(now, f) == v && now.kind == was.kind && now.Position() == was.Position() &&
      forall g :: g != f ==> Get(now, g) == Get(was, g)
  {
    if s.selected == -1 then s
    else Scene(s.items[s.selected := With(s.items[s.selected], f, v)], s.selected)
  }

  /**
   * A size write leaves length behind: an item placed with length == size
   * and then shrunk keeps its old size as hit diameter, so the hit circle is
   * larger than the item drawn at the new size.
   */
  lemma ShrunkItemKeepsHitSize(s: Scene, v: int)
    requires s.Valid() && s.selected != -1
    requires s.items[s.selected].length == s.items[s.selected].size && 0 < v < s.items[s.selected].size
    ensures var now := SetField(s, Size, v).items[s.selected];
      now.size == v && now.HitSize() == s.items[s.selected].size
  {
    var was := s.items[s.selected];
    var now := SetField(s, Size, v).items[s.selected];
    assert Get(now, Length) == Get(was, Length);
  }

  /** Dragging: move the selected item by (dx, dy) image units; no-op without a selection. */
  function MoveSelected(s: Scene, dx: real, dy: real): (r: Scene)
    requires s.Valid()
    ensures r.Valid() && r.selected == s.selected && |r.items| == |s.items|
    ensures forall k :: 0 <= k < |s.items| && k != s.selected ==> r.items[k] == s.items[k]
    ensures s.selected != -1 ==>
      var (was, now) := (s.items[s.selected], r.items[s.selected]);
      now.kind == was.kind && now.size == was.size && now.length == was.length &&
      now.rotation == was.rotation && now.x - was.x == dx && now.y - was.y == dy
  {
    if s.selected == -1 then s
    else
      var j := s.items[s.selected];
      Scene(s.items[s.selected := j.(x := j.x + dx, y := j.y + dy)], s.selected)
  }

  /**
   * A drag of (dx, dy) canvas pixels, divided by the scale as the move
   * handler does, moves the selected item's canvas position by exactly (dx, dy).
   */
  lemma DragFollowsPointer(s: Scene, v: View, dx: real, dy: real)
    requires s.Valid() && s.selected != -1 && v.scale != 0.0
    ensures var (was, now) := (s.items[s.selected], MoveSelected(s, dx / v.scale, dy / v.scale).items[s.selected]);
      ToCanvas(v, now.Position()) == Point(ToCanvas(v, was.Position()).x + dx, ToCanvas(v, was.Position()).y + dy)
  {
    var was := s.items[s.selected];
    var now := MoveSelected(s, dx / v.scale, dy / v.scale).items[s.selected];
    assert now.x == was.x + dx / v.scale && now.y == was.y + dy / v.scale;
    ShiftScaled(was.x, dx, v.scale, v.offsetX);
    ShiftScaled(was.y, dy, v.scale, v.offsetY);
    assert ToCanvas(v, now.Position()).x == ToCanvas(v, was.Position()).x + dx;
    assert ToCanvas(v, now.Position()).y == ToCanvas(v, was.Position()).y + dy;
  }

  /** One coordinate of DragFollowsPointer. */
  lemma ShiftScaled(a: real, d: real, k: real, offset: real)
    requires k != 0.0
    ensures (a + d / k) * k + offset == (a * k + offset) + d
  {
    DivCancel(d, k);
    assert (a + d / k) * k == a * k + (d / k) * k;
  }
}
