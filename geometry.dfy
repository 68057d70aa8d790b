/**
 * Stimulus geometry of the object-based cueing experiment: the eight named
 * screen locations around the screen centre, the two placeholder boxes, the
 * two-list selector `which_list` and the choice of the target's corner.
 *
 * Screen coordinates are integers (pixels); every distance is compared
 * squared, so that circle containment needs no square root.
 */
module Geometry {
  import opened Wrappers

  datatype Point = Point(x: int, y: int)

  /** Squared Euclidean distance between two screen points. */
  function DistSq(p: Point, q: Point): (d: int)
    ensures d >= 0
    ensures d == 0 <==> p == q
  {
    (p.x - q.x) * (p.x - q.x) + (p.y - q.y) * (p.y - q.y)
  }

  /**
   * Whether `p` lies in the circle of the given radius around `center`: the
   * test `line_segment_len(p, center) <= radius`, squared. The boundary
   * itself counts as inside.
   */
  predicate WithinCircle(center: Point, radius: nat, p: Point)
  {
    DistSq(p, center) <= radius * radius
  }

  /** The eight named stimulus locations. */
  datatype Place =
    | Left | Right | Top | Bottom
    | TopLeft | TopRight | BottomLeft | BottomRight

  /** The four corners, which are the possible cue and target locations. */
  type Corner = p: Place | p.TopLeft? || p.TopRight? || p.BottomLeft? || p.BottomRight?
    witness TopLeft

  datatype Alignment = Horizontal | Vertical

  /** Column of a place relative to the centre: -1 left, 0 centre, 1 right. */
  function Column(p: Place): int
  {
    match p
    case Left | TopLeft | BottomLeft => -1
    case Top | Bottom => 0
    case Right | TopRight | BottomRight => 1
  }

  /** Row of a place relative to the centre: -1 top, 0 centre, 1 bottom. */
  function Row(p: Place): int
  {
    match p
    case Top | TopLeft | TopRight => -1
    case Left | Right => 0
    case Bottom | BottomLeft | BottomRight => 1
  }

  /** The `locations` table: each place is the centre moved by `offset` pixels. */
  function Location(center: Point, offset: nat, p: Place): (r: Point)
    ensures offset > 0 ==> (r.x < center.x <==> Column(p) < 0) && (r.x > center.x <==> Column(p) > 0)
    ensures offset > 0 ==> (r.y < center.y <==> Row(p) < 0) && (r.y > center.y <==> Row(p) > 0)
  {
    match p
    case Left => Point(center.x - offset, center.y)
    case Right => Point(center.x + offset, center.y)
    case Top => Point(center.x, center.y - offset)
    case Bottom => Point(center.x, center.y + offset)
    case TopLeft => Point(center.x - offset, center.y - offset)
    case TopRight => Point(center.x + offset, center.y - offset)
    case BottomLeft => Point(center.x - offset, center.y + offset)
    case BottomRight => Point(center.x + offset, center.y + offset)
  }

  /** Every location sits `offset` pixels from the centre along its column and row. */
  lemma LocationIsOffset(center: Point, offset: nat, p: Place)
    ensures Location(center, offset, p) ==
            Point(center.x + Column(p) * offset, center.y + Row(p) * offset)
  {
  }

  /** With a positive offset the eight locations are pairwise distinct. */
  lemma LocationsDistinct(center: Point, offset: nat, p: Place, q: Place)
    requires offset > 0 && p != q
    ensures Location(center, offset, p) != Location(center, offset, q)
  {
    LocationIsOffset(center, offset, p);
    LocationIsOffset(center, offset, q);
    assert Column(p) != Column(q) || Row(p) != Row(q);
  }

  /** `set_box_positions`: the centres of the two placeholder boxes. */
  function BoxPositions(center: Point, offset: nat, a: Alignment): (r: (Point, Point))
    ensures a == Vertical ==> r.0.y == r.1.y == center.y && r.0.x + 2 * offset == r.1.x
    ensures a == Horizontal ==> r.0.x == r.1.x == center.x && r.0.y + 2 * offset == r.1.y
    ensures r.0.x + r.1.x == 2 * center.x && r.0.y + r.1.y == 2 * center.y
  {
    if a == Vertical then
      (Location(center, offset, Left), Location(center, offset, Right))
    else
      (Location(center, offset, Top), Location(center, offset, Bottom))
  }

  /**
   * The corner lists `box1` and `box2` that `get_target_location` builds: the
   * two ends of each placeholder box.
   */
  function BoxCorners(center: Point, offset: nat, a: Alignment): (r: (seq<Point>, seq<Point>))
    ensures |r.0| == 2 && |r.1| == 2 && r.0[0] == Location(center, offset, TopLeft)
    ensures forall c: Corner :: Location(center, offset, c) in r.0 + r.1
  {
    if a == Vertical then
      ([Location(center, offset, TopLeft), Location(center, offset, BottomLeft)],
       [Location(center, offset, TopRight), Location(center, offset, BottomRight)])
    else
      ([Location(center, offset, TopLeft), Location(center, offset, TopRight)],
       [Location(center, offset, BottomLeft), Location(center, offset, BottomRight)])
  }

  /**
   * The corner lists agree with the placed boxes: the two corners of box i lie
   * symmetrically about box i's position, along the box's long side.
   */
  lemma BoxCornersFrameBoxes(center: Point, offset: nat, a: Alignment)
    ensures var (box1, box2) := BoxCorners(center, offset, a);
            var (pos1, pos2) := BoxPositions(center, offset, a);
            && |box1| == 2 && |box2| == 2
            && box1[0].x + box1[1].x == 2 * pos1.x && box1[0].y + box1[1].y == 2 * pos1.y
            && box2[0].x + box2[1].x == 2 * pos2.x && box2[0].y + box2[1].y == 2 * pos2.y
            && (a == Vertical ==> box1[0].x == box1[1].x == pos1.x && box2[0].x == box2[1].x == pos2.x)
            && (a == Horizontal ==> box1[0].y == box1[1].y == pos1.y && box2[0].y == box2[1].y == pos2.y)
  {
  }

  /**
   * `which_list`: the list holding `x` (when `contains`) or the other list
   * (when not); `l1` is tried first; `None` when `x` is in neither list.
   */
  function WhichList<T(==)>(x: T, contains: bool, l1: seq<T>, l2: seq<T>): (r: Option<seq<T>>)
    ensures r == None <==> x !in l1 && x !in l2
    ensures r.Some? ==> r.value == l1 || r.value == l2
    ensures r.Some? && contains ==> x in r.value
    ensures r.Some? && !contains && !(x in l1 && x in l2) ==> x !in r.value
    ensures x in l1 && x in l2 ==> r == Some(if contains then l1 else l2)
  {
    if x in l1 then Some(if contains then l1 else l2)
    else if x in l2 then Some(if contains then l2 else l1)
    else None
  }

  /** The index of the first occurrence of `x` in `s`. */
  function IndexOf<T(==)>(s: seq<T>, x: T): (i: nat)
    requires x in s
    ensures i < |s| && s[i] == x && x !in s[..i]
  {
    if s[0] == x then 0
    else
      assert s[1..][..IndexOf(s[1..], x)] == s[1..IndexOf(s[1..], x) + 1];
      IndexOf(s[1..], x) + 1
  }

  /**
   * Python's `list.remove`: drop the first occurrence of `x`, keeping the
   * order of the rest. An absent element raises `ValueError` in Python, so it
   * is excluded here.
   */
  function RemoveFirst<T(==)>(s: seq<T>, x: T): (r: seq<T>)
    requires x in s
    ensures |r| == |s| - 1
    ensures r == s[..IndexOf(s, x)] + s[IndexOf(s, x) + 1..]
  {
    assert s == [s[0]] + s[1..];
    if s[0] == x then s[1..]
    else
      var rest := RemoveFirst(s[1..], x);
      var j := IndexOf(s[1..], x);
      assert [s[0]] + rest == s[..j + 1] + s[j + 2..] by {
        assert s[..j + 1] == [s[0]] + s[1..][..j];
        assert s[j + 2..] == s[1..][j + 1..];
      }
      [s[0]] + rest
  }

  /** `list.remove` takes away exactly one copy of the element and nothing else. */
  lemma RemoveFirstTakesOneCopy<T>(s: seq<T>, x: T)
    requires x in s
    ensures multiset(RemoveFirst(s, x)) == multiset(s) - multiset{x}
  {
    var i := IndexOf(s, x);
    assert s == s[..i] + [x] + s[i + 1..];
  }

  /** Removing one of two distinct elements leaves the other. */
  lemma RemoveFromPair<T>(u: T, v: T, x: T)
    requires x == u || x == v
    ensures RemoveFirst([u, v], x) == if x == u then [v] else [u]
  {
    if x != u {
      assert [u, v][1..] == [v];
      assert RemoveFirst([v], x) == [];
    }
  }

  /** A point as the two-element list `[x, y]` the experiment stores. */
  function Coords(p: Point): seq<int>
  {
    [p.x, p.y]
  }

  datatype TargetCondition = CuedLocation | CuedObject | UncuedAdjacent | UncuedOpposite | Catch

  /**
   * `get_target_location` as written. The assignment made for `cued_location`
   * is dead: the next test is an `if`, not an `elif`, so its `else` branch
   * runs for `cued_location` too and overwrites the result. The second
   * `which_list` looks a single coordinate up in the two-element lists
   * `[x, y]` of the candidate corners, so it matches either component.
   */
  function GetTargetLocation(center: Point, offset: nat, a: Alignment, cue: Corner,
                             target: TargetCondition): (r: Option<Point>)
    ensures r.Some?
  {
    var cueLoc := Location(center, offset, cue);
    var (box1, box2) := BoxCorners(center, offset, a);
    if target == CuedObject then
      var targetBox := WhichList(cueLoc, true, box1, box2).value;
      Some(RemoveFirst(targetBox, cueLoc)[0])
    else
      var targetBox := WhichList(cueLoc, false, box1, box2).value;
      var coord := if a == Horizontal then cueLoc.x else cueLoc.y;
      var picked := WhichList(coord, target == UncuedAdjacent, Coords(targetBox[0]), Coords(targetBox[1]));
      if picked.None? then None
      else if picked.value == Coords(targetBox[0]) then Some(targetBox[0])
      else Some(targetBox[1])
  }

  /** The corner with the same column and the other row. */
  function OtherRow(c: Corner): Corner
  {
    match c
    case TopLeft => BottomLeft
    case TopRight => BottomRight
    case BottomLeft => TopLeft
    case BottomRight => TopRight
  }

  /** The corner with the same row and the other column. */
  function OtherColumn(c: Corner): Corner
  {
    match c
    case TopLeft => TopRight
    case TopRight => TopLeft
    case BottomLeft => BottomRight
    case BottomRight => BottomLeft
  }

  /** The corner diagonally across from `c`. */
  function Diagonal(c: Corner): Corner
  {
    OtherRow(OtherColumn(c))
  }

  /**
   * The target corner by the design of the experiment: the other end of the
   * cued box (`cued_object`), the end of the uncued box next to the cue
   * (`uncued_adjacent`) or the remaining corner (`uncued_opposite`); as
   * written, `cued_location` also selects the remaining corner.
   */
  function TargetCorner(a: Alignment, cue: Corner, target: TargetCondition): Corner
  {
    match target
    case CuedObject => if a == Vertical then OtherRow(cue) else OtherColumn(cue)
    case UncuedAdjacent => if a == Horizontal then OtherRow(cue) else OtherColumn(cue)
    case _ => Diagonal(cue)
  }

  /**
   * Screen centres for which no coordinate of one corner equals the other
   * coordinate of another: the x and y coordinates of the corners never
   * coincide, so looking a coordinate up in `[x, y]` finds only its own axis.
   */
  predicate CoordinatesApart(center: Point, offset: nat)
  {
    var d := center.x - center.y;
    d != 0 && d != 2 * offset && d != -2 * offset
  }

  /** Looking a coordinate up in a corner list matches the intended axis. */
  lemma CoordLookup(center: Point, offset: nat, v: int, axisX: bool, p: Place)
    requires offset > 0 && CoordinatesApart(center, offset)
    requires p.TopLeft? || p.TopRight? || p.BottomLeft? || p.BottomRight?
    requires axisX ==> v == center.x - offset || v == center.x + offset
    requires !axisX ==> v == center.y - offset || v == center.y + offset
    ensures var q := Location(center, offset, p);
            v in Coords(q) <==> (if axisX then v == q.x else v == q.y)
  {
  }

  /** The `cued_object` target is the other end of the cued box, on any screen. */
  lemma CuedObjectTarget(center: Point, offset: nat, a: Alignment, cue: Corner)
    requires offset > 0
    ensures GetTargetLocation(center, offset, a, cue, CuedObject) ==
            Some(Location(center, offset, TargetCorner(a, cue, CuedObject)))
  {
    var cueLoc := Location(center, offset, cue);
    var (box1, box2) := BoxCorners(center, offset, a);
    var mate := Location(center, offset, TargetCorner(a, cue, CuedObject));
    LocationsDistinct(center, offset, cue, OtherRow(cue));
    LocationsDistinct(center, offset, cue, OtherColumn(cue));
    LocationsDistinct(center, offset, cue, Diagonal(cue));
    var targetBox := WhichList(cueLoc, true, box1, box2).value;
    assert targetBox == [cueLoc, mate] || targetBox == [mate, cueLoc];
    RemoveFromPair(targetBox[0], targetBox[1], cueLoc);
  }

  /**
   * The uncued conditions pick their corner from the uncued box through the
   * coordinate lookup, which finds the intended axis on such a screen.
   */
  lemma UncuedTarget(center: Point, offset: nat, a: Alignment, cue: Corner, target: TargetCondition)
    requires offset > 0 && CoordinatesApart(center, offset)
    requires target != CuedObject
    ensures GetTargetLocation(center, offset, a, cue, target) ==
            Some(Location(center, offset, TargetCorner(a, cue, target)))
  {
    var cueLoc := Location(center, offset, cue);
    LocationsDistinct(center, offset, cue, OtherRow(cue));
    LocationsDistinct(center, offset, cue, OtherColumn(cue));
    LocationsDistinct(center, offset, cue, Diagonal(cue));
    if a == Horizontal {
      CoordLookup(center, offset, cueLoc.x, true, OtherRow(cue));
      CoordLookup(center, offset, cueLoc.x, true, Diagonal(cue));
    } else {
      CoordLookup(center, offset, cueLoc.y, false, OtherColumn(cue));
      CoordLookup(center, offset, cueLoc.y, false, Diagonal(cue));
    }
  }

  /**
   * On a screen whose centre keeps the coordinates apart, `get_target_location`
   * returns the corner `TargetCorner` names, for every alignment, cue and
   * condition.
   */
  lemma TargetLocationIsTargetCorner(center: Point, offset: nat, a: Alignment, cue: Corner,
                                     target: TargetCondition)
    requires offset > 0 && CoordinatesApart(center, offset)
    ensures GetTargetLocation(center, offset, a, cue, target) ==
            Some(Location(center, offset, TargetCorner(a, cue, target)))
  {
    if target == CuedObject {
      CuedObjectTarget(center, offset, a, cue);
    } else {
      UncuedTarget(center, offset, a, cue, target);
    }
  }

  /** The `cued_location` condition places the target exactly as `uncued_opposite`. */
  lemma CuedLocationIsUncuedOpposite(center: Point, offset: nat, a: Alignment, cue: Corner)
    ensures GetTargetLocation(center, offset, a, cue, CuedLocation) ==
            GetTargetLocation(center, offset, a, cue, UncuedOpposite)
  {
  }

  /**
   * So a `cued_location` target never appears at the cued corner, on any
   * screen: whichever coordinate the lookup matches, it picks a corner of the
   * uncued box.
   */
  lemma CuedLocationMissesCue(center: Point, offset: nat, a: Alignment, cue: Corner)
    requires offset > 0
    ensures GetTargetLocation(center, offset, a, cue, CuedLocation) != Some(Location(center, offset, cue))
  {
    LocationsDistinct(center, offset, cue, OtherRow(cue));
    LocationsDistinct(center, offset, cue, OtherColumn(cue));
    LocationsDistinct(center, offset, cue, Diagonal(cue));
  }

  /**
   * On a 1920 by 1080 screen (centre 960, 540) with an offset of 210 pixels
   * the coordinate lookup matches the wrong axis: a vertical `uncued_adjacent`
   * target for a bottom-right cue is drawn top-left, diagonally across from
   * the cue, not bottom-left.
   */
  lemma WideScreenMisplacesAdjacentTarget()
    ensures GetTargetLocation(Point(960, 540), 210, Vertical, BottomRight, UncuedAdjacent) ==
            Some(Location(Point(960, 540), 210, TopLeft))
    ensures TargetCorner(Vertical, BottomRight, UncuedAdjacent) == BottomLeft
  {
  }

  /**
   * On a square screen (centre 512, 512) the coordinate lookup matches the
   * wrong axis: a horizontal `uncued_adjacent` target for a top-right cue is
   * drawn bottom-left, diagonally across from the cue, not bottom-right.
   */
  lemma SquareScreenMisplacesAdjacentTarget()
    ensures GetTargetLocation(Point(512, 512), 100, Horizontal, TopRight, UncuedAdjacent) ==
            Some(Location(Point(512, 512), 100, BottomLeft))
    ensures TargetCorner(Horizontal, TopRight, UncuedAdjacent) == BottomRight
  {
  }
}
