// The pure parts of the swiper: axis selection, live preview with bounce
// suppression, the release decision, the preload window and the container size.

module SwiperLogic {
  import opened SwiperTypes

  /** The size of one page along the paging axis. */
  function AxisExtent(direction: Direction, width: nat, height: nat): nat
  {
    if direction == Horizontal then width else height
  }

  /** The displacement from `from` to `to` along the paging axis. */
  function Displacement(direction: Direction, from: Point, to: Point): int
  {
    if direction == Horizontal then to.x - from.x else to.y - from.y
  }

  /**
   * The release displacement. Before any touchstart the source subtracts
   * from an undefined coordinate and gets NaN, modelled here as None.
   */
  function ReleaseDisplacement(direction: Direction, start: Option<Point>, end: Point): Option<int>
  {
    if start.Some? then Some(Displacement(direction, start.value, end)) else None
  }

  /** The bounce test of touchmove: the first page pulled back, or the last page pushed on. */
  predicate Bounced(bounce: bool, current: nat, count: nat, realOffset: int)
  {
    (bounce && current == 0 && realOffset >= 0) || (bounce && current == count - 1 && realOffset <= 0)
  }

  /**
   * The translation that touchmove applies, or None when it returns early and
   * leaves the transform as it was. The vertical test runs first, in either
   * direction; in horizontal mode the horizontal test follows.
   */
  function Preview(options: Options, current: nat, count: nat, offset: int, start: Point, p: Point): (r: Option<int>)
    ensures r.Some? ==> r.value == Displacement(options.direction, start, p) - offset
    ensures !options.bounce ==> r == Some(Displacement(options.direction, start, p) - offset)
    ensures r.None? ==> options.bounce && (current == 0 || current == count - 1)
    ensures options.bounce && current == 0 && Displacement(options.direction, start, p) - offset >= 0 ==> r.None?
    ensures options.bounce && current == count - 1 && Displacement(options.direction, start, p) - offset <= 0 ==> r.None?
    ensures options.direction == Horizontal && Bounced(options.bounce, current, count, p.y - start.y - offset) ==> r.None?
    ensures r.None? <==>
      Bounced(options.bounce, current, count, p.y - start.y - offset) ||
      (options.direction == Horizontal && Bounced(options.bounce, current, count, p.x - start.x - offset))
  {
    var realOffset := (p.y - start.y) - offset;
    if Bounced(options.bounce, current, count, realOffset) then None
    else if options.direction == Horizontal then
      var realOffsetX := (p.x - start.x) - offset;
      if Bounced(options.bounce, current, count, realOffsetX) then None else Some(realOffsetX)
    else Some(realOffset)
  }

  /** How touchend reads a release displacement against the threshold (strict comparisons). */
  function Classify(threshold: int, distance: Option<int>): (r: Swipe)
    ensures r == Backward <==> distance.Some? && distance.value > threshold
    ensures r == Forward <==> distance.Some? && distance.value < -threshold && distance.value <= threshold
    ensures distance.None? ==> r == Stay
    ensures threshold >= 0 && (distance == Some(threshold) || distance == Some(-threshold)) ==> r == Stay
  {
    if distance.None? then Stay
    else if distance.value > threshold then Backward
    else if distance.value < -threshold then Forward
    else Stay
  }

  /** The page a release commits to, clamped at the first and the last page. */
  function Step(current: nat, count: nat, swipe: Swipe): (r: nat)
    ensures current < count ==> r < count
    ensures swipe == Stay ==> r == current
    ensures swipe == Backward ==> (current == 0 ==> r == 0) && (current > 0 ==> r == current - 1)
    ensures swipe == Forward ==> (current + 1 < count ==> r == current + 1) && (current + 1 >= count ==> r == current)
  {
    match swipe
    case Backward => if current == 0 then 0 else current - 1
    case Forward => if current < count - 1 then current + 1 else current
    case Stay => current
  }

  /** The end (exclusive) of the preload window that starts at `current`. */
  function WindowEnd(current: nat, count: nat): nat
  {
    if current + 3 > count then count else current + 3
  }

  /** The indices in [lo, hi) that are not yet in `loaded`, in increasing order. */
  function Missing(loaded: seq<nat>, lo: nat, hi: nat): seq<nat>
    decreases hi
  {
    if hi <= lo then [] else Missing(loaded, lo, hi - 1) + (if hi - 1 in loaded then [] else [hi - 1])
  }

  /** The list of loaded pages after one run of the preload loop at page `current`. */
  function Preloaded(loaded: seq<nat>, current: nat, count: nat): seq<nat>
  {
    loaded + Missing(loaded, current, WindowEnd(current, count))
  }

  predicate NoDuplicates(s: seq<nat>)
  {
    forall i, j :: 0 <= i < j < |s| ==> s[i] != s[j]
  }

  lemma PushKeepsDistinct(s: seq<nat>, x: nat)
    requires NoDuplicates(s) && x !in s
    ensures NoDuplicates(s + [x])
  {
    var t := s + [x];
    forall i, j | 0 <= i < j < |t|
      ensures t[i] != t[j]
    {
      if j == |s| {
        assert t[i] == s[i];
      }
    }
  }

  lemma {:induction false} MissingMembers(loaded: seq<nat>, lo: nat, hi: nat)
    ensures forall x :: x in Missing(loaded, lo, hi) <==> lo <= x < hi && x !in loaded
    decreases hi
  {
    if hi > lo {
      MissingMembers(loaded, lo, hi - 1);
    }
  }

  lemma {:induction false} MissingIncreasing(loaded: seq<nat>, lo: nat, hi: nat)
    ensures forall i, j :: 0 <= i < j < |Missing(loaded, lo, hi)| ==> Missing(loaded, lo, hi)[i] < Missing(loaded, lo, hi)[j]
    decreases hi
  {
    if hi > lo {
      MissingIncreasing(loaded, lo, hi - 1);
      MissingMembers(loaded, lo, hi - 1);
      var m := Missing(loaded, lo, hi - 1);
      assert forall k :: 0 <= k < |m| ==> m[k] in m;
    }
  }

  /**
   * One preload run keeps what was loaded, covers the window
   * [current, min(current + 3, count)), adds only pages below `count`, and
   * adds no page twice.
   */
  lemma PreloadWindow(loaded: seq<nat>, current: nat, count: nat)
    ensures |loaded| <= |Preloaded(loaded, current, count)|
    ensures Preloaded(loaded, current, count)[..|loaded|] == loaded
    ensures forall x :: current <= x < current + 3 && x < count ==> x in Preloaded(loaded, current, count)
    ensures forall x :: x in Preloaded(loaded, current, count) ==> x in loaded || (current <= x < count && x < current + 3)
    ensures NoDuplicates(loaded) ==> NoDuplicates(Preloaded(loaded, current, count))
  {
    var hi := WindowEnd(current, count);
    var m := Missing(loaded, current, hi);
    MissingMembers(loaded, current, hi);
    MissingIncreasing(loaded, current, hi);
    var r := loaded + m;
    assert r[..|loaded|] == loaded;
    if NoDuplicates(loaded) {
      forall i, j | 0 <= i < j < |r|
        ensures r[i] != r[j]
      {
        if j >= |loaded| {
          assert r[j] == m[j - |loaded|];
          assert m[j - |loaded|] in m;
          if i < |loaded| {
            assert r[i] in loaded;
          }
        }
      }
    }
  }

  /** A second preload at the same page adds nothing. */
  lemma PreloadIdempotent(loaded: seq<nat>, current: nat, count: nat)
    ensures Preloaded(Preloaded(loaded, current, count), current, count) == Preloaded(loaded, current, count)
  {
    var once := Preloaded(loaded, current, count);
    var hi := WindowEnd(current, count);
    PreloadWindow(loaded, current, count);
    MissingMembers(once, current, hi);
    EmptyMissing(once, current, hi);
  }

  lemma EmptyMissing(loaded: seq<nat>, lo: nat, hi: nat)
    requires forall x :: lo <= x < hi ==> x in loaded
    ensures Missing(loaded, lo, hi) == []
  {
    MissingMembers(loaded, lo, hi);
  }

  /**
   * The container size set by _init: the pages are laid out end to end along
   * the paging axis and the container is one page across.
   */
  function ContainerSize(direction: Direction, width: nat, height: nat, count: nat): (size: (nat, nat))
    ensures direction == Horizontal ==> size.0 == AxisExtent(direction, width, height) * count && size.1 == height
    ensures direction == Vertical ==> size.1 == AxisExtent(direction, width, height) * count && size.0 == width
    ensures size.0 * size.1 == width * height * count
  {
    if direction == Horizontal then (width * count, height) else (width, height * count)
  }
}
