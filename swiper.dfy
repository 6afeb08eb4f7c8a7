// The Swiper instance: the gesture handlers, programmatic navigation,
// transition-end finalisation, preload bookkeeping and handler registration,
// with the DOM reduced to integer geometry, a translation and a page marker.

module SwiperInstance {
  import opened SwiperTypes
  import opened SwiperLogic
  import opened SwiperEvents

  class Swiper {
    // fixed at construction
    const count: nat
    const width: nat
    const height: nat
    const options: Options
    const containerWidth: nat
    const containerHeight: nat
    /** active[k] holds when page k carries the active class. */
    const active: array<bool>
    /** Whether every page holds a `.swiper-lazy` element for the lazy loader to read. */
    const lazyMarkup: bool

    // gesture points; None until the first event of each kind
    var startPoint: Option<Point>
    var movePoint: Option<Point>
    var endPoint: Option<Point>

    // paging state
    var prev: nat
    var current: nat
    var offset: nat
    /** A pending programmatic jump (None stands for the sentinel -1). */
    var pending: Option<nat>
    var imagesLoaded: seq<nat>
    var handlers: map<string, Callback>

    // what the container's style shows: the translation along the paging
    // axis, and the transition duration (None: 'none')
    var translate: int
    var transitionMs: Option<nat>

    /** The page whose offset was last committed by _show. */
    ghost var shown: nat
    /** The page that carries the active marker. */
    ghost var activeIndex: nat

    /** How many times touchendCall has been called. */
    ghost var releases: nat
    /** Every call of the 'swiped' handler, in order. */
    ghost var notices: seq<Notice>

    function Extent(): nat
    {
      AxisExtent(options.direction, width, height)
    }

    ghost predicate LoadedValid()
      reads this`imagesLoaded
    {
      NoDuplicates(imagesLoaded) && (forall k :: 0 <= k < |imagesLoaded| ==> imagesLoaded[k] < count)
    }

    /** With at least one page, exactly the page `activeIndex` carries the active marker. */
    ghost predicate ActiveValid()
      reads this`activeIndex, active
    {
      active.Length == count &&
      (count > 0 ==> activeIndex < count && forall k :: 0 <= k < count ==> active[k] == (k == activeIndex))
    }

    /**
     * The paging state names pages, the offset is the one of the page last
     * shown, and lazy loading has a page and markup to work on.
     */
    ghost predicate PagesValid()
      reads this`current, this`prev, this`shown, this`offset, this`pending
    {
      (current < count || current == 0) &&
      (prev < count || prev == 0) &&
      (shown < count || shown == 0) &&
      offset == shown * Extent() &&
      (pending.Some? ==> pending.value < count) &&
      (options.lazyLoading ==> count > 0 && lazyMarkup)
    }

    ghost predicate Valid()
      reads this, active
    {
      PagesValid() && LoadedValid() && ActiveValid()
    }

    /** The release decision for a touchend at `p`, given the recorded touchstart. */
    function ReleaseSwipe(p: Point): Swipe
      reads this`startPoint
    {
      Classify(options.threshold, ReleaseDisplacement(options.direction, startPoint, p))
    }

    /** The handler the transition end calls: the registered 'swiped' handler, or the no-op. */
    function SwipedHandler(): Option<Callback>
      reads this`handlers
    {
      if "swiped" in handlers then Some(handlers["swiped"]) else None
    }

    /**
     * Construction and _init: size the container, activate page 0 and, with
     * lazy loading on, run the lazy loader for page 0 (which looks up page 0
     * and its `.swiper-lazy` element, so both must exist).
     */
    constructor (count: nat, width: nat, height: nat, options: Options, lazyMarkup: bool)
      requires options.lazyLoading ==> count > 0 && lazyMarkup
      ensures Valid() && fresh(active)
      ensures this.count == count && this.width == width && this.height == height && this.options == options
      ensures this.lazyMarkup == lazyMarkup
      ensures (containerWidth, containerHeight) == ContainerSize(options.direction, width, height, count)
      ensures startPoint == None && movePoint == None && endPoint == None
      ensures current == 0 && prev == 0 && offset == 0 && shown == 0 && pending == None
      ensures forall k :: 0 <= k < count ==> active[k] == (k == 0)
      ensures imagesLoaded == if options.lazyLoading then Preloaded([], 0, count) else []
      ensures handlers == map[] && translate == 0 && transitionMs == None
      ensures releases == 0 && notices == []
    {
      this.count := count;
      this.width := width;
      this.height := height;
      this.options := options;
      this.lazyMarkup := lazyMarkup;
      var size := ContainerSize(options.direction, width, height, count);
      containerWidth := size.0;
      containerHeight := size.1;
      active := new bool[count];
      startPoint, movePoint, endPoint := None, None, None;
      prev, current, offset, pending := 0, 0, 0, None;
      shown, activeIndex := 0, 0;
      imagesLoaded := [];
      handlers := map[];
      translate, transitionMs := 0, None;
      releases, notices := 0, [];
      new;
      Activate(0);
      if options.lazyLoading {
        var completed := LazyLoadImage();
      }
    }

    /** touchstart: record the origin and cancel any running transition. */
    method TouchStart(p: Point)
      requires Valid()
      modifies this`startPoint, this`transitionMs
      ensures Valid()
      ensures startPoint == Some(p) && transitionMs == None
    {
      startPoint := Some(p);
      transitionMs := None;
    }

    /**
     * touchmove: record the sample and preview it, unless bounce suppression
     * returns early. Nothing but the sample and the translation changes.
     */
    method TouchMove(p: Point)
      requires Valid()
      modifies this`movePoint, this`translate
      ensures Valid()
      ensures movePoint == Some(p)
      ensures startPoint.Some? && Preview(options, current, count, offset, startPoint.value, p).Some? ==>
        translate == Displacement(options.direction, startPoint.value, p) - offset
      ensures startPoint.None? || Preview(options, current, count, offset, startPoint.value, p).None? ==>
        translate == old(translate)
    {
      movePoint := Some(p);
      if startPoint.Some? {
        var t := Preview(options, current, count, offset, startPoint.value, p);
        if t.Some? {
          translate := t.value;
        }
      }
    }

    /**
     * touchend: decide the page from the release displacement, run the lazy
     * loader past the threshold whatever `lazyLoading` says, snap to the
     * committed page and call touchendCall. The lazy loader throws when there
     * is no page or no `.swiper-lazy` markup; the release then stops before
     * the snap and the callback, with `current` already moved.
     */
    method TouchEnd(p: Point)
      requires Valid()
      modifies this`endPoint, this`prev, this`current, this`offset, this`shown, this`translate, this`transitionMs,
        this`imagesLoaded, this`releases
      ensures Valid()
      ensures endPoint == Some(p) && prev == old(current)
      ensures current == Step(old(current), count, ReleaseSwipe(p))
      ensures imagesLoaded == if ReleaseSwipe(p) != Stay && count > 0 && lazyMarkup
                              then Preloaded(old(imagesLoaded), current, count) else old(imagesLoaded)
      ensures ReleaseSwipe(p) != Stay && !(count > 0 && lazyMarkup) ==>
        offset == old(offset) && shown == old(shown) && translate == old(translate) &&
        transitionMs == old(transitionMs) && releases == old(releases)
      ensures ReleaseSwipe(p) == Stay || (count > 0 && lazyMarkup) ==>
        shown == current && offset == current * Extent() && translate == -(offset as int) &&
        transitionMs == Some(options.duration) && releases == old(releases) + 1
    {
      endPoint := Some(p);
      var distance := ReleaseDisplacement(options.direction, startPoint, p);
      prev := current;
      var completed := Commit(distance, true);
      if completed {
        Show(current);
        releases := releases + 1;
      }
    }

    /**
     * touchend with the lazy loader run only when `lazyLoading` is set, as
     * _init does. Every release then snaps to the committed page and calls
     * touchendCall, with or without lazy markup.
     */
    method TouchEndGated(p: Point)
      requires Valid()
      modifies this`endPoint, this`prev, this`current, this`offset, this`shown, this`translate, this`transitionMs,
        this`imagesLoaded, this`releases
      ensures Valid()
      ensures endPoint == Some(p) && prev == old(current)
      ensures current == Step(old(current), count, ReleaseSwipe(p))
      ensures imagesLoaded == if ReleaseSwipe(p) != Stay && options.lazyLoading
                              then Preloaded(old(imagesLoaded), current, count) else old(imagesLoaded)
      ensures shown == current && offset == current * Extent() && translate == -(offset as int) &&
        transitionMs == Some(options.duration) && releases == old(releases) + 1
    {
      endPoint := Some(p);
      var distance := ReleaseDisplacement(options.direction, startPoint, p);
      prev := current;
      var completed := Commit(distance, options.lazyLoading);
      Show(current);
      releases := releases + 1;
    }

    /**
     * The threshold test of touchend: move one page back or on, clamped, and,
     * when `load` holds, run the lazy loader once the threshold is crossed.
     * Returns false when the lazy loader throws.
     */
    method Commit(distance: Option<int>, load: bool) returns (completed: bool)
      requires (current < count || current == 0) && LoadedValid()
      modifies this`current, this`imagesLoaded
      ensures (current < count || current == 0) && LoadedValid()
      ensures current == Step(old(current), count, Classify(options.threshold, distance))
      ensures imagesLoaded == if Classify(options.threshold, distance) != Stay && load && count > 0 && lazyMarkup
                              then Preloaded(old(imagesLoaded), current, count) else old(imagesLoaded)
      ensures completed <==> Classify(options.threshold, distance) == Stay || !load || (count > 0 && lazyMarkup)
    {
      if distance.Some? && distance.value > options.threshold {
        current := if current == 0 then 0 else current - 1;
        if load {
          completed := LazyLoadImage();
          return;
        }
      } else if distance.Some? && distance.value < -options.threshold {
        current := if current < count - 1 then current + 1 else current;
        if load {
          completed := LazyLoadImage();
          return;
        }
      }
      return true;
    }

    /**
     * webkitTransitionEnd: ignore events from other targets; otherwise, when
     * the page changed or a jump is pending, activate the current page, call
     * 'swiped' once with (prev, current) and clear the pending jump.
     */
    method TransitionEnd(fromContainer: bool)
      requires Valid()
      modifies this`pending, this`notices, this`activeIndex, active
      ensures Valid()
      ensures fromContainer && (current != prev || old(pending).Some?) ==>
        pending == None &&
        notices == old(notices) + [Notice(SwipedHandler(), prev, current)] &&
        activeIndex == current &&
        forall k :: 0 <= k < count ==> active[k] == (k == current)
      ensures !fromContainer || (current == prev && old(pending).None?) ==>
        pending == old(pending) && notices == old(notices) &&
        activeIndex == old(activeIndex) && active[..] == old(active[..])
    {
      if !fromContainer {
        return;
      }
      if current != prev || pending.Some? {
        Activate(current);
        activeIndex := current;
        notices := notices + [Notice(SwipedHandler(), prev, current)];
        pending := None;
      }
    }

    /** _show: commit the offset of page `index` and animate to it. */
    method Show(index: nat)
      modifies this`offset, this`shown, this`translate, this`transitionMs
      ensures shown == index && offset == index * Extent()
      ensures translate == -(offset as int)
      ensures transitionMs == Some(options.duration)
    {
      offset := index * height;
      if options.direction == Horizontal {
        offset := index * width;
      }
      shown := index;
      translate := -(offset as int);
      transitionMs := Some(options.duration);
    }

    /** _activate: exactly the page `index` carries the active class afterwards. */
    method Activate(index: int)
      modifies active
      ensures forall k :: 0 <= k < active.Length ==> active[k] == (k == index)
    {
      var k := 0;
      while k < active.Length
        invariant 0 <= k <= active.Length
        invariant forall j :: 0 <= j < k ==> active[j] == (j == index)
      {
        active[k] := k == index;
        k := k + 1;
      }
    }

    /** _isExitsLoaded: a linear search of the loaded list. */
    method IsLoaded(pos: int) returns (found: bool)
      ensures found <==> pos in imagesLoaded
    {
      var i := 0;
      while i < |imagesLoaded|
        invariant 0 <= i <= |imagesLoaded|
        invariant forall j :: 0 <= j < i ==> imagesLoaded[j] != pos
      {
        if pos == imagesLoaded[i] {
          return true;
        }
        i := i + 1;
      }
      return false;
    }

    /** _preloadImages: push every page of the forward window that is not loaded yet. */
    method PreloadImages()
      requires LoadedValid()
      modifies this`imagesLoaded
      ensures LoadedValid()
      ensures imagesLoaded == Preloaded(old(imagesLoaded), current, count)
    {
      ghost var before := imagesLoaded;
      var stop := current + 3;
      stop := if stop > count then count else stop;
      var i := current;
      while i < stop
        invariant current <= i && (i <= stop || i == current)
        invariant imagesLoaded == before + Missing(before, current, i)
        invariant LoadedValid()
      {
        MissingMembers(before, current, i);
        assert Missing(before, current, i + 1) == Missing(before, current, i) + (if i in before then [] else [i]);
        var loaded := IsLoaded(i);
        if !loaded {
          PushKeepsDistinct(imagesLoaded, i);
          imagesLoaded := imagesLoaded + [i];
        }
        i := i + 1;
      }
    }

    /**
     * _lazyLoadImage, reduced to its bookkeeping: it looks up the current
     * page and preloads the window from there. It throws, returning false
     * here, when there is no current page or no `.swiper-lazy` markup: the
     * page lookup, or the first unloaded page of the window, or the final
     * attribute read then dereferences null, and no page has been pushed.
     */
    method LazyLoadImage() returns (completed: bool)
      requires LoadedValid()
      modifies this`imagesLoaded
      ensures LoadedValid()
      ensures completed <==> current < count && lazyMarkup
      ensures imagesLoaded == if completed then Preloaded(old(imagesLoaded), current, count) else old(imagesLoaded)
    {
      if current >= count || !lazyMarkup {
        return false;
      }
      PreloadImages();
      return true;
    }

    /**
     * go: jump to `index`, refusing an index out of range or equal to the
     * current page. `prev` is derived from the target, not from the page left.
     */
    method Go(index: int) returns (moved: bool)
      requires Valid()
      modifies this`current, this`prev, this`pending, this`offset, this`shown, this`translate, this`transitionMs
      ensures Valid()
      ensures moved <==> 0 <= index < count && index != old(current)
      ensures !moved ==> unchanged(this)
      ensures moved ==>
        current == index && prev == (if index == 0 then 0 else index - 1) && pending == Some(index) &&
        shown == index && offset == index * Extent() && translate == -(offset as int) && transitionMs == Some(options.duration)
    {
      if index < 0 || index > count - 1 || index == current {
        return false;
      }
      if index == 0 {
        current := 0;
        prev := 0;
      } else {
        current := index;
        prev := index - 1;
      }
      pending := Some(index);
      Show(current);
      return true;
    }

    /** next: move to the following page, unless this is the last one. */
    method Next() returns (moved: bool)
      requires Valid()
      modifies this`current, this`prev, this`offset, this`shown, this`translate, this`transitionMs
      ensures Valid()
      ensures moved <==> old(current) + 1 < count
      ensures !moved ==> unchanged(this)
      ensures moved ==>
        prev == old(current) && current == old(current) + 1 && shown == current &&
        offset == current * Extent() && translate == -(offset as int) && transitionMs == Some(options.duration)
    {
      if current >= count - 1 {
        return false;
      }
      prev := current;
      current := current + 1;
      Show(current);
      return true;
    }

    /** on: register the single handler of `event` (see SwiperEvents.Register). */
    method On(event: string, callback: JsValue) returns (r: Result<Swiper>)
      requires Valid()
      modifies this`handlers
      ensures Valid()
      ensures Register(old(handlers), event, callback).Err? ==>
        handlers == old(handlers) && r == Err(Register(old(handlers), event, callback).error)
      ensures Register(old(handlers), event, callback).Ok? ==>
        handlers == Register(old(handlers), event, callback).value && r == Ok(this)
    {
      if event in handlers {
        return Err(AlreadyRegistered(event));
      }
      if !callback.Callable? {
        return Err(NotAFunction);
      }
      handlers := handlers[event := callback.f];
      return Ok(this);
    }

    /**
     * getCurrent: the committed page, always a page of the swiper when there
     * is one; its offset is the committed offset unless a release threw
     * before the snap.
     */
    function GetCurrent(): (r: nat)
      reads this, active
      requires Valid()
      ensures count > 0 ==> r < count
      ensures shown == current ==> r * Extent() == offset
    {
      current
    }

    /** getTotal: the number of pages, one active marker per page. */
    function GetTotal(): (r: nat)
      reads this, active
      requires Valid()
      ensures r == active.Length
    {
      count
    }
  }
}
