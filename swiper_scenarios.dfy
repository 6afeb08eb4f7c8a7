// Whole interactions with one swiper: a drag, a settle, jumps and the
// preload window, each run from a freshly constructed instance.

module SwiperScenarios {
  import opened SwiperTypes
  import opened SwiperLogic
  import opened SwiperInstance

  /**
   * Five vertical pages with lazy markup, threshold 50: any release more
   * than 50px up moves to page 1 and reports (0, 1) once.
   */
  method ReleasePastThreshold(dy: int) returns (current: nat, ghost notices: seq<Notice>)
    requires dy > 50
    ensures current == 1
    ensures notices == [Notice(None, 0, 1)]
  {
    var s := new Swiper(5, 320, 480, DefaultOptions, true);
    s.TouchStart(Point(10, 300));
    s.TouchEnd(Point(10, 300 - dy));
    s.TransitionEnd(true);
    current := s.GetCurrent();
    notices := s.notices;
  }

  /** A drag 30px up from page 0 previews a translation of -30 without moving the committed page. */
  method DragPreview() returns (translate: int, current: nat)
    ensures translate == -30 && current == 0
  {
    var s := new Swiper(5, 320, 480, DefaultOptions, false);
    s.TouchStart(Point(10, 300));
    s.TouchMove(Point(10, 270));
    translate := s.translate;
    current := s.GetCurrent();
  }

  /**
   * Any release within 50px (the exact threshold included) stays on page 0,
   * snaps back, calls touchendCall once and reports nothing.
   */
  method ReleaseWithinThreshold(dy: int) returns (current: nat, translate: int, ghost releases: nat, ghost notices: seq<Notice>)
    requires -50 <= dy <= 50
    ensures current == 0 && translate == 0
    ensures releases == 1
    ensures notices == []
  {
    var s := new Swiper(5, 320, 480, DefaultOptions, false);
    s.TouchStart(Point(10, 300));
    s.TouchEnd(Point(10, 300 + dy));
    s.TransitionEnd(true);
    current := s.GetCurrent();
    translate := s.translate;
    releases := s.releases;
    notices := s.notices;
  }

  /**
   * Default options, five pages without lazy markup: a drag and release 60px
   * up moves `current` to page 1, but the lazy loader throws first, so the
   * committed offset stays at page 0, the container stays where the drag left
   * it with transitions off, and touchendCall never runs.
   */
  method ReleaseWithoutLazyMarkup() returns (current: nat, offset: nat, translate: int, transitionMs: Option<nat>, ghost releases: nat)
    ensures current == 1 && offset == 0 && releases == 0
    ensures translate == -60 && transitionMs == None
  {
    var s := new Swiper(5, 320, 480, DefaultOptions, false);
    s.TouchStart(Point(10, 300));
    s.TouchMove(Point(10, 240));
    s.TouchEnd(Point(10, 240));
    current := s.GetCurrent();
    offset := s.offset;
    translate := s.translate;
    transitionMs := s.transitionMs;
    releases := s.releases;
  }

  /**
   * The same release through the gated touchend: page 1 is committed, the
   * container snaps to it, touchendCall runs once and the transition end
   * reports (0, 1).
   */
  method GatedReleaseWithoutLazyMarkup() returns (current: nat, offset: nat, ghost releases: nat, ghost notices: seq<Notice>)
    ensures current == 1 && offset == 480 && releases == 1
    ensures notices == [Notice(None, 0, 1)]
  {
    var s := new Swiper(5, 320, 480, DefaultOptions, false);
    s.TouchStart(Point(10, 300));
    s.TouchEndGated(Point(10, 240));
    s.TransitionEnd(true);
    current := s.GetCurrent();
    offset := s.offset;
    releases := s.releases;
    notices := s.notices;
  }

  /** Pulling page 0 back or pushing the last page on is clamped. */
  method ReleaseClamped() returns (first: nat, last: nat)
    ensures first == 0 && last == 2
  {
    var s := new Swiper(3, 320, 480, DefaultOptions, true);
    s.TouchStart(Point(10, 100));
    s.TouchEnd(Point(10, 300));
    first := s.GetCurrent();
    var moved := s.Go(2);
    s.TransitionEnd(true);
    s.TouchStart(Point(10, 300));
    s.TouchEnd(Point(10, 100));
    last := s.GetCurrent();
  }

  /** After go(i) and the transition end, the current page is i. */
  method JumpThenSettle(n: nat, i: nat) returns (current: nat, ghost notices: seq<Notice>)
    requires i < n
    ensures current == i
    ensures notices == if i == 0 then [] else [Notice(None, i - 1, i)]
  {
    var s := new Swiper(n, 320, 480, DefaultOptions, false);
    var moved := s.Go(i);
    s.TransitionEnd(true);
    current := s.GetCurrent();
    notices := s.notices;
  }

  /** go(0) from page 3 sets prev to 0, not 3, and the pending jump still forces the report. */
  method JumpToFirst() returns (prev: nat, ghost notices: seq<Notice>)
    ensures prev == 0
    ensures notices == [Notice(None, 2, 3), Notice(None, 0, 0)]
  {
    var s := new Swiper(5, 320, 480, DefaultOptions, false);
    var moved := s.Go(3);
    s.TransitionEnd(true);
    moved := s.Go(0);
    prev := s.prev;
    s.TransitionEnd(true);
    notices := s.notices;
  }

  /** A transition end from another element changes nothing, even with a jump pending. */
  method ForeignTransitionEnd() returns (pending: Option<nat>, ghost notices: seq<Notice>)
    ensures pending == Some(2)
    ensures notices == []
  {
    var s := new Swiper(5, 320, 480, DefaultOptions, false);
    var moved := s.Go(2);
    s.TransitionEnd(false);
    pending := s.pending;
    notices := s.notices;
  }

  lemma ThreePageWindows()
    ensures Preloaded([], 0, 3) == [0, 1, 2]
    ensures Preloaded([0, 1, 2], 1, 3) == [0, 1, 2]
  {
    assert Missing([], 0, 3) == [0, 1, 2];
    assert Missing([0, 1, 2], 1, 3) == [];
  }

  /**
   * Three pages with lazy loading: construction loads pages 0, 1 and 2, and
   * a swipe to page 1 and a jump back to page 0 load nothing twice.
   */
  method LazyWindow() returns (loaded: seq<nat>)
    ensures loaded == [0, 1, 2]
  {
    ThreePageWindows();
    var s := new Swiper(3, 320, 480, Options(Vertical, false, true, 50, 300), true);
    s.TouchStart(Point(10, 300));
    s.TouchEnd(Point(10, 100));
    assert s.ReleaseSwipe(Point(10, 100)) == Forward;
    var moved := s.Go(0);
    loaded := s.imagesLoaded;
  }

  /**
   * With bounce on, at page 0 a drag down is frozen and a drag up is
   * previewed; in horizontal mode the vertical test still runs first.
   */
  method BounceAtFirstPage() returns (down: int, up: int, sideways: int)
    ensures down == 0 && up == -30 && sideways == 0
  {
    var s := new Swiper(5, 320, 480, Options(Vertical, true, false, 50, 300), false);
    s.TouchStart(Point(10, 300));
    s.TouchMove(Point(10, 340));
    down := s.translate;
    s.TouchMove(Point(10, 270));
    up := s.translate;
    var h := new Swiper(5, 320, 480, Options(Horizontal, true, false, 50, 300), false);
    h.TouchStart(Point(200, 300));
    h.TouchMove(Point(170, 305));
    sideways := h.translate;
  }
}
