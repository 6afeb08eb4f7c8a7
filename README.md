# iswiper gesture-to-page state machine, in Dafny

This project models the core of `iswiper` (`src/swiper.js`, version 1.4.1). That core is a touch-driven paginated view. A container holds `count` same-sized pages. A drag previews the move by translating the container. On release, the view commits to the previous, next or same page and animates to it. When that animation ends, and the page changed or a jump is pending, the view marks the committed page active and calls the `swiped` handler once with `(prev, current)`. Pages also keep a forward window of images preloaded, and each event name takes one handler.

The DOM is reduced to integers:
- the container's transform is `translate`, the translation along the paging axis;
- its transition is `transitionMs` (`None` for `'none'`);
- the active class is an array `active` of one boolean per page;
- page count, width and height are constructor parameters, and so is `lazyMarkup`, which says whether every page holds a `.swiper-lazy` element;
- each touch handler is a method that takes the touch point;
- `webkitTransitionEnd` takes a boolean saying whether the event target is the container.

The pending jump `_goto` is `Option<nat>`, and `None` stands for `-1`. The ghost field `shown` is the page whose offset `_show` last committed, and the ghost field `activeIndex` is the page that carries the active marker. Two more ghost fields record the calls to callbacks: `releases` counts `touchendCall` calls, and `notices` logs every `swiped` call.

Files:
- `swiper_types.dfy`: the values (points, options, callbacks, results).
- `swiper_logic.dfy`: the pure parts (displacement, preview with bounce suppression, the release decision, the preload window, the container size) and their lemmas.
- `swiper_events.dfy`: handler registration.
- `swiper.dfy`: the `Swiper` class, whose methods update its fields in place as the source does.
- `swiper_scenarios.dfy`: whole interactions run from a fresh instance.

The class invariant `Valid()` says:
- `0 <= current < count` (or `current == 0` with no pages), and likewise for `prev` and `shown`;
- `offset == shown * extent`, where extent is the height for vertical and the width for horizontal;
- a pending jump names a page;
- `imagesLoaded` holds page indices only, with no index twice;
- with lazy loading on, there is at least one page and the pages carry lazy markup (construction throws otherwise);
- with at least one page, exactly the page `activeIndex` carries the active marker.

Every method that touches the paging state requires and keeps it. Every `go`, every `next` and every release that reaches `_show` leaves `offset == current * extent`. A release past the threshold on pages without lazy markup does not reach `_show` (see Findings). It leaves `current` at the clamped decision and `offset` at the page shown before.

Three behaviours of the source are easy to misread:
- Nothing tracks whether a drag is in progress. The last `touchstart` point stays in place, so a stray `touchmove` or `touchend` measures from it. Before any `touchstart`, the source computes NaN. The model reads that as "no displacement": the release stays on its page, and the move leaves the transform as it was, because the browser rejects a `NaNpx` transform.
- `_lazyLoadImage` runs on every release past the threshold, including clamped releases, whether or not `lazyLoading` is set. Only construction checks the option. `go` and `next` never load images. On pages without a `.swiper-lazy` element, the lazy loader throws: `_preloadImages` reads an attribute of the missing element at the first page of the window not yet loaded (src/swiper.js:239), or `_lazyLoadImage` does so itself (src/swiper.js:250). Nothing is pushed, and touchend stops before `_show` and `touchendCall`.
- `go` reports a refusal by returning `undefined`, modelled as `moved == false`.

## Model

| member | source | states |
|---|---|---|
| SwiperLogic.Preview | src/swiper.js:109-134 | The applied translation is always `distance - offset` on the paging axis. With bounce off, a move always applies it. With bounce on, the move is suppressed when `current == 0` and `distance - offset >= 0`, or when `current == count-1` and `distance - offset <= 0`. Suppression happens only at those pages. A move is suppressed exactly when the vertical bounce test fires or, in horizontal mode, the horizontal one does; so in horizontal mode the vertical test alone can suppress a move. |
| SwiperLogic.Classify | src/swiper.js:142-154 | A release goes back exactly when the displacement is `> threshold`. It goes forward exactly when the displacement is `< -threshold` and not `> threshold`. A displacement of exactly `±threshold`, or none at all, stays. |
| SwiperLogic.Step | src/swiper.js:147-154 | The committed page stays in range. It moves back one page, clamped at 0, or on one page, clamped at `count-1`. It stays put on `Stay`. |
| SwiperLogic.ContainerSize | src/swiper.js:68-74 | The container is `extent * count` long on the paging axis and one page across. Its area is `count` pages. |
| SwiperLogic.MissingMembers | src/swiper.js:231-242 | The pages a preload run pushes are exactly the indices in `[lo, hi)` not already loaded. |
| SwiperLogic.MissingIncreasing | src/swiper.js:234-241 | The preload loop pushes pages in strictly increasing order. |
| SwiperLogic.PreloadWindow | src/swiper.js:219-242 | A preload run keeps the existing entries as a prefix. It covers every page of `[current, min(current+3, count))` and adds only pages of that window. It keeps the list free of duplicates. |
| SwiperLogic.PreloadIdempotent | src/swiper.js:219-242 | A second preload at the same page adds nothing. |
| SwiperEvents.Register | src/swiper.js:309-320 | Registration fails exactly when the event already has a handler (that error first) or the callback is not a function. On success it adds exactly one entry and keeps the others. |
| SwiperEvents.RegisterAsWritten | src/swiper.js:310-312 | The duplicate test as written refuses every inherited `Object.prototype` name. For any other name it agrees with `Register`. |
| SwiperEvents.InheritedNameRefused | src/swiper.js:310-312 | Counterexample: the first registration of `"toString"` is refused as written and accepted as intended. |
| SwiperInstance.Swiper.constructor | src/swiper.js:21-89 | Page 0 is committed, shown and the only active page, no jump is pending, nothing is registered, and the container is sized. With lazy loading on, the window `[0, min(3, count))` is loaded. |
| SwiperInstance.Swiper.TouchStart | src/swiper.js:98-107 | Records the origin and cancels the transition. |
| SwiperInstance.Swiper.TouchMove | src/swiper.js:109-134 | Records the sample. It sets the translation to the preview, or leaves it unchanged when suppressed or when no origin exists. It never changes `current`, `prev`, `offset` or the pending jump. |
| SwiperInstance.Swiper.TouchEnd | src/swiper.js:136-159 | `prev` becomes the old `current`, and `current` is the clamped threshold decision. A release within the threshold, or past it on pages with lazy markup, snaps to `current * extent` and runs `touchendCall` once; past the threshold the window at the new page is preloaded. Past the threshold with no pages or no lazy markup, the lazy loader throws: nothing is loaded, and the offset, the transform, the transition and the callback count stay as they were. |
| SwiperInstance.Swiper.TouchEndGated | src/swiper.js:136-159 | The corrected touchend, with the lazy loader run only when `lazyLoading` is set: every release commits the clamped decision, preloads only with lazy loading on, snaps to `current * extent` and runs `touchendCall` once. |
| SwiperInstance.Swiper.Commit | src/swiper.js:147-154 | The if/else-if of touchend: the new `current` follows `Step` and `Classify`. When the threshold is crossed and the loader is asked for, the preload runs if there is a page with lazy markup and the run fails otherwise; in every other case the run completes and nothing is loaded. |
| SwiperInstance.Swiper.TransitionEnd | src/swiper.js:164-176 | A foreign target changes nothing. Otherwise, when `current != prev` or a jump is pending, it marks only `current` active (and `activeIndex == current`), calls `swiped` (or the no-op) once with `(prev, current)` and clears the jump. A snap-back with no pending jump changes nothing and reports nothing. |
| SwiperInstance.Swiper.Show | src/swiper.js:184-199 | `shown = index`, `offset = index * extent`, the translation is `-offset`, and the transition runs for `duration`. Nothing else changes. |
| SwiperInstance.Swiper.Activate | src/swiper.js:206-214 | Exactly page `index` carries the active marker. |
| SwiperInstance.Swiper.IsLoaded | src/swiper.js:219-226 | Returns true exactly when `pos` is in `imagesLoaded`. |
| SwiperInstance.Swiper.PreloadImages | src/swiper.js:231-242 | The new list equals `Preloaded(old list, current, count)`, with no duplicates and every entry below `count`. |
| SwiperInstance.Swiper.LazyLoadImage | src/swiper.js:247-250 | The bookkeeping of the lazy loader: it completes exactly when the current page exists and the pages carry lazy markup, and then preloads the window at the current page; when it throws, nothing has been pushed. |
| SwiperInstance.Swiper.Go | src/swiper.js:273-290 | Refuses, changing nothing, when `index < 0`, `index > count-1` or `index == current`. Otherwise it sets `current = index`, `prev = (index == 0 ? 0 : index-1)`, `pending = index`, and `offset = index * extent`. |
| SwiperInstance.Swiper.Next | src/swiper.js:295-302 | A no-op at `current >= count-1`. Otherwise it sets `prev = old current` and `current = old current + 1`, and snaps. The pending jump is untouched. |
| SwiperInstance.Swiper.On | src/swiper.js:309-320 | The handler map and the result follow `Register`: on failure the map is unchanged; on success the instance is returned. |
| SwiperInstance.Swiper.GetCurrent | src/swiper.js:325-327 | The committed page is a page of the swiper. Its offset is the committed offset unless a release threw before the snap. |
| SwiperInstance.Swiper.GetTotal | src/swiper.js:332-334 | The page count equals the number of page markers. |
| SwiperScenarios.ReleasePastThreshold | src/swiper.js:136-176 | Five vertical pages with lazy markup, threshold 50: any release more than 50px up commits page 1, and `swiped` fires once with `(0, 1)`. |
| SwiperScenarios.ReleaseWithinThreshold | src/swiper.js:147-158 | Any release of at most 50px either way, the exact threshold included, stays on page 0 and snaps back to translation 0. `touchendCall` fires once and `swiped` never fires. |
| SwiperScenarios.DragPreview | src/swiper.js:109-134 | A drag 30px up from page 0 previews translation -30 and leaves the committed page at 0. |
| SwiperScenarios.ReleaseWithoutLazyMarkup | src/swiper.js:98-159 | Default options, pages without lazy markup: a drag and release 60px up moves `current` to 1, but the committed offset stays at page 0, the container stays at the drag's translation -60 with transitions off, and `touchendCall` never runs. |
| SwiperScenarios.GatedReleaseWithoutLazyMarkup | src/swiper.js:136-176 | The same release through the corrected touchend commits page 1, snaps to offset 480, runs `touchendCall` once and reports `(0, 1)`. |
| SwiperScenarios.ReleaseClamped | src/swiper.js:147-154 | Pulling back at page 0 stays on page 0, and pushing on at the last page stays there. |
| SwiperScenarios.JumpThenSettle | src/swiper.js:273-290 | For every `i < n`, `go(i)` and the transition end leave the current page at `i`. They report `(i-1, i)` once, or nothing for `i == 0`. |
| SwiperScenarios.JumpToFirst | src/swiper.js:278-280 | `go(0)` from page 3 leaves `prev == 0`, not 3. The pending jump still forces the `(0, 0)` report. |
| SwiperScenarios.ForeignTransitionEnd | src/swiper.js:165-167 | A transition end from another element keeps the pending jump and reports nothing. |
| SwiperScenarios.LazyWindow | src/swiper.js:84-88 | Three pages with lazy loading: pages 0, 1 and 2 are loaded exactly once across a swipe to page 1 and a jump back to page 0. |
| SwiperScenarios.BounceAtFirstPage | src/swiper.js:113-128 | With bounce on at page 0, a drag down is frozen and a drag up is previewed. In horizontal mode, a forward drag with a slight downward drift is frozen by the vertical test. |

## Findings

| source | as written | input that shows it | evidently intended | confidence | as-written member | corrected member |
|---|---|---|---|---|---|---|
| src/swiper.js:148-154 | touchend calls `_lazyLoadImage` on every release past the threshold, whatever `lazyLoading` says. On pages without a `.swiper-lazy` element, the lazy loader dereferences the missing element and throws. | Default options (`lazyLoading: false`), five pages without lazy markup, a release 60px up: `_current` becomes 1, but `_show` and `touchendCall` never run: the committed offset stays at page 0, and the container stays where the drag left it (translation -60) with transitions off. | Run the lazy loader only with `lazyLoading` on, as `_init` does at line 86. | high, not executed | SwiperScenarios.ReleaseWithoutLazyMarkup | SwiperInstance.Swiper.TouchEndGated |
| src/swiper.js:310-312 | The duplicate test reads `this._eventHandlers[event]` on a plain object literal, so inherited `Object.prototype` properties look registered. | `on("toString", f)` (also `"constructor"`, `"valueOf"`, `"__proto__"` and others) on a fresh instance throws "event toString is already register". | Refuse only an event this instance already registered. | high, not executed | SwiperEvents.RegisterAsWritten | SwiperEvents.Register |

`SwiperInstance.Swiper.On` uses the corrected `Register`. The class keeps both touchend handlers: `TouchEnd` as written, and `TouchEndGated` as corrected, which `SwiperScenarios.GatedReleaseWithoutLazyMarkup` runs.

## Left out

- DOM lookups and measurements (`querySelector`, `offsetWidth`, `offsetHeight`) are left out. Page count, width and height are constructor parameters.
- Style strings (`translate3d(...)`, `'300ms'`, the `-webkit-` copies) are left out. They appear only as the integer translation and the optional duration.
- Event-listener registration, `e.preventDefault()` and the empty `transitionEnd` listener are left out. Each handler body is a method.
- The image loading and placeholder DOM of `_lazyLoadImage` (`new Image()`, `img.complete`, the async `onload`, the `loading` element) are left out, because they are browser I/O and callbacks. Only the `imagesLoaded` bookkeeping is modelled.
- LazyLoadImage: lazy markup is one flag for all pages. A swiper where only some pages carry a `.swiper-lazy` element, which could throw after pushing part of the window, is not modelled.
- SwiperInstance.Swiper.constructor: it requires at least one page and lazy markup when `lazyLoading` is set. Otherwise construction throws in the lazy loader, so no instance exists to model.
- On: `SwiperInstance.Swiper.On` follows the corrected `Register`, so it accepts a first registration under the twelve inherited `Object.prototype` names (`constructor`, `hasOwnProperty`, `isPrototypeOf`, `propertyIsEnumerable`, `toLocaleString`, `toString`, `valueOf`, `__proto__`, `__defineGetter__`, `__defineSetter__`, `__lookupGetter__`, `__lookupSetter__`), which `on` as written refuses (see Findings and `SwiperEvents.RegisterAsWritten`).
- Go: the index is an integer. A fractional index such as `go(1.5)` passes the range test at line 274 and sets `_current` to 1.5, which the model cannot represent.
- Pointer coordinates are integers, and JavaScript's loose typing (a string index passed to `go`) is not modelled. Any `direction` other than `'horizontal'` is `Vertical`.
- The `extend` options merge and the UMD wrapper are left out as plumbing. Options are a constructor parameter, with `DefaultOptions` holding the defaults.
- `activeClass`, `loadingSrc`, `container` and `item` are left out, because they only name DOM things. `preloadImages` is never read by the source. `me._bounce = true` is written but never read.
- The handler's `this` binding in `cb.apply(me, ...)` is left out. The effects of `touchendCall` and `swiped` are not modelled: each call is recorded in a ghost field.
