// Values shared by the swiper model: points, options, callbacks and results.

module SwiperTypes {

  datatype Option<T> = None | Some(value: T)

  /** A touch position in page coordinates (pageX, pageY). */
  datatype Point = Point(x: int, y: int)

  /** The paging axis. Any direction option other than 'horizontal' behaves as vertical. */
  datatype Direction = Vertical | Horizontal

  /** The options that the state machine reads; all are fixed at construction. */
  datatype Options = Options(
    direction: Direction,
    bounce: bool,
    lazyLoading: bool,
    threshold: int,
    duration: nat)

  /** The defaults of the constructor: vertical, no bounce, no lazy loading, 50px, 300ms. */
  const DefaultOptions := Options(Vertical, false, false, 50, 300)

  /** What a release asks for: the previous page, the next page, or to stay. */
  datatype Swipe = Backward | Forward | Stay

  /** A function value, identified by a name so that calls to it can be recorded. */
  datatype Callback = Callback(name: string)

  /** An argument handed to `on`: either a function or any other value. */
  datatype JsValue = Callable(f: Callback) | NotCallable

  /** The two errors `on` throws. */
  datatype OnError = AlreadyRegistered(event: string) | NotAFunction

  datatype Result<T> = Ok(value: T) | Err(error: OnError)

  /** One call of the 'swiped' handler (None: no handler registered, the no-op runs). */
  datatype Notice = Notice(handler: Option<Callback>, prev: nat, current: nat)
}
