/**
 * The message protocol of GlThreadPixelTransform, without the threads.
 *
 * Every property setter of the proxy, and createInputSurface, travels to the
 * worker thread as an android.os.Message: an integer tag `what`, two scratch
 * integers `arg1`/`arg2` and a dynamically typed `obj`. The worker's handler
 * decodes the message and assigns the matching field of the delegate
 * pipeline. This module states that protocol as values: `Encode` is what the
 * setters put in the message, `Decode` is how the handler reads it back,
 * `Apply` is the assignment it performs, and `Run` is a queue of messages
 * processed in FIFO order.
 */
module PixelTransformMessage {
  import opened Wrappers

  /** Kotlin's Int. No arithmetic is done on these values: they are copied. */
  newtype int32 = x: int | -0x8000_0000 <= x < 0x8000_0000

  /** An opaque android.view.Surface. */
  datatype Surface = Surface(id: nat)

  /** The pipeline's enums, kept opaque: only their identity matters here. */
  datatype ImageOrientation = ImageOrientation(ordinal: nat)
  datatype VideoGravity = VideoGravity(ordinal: nat)
  datatype ResampleFilter = ResampleFilter(ordinal: nat)

  /** android.util.Size. */
  datatype Size = Size(width: int32, height: int32)

  /** The `obj` slot of a Message: null, or one boxed value of a runtime type. */
  datatype Obj =
    | Null
    | SurfaceObj(surface: Surface)
    | OrientationObj(orientation: ImageOrientation)
    | IntObj(boxed: int32)
    | GravityObj(gravity: VideoGravity)
    | FilterObj(filter: ResampleFilter)

  /** android.os.Message as the proxy uses it. */
  datatype Message = Message(what: int32, arg1: int32, arg2: int32, obj: Obj)

  // The seven message tags of the companion object.
  const MsgSetSurface: int32 := 0
  const MsgCreateInputSurface: int32 := 1
  const MsgSetImageOrientation: int32 := 2
  const MsgSetSurfaceOrientation: int32 := 3
  const MsgSetVideoGravity: int32 := 4
  const MsgSetCurrentExtent: int32 := 5
  const MsgSetResampleFilter: int32 := 6

  /** Handler.obtainMessage(what, obj): arg1 and arg2 stay 0. */
  function ObtainMessage(what: int32, obj: Obj): Message {
    Message(what, 0, 0, obj)
  }

  /** Handler.obtainMessage(what, arg1, arg2, obj). */
  function ObtainMessageWithArgs(what: int32, arg1: int32, arg2: int32, obj: Obj): Message {
    Message(what, arg1, arg2, obj)
  }

  /** One request to the worker, with the payload its operation needs. */
  datatype Command =
    | SetSurface(surface: Option<Surface>)
    | CreateInputSurface(width: int32, height: int32, format: int32)
    | SetImageOrientation(orientation: ImageOrientation)
    | SetSurfaceRotation(rotation: int32)
    | SetVideoGravity(gravity: VideoGravity)
    | SetExtent(extent: Size)
    | SetResampleFilter(filter: ResampleFilter)

  /** Why the handler throws: a tag with no branch, or an `obj` of the wrong type for a cast. */
  datatype Fault = UnhandledWhat(what: int32) | ClassCast(what: int32)

  /** The tag each operation is sent under. */
  function Tag(c: Command): int32 {
    match c
    case SetSurface(_) => MsgSetSurface
    case CreateInputSurface(_, _, _) => MsgCreateInputSurface
    case SetImageOrientation(_) => MsgSetImageOrientation
    case SetSurfaceRotation(_) => MsgSetSurfaceOrientation
    case SetVideoGravity(_) => MsgSetVideoGravity
    case SetExtent(_) => MsgSetCurrentExtent
    case SetResampleFilter(_) => MsgSetResampleFilter
  }

  /**
   * The message a setter (or createInputSurface) posts. The handler decodes
   * it back to the same command, so no payload is lost or retyped on the way.
   */
  function Encode(c: Command): (m: Message)
    ensures 0 <= m.what <= 6 && m.what == Tag(c)
    ensures Decode(m) == Success(c)
  {
    match c
    case SetSurface(s) =>
      ObtainMessage(MsgSetSurface, if s.Some? then SurfaceObj(s.value) else Null)
    case CreateInputSurface(w, h, f) =>
      ObtainMessageWithArgs(MsgCreateInputSurface, w, h, IntObj(f))
    case SetImageOrientation(o) =>
      ObtainMessage(MsgSetImageOrientation, OrientationObj(o))
    case SetSurfaceRotation(r) =>
      ObtainMessage(MsgSetSurfaceOrientation, IntObj(r))
    case SetVideoGravity(g) =>
      ObtainMessage(MsgSetVideoGravity, GravityObj(g))
    case SetExtent(s) =>
      ObtainMessageWithArgs(MsgSetCurrentExtent, s.width, s.height, Null)
    case SetResampleFilter(f) =>
      ObtainMessage(MsgSetResampleFilter, FilterObj(f))
  }

  /**
   * Whether `obj` survives the cast the branch for tag `what` makes: a
   * surface or null under MSG_SET_SURFACE, a boxed Int for the rotation and
   * for createInputSurface's format, the matching enum for the other
   * setters, and anything under MSG_SET_CURRENT_EXTENT, which ignores `obj`.
   */
  predicate ObjFits(what: int32, obj: Obj) {
    if what == MsgSetSurface then obj.Null? || obj.SurfaceObj?
    else if what == MsgCreateInputSurface || what == MsgSetSurfaceOrientation then obj.IntObj?
    else if what == MsgSetImageOrientation then obj.OrientationObj?
    else if what == MsgSetVideoGravity then obj.GravityObj?
    else if what == MsgSetResampleFilter then obj.FilterObj?
    else what == MsgSetCurrentExtent
  }

  /**
   * How handleMessage reads a message: one branch per tag, each casting `obj`
   * to the type its operation expects. A tag outside 0..6 has no branch and
   * faults; under a known tag the message decodes exactly when its `obj`
   * fits the cast; a decoded command always carries the tag it was read from.
   */
  function Decode(m: Message): (r: Result<Command, Fault>)
    ensures r.Success? ==> Tag(r.value) == m.what
    ensures 0 <= m.what <= 6 ==> (r.Success? <==> ObjFits(m.what, m.obj))
    ensures !(0 <= m.what <= 6) ==> r == Failure(UnhandledWhat(m.what))
    ensures r.Failure? && 0 <= m.what <= 6 ==> r == Failure(ClassCast(m.what))
    ensures m.what == MsgSetSurface && m.obj == Null ==> r == Success(SetSurface(None))
    ensures m.what == MsgSetCurrentExtent ==> r == Success(SetExtent(Size(m.arg1, m.arg2)))
  {
    if m.what == MsgSetSurface then
      match m.obj
      case Null => Success(SetSurface(None))
      case SurfaceObj(s) => Success(SetSurface(Some(s)))
      case _ => Failure(ClassCast(m.what))
    else if m.what == MsgSetImageOrientation then
      if m.obj.OrientationObj? then Success(SetImageOrientation(m.obj.orientation))
      else Failure(ClassCast(m.what))
    else if m.what == MsgSetSurfaceOrientation then
      if m.obj.IntObj? then Success(SetSurfaceRotation(m.obj.boxed))
      else Failure(ClassCast(m.what))
    else if m.what == MsgSetVideoGravity then
      if m.obj.GravityObj? then Success(SetVideoGravity(m.obj.gravity))
      else Failure(ClassCast(m.what))
    else if m.what == MsgSetCurrentExtent then
      Success(SetExtent(Size(m.arg1, m.arg2)))
    else if m.what == MsgCreateInputSurface then
      if m.obj.IntObj? then Success(CreateInputSurface(m.arg1, m.arg2, m.obj.boxed))
      else Failure(ClassCast(m.what))
    else if m.what == MsgSetResampleFilter then
      if m.obj.FilterObj? then Success(SetResampleFilter(m.obj.filter))
      else Failure(ClassCast(m.what))
    else
      Failure(UnhandledWhat(m.what))
  }

  /**
   * The other half of the round trip: re-encoding what a message decodes to
   * gives back the message, apart from the slots its branch ignores (arg1
   * and arg2 where the value comes from `obj`, `obj` for the extent).
   */
  lemma DecodeThenEncode(m: Message)
    ensures Decode(m).Success? ==>
      Encode(Decode(m).value) ==
        if m.what == MsgSetCurrentExtent then m.(obj := Null)
        else if m.what == MsgCreateInputSurface then m
        else m.(arg1 := 0, arg2 := 0)
  {
  }

  /** One call the delegate received to its createInputSurface. */
  datatype InputSurfaceRequest = InputSurfaceRequest(width: int32, height: int32, format: int32)

  /**
   * The delegate GlPixelTransform as the handler sees it: its six settable
   * properties, the handler it was bound to, and the createInputSurface calls
   * it has received (its own effect on them is not part of this model).
   */
  datatype PipelineState = PipelineState(
    surface: Option<Surface>,
    imageOrientation: ImageOrientation,
    surfaceRotation: int32,
    videoGravity: VideoGravity,
    extent: Size,
    resampleFilter: ResampleFilter,
    handler: Option<nat>,
    inputSurfaceRequests: seq<InputSurfaceRequest>)

  /** The six properties a message can assign. */
  datatype Property =
    | SurfaceProperty
    | ImageOrientationProperty
    | SurfaceRotationProperty
    | VideoGravityProperty
    | ExtentProperty
    | ResampleFilterProperty

  /** The value of one property. */
  datatype Value =
    | SurfaceValue(surface: Option<Surface>)
    | OrientationValue(orientation: ImageOrientation)
    | RotationValue(rotation: int32)
    | GravityValue(gravity: VideoGravity)
    | ExtentValue(extent: Size)
    | FilterValue(filter: ResampleFilter)

  /** Reading one property of the delegate, as the proxy's getters do. */
  function Get(d: PipelineState, p: Property): Value {
    match p
    case SurfaceProperty => SurfaceValue(d.surface)
    case ImageOrientationProperty => OrientationValue(d.imageOrientation)
    case SurfaceRotationProperty => RotationValue(d.surfaceRotation)
    case VideoGravityProperty => GravityValue(d.videoGravity)
    case ExtentProperty => ExtentValue(d.extent)
    case ResampleFilterProperty => FilterValue(d.resampleFilter)
  }

  /** The property a command assigns; createInputSurface assigns none. */
  function Target(c: Command): Option<Property> {
    match c
    case SetSurface(_) => Some(SurfaceProperty)
    case CreateInputSurface(_, _, _) => None
    case SetImageOrientation(_) => Some(ImageOrientationProperty)
    case SetSurfaceRotation(_) => Some(SurfaceRotationProperty)
    case SetVideoGravity(_) => Some(VideoGravityProperty)
    case SetExtent(_) => Some(ExtentProperty)
    case SetResampleFilter(_) => Some(ResampleFilterProperty)
  }

  /** The value a command carries for the property it assigns. */
  function Written(c: Command): Value
    requires Target(c).Some?
  {
    match c
    case SetSurface(s) => SurfaceValue(s)
    case SetImageOrientation(o) => OrientationValue(o)
    case SetSurfaceRotation(r) => RotationValue(r)
    case SetVideoGravity(g) => GravityValue(g)
    case SetExtent(s) => ExtentValue(s)
    case SetResampleFilter(f) => FilterValue(f)
  }

  /**
   * The effect of one decoded command on the delegate: the property it names
   * takes the carried value and every other property, the handler binding
   * and the earlier input-surface requests stay as they were; a
   * createInputSurface command adds exactly its own request and assigns
   * nothing.
   */
  function Apply(d: PipelineState, c: Command): (r: PipelineState)
    ensures forall p :: Some(p) != Target(c) ==> Get(r, p) == Get(d, p)
    ensures Target(c).Some? ==> Get(r, Target(c).value) == Written(c)
    ensures r.handler == d.handler
    ensures c.CreateInputSurface? ==>
      r.inputSurfaceRequests == d.inputSurfaceRequests + [InputSurfaceRequest(c.width, c.height, c.format)]
    ensures !c.CreateInputSurface? ==> r.inputSurfaceRequests == d.inputSurfaceRequests
  {
    match c
    case SetSurface(s) => d.(surface := s)
    case CreateInputSurface(w, h, f) =>
      d.(inputSurfaceRequests := d.inputSurfaceRequests + [InputSurfaceRequest(w, h, f)])
    case SetImageOrientation(o) => d.(imageOrientation := o)
    case SetSurfaceRotation(r) => d.(surfaceRotation := r)
    case SetVideoGravity(g) => d.(videoGravity := g)
    case SetExtent(s) => d.(extent := s)
    case SetResampleFilter(f) => d.(resampleFilter := f)
  }

  /** The delegate after the commands are applied in order. */
  function ApplyAll(d: PipelineState, cs: seq<Command>): PipelineState
    decreases |cs|
  {
    if cs == [] then d else Apply(ApplyAll(d, cs[..|cs| - 1]), cs[|cs| - 1])
  }

  /** The value the last command in `cs` that assigns `p` carries, if any does. */
  function LastWrite(cs: seq<Command>, p: Property): Option<Value>
    decreases |cs|
  {
    if cs == [] then None
    else if Target(cs[|cs| - 1]) == Some(p) then Some(Written(cs[|cs| - 1]))
    else LastWrite(cs[..|cs| - 1], p)
  }

  /** The createInputSurface requests among `cs`, in order. */
  function Requests(cs: seq<Command>): seq<InputSurfaceRequest>
    decreases |cs|
  {
    if cs == [] then []
    else
      var c := cs[|cs| - 1];
      Requests(cs[..|cs| - 1]) + (if c.CreateInputSurface? then [InputSurfaceRequest(c.width, c.height, c.format)] else [])
  }

  /**
   * Last write wins: after applying a sequence of commands, every property
   * holds the value of the last command that assigned it, or its old value
   * when none did. There is no coalescing and no reordering.
   */
  lemma {:induction false} LastWriteWins(d: PipelineState, cs: seq<Command>, p: Property)
    ensures Get(ApplyAll(d, cs), p) == LastWrite(cs, p).GetOr(Get(d, p))
    decreases |cs|
  {
    if cs != [] {
      LastWriteWins(d, cs[..|cs| - 1], p);
    }
  }

  /**
   * Applying commands never rebinds the handler, and the delegate receives
   * exactly one createInputSurface call per createInputSurface command, in
   * order.
   */
  lemma {:induction false} ApplyAllRequests(d: PipelineState, cs: seq<Command>)
    ensures ApplyAll(d, cs).handler == d.handler
    ensures ApplyAll(d, cs).inputSurfaceRequests == d.inputSurfaceRequests + Requests(cs)
    decreases |cs|
  {
    if cs != [] {
      ApplyAllRequests(d, cs[..|cs| - 1]);
    }
  }

  /**
   * handleMessage on one message: when the weak reference to the delegate is
   * cleared nothing happens whatever the message; otherwise the message is
   * decoded and applied, or the handler throws.
   */
  function Handle(d: PipelineState, alive: bool, m: Message): (r: Result<PipelineState, Fault>)
    ensures !alive ==> r == Success(d)
    ensures alive ==> (r.Success? <==> 0 <= m.what <= 6 && ObjFits(m.what, m.obj))
    ensures r.Success? ==> r.value.handler == d.handler
  {
    if !alive then Success(d)
    else
      match Decode(m)
      case Success(c) => Success(Apply(d, c))
      case Failure(e) => Failure(e)
  }

  /** A queue processed in FIFO order, stopping at the first fault. */
  function Run(d: PipelineState, alive: bool, ms: seq<Message>): (r: Result<PipelineState, Fault>)
    ensures r.Failure? ==> alive
    ensures r.Success? ==> r.value.handler == d.handler
    decreases |ms|
  {
    if ms == [] then Success(d)
    else
      match Run(d, alive, ms[..|ms| - 1])
      case Success(d') => Handle(d', alive, ms[|ms| - 1])
      case Failure(e) => Failure(e)
  }

  /** The messages the setters post for the commands `cs`, in order. */
  function Encoded(cs: seq<Command>): (ms: seq<Message>)
    ensures |ms| == |cs|
    ensures forall i :: 0 <= i < |cs| ==> ms[i] == Encode(cs[i])
  {
    seq(|cs|, i requires 0 <= i < |cs| => Encode(cs[i]))
  }

  /**
   * The queue of messages posted for `cs`, processed against a live delegate,
   * never faults and leaves the delegate as applying `cs` in order would.
   */
  lemma {:induction false} RunEncoded(d: PipelineState, cs: seq<Command>)
    ensures Run(d, true, Encoded(cs)) == Success(ApplyAll(d, cs))
    decreases |cs|
  {
    if cs != [] {
      var ms := Encoded(cs);
      var init := cs[..|cs| - 1];
      assert ms[..|ms| - 1] == Encoded(init);
      RunEncoded(d, init);
    }
  }

  /**
   * Once the weak reference is cleared, any queue, even one holding unknown
   * tags or mistyped payloads, drains without a fault and without touching the
   * delegate.
   */
  lemma {:induction false} RunDead(d: PipelineState, ms: seq<Message>)
    ensures Run(d, false, ms) == Success(d)
    decreases |ms|
  {
    if ms != [] {
      RunDead(d, ms[..|ms| - 1]);
    }
  }

  /** Processing `a` then `b` is processing `a` and continuing with `b` from where `a` left off. */
  lemma {:induction false} RunAppend(d: PipelineState, alive: bool, a: seq<Message>, b: seq<Message>)
    ensures Run(d, alive, a + b) ==
      match Run(d, alive, a)
      case Success(d') => Run(d', alive, b)
      case Failure(e) => Failure(e)
    decreases |b|
  {
    if b == [] {
      assert a + b == a;
    } else {
      var b' := b[..|b| - 1];
      assert (a + b)[..|a + b| - 1] == a + b';
      RunAppend(d, alive, a, b');
    }
  }

  /**
   * A live delegate and a message whose tag has no branch: the worker throws,
   * whatever was processed before it succeeded.
   */
  lemma UnknownTagIsFatal(d: PipelineState, ms: seq<Message>, m: Message)
    requires Run(d, true, ms).Success?
    requires !(0 <= m.what <= 6)
    ensures Run(d, true, ms + [m]) == Failure(UnhandledWhat(m.what))
  {
  }
}
