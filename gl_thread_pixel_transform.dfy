/**
 * GlThreadPixelTransform: a proxy that forwards every mutation of a
 * GlPixelTransform delegate to a dedicated worker thread as a message.
 *
 * The threads are replaced by explicit state. Every Handler the proxy has
 * ever created owns one looper, kept in `loopers` at the handler's index;
 * a looper is a FIFO queue plus a flag saying quitSafely was called on it.
 * The weak reference from the handlers to the delegate is `delegateAlive`,
 * which the garbage collector may clear at any moment (`CollectDelegate`).
 * Delivering the head message of a looper is the explicit step
 * `ProcessNext`; `Drain` repeats it until the queue is empty.
 */
module GlThread {
  import opened Wrappers
  import opened PixelTransformMessage

  /** The message queue of one HandlerThread, and whether it was asked to quit. */
  datatype Looper = Looper(queue: seq<Message>, quitting: bool) {

    /** A quitting looper whose queue is empty has exited its loop. */
    predicate Terminated() {
      quitting && queue == []
    }
  }

  /** Handler.sendMessage: a looper that is quitting refuses new messages. */
  function Enqueue(ls: seq<Looper>, h: nat, m: Message): (r: seq<Looper>)
    requires h < |ls|
    ensures |r| == |ls|
    ensures forall i :: 0 <= i < |ls| && i != h ==> r[i] == ls[i]
    ensures r[h].quitting == ls[h].quitting
    ensures r[h].queue == if ls[h].quitting then ls[h].queue else ls[h].queue + [m]
  {
    if ls[h].quitting then ls else ls[h := ls[h].(queue := ls[h].queue + [m])]
  }

  /** The two notifications PixelTransform.Listener receives. */
  datatype Notification =
    | SetUpNotification(source: object)
    | InputSurfaceCreatedNotification(source: object, surface: Surface)

  /** An external listener, seen as the notifications it has received. */
  class Listener {
    var received: seq<Notification>

    constructor()
      ensures received == []
    {
      received := [];
    }
  }

  class GlThreadPixelTransform {
    /** The delegate pipeline, touched only by handlers. */
    var delegate: PipelineState
    /** Whether the handlers' weak reference to the delegate still resolves. */
    var delegateAlive: bool
    /** The backing field of the lazy `handler` property: an index into `loopers`. */
    var handler: Option<nat>
    /** The looper of every handler created so far, by handler index. */
    var loopers: seq<Looper>
    /** The external listener the delegate's notifications are relayed to. */
    var listener: Listener?

    /**
     * Handler indices are in range, and at most one looper is running: every
     * looper other than the current handler's has been asked to quit.
     */
    ghost predicate Valid()
      reads this
    {
      && (handler.Some? ==> handler.value < |loopers|)
      && (delegate.handler.Some? ==> delegate.handler.value < |loopers|)
      && (forall i :: 0 <= i < |loopers| && Some(i) != handler ==> loopers[i].quitting)
    }

    /** A proxy over a freshly built delegate: no handler and no worker yet. */
    constructor(initial: PipelineState)
      requires initial.handler == None
      ensures Valid()
      ensures delegate == initial && delegateAlive
      ensures handler == None && loopers == [] && listener == null
    {
      delegate := initial;
      delegateAlive := true;
      handler := None;
      loopers := [];
      listener := null;
    }

    // The property getters read the delegate directly, never through the
    // queue, and being functions they cannot create a handler.

    function GetSurface(): (r: Option<Surface>)
      reads this
      ensures Get(delegate, SurfaceProperty) == SurfaceValue(r)
    {
      delegate.surface
    }

    function GetImageOrientation(): (r: ImageOrientation)
      reads this
      ensures Get(delegate, ImageOrientationProperty) == OrientationValue(r)
    {
      delegate.imageOrientation
    }

    function GetSurfaceRotation(): (r: int32)
      reads this
      ensures Get(delegate, SurfaceRotationProperty) == RotationValue(r)
    {
      delegate.surfaceRotation
    }

    function GetVideoGravity(): (r: VideoGravity)
      reads this
      ensures Get(delegate, VideoGravityProperty) == GravityValue(r)
    {
      delegate.videoGravity
    }

    function GetExtent(): (r: Size)
      reads this
      ensures Get(delegate, ExtentProperty) == ExtentValue(r)
    {
      delegate.extent
    }

    function GetResampleFilter(): (r: ResampleFilter)
      reads this
      ensures Get(delegate, ResampleFilterProperty) == FilterValue(r)
    {
      delegate.resampleFilter
    }

    /**
     * What reading `handler` does: with no handler, a new one with a new,
     * running looper is created and bound to the delegate; otherwise the
     * existing one is returned and nothing changes.
     */
    twostate predicate HandlerObtained(h: nat)
      reads this
    {
      && handler == Some(h)
      && (old(handler).Some? ==>
            && h == old(handler).value
            && loopers == old(loopers)
            && delegate == old(delegate))
      && (old(handler).None? ==>
            && h == |old(loopers)|
            && loopers == old(loopers) + [Looper([], false)]
            && delegate == old(delegate).(handler := Some(h)))
      && delegateAlive == old(delegateAlive)
      && listener == old(listener)
    }

    /** The lazy getter of `handler`: it never returns null. */
    method GetHandler() returns (h: nat)
      requires Valid()
      modifies this
      ensures Valid() && HandlerObtained(h)
    {
      if handler.None? {
        h := |loopers|;
        loopers := loopers + [Looper([], false)];
        handler := Some(h);
        delegate := delegate.(handler := handler);
      } else {
        h := handler.value;
      }
    }

    /**
     * The setter of `handler`: quitSafely on the old handler's looper, which
     * keeps every message already queued, then store the new value.
     */
    method SetHandler(value: Option<nat>)
      requires Valid()
      requires value.Some? ==> value.value < |loopers|
      modifies this
      ensures Valid()
      ensures handler == value
      ensures old(handler).Some? ==>
        loopers == old(loopers)[old(handler).value := old(loopers)[old(handler).value].(quitting := true)]
      ensures old(handler).None? ==> loopers == old(loopers)
      ensures delegate == old(delegate) && delegateAlive == old(delegateAlive) && listener == old(listener)
    {
      if handler.Some? {
        var current := handler.value;
        loopers := loopers[current := loopers[current].(quitting := true)];
      }
      handler := value;
    }

    /** Handler.sendMessage on handler `h`. */
    method Send(h: nat, m: Message)
      requires Valid() && h < |loopers|
      modifies this
      ensures Valid()
      ensures loopers == Enqueue(old(loopers), h, m)
      ensures handler == old(handler) && delegate == old(delegate)
      ensures delegateAlive == old(delegateAlive) && listener == old(listener)
    {
      loopers := Enqueue(loopers, h, m);
    }

    /**
     * What every setter does: obtain the handler (creating it if needed) and
     * post one message, the encoding of `c`, to its looper, unless that
     * looper is quitting and drops it. The delegate's properties do not
     * change at call time.
     */
    twostate predicate Posted(c: Command)
      reads this
    {
      && handler.Some?
      && (old(handler).Some? ==> handler == old(handler))
      && (old(handler).None? ==> handler == Some(|old(loopers)|))
      && (var created := if old(handler).None? then [Looper([], false)] else [];
          && handler.value < |old(loopers) + created|
          && loopers == Enqueue(old(loopers) + created, handler.value, Encode(c)))
      && delegate == old(delegate).(handler := if old(handler).None? then handler else old(delegate.handler))
      && delegateAlive == old(delegateAlive)
      && listener == old(listener)
    }

    method Post(c: Command)
      requires Valid()
      modifies this
      ensures Valid() && Posted(c)
    {
      var h := GetHandler();
      Send(h, Encode(c));
    }

    method SetSurface(value: Option<Surface>)
      requires Valid()
      modifies this
      ensures Valid() && Posted(PixelTransformMessage.SetSurface(value))
    {
      Post(PixelTransformMessage.SetSurface(value));
    }

    method SetImageOrientation(value: ImageOrientation)
      requires Valid()
      modifies this
      ensures Valid() && Posted(PixelTransformMessage.SetImageOrientation(value))
    {
      Post(PixelTransformMessage.SetImageOrientation(value));
    }

    method SetSurfaceRotation(value: int32)
      requires Valid()
      modifies this
      ensures Valid() && Posted(PixelTransformMessage.SetSurfaceRotation(value))
    {
      Post(PixelTransformMessage.SetSurfaceRotation(value));
    }

    method SetVideoGravity(value: VideoGravity)
      requires Valid()
      modifies this
      ensures Valid() && Posted(PixelTransformMessage.SetVideoGravity(value))
    {
      Post(PixelTransformMessage.SetVideoGravity(value));
    }

    method SetExtent(value: Size)
      requires Valid()
      modifies this
      ensures Valid() && Posted(PixelTransformMessage.SetExtent(value))
    {
      Post(PixelTransformMessage.SetExtent(value));
    }

    method SetResampleFilter(value: ResampleFilter)
      requires Valid()
      modifies this
      ensures Valid() && Posted(PixelTransformMessage.SetResampleFilter(value))
    {
      Post(PixelTransformMessage.SetResampleFilter(value));
    }

    /** Asynchronous: the request reaches the delegate when the worker processes it. */
    method CreateInputSurface(width: int32, height: int32, format: int32)
      requires Valid()
      modifies this
      ensures Valid() && Posted(PixelTransformMessage.CreateInputSurface(width, height, format))
    {
      Post(PixelTransformMessage.CreateInputSurface(width, height, format));
    }

    /**
     * Handler.handleMessage. With the weak reference cleared it returns at
     * once. Otherwise it branches on the tag and assigns the one delegate
     * field the tag names, casting `obj` as it goes; an unknown tag or a
     * failed cast throws, reported here as a Failure, with the delegate
     * untouched.
     */
    method HandleMessage(m: Message) returns (r: Result<(), Fault>)
      requires Valid()
      modifies this
      ensures Valid()
      ensures !old(delegateAlive) ==> r.Success? && delegate == old(delegate)
      ensures old(delegateAlive) ==>
        match Decode(m)
        case Success(c) => r.Success? && delegate == Apply(old(delegate), c)
        case Failure(e) => r == Failure(e) && delegate == old(delegate)
      ensures handler == old(handler) && loopers == old(loopers)
      ensures delegateAlive == old(delegateAlive) && listener == old(listener)
    {
      if !delegateAlive {
        return Success(());
      }
      if m.what == MsgSetSurface {
        match m.obj {
          case Null =>
            delegate := delegate.(surface := None);
          case SurfaceObj(s) =>
            delegate := delegate.(surface := Some(s));
          case _ =>
            return Failure(ClassCast(m.what));
        }
      } else if m.what == MsgSetImageOrientation {
        if !m.obj.OrientationObj? {
          return Failure(ClassCast(m.what));
        }
        delegate := delegate.(imageOrientation := m.obj.orientation);
      } else if m.what == MsgSetSurfaceOrientation {
        if !m.obj.IntObj? {
          return Failure(ClassCast(m.what));
        }
        delegate := delegate.(surfaceRotation := m.obj.boxed);
      } else if m.what == MsgSetVideoGravity {
        if !m.obj.GravityObj? {
          return Failure(ClassCast(m.what));
        }
        delegate := delegate.(videoGravity := m.obj.gravity);
      } else if m.what == MsgSetCurrentExtent {
        delegate := delegate.(extent := Size(m.arg1, m.arg2));
      } else if m.what == MsgCreateInputSurface {
        if !m.obj.IntObj? {
          return Failure(ClassCast(m.what));
        }
        var request := InputSurfaceRequest(m.arg1, m.arg2, m.obj.boxed);
        delegate := delegate.(inputSurfaceRequests := delegate.inputSurfaceRequests + [request]);
      } else if m.what == MsgSetResampleFilter {
        if !m.obj.FilterObj? {
          return Failure(ClassCast(m.what));
        }
        delegate := delegate.(resampleFilter := m.obj.filter);
      } else {
        return Failure(UnhandledWhat(m.what));
      }
      r := Success(());
    }

    /**
     * The looper of handler `id` delivers its head message: the message
     * leaves the queue and the handler processes it. A quitting looper keeps
     * delivering until its queue is empty.
     */
    method ProcessNext(id: nat) returns (r: Result<(), Fault>)
      requires Valid() && id < |loopers| && loopers[id].queue != []
      modifies this
      ensures Valid()
      ensures loopers == old(loopers)[id := old(loopers)[id].(queue := old(loopers)[id].queue[1..])]
      ensures match Handle(old(delegate), old(delegateAlive), old(loopers)[id].queue[0])
        case Success(d) => r.Success? && delegate == d
        case Failure(e) => r == Failure(e) && delegate == old(delegate)
      ensures handler == old(handler) && delegateAlive == old(delegateAlive) && listener == old(listener)
    {
      var m := loopers[id].queue[0];
      loopers := loopers[id := loopers[id].(queue := loopers[id].queue[1..])];
      r := HandleMessage(m);
    }

    /**
     * Let the looper of handler `id` run until its queue is empty or the
     * handler throws. The delegate ends as processing the old queue in FIFO
     * order leaves it; on a fault the worker stops there.
     */
    method Drain(id: nat) returns (r: Result<(), Fault>)
      requires Valid() && id < |loopers|
      modifies this
      ensures Valid()
      ensures |loopers| == |old(loopers)| && loopers[id].quitting == old(loopers)[id].quitting
      ensures match Run(old(delegate), old(delegateAlive), old(loopers)[id].queue)
        case Success(d) => r.Success? && delegate == d && loopers[id].queue == []
        case Failure(e) => r == Failure(e)
      ensures r.Success? && old(loopers)[id].quitting ==> loopers[id].Terminated()
      ensures forall i :: 0 <= i < |loopers| && i != id ==> loopers[i] == old(loopers)[i]
      ensures handler == old(handler) && delegateAlive == old(delegateAlive) && listener == old(listener)
    {
      ghost var queue0 := loopers[id].queue;
      ghost var done := 0;
      r := Success(());
      while loopers[id].queue != []
        invariant Valid() && |loopers| == |old(loopers)| && r.Success?
        invariant 0 <= done <= |queue0| && loopers[id].queue == queue0[done..]
        invariant loopers[id].quitting == old(loopers)[id].quitting
        invariant forall i :: 0 <= i < |loopers| && i != id ==> loopers[i] == old(loopers)[i]
        invariant Run(old(delegate), old(delegateAlive), queue0[..done]) == Success(delegate)
        invariant handler == old(handler) && delegateAlive == old(delegateAlive) && listener == old(listener)
        decreases |loopers[id].queue|
      {
        ghost var before := delegate;
        r := ProcessNext(id);
        assert queue0[..done + 1] == queue0[..done] + [queue0[done]];
        RunAppend(old(delegate), delegateAlive, queue0[..done], [queue0[done]]);
        RunAppend(old(delegate), delegateAlive, queue0[..done + 1], queue0[done + 1..]);
        assert queue0[..done + 1] + queue0[done + 1..] == queue0;
        done := done + 1;
        if r.Failure? {
          return;
        }
      }
      assert queue0[..done] == queue0;
    }

    /** The garbage collector clears the handlers' weak reference to the delegate. */
    method CollectDelegate()
      modifies this
      ensures !delegateAlive
      ensures delegate == old(delegate) && handler == old(handler) && loopers == old(loopers)
      ensures listener == old(listener)
    {
      delegateAlive := false;
    }

    /** onPixelTransformSetUp: relayed to the listener, with this proxy as the source. */
    method OnPixelTransformSetUp(origin: object)
      modifies listener
      ensures listener != null ==> listener.received == old(listener.received) + [SetUpNotification(this)]
    {
      if listener != null {
        listener.received := listener.received + [SetUpNotification(this)];
      }
    }

    /**
     * onPixelTransformInputSurfaceCreated: relayed to the listener with this
     * proxy as the source and the surface unchanged.
     */
    method OnPixelTransformInputSurfaceCreated(origin: object, surface: Surface)
      modifies listener
      ensures listener != null ==>
        listener.received == old(listener.received) + [InputSurfaceCreatedNotification(this, surface)]
    {
      if listener != null {
        listener.received := listener.received + [InputSurfaceCreatedNotification(this, surface)];
      }
    }
  }
  /**
   * Two extents posted one after the other: reading a property first creates
   * no worker, and once the worker has drained its queue the delegate shows
   * the second extent.
   */
  method LastExtentWins(initial: PipelineState) returns (observed: Size)
    requires initial.handler == None
    ensures observed == Size(1280, 720)
  {
    var proxy := new GlThreadPixelTransform(initial);
    var before := proxy.GetExtent();
    assert before == initial.extent && proxy.handler == None && proxy.loopers == [];
    proxy.SetExtent(Size(1920, 1080));
    proxy.SetExtent(Size(1280, 720));
    var cs := [SetExtent(Size(1920, 1080)), SetExtent(Size(1280, 720))];
    assert proxy.loopers[0].queue == Encoded(cs);
    RunEncoded(proxy.delegate, cs);
    var r := proxy.Drain(0);
    observed := proxy.GetExtent();
  }

  /**
   * A rotation posted and the delegate collected before the worker runs: the
   * message is processed without a fault and the delegate is not touched.
   */
  method CollectedBeforeProcessing(initial: PipelineState) returns (r: Result<(), Fault>, after: PipelineState)
    requires initial.handler == None
    ensures r.Success? && after == initial.(handler := Some(0))
  {
    var proxy := new GlThreadPixelTransform(initial);
    proxy.SetSurfaceRotation(90);
    proxy.CollectDelegate();
    RunDead(proxy.delegate, proxy.loopers[0].queue);
    r := proxy.Drain(0);
    after := proxy.delegate;
  }

  /**
   * createInputSurface between two extents reaches the delegate exactly
   * once, with exactly the arguments it was called with, and the later
   * extent is the one the delegate keeps.
   */
  method InputSurfaceInOrder(initial: PipelineState, format: int32)
    returns (requests: seq<InputSurfaceRequest>, extent: Size)
    requires initial.handler == None
    ensures requests == initial.inputSurfaceRequests + [InputSurfaceRequest(1280, 720, format)]
    ensures extent == Size(640, 480)
  {
    var proxy := new GlThreadPixelTransform(initial);
    proxy.SetExtent(Size(1920, 1080));
    proxy.CreateInputSurface(1280, 720, format);
    proxy.SetExtent(Size(640, 480));
    var cs := [SetExtent(Size(1920, 1080)), CreateInputSurface(1280, 720, format), SetExtent(Size(640, 480))];
    assert proxy.loopers[0].queue == Encoded(cs);
    RunEncoded(proxy.delegate, cs);
    ApplyAllRequests(proxy.delegate, cs);
    assert cs[..2] == cs[..2][..1] + [cs[1]] && cs[..2][..1] == [cs[0]] && [cs[0]][..0] == [];
    assert Requests(cs[..2][..1]) == [];
    assert Requests(cs[..2]) == [InputSurfaceRequest(1280, 720, format)];
    assert Requests(cs) == [InputSurfaceRequest(1280, 720, format)];
    var r := proxy.Drain(0);
    requests := proxy.delegate.inputSurfaceRequests;
    extent := proxy.GetExtent();
  }
}
