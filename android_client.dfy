/**
 * The Android client's activity controller as the source writes it: the
 * `AppData` record whose flags the event handlers update in place, the
 * window-wait loop, the poll/process-frame loop and the `run` sequence.
 * Each method is proved against the value-level definitions of module
 * Lifecycle, whose properties are proved there. The ghost field `trace`
 * records the external calls in order.
 */
module AndroidClient {
  import opened Common
  import opened DeviceInfo
  import opened Lifecycle

  class AppData {
    var destroyRequested: bool
    var resumed: bool
    var gainedFocus: bool
    var windowInited: bool
    var sysProperties: Option<SystemProperties>
    /** The external calls made so far, in order. */
    ghost var trace: seq<Call>

    function State(): AppState
      reads this
    {
      AppState(destroyRequested, resumed, gainedFocus, windowInited, sysProperties)
    }

    constructor ()
      ensures State() == INITIAL && trace == []
    {
      destroyRequested, resumed, gainedFocus, windowInited := false, false, false, false;
      sysProperties := None;
      trace := [];
    }

    /** `pause`: clear `resumed`; shut the session down if there is one;
        always notify the engine and release the wifi lock. */
    method Pause()
      modifies this
      ensures !resumed
      ensures destroyRequested == old(destroyRequested) && gainedFocus == old(gainedFocus)
      ensures windowInited == old(windowInited) && sysProperties == old(sysProperties)
      ensures trace == old(trace) + (if old(sysProperties).Some? then [Shutdown] else []) + [OnPause, ReleaseWifi]
      ensures State() == PauseEffect(old(State())).next && trace == old(trace) + PauseEffect(old(State())).calls
    {
      resumed := false;
      if sysProperties.Some? {
        trace := trace + [Shutdown];
      }
      trace := trace + [OnPause];
      trace := trace + [ReleaseWifi];
    }

    /** `resume`: take the wifi lock, notify the engine, re-establish the
        connections if there is a session (never a full `Init`), set `resumed`. */
    method Resume()
      modifies this
      ensures resumed
      ensures destroyRequested == old(destroyRequested) && gainedFocus == old(gainedFocus)
      ensures windowInited == old(windowInited) && sysProperties == old(sysProperties)
      ensures trace == old(trace) + [AcquireWifi, OnResume]
                       + (if old(sysProperties).Some? then [InitConnections(old(sysProperties).value)] else [])
      ensures State() == ResumeEffect(old(State())).next && trace == old(trace) + ResumeEffect(old(State())).calls
    {
      trace := trace + [AcquireWifi];
      trace := trace + [OnResume];
      if sysProperties.Some? {
        trace := trace + [InitConnections(sysProperties.value)];
      }
      resumed := true;
    }

    /** `handle_lifecycle_event`. `ok` is false when the resize handler
        unwraps a missing native window (a panic). */
    method HandleLifecycleEvent(e: PollEvent, window: Option<Window>) returns (ok: bool)
      modifies this
      ensures e == Main(InitWindow) ==> State() == old(State()).(windowInited := true) && trace == old(trace)
      ensures e == Main(MainEvent.Destroy) ==> State() == old(State()).(destroyRequested := true) && trace == old(trace)
      ensures e == Main(GainedFocus) ==> State() == old(State()).(gainedFocus := true) && trace == old(trace)
      ensures e == Main(LostFocus) ==> State() == old(State()).(gainedFocus := false) && trace == old(trace)
      ensures !(e.Main? && e.event in {InitWindow, MainEvent.Destroy, GainedFocus, LostFocus, MainEvent.Pause, MainEvent.Resume}) ==>
                State() == old(State()) && trace == old(trace)
      ensures ok <==> !(e == Main(WindowResized) && window.None?)
      ensures old(windowInited) ==> windowInited
      ensures old(destroyRequested) ==> destroyRequested
      ensures var r := React(old(State()), e, window.Some?);
                State() == r.next && trace == old(trace) + r.calls && ok == !r.panicked
    {
      ok := true;
      match e {
        case Main(m) =>
          match m {
            case InitWindow => windowInited := true;
            case WindowResized =>
              // `android_app.native_window().unwrap()` before logging the size.
              ok := window.Some?;
            case LostFocus => gainedFocus := false;
            case GainedFocus => gainedFocus := true;
            case Pause => Pause();
            case Resume => Resume();
            case Destroy => destroyRequested := true;
            case _ =>
          }
        case _ =>
      }
    }

    /** The first `i` events of the batch have been handled from `start`,
        with the calls appended to `calls0`. */
    ghost predicate DrainedTo(start: AppState, calls0: seq<Call>, batch: seq<PollEvent>, i: nat, hasWindow: bool, ok: bool)
      reads this
      requires i <= |batch|
    {
      var d := Drain(start, batch[..i], hasWindow);
      State() == d.next && trace == calls0 + d.calls && ok == !d.panicked
    }

    /** The callback on the next event of the batch. */
    method HandleNext(batch: seq<PollEvent>, i: nat, window: Option<Window>, ghost start: AppState, ghost calls0: seq<Call>)
      returns (ok: bool)
      requires i < |batch| && DrainedTo(start, calls0, batch, i, window.Some?, true)
      modifies this
      ensures DrainedTo(start, calls0, batch, i + 1, window.Some?, ok)
    {
      DrainStep(start, batch, i, window.Some?);
      ok := HandleLifecycleEvent(batch[i], window);
    }

    /** One `poll_events` call: the callback handles each delivered event in
        order; a panic ends it. */
    method PollEvents(batch: seq<PollEvent>, window: Option<Window>) returns (ok: bool)
      modifies this
      ensures var d := Drain(old(State()), batch, window.Some?);
                State() == d.next && trace == old(trace) + d.calls && ok == !d.panicked
    {
      ghost var start, calls0 := State(), trace;
      ok := true;
      var i := 0;
      assert DrainedTo(start, calls0, batch, 0, window.Some?, true);
      while i < |batch| && ok
        invariant 0 <= i <= |batch|
        invariant DrainedTo(start, calls0, batch, i, window.Some?, ok)
      {
        ok := HandleNext(batch, i, window, start, calls0);
        i := i + 1;
      }
      if ok {
        assert batch[..i] == batch;
      } else {
        DrainAfterPanic(start, batch, i, window.Some?);
      }
    }
  }

  /** `wait_until_window_init`: poll (with a timeout) until destroy is
      requested or the window is initialised. Returns the polls not yet
      used and false if a handler panicked. */
  method WaitUntilWindowInit(app: AppData, polls: seq<seq<PollEvent>>, window: Option<Window>)
    returns (rest: seq<seq<PollEvent>>, ok: bool)
    modifies app
    ensures var w := Wait(old(app.State()), old(app.trace), polls, window.Some?);
              app.State() == w.state && app.trace == w.calls && rest == w.rest && ok == !w.panicked
  {
    ghost var goal := Wait(app.State(), app.trace, polls, window.Some?);
    var i := 0;
    ok := true;
    while !app.destroyRequested && !app.windowInited && i < |polls| && ok
      invariant 0 <= i <= |polls|
      invariant ok ==> Wait(app.State(), app.trace, polls[i..], window.Some?) == goal
      invariant !ok ==> goal == WaitEnd(app.State(), app.trace, polls[i..], true)
      decreases |polls| - i
    {
      ok := app.PollEvents(polls[i], window);
      assert polls[i..][1..] == polls[i + 1..];
      i := i + 1;
    }
    rest := polls[i..];
  }

  /** The loop of `run`: while destroy is not requested, drain pending events
      without waiting, then process one frame, leaving the loop if the frame
      asks to exit. `window` is the native window, which exists here. */
  method RunLoop(app: AppData, polls: seq<seq<PollEvent>>, frames: seq<FrameResult>, window: Window)
    returns (exit: LoopExit)
    modifies app
    ensures var l := Loop(old(app.State()), old(app.trace), polls, frames);
              app.State() == l.state && app.trace == l.calls && exit == l.exit
  {
    ghost var goal := Loop(app.State(), app.trace, polls, frames);
    var p, f := polls, frames;
    exit := DestroyRequested;
    while !app.destroyRequested
      invariant Loop(app.State(), app.trace, p, f) == goal
      decreases |f|
    {
      ghost var before := app.State();
      var ok := app.PollEvents(if p == [] then [] else p[0], Some(window));
      DrainWithWindowNeverPanics(before, if p == [] then [] else p[0]);
      p := RestPolls(p);
      if f == [] {
        // The model's frame results are used up.
        exit := FramesUsedUp;
        return;
      }
      var frame := f[0];
      f := f[1..];
      app.trace := app.trace + [ProcessFrame];
      if frame.exitRenderLoop {
        exit := EngineExit;
        return;
      }
    }
  }

  /** The device-dependent fields of the init descriptor: sRGB
      linearisation is disabled by the option or on a Lynx device (the
      device is inspected only when the option is off), and the firmware
      version comes from the build properties. */
  method BuildDescriptor(inp: RunInput) returns (ctx: InitDescriptor, consulted: seq<string>)
    ensures ctx.disableLinearizeSrgb <==> inp.noLinearizeSrgb || DeviceMatches("Lynx", inp.buildProp)
    ensures ctx.firmwareVersion == FirmwareVersionOf(inp.buildProp, inp.parseVersion)
    ensures ctx == Descriptor(inp)
    ensures consulted == (if inp.noLinearizeSrgb then [] else DEVICE_PROPERTIES)
                         + (if inp.parseVersion(inp.buildProp("ID")).Some? then ["ID"] else ["ID", "DISPLAY"])
  {
    var lynx := false;
    consulted := [];
    if !inp.noLinearizeSrgb {
      var names;
      lynx, names := IsDevice("Lynx", inp.buildProp);
      consulted := consulted + names;
    }
    var firmware, versionProps := GetFirmwareVersion(inp.buildProp, inp.parseVersion);
    consulted := consulted + versionProps;
    ctx := InitDescriptor(inp.noLinearizeSrgb || lynx, firmware);
  }

  /** The rest of `run` once the window is initialised: build the init
      descriptor, initialise the engine, override the eye size, connect,
      run the loop, then shut down and destroy. `w` is where the wait ended. */
  method StartSession(app: AppData, inp: RunInput, ghost w: WaitEnd, rest: seq<seq<PollEvent>>)
    returns (outcome: RunOutcome)
    requires inp.window.Some?
    requires app.State() == w.state && app.trace == w.calls && rest == w.rest
    modifies app
    ensures var r := SessionPhase(inp, w);
              outcome == r.outcome && app.State() == r.state && app.trace == r.calls
  {
    var ctx, _ := BuildDescriptor(inp);
    app.trace := app.trace + [Init(ctx)];
    if inp.initResult.None? {
      return InitFailed;
    }
    ghost var stateAtConnect, traceAtConnect;
    outcome, stateAtConnect, traceAtConnect := EnterSession(app, inp, w, rest);
  }

  /** `run` after a successful `alxr_init`: override the recommended eye
      size from the window, connect, store the properties, run the loop,
      then shut down and destroy. `stateAtConnect` and `traceAtConnect`
      record the state and the calls at the moment `InitConnections` is
      made: the state is still the one the wait left, so the properties
      are stored only after connecting. */
  method EnterSession(app: AppData, inp: RunInput, ghost w: WaitEnd, rest: seq<seq<PollEvent>>)
    returns (outcome: RunOutcome, ghost stateAtConnect: AppState, ghost traceAtConnect: seq<Call>)
    requires inp.window.Some? && inp.initResult.Some?
    requires app.State() == w.state && app.trace == w.calls + [Init(Descriptor(inp))] && rest == w.rest
    modifies app
    ensures var r := SessionPhase(inp, w);
              outcome == r.outcome && app.State() == r.state && app.trace == r.calls
    ensures stateAtConnect == w.state
    ensures traceAtConnect
            == w.calls + [Init(Descriptor(inp)), InitConnections(PreferredEyeSize(inp.initResult.value, inp.window.value))]
  {
    var window := inp.window.value;
    var props := inp.initResult.value;
    props := props.(recommendedEyeWidth := AsU32(TruncDiv(window.width, 2)),
                    recommendedEyeHeight := AsU32(window.height));
    assert props == PreferredEyeSize(inp.initResult.value, window);
    app.trace := app.trace + [InitConnections(props)];
    stateAtConnect, traceAtConnect := app.State(), app.trace;
    app.sysProperties := Some(props);
    ghost var l := Loop(app.State(), app.trace, rest, inp.frames);
    assert l == Loop(w.state.(sysProperties := Some(props)), w.calls + [Init(Descriptor(inp))] + [InitConnections(props)], w.rest, inp.frames);
    assert SessionPhase(inp, w) == if l.exit == FramesUsedUp then RunEnd(RunFramesUsedUp, l.state, l.calls)
                                   else RunEnd(Finished(l.exit), l.state, l.calls + [Shutdown, Call.Destroy]);
    var exit := RunLoop(app, rest, inp.frames, window);
    assert app.State() == l.state && app.trace == l.calls && exit == l.exit;
    if exit == FramesUsedUp {
      outcome := RunFramesUsedUp;
      return;
    }
    app.trace := app.trace + [Shutdown];
    app.trace := app.trace + [Call.Destroy];
    outcome := Finished(exit);
  }

  /** `run`: start up, wait for the window, then run the session. */
  method Run(inp: RunInput) returns (outcome: RunOutcome, app: AppData)
    ensures var r := RunSpec(inp);
              outcome == r.outcome && app.State() == r.state && app.trace == r.calls
  {
    app := new AppData();
    if !inp.startupOk {
      // Loading the OpenXR loader, attaching to the VM or the permission check failed.
      return StartupFailed, app;
    }
    var rest, ok := WaitUntilWindowInit(app, inp.polls, inp.window);
    ghost var w := WaitPhase(inp);
    if !ok {
      return Panicked, app;
    }
    if !app.destroyRequested && !app.windowInited {
      return EventsUsedUp, app;
    }
    if app.destroyRequested || inp.window.None? {
      return NoWindow, app;
    }
    outcome := StartSession(app, inp, w, rest);
  }
}
