/**
 * Value-level specification of the Android activity controller of the ALXR
 * client: the five-flag application state, its reaction to each platform
 * event, the window-wait loop, the poll/process-frame loop and the whole
 * `run` sequence. Every external call the controller makes (wifi lock,
 * engine notifications, init, frame processing, teardown) is recorded in a
 * list of `Call`s, so the properties below are statements about flag values
 * and call order.
 *
 * Platform input is given up front: `polls[k]` is the batch of events that
 * the k-th `poll_events` call delivers (empty for a timeout), and
 * `frames[k]` is what the k-th `process_frame` call reports. Because these
 * lists are finite, a run can also stop because they are used up; the
 * source would instead keep polling.
 */
module Lifecycle {
  import opened Common
  import opened DeviceInfo

  /** The `android_activity` main events the controller can receive. */
  datatype MainEvent =
    | InitWindow | TerminateWindow | WindowResized | RedrawNeeded | ContentRectChanged
    | GainedFocus | LostFocus | ConfigChanged | LowMemory
    | Start | Resume | SaveState | Pause | Stop | Destroy | InsetsChanged | InputAvailable

  datatype PollEvent = Wake | Timeout | Main(event: MainEvent)

  /** The native window as the platform reports it (sizes are `i32`). */
  datatype Window = Window(width: i32, height: i32)

  /** The part of the engine's system properties this controller touches. */
  datatype SystemProperties = SystemProperties(systemName: string, recommendedEyeWidth: u32, recommendedEyeHeight: u32)

  /** The fields of the init descriptor that are computed from device inspection. */
  datatype InitDescriptor = InitDescriptor(disableLinearizeSrgb: bool, firmwareVersion: Version)

  /** External calls, in the order they are made. */
  datatype Call =
    | AcquireWifi | ReleaseWifi
    | OnPause | OnResume
    | Shutdown | InitConnections(props: SystemProperties)
    | Init(ctx: InitDescriptor) | ProcessFrame | Destroy

  /** `AppData`. */
  datatype AppState = AppState(
    destroyRequested: bool,
    resumed: bool,
    gainedFocus: bool,
    windowInited: bool,
    sysProperties: Option<SystemProperties>)

  const INITIAL: AppState := AppState(false, false, false, false, None)

  /** What handling some events did: the new state, the calls made, and
      whether a handler panicked (after which nothing more happens). */
  datatype Effect = Effect(next: AppState, calls: seq<Call>, panicked: bool)

  /** `pause`: only `resumed` changes, to false; a session is shut down
      first, then the engine is told and the wifi lock released. */
  function PauseEffect(s: AppState): (r: Effect)
    ensures !r.next.resumed && !r.panicked
    ensures r.next.gainedFocus == s.gainedFocus && r.next.windowInited == s.windowInited
    ensures r.next.destroyRequested == s.destroyRequested && r.next.sysProperties == s.sysProperties
    ensures |r.calls| >= 2 && r.calls[|r.calls| - 2] == OnPause && r.calls[|r.calls| - 1] == ReleaseWifi
    ensures |r.calls| == if s.sysProperties.Some? then 3 else 2
    ensures s.sysProperties.Some? ==> r.calls[0] == Shutdown
  {
    if s.sysProperties.Some? then Effect(s.(resumed := false), [Shutdown, OnPause, ReleaseWifi], false)
    else Effect(s.(resumed := false), [OnPause, ReleaseWifi], false)
  }

  /** `resume`: only `resumed` changes, to true; the wifi lock is taken and
      the engine told, then a session reconnects (and nothing else: in
      particular `Init` is not repeated). */
  function ResumeEffect(s: AppState): (r: Effect)
    ensures r.next.resumed && !r.panicked
    ensures r.next.gainedFocus == s.gainedFocus && r.next.windowInited == s.windowInited
    ensures r.next.destroyRequested == s.destroyRequested && r.next.sysProperties == s.sysProperties
    ensures |r.calls| >= 2 && r.calls[0] == AcquireWifi && r.calls[1] == OnResume
    ensures |r.calls| == if s.sysProperties.Some? then 3 else 2
    ensures s.sysProperties.Some? ==> r.calls[2] == InitConnections(s.sysProperties.value)
  {
    Effect(s.(resumed := true),
           [AcquireWifi, OnResume] + (if s.sysProperties.Some? then [InitConnections(s.sysProperties.value)] else []),
           false)
  }

  /** `handle_lifecycle_event`. `hasWindow` says whether the platform has a
      native window; the resize handler unwraps it and panics without one.
      `InitWindow` and `Destroy` set their latch and nothing clears one;
      `sysProperties` is untouched; the only panic is a resize without a
      native window. */
  function React(s: AppState, e: PollEvent, hasWindow: bool): (r: Effect)
    ensures r.next.windowInited <==> s.windowInited || e == Main(InitWindow)
    ensures r.next.destroyRequested <==> s.destroyRequested || e == Main(MainEvent.Destroy)
    ensures r.next.sysProperties == s.sysProperties
    ensures r.panicked <==> e == Main(WindowResized) && !hasWindow
  {
    match e
    case Main(InitWindow) => Effect(s.(windowInited := true), [], false)
    case Main(WindowResized) => Effect(s, [], !hasWindow)
    case Main(LostFocus) => Effect(s.(gainedFocus := false), [], false)
    case Main(GainedFocus) => Effect(s.(gainedFocus := true), [], false)
    case Main(Pause) => PauseEffect(s)
    case Main(Resume) => ResumeEffect(s)
    case Main(Destroy) => Effect(s.(destroyRequested := true), [], false)
    case _ => Effect(s, [], false)
  }

  /** One `poll_events` call: handle the events of `batch` in order, stopping at a panic. */
  function Drain(s: AppState, batch: seq<PollEvent>, hasWindow: bool): Effect
    decreases |batch|
  {
    if batch == [] then Effect(s, [], false)
    else
      var before := Drain(s, batch[..|batch| - 1], hasWindow);
      if before.panicked then before
      else
        var last := React(before.next, batch[|batch| - 1], hasWindow);
        Effect(last.next, before.calls + last.calls, last.panicked)
  }

  /** Handling one more event of a batch that has not panicked yet. */
  lemma DrainStep(s: AppState, batch: seq<PollEvent>, i: nat, hasWindow: bool)
    requires i < |batch| && !Drain(s, batch[..i], hasWindow).panicked
    ensures var d := Drain(s, batch[..i], hasWindow);
      var r := React(d.next, batch[i], hasWindow);
      Drain(s, batch[..i + 1], hasWindow) == Effect(r.next, d.calls + r.calls, r.panicked)
  {
    assert batch[..i + 1][..i] == batch[..i];
  }

  /** Calls that event handling can make. */
  predicate EventCall(c: Call)
  {
    c.AcquireWifi? || c.ReleaseWifi? || c.OnPause? || c.OnResume? || c.Shutdown? || c.InitConnections?
  }

  /** Calls that need an established session. */
  predicate SessionCall(c: Call)
  {
    c.Shutdown? || c.InitConnections?
  }

  predicate AllEventCalls(calls: seq<Call>)
  {
    forall i :: 0 <= i < |calls| ==> EventCall(calls[i])
  }

  predicate NoSessionCalls(calls: seq<Call>)
  {
    forall i :: 0 <= i < |calls| ==> !SessionCall(calls[i])
  }

  predicate HasInit(calls: seq<Call>)
  {
    exists i :: 0 <= i < |calls| && calls[i].Init?
  }

  /** Some poll batch with index in `[lo, hi)` holds the given main event. */
  predicate DeliversIn(polls: seq<seq<PollEvent>>, lo: int, hi: int, ev: MainEvent)
  {
    exists k :: lo <= k < hi && 0 <= k < |polls| && Main(ev) in polls[k]
  }

  // ---------------------------------------------------------------------
  // Properties of event handling
  // ---------------------------------------------------------------------

  /** Handling one event makes only event calls, and no session call while
      there is no session. */
  lemma ReactCalls(s: AppState, e: PollEvent, hasWindow: bool)
    ensures AllEventCalls(React(s, e, hasWindow).calls)
    ensures s.sysProperties.None? ==> NoSessionCalls(React(s, e, hasWindow).calls)
  {
    var calls := React(s, e, hasWindow).calls;
    if e == Main(MainEvent.Pause) {
      assert calls == PauseEffect(s).calls;
    } else if e == Main(MainEvent.Resume) {
      assert calls == ResumeEffect(s).calls;
    } else {
      assert calls == [];
    }
  }

  lemma CallsConcat(a: seq<Call>, b: seq<Call>)
    ensures AllEventCalls(a) && AllEventCalls(b) ==> AllEventCalls(a + b)
    ensures NoSessionCalls(a) && NoSessionCalls(b) ==> NoSessionCalls(a + b)
  {
    assert forall i :: 0 <= i < |a| + |b| ==> (a + b)[i] == if i < |a| then a[i] else b[i - |a|];
  }

  /** Once the prefix of a batch panicked, the rest of the batch does nothing. */
  lemma {:induction false} DrainAfterPanic(s: AppState, batch: seq<PollEvent>, i: nat, hasWindow: bool)
    requires i <= |batch|
    requires Drain(s, batch[..i], hasWindow).panicked
    ensures Drain(s, batch, hasWindow) == Drain(s, batch[..i], hasWindow)
    decreases |batch| - i
  {
    if i < |batch| {
      assert batch[..|batch| - 1][..i] == batch[..i];
      DrainAfterPanic(s, batch[..|batch| - 1], i, hasWindow);
    } else {
      assert batch[..i] == batch;
    }
  }

  /** Handling events never clears `windowInited` or `destroyRequested`,
      never changes `sysProperties`, only makes event calls, and makes no
      session call while there is no session. */
  lemma {:induction false} DrainInvariants(s: AppState, batch: seq<PollEvent>, hasWindow: bool)
    ensures var e := Drain(s, batch, hasWindow);
      && (s.windowInited ==> e.next.windowInited)
      && (s.destroyRequested ==> e.next.destroyRequested)
      && e.next.sysProperties == s.sysProperties
      && AllEventCalls(e.calls)
      && (s.sysProperties.None? ==> NoSessionCalls(e.calls))
    decreases |batch|
  {
    if batch != [] {
      var before := Drain(s, batch[..|batch| - 1], hasWindow);
      DrainInvariants(s, batch[..|batch| - 1], hasWindow);
      if !before.panicked {
        var last := React(before.next, batch[|batch| - 1], hasWindow);
        ReactCalls(before.next, batch[|batch| - 1], hasWindow);
        CallsConcat(before.calls, last.calls);
      }
    }
  }

  /** Without a panic, after a batch `windowInited` holds exactly when it held
      before or the batch delivered `InitWindow`; likewise `destroyRequested`
      and `Destroy`. */
  lemma {:induction false} DrainFlags(s: AppState, batch: seq<PollEvent>, hasWindow: bool)
    requires !Drain(s, batch, hasWindow).panicked
    ensures Drain(s, batch, hasWindow).next.windowInited <==> s.windowInited || Main(InitWindow) in batch
    ensures Drain(s, batch, hasWindow).next.destroyRequested <==> s.destroyRequested || Main(MainEvent.Destroy) in batch
    decreases |batch|
  {
    if batch != [] {
      var init := batch[..|batch| - 1];
      assert batch == init + [batch[|batch| - 1]];
      var before := Drain(s, init, hasWindow);
      DrainFlags(s, init, hasWindow);
    }
  }

  /** While there is a native window, event handling never panics. */
  lemma {:induction false} DrainWithWindowNeverPanics(s: AppState, batch: seq<PollEvent>)
    ensures !Drain(s, batch, true).panicked
    decreases |batch|
  {
    if batch != [] {
      DrainWithWindowNeverPanics(s, batch[..|batch| - 1]);
    }
  }

  /** A pause followed by a resume, with a session established: one
      shutdown, one reconnect, one release and one acquire of the wifi lock,
      the release before the acquire; nothing else changes and `Init` is not
      repeated. */
  lemma PauseThenResume(s: AppState)
    requires s.sysProperties.Some?
    ensures var p := PauseEffect(s);
      var r := ResumeEffect(p.next);
      && p.calls + r.calls
         == [Shutdown, OnPause, ReleaseWifi, AcquireWifi, OnResume, InitConnections(s.sysProperties.value)]
      && r.next == s.(resumed := true)
  {
  }

  // ---------------------------------------------------------------------
  // The window-wait loop
  // ---------------------------------------------------------------------

  /** Where `wait_until_window_init` stops: the state, the calls made so far
      (continuing `calls`), the polls not yet used, and whether a handler panicked. */
  datatype WaitEnd = WaitEnd(state: AppState, calls: seq<Call>, rest: seq<seq<PollEvent>>, panicked: bool)

  /** `wait_until_window_init`: poll while neither destroy was requested nor
      the window is initialised. */
  function Wait(s: AppState, calls: seq<Call>, polls: seq<seq<PollEvent>>, hasWindow: bool): WaitEnd
    decreases |polls|
  {
    if s.destroyRequested || s.windowInited then WaitEnd(s, calls, polls, false)
    else if polls == [] then WaitEnd(s, calls, [], false)
    else
      var e := Drain(s, polls[0], hasWindow);
      if e.panicked then WaitEnd(e.next, calls + e.calls, polls[1..], true)
      else Wait(e.next, calls + e.calls, polls[1..], hasWindow)
  }

  /** The wait loop stops only once destroy is requested or the window is
      initialised (or a handler panicked, or the polls are used up); it
      leaves `sysProperties` alone, keeps the two latches, and leaves a
      suffix of the polls. */
  lemma {:induction false} WaitInvariants(s: AppState, calls: seq<Call>, polls: seq<seq<PollEvent>>, hasWindow: bool)
    ensures var w := Wait(s, calls, polls, hasWindow);
      && (w.panicked || w.state.destroyRequested || w.state.windowInited || w.rest == [])
      && (s.windowInited ==> w.state.windowInited)
      && (s.destroyRequested ==> w.state.destroyRequested)
      && w.state.sysProperties == s.sysProperties
      && |w.rest| <= |polls| && w.rest == polls[|polls| - |w.rest|..]
    decreases |polls|
  {
    if !(s.destroyRequested || s.windowInited) && polls != [] {
      var e := Drain(s, polls[0], hasWindow);
      DrainInvariants(s, polls[0], hasWindow);
      if !e.panicked {
        WaitInvariants(e.next, calls + e.calls, polls[1..], hasWindow);
      }
    }
  }

  /** The wait loop stops in the poll that delivers `InitWindow` or
      `Destroy` at the latest: when poll `k` delivers one of them, at most
      `k + 1` polls are used. */
  lemma {:induction false} WaitStopsAfterLatch(s: AppState, calls: seq<Call>, polls: seq<seq<PollEvent>>, hasWindow: bool, k: nat)
    requires k < |polls|
    requires Main(InitWindow) in polls[k] || Main(MainEvent.Destroy) in polls[k]
    ensures |polls| - |Wait(s, calls, polls, hasWindow).rest| <= k + 1
    decreases k
  {
    if !(s.destroyRequested || s.windowInited) {
      var e := Drain(s, polls[0], hasWindow);
      if !e.panicked {
        var next := Wait(e.next, calls + e.calls, polls[1..], hasWindow);
        if k == 0 {
          DrainFlags(s, polls[0], hasWindow);
          assert next.rest == polls[1..];
        } else {
          assert polls[1..][k - 1] == polls[k];
          WaitStopsAfterLatch(e.next, calls + e.calls, polls[1..], hasWindow, k - 1);
        }
      }
    }
  }

  /** The wait loop extends the call list with event calls only, which are
      session-free while there is no session. */
  lemma {:induction false} WaitCalls(s: AppState, calls: seq<Call>, polls: seq<seq<PollEvent>>, hasWindow: bool)
    ensures var w := Wait(s, calls, polls, hasWindow);
      && |calls| <= |w.calls| && w.calls[..|calls|] == calls
      && AllEventCalls(w.calls[|calls|..])
      && (s.sysProperties.None? ==> NoSessionCalls(w.calls[|calls|..]))
    decreases |polls|
  {
    var w := Wait(s, calls, polls, hasWindow);
    if !(s.destroyRequested || s.windowInited) && polls != [] {
      var e := Drain(s, polls[0], hasWindow);
      DrainInvariants(s, polls[0], hasWindow);
      var calls' := calls + e.calls;
      if e.panicked {
        assert w.calls == calls';
        assert w.calls[|calls|..] == e.calls;
      } else {
        WaitInvariants(e.next, calls', polls[1..], hasWindow);
        WaitCalls(e.next, calls', polls[1..], hasWindow);
        assert w == Wait(e.next, calls', polls[1..], hasWindow);
        assert w.calls[..|calls|] == w.calls[..|calls'|][..|calls|];
        assert w.calls[|calls|..] == e.calls + w.calls[|calls'|..];
        CallsConcat(e.calls, w.calls[|calls'|..]);
      }
    } else {
      assert w.calls[|calls|..] == [];
    }
  }

  /** The wait loop sets `windowInited` only if one of the polls it used
      delivered `InitWindow`, and `destroyRequested` only if one of them
      delivered `Destroy`: a latch never runs ahead of its event. */
  lemma {:induction false} WaitFlagsComeFromEvents(s: AppState, calls: seq<Call>, polls: seq<seq<PollEvent>>, hasWindow: bool)
    ensures var w := Wait(s, calls, polls, hasWindow);
      var used := |polls| - |w.rest|;
      && (w.state.windowInited ==> s.windowInited || DeliversIn(polls, 0, used, InitWindow))
      && (w.state.destroyRequested ==> s.destroyRequested || DeliversIn(polls, 0, used, MainEvent.Destroy))
    decreases |polls|
  {
    if !(s.destroyRequested || s.windowInited) && polls != [] {
      var e := Drain(s, polls[0], hasWindow);
      DrainFlagsBeforePanic(s, polls[0], hasWindow);
      if !e.panicked {
        var w := Wait(e.next, calls + e.calls, polls[1..], hasWindow);
        WaitFlagsComeFromEvents(e.next, calls + e.calls, polls[1..], hasWindow);
        var used := |polls| - |w.rest|;
        forall ev | DeliversIn(polls[1..], 0, used - 1, ev)
          ensures DeliversIn(polls, 0, used, ev)
        {
          var k :| 0 <= k < used - 1 && 0 <= k < |polls[1..]| && Main(ev) in polls[1..][k];
          assert polls[1..][k] == polls[k + 1];
        }
        if Main(InitWindow) in polls[0] || Main(MainEvent.Destroy) in polls[0] {
          WaitInvariants(e.next, calls + e.calls, polls[1..], hasWindow);
        }
      }
    }
  }

  /** Even when a batch panics, the flags it reached come only from
      `InitWindow` / `Destroy` events in it. */
  lemma {:induction false} DrainFlagsBeforePanic(s: AppState, batch: seq<PollEvent>, hasWindow: bool)
    ensures Drain(s, batch, hasWindow).next.windowInited ==> s.windowInited || Main(InitWindow) in batch
    ensures Drain(s, batch, hasWindow).next.destroyRequested ==> s.destroyRequested || Main(MainEvent.Destroy) in batch
    decreases |batch|
  {
    if batch != [] {
      var init := batch[..|batch| - 1];
      assert batch == init + [batch[|batch| - 1]];
      DrainFlagsBeforePanic(s, init, hasWindow);
    }
  }

  // ---------------------------------------------------------------------
  // The run loop
  // ---------------------------------------------------------------------

  /** What one `process_frame` call reports. */
  datatype FrameResult = FrameResult(exitRenderLoop: bool, requestRestart: bool)

  /** Why the run loop stopped. `FramesUsedUp` exists only in the model. */
  datatype LoopExit = DestroyRequested | EngineExit | FramesUsedUp

  /** Where the run loop stops: the state, the calls (continuing the
      accumulator), the reason, and the frame results not yet used. */
  datatype LoopEnd = LoopEnd(state: AppState, calls: seq<Call>, exit: LoopExit, restFrames: seq<FrameResult>)

  /** The loop at lib.rs `while !destroy_requested`: drain pending events
      without waiting (an exhausted poll list delivers nothing), then call
      `process_frame` once; stop right after a frame reporting exit. The
      native window exists throughout, so handlers cannot panic. */
  function Loop(s: AppState, calls: seq<Call>, polls: seq<seq<PollEvent>>, frames: seq<FrameResult>): LoopEnd
    decreases |frames|
  {
    if s.destroyRequested then LoopEnd(s, calls, DestroyRequested, frames)
    else
      var e := Drain(s, if polls == [] then [] else polls[0], true);
      if frames == [] then LoopEnd(e.next, calls + e.calls, FramesUsedUp, [])
      else if frames[0].exitRenderLoop then LoopEnd(e.next, calls + e.calls + [ProcessFrame], EngineExit, frames[1..])
      else Loop(e.next, calls + e.calls + [ProcessFrame], RestPolls(polls), frames[1..])
  }

  function RestPolls(polls: seq<seq<PollEvent>>): seq<seq<PollEvent>>
  {
    if polls == [] then [] else polls[1..]
  }

  /** The run loop extends the call list, adding only event calls and
      `ProcessFrame`. */
  lemma {:induction false} LoopCalls(s: AppState, calls: seq<Call>, polls: seq<seq<PollEvent>>, frames: seq<FrameResult>)
    ensures var l := Loop(s, calls, polls, frames);
      && |calls| <= |l.calls| && l.calls[..|calls|] == calls
      && (forall i :: |calls| <= i < |l.calls| ==> EventCall(l.calls[i]) || l.calls[i] == ProcessFrame)
    decreases |frames|
  {
    if !s.destroyRequested {
      var batch := if polls == [] then [] else polls[0];
      var e := Drain(s, batch, true);
      DrainInvariants(s, batch, true);
      var calls' := calls + e.calls + [ProcessFrame];
      FrameStepCalls(calls, e.calls);
      if frames != [] && !frames[0].exitRenderLoop {
        LoopCalls(e.next, calls', RestPolls(polls), frames[1..]);
        ExtendFrameCalls(calls, calls', Loop(e.next, calls', RestPolls(polls), frames[1..]).calls);
      }
    }
  }

  /** One loop iteration appends event calls and then `ProcessFrame`. */
  lemma FrameStepCalls(calls: seq<Call>, events: seq<Call>)
    requires AllEventCalls(events)
    ensures var calls' := calls + events + [ProcessFrame];
      forall i :: |calls| <= i < |calls'| ==> EventCall(calls'[i]) || calls'[i] == ProcessFrame
  {
    var calls' := calls + events + [ProcessFrame];
    forall i | |calls| <= i < |calls'|
      ensures EventCall(calls'[i]) || calls'[i] == ProcessFrame
    {
      if i < |calls| + |events| {
        assert calls'[i] == events[i - |calls|];
      }
    }
  }

  /** Two extensions by event calls and `ProcessFrame` make one. */
  lemma ExtendFrameCalls(calls: seq<Call>, mid: seq<Call>, last: seq<Call>)
    requires |calls| <= |mid| && mid[..|calls|] == calls
    requires forall i :: |calls| <= i < |mid| ==> EventCall(mid[i]) || mid[i] == ProcessFrame
    requires |mid| <= |last| && last[..|mid|] == mid
    requires forall i :: |mid| <= i < |last| ==> EventCall(last[i]) || last[i] == ProcessFrame
    ensures |calls| <= |last| && last[..|calls|] == calls
    ensures forall i :: |calls| <= i < |last| ==> EventCall(last[i]) || last[i] == ProcessFrame
  {
    assert last[..|calls|] == last[..|mid|][..|calls|];
    forall i | |calls| <= i < |mid|
      ensures last[i] == mid[i]
    {
      assert last[..|mid|][i] == last[i];
    }
  }

  /** The run loop calls `ProcessFrame` once per frame result it uses; the
      unused frame results are a suffix of the input. */
  lemma {:induction false} LoopFrameCount(s: AppState, calls: seq<Call>, polls: seq<seq<PollEvent>>, frames: seq<FrameResult>)
    ensures var l := Loop(s, calls, polls, frames);
      var used := |frames| - |l.restFrames|;
      && |l.restFrames| <= |frames| && l.restFrames == frames[used..]
      && multiset(l.calls)[ProcessFrame] == multiset(calls)[ProcessFrame] + used
    decreases |frames|
  {
    if !s.destroyRequested {
      var batch := if polls == [] then [] else polls[0];
      var e := Drain(s, batch, true);
      DrainInvariants(s, batch, true);
      assert ProcessFrame !in e.calls;
      var calls' := calls + e.calls + [ProcessFrame];
      assert multiset(calls') == multiset(calls) + multiset(e.calls) + multiset{ProcessFrame};
      if frames != [] && !frames[0].exitRenderLoop {
        LoopFrameCount(e.next, calls', RestPolls(polls), frames[1..]);
      }
    }
  }

  /** Why the run loop stopped: every frame it used except the last reported
      "continue"; it reports `EngineExit` exactly when the last used frame
      asked to exit, `DestroyRequested` only with the flag set, and
      `FramesUsedUp` only with every frame used. */
  lemma {:induction false} LoopExitReason(s: AppState, calls: seq<Call>, polls: seq<seq<PollEvent>>, frames: seq<FrameResult>)
    ensures var l := Loop(s, calls, polls, frames);
      var used := |frames| - |l.restFrames|;
      && 0 <= used <= |frames|
      && (forall j :: 0 <= j < used - 1 ==> !frames[j].exitRenderLoop)
      && (l.exit == EngineExit <==> used > 0 && frames[used - 1].exitRenderLoop)
      && (l.exit == DestroyRequested ==> l.state.destroyRequested)
      && (l.exit == FramesUsedUp ==> l.restFrames == [])
    decreases |frames|
  {
    if !s.destroyRequested {
      var batch := if polls == [] then [] else polls[0];
      var e := Drain(s, batch, true);
      if frames != [] && !frames[0].exitRenderLoop {
        var calls' := calls + e.calls + [ProcessFrame];
        LoopExitReason(e.next, calls', RestPolls(polls), frames[1..]);
      }
    }
  }

  /** The run loop stops at the check after the poll that delivers
      `Destroy`: when poll `k` delivers it, at most `k + 1` frames are
      processed. */
  lemma {:induction false} LoopStopsAfterDestroy(s: AppState, calls: seq<Call>, polls: seq<seq<PollEvent>>, frames: seq<FrameResult>, k: nat)
    requires k < |polls| && Main(MainEvent.Destroy) in polls[k]
    ensures |frames| - |Loop(s, calls, polls, frames).restFrames| <= k + 1
    decreases k
  {
    if !s.destroyRequested && frames != [] && !frames[0].exitRenderLoop {
      var e := Drain(s, polls[0], true);
      var calls' := calls + e.calls + [ProcessFrame];
      assert RestPolls(polls) == polls[1..];
      if k == 0 {
        DrainWithWindowNeverPanics(s, polls[0]);
        DrainFlags(s, polls[0], true);
        assert Loop(e.next, calls', polls[1..], frames[1..]).restFrames == frames[1..];
      } else {
        assert polls[1..][k - 1] == polls[k];
        LoopStopsAfterDestroy(e.next, calls', polls[1..], frames[1..], k - 1);
        LoopFrameCount(e.next, calls', polls[1..], frames[1..]);
      }
    }
  }

  /** The run loop keeps both latches and leaves `sysProperties` alone; it
      stops for destroy only if the flag was already set or one of the polls
      it drained before a frame it used delivered `Destroy`. */
  lemma {:induction false} LoopState(s: AppState, calls: seq<Call>, polls: seq<seq<PollEvent>>, frames: seq<FrameResult>)
    ensures var l := Loop(s, calls, polls, frames);
      && (s.windowInited ==> l.state.windowInited)
      && (s.destroyRequested ==> l.state.destroyRequested)
      && l.state.sysProperties == s.sysProperties
      && (l.exit == DestroyRequested ==>
            s.destroyRequested || DeliversIn(polls, 0, |frames| - |l.restFrames|, MainEvent.Destroy))
    decreases |frames|
  {
    if !s.destroyRequested {
      var batch := if polls == [] then [] else polls[0];
      var e := Drain(s, batch, true);
      DrainInvariants(s, batch, true);
      if frames != [] && !frames[0].exitRenderLoop {
        var l := Loop(e.next, calls + e.calls + [ProcessFrame], RestPolls(polls), frames[1..]);
        LoopState(e.next, calls + e.calls + [ProcessFrame], RestPolls(polls), frames[1..]);
        if l.exit == DestroyRequested {
          var used := |frames| - |l.restFrames|;
          DrainFlagsBeforePanic(s, batch, true);
          LoopFrameCount(e.next, calls + e.calls + [ProcessFrame], RestPolls(polls), frames[1..]);
          forall k | 0 <= k < |RestPolls(polls)|
            ensures RestPolls(polls)[k] == polls[k + 1]
          {
          }
        }
      }
    }
  }

  // ---------------------------------------------------------------------
  // The whole run
  // ---------------------------------------------------------------------

  /** How `run` ends. `EventsUsedUp` and `FramesUsedUp` exist only in the model. */
  datatype RunOutcome =
    | StartupFailed          // library load, VM attach or permission check failed
    | Panicked               // a handler unwrapped a missing native window
    | EventsUsedUp           // the wait loop ran out of polls
    | NoWindow               // destroy requested, or no native window, before init
    | InitFailed             // `alxr_init` returned false
    | Finished(exit: LoopExit)
    | RunFramesUsedUp        // the run loop ran out of frame results

  /** Everything `run` consumes. `buildProp` and `parseVersion` are the JNI
      property lookup and the version parser; `initResult` is what
      `alxr_init` reports (None for false). */
  datatype RunInput = RunInput(
    startupOk: bool,
    noLinearizeSrgb: bool,
    buildProp: string -> string,
    parseVersion: string -> Option<seq<Part>>,
    window: Option<Window>,
    polls: seq<seq<PollEvent>>,
    initResult: Option<SystemProperties>,
    frames: seq<FrameResult>)

  datatype RunEnd = RunEnd(outcome: RunOutcome, state: AppState, calls: seq<Call>)

  /** The descriptor passed to `alxr_init` (its device-dependent fields). */
  function Descriptor(inp: RunInput): InitDescriptor
  {
    InitDescriptor(inp.noLinearizeSrgb || DeviceMatches("Lynx", inp.buildProp),
                   FirmwareVersionOf(inp.buildProp, inp.parseVersion))
  }

  /** The per-eye width `(width / 2) as u32` with Rust's truncating division:
      half the width, and for a negative width the wrapped negative half. */
  function EyeWidth(width: i32): (r: u32)
    ensures width >= 0 ==> r == width / 2
    ensures width < 0 ==> r == (TWO_32 - (-(width as int)) / 2) % TWO_32
  {
    AsU32(TruncDiv(width, 2))
  }

  /** The engine's properties with the recommended eye size replaced by half
      the window width and the full window height, each cast `as u32` (so a
      negative size wraps). */
  function PreferredEyeSize(engine: SystemProperties, w: Window): (p: SystemProperties)
    ensures w.width >= 0 ==> p.recommendedEyeWidth == w.width / 2
    ensures w.height >= 0 ==> p.recommendedEyeHeight == w.height
    ensures w.width < 0 ==> p.recommendedEyeWidth == (TWO_32 - (-(w.width as int)) / 2) % TWO_32
    ensures w.height < 0 ==> p.recommendedEyeHeight == TWO_32 + w.height
    ensures p.systemName == engine.systemName
  {
    engine.(recommendedEyeWidth := EyeWidth(w.width), recommendedEyeHeight := AsU32(w.height))
  }

  /** The wait phase of `run`, from the initial state. */
  function WaitPhase(inp: RunInput): WaitEnd
  {
    Wait(INITIAL, [], inp.polls, inp.window.Some?)
  }

  /** `run` gets through start-up and the wait and calls `alxr_init`. */
  predicate ReachesInit(inp: RunInput)
  {
    var w := WaitPhase(inp);
    inp.startupOk && !w.panicked && w.state.windowInited && !w.state.destroyRequested && inp.window.Some?
  }

  /** `run` from `alxr_init` on, the wait having ended in `w`: on success,
      override the eye size, store the properties, connect, run the loop,
      then shut down and destroy. */
  function SessionPhase(inp: RunInput, w: WaitEnd): RunEnd
    requires inp.window.Some?
  {
    var initCalls := w.calls + [Init(Descriptor(inp))];
    if inp.initResult.None? then RunEnd(InitFailed, w.state, initCalls)
    else
      var props := PreferredEyeSize(inp.initResult.value, inp.window.value);
      var l := Loop(w.state.(sysProperties := Some(props)), initCalls + [InitConnections(props)], w.rest, inp.frames);
      if l.exit == FramesUsedUp then RunEnd(RunFramesUsedUp, l.state, l.calls)
      else RunEnd(Finished(l.exit), l.state, l.calls + [Shutdown, Call.Destroy])
  }

  /** `run`. */
  function RunSpec(inp: RunInput): RunEnd
  {
    if !inp.startupOk then RunEnd(StartupFailed, INITIAL, [])
    else
      var w := WaitPhase(inp);
      if w.panicked then RunEnd(Panicked, w.state, w.calls)
      else if !w.state.destroyRequested && !w.state.windowInited then RunEnd(EventsUsedUp, w.state, w.calls)
      else if w.state.destroyRequested || inp.window.None? then RunEnd(NoWindow, w.state, w.calls)
      else SessionPhase(inp, w)
  }

  // ---------------------------------------------------------------------
  // Properties of the whole run
  // ---------------------------------------------------------------------

  /** Before `alxr_init` the run makes only session-free event calls and
      has no session; a run that does not reach `alxr_init` stops there. */
  lemma RunBeforeInit(inp: RunInput)
    ensures inp.startupOk ==>
      var w := WaitPhase(inp);
      AllEventCalls(w.calls) && NoSessionCalls(w.calls) && w.state.sysProperties.None?
    ensures ReachesInit(inp) ==> RunSpec(inp) == SessionPhase(inp, WaitPhase(inp))
    ensures !ReachesInit(inp) ==>
      var c := RunSpec(inp).calls;
      AllEventCalls(c) && NoSessionCalls(c) && !HasInit(c)
  {
    if inp.startupOk {
      WaitInvariants(INITIAL, [], inp.polls, inp.window.Some?);
      WaitCalls(INITIAL, [], inp.polls, inp.window.Some?);
      assert WaitPhase(inp).calls[0..] == WaitPhase(inp).calls;
    }
  }

  /** From `alxr_init` on, the calls continue the wait's calls with exactly
      one `Init`. */
  lemma SessionInitOnce(inp: RunInput, w: WaitEnd)
    requires inp.window.Some?
    ensures var c := SessionPhase(inp, w).calls;
      && |w.calls| < |c| && c[..|w.calls| + 1] == w.calls + [Init(Descriptor(inp))]
      && forall k :: |w.calls| < k < |c| ==> !c[k].Init?
  {
    if inp.initResult.Some? {
      var props := PreferredEyeSize(inp.initResult.value, inp.window.value);
      var calls0 := w.calls + [Init(Descriptor(inp))] + [InitConnections(props)];
      var s0 := w.state.(sysProperties := Some(props));
      LoopCalls(s0, calls0, w.rest, inp.frames);
      var l := Loop(s0, calls0, w.rest, inp.frames);
      var c := SessionPhase(inp, w).calls;
      assert c[..|l.calls|] == l.calls;
      assert c[..|w.calls| + 1] == l.calls[..|calls0|][..|w.calls| + 1];
      forall k | |w.calls| < k < |c|
        ensures !c[k].Init?
      {
        if k < |l.calls| {
          assert c[k] == l.calls[k];
          if k < |calls0| {
            assert l.calls[k] == calls0[k];
          }
        }
      }
    }
  }

  /** `Init` is called at most once; only after one of the polls the wait
      used delivered `InitWindow`; and only after event calls, none of
      which touched the (not yet existing) session. */
  lemma RunInitOnce(inp: RunInput)
    ensures var c := RunSpec(inp).calls;
      && (HasInit(c) ==> DeliversIn(inp.polls, 0, |inp.polls| - |WaitPhase(inp).rest|, InitWindow))
      && (forall i, j :: 0 <= i < |c| && 0 <= j < |c| && c[i].Init? && c[j].Init? ==> i == j)
      && (forall k :: 0 <= k < |c| && c[k].Init? ==> AllEventCalls(c[..k]) && NoSessionCalls(c[..k]))
  {
    RunBeforeInit(inp);
    if ReachesInit(inp) {
      var w := WaitPhase(inp);
      var c := RunSpec(inp).calls;
      SessionInitOnce(inp, w);
      WaitFlagsComeFromEvents(INITIAL, [], inp.polls, inp.window.Some?);
      var n := |w.calls|;
      assert forall k :: 0 <= k < n ==> c[k] == c[..n + 1][k];
      assert forall k :: 0 <= k < |c| && c[k].Init? ==> k == n;
      assert c[..n] == w.calls;
    }
  }

  /** `run` reaches `alxr_init` and it reports failure exactly when the
      outcome is `InitFailed`; then no session exists and there is no frame
      processing, shutdown or destroy call. */
  lemma RunInitFailure(inp: RunInput)
    ensures var r := RunSpec(inp);
      && (r.outcome == InitFailed <==> HasInit(r.calls) && inp.initResult.None?)
      && (r.outcome == InitFailed ==>
            && r.state.sysProperties.None?
            && NoSessionCalls(r.calls)
            && (forall i :: 0 <= i < |r.calls| ==> r.calls[i] != ProcessFrame && r.calls[i] != Call.Destroy))
  {
    RunBeforeInit(inp);
    if ReachesInit(inp) {
      var w := WaitPhase(inp);
      SessionInitOnce(inp, w);
      if inp.initResult.None? {
        var r := RunSpec(inp);
        assert r.calls[|w.calls|].Init?;
        assert forall i :: 0 <= i < |r.calls| ==> r.calls[i] == if i < |w.calls| then w.calls[i] else Init(Descriptor(inp));
      }
    }
  }

  /** Once the run loop has been entered, the stored properties are the
      engine's, with the recommended eye size replaced from the window
      (half its width, its full height); `InitConnections` with exactly
      those properties directly follows `Init`. */
  lemma RunEyeSizeOverride(inp: RunInput)
    ensures var r := RunSpec(inp);
      (r.outcome.Finished? || r.outcome == RunFramesUsedUp) ==>
        && inp.initResult.Some? && inp.window.Some?
        && var p := PreferredEyeSize(inp.initResult.value, inp.window.value);
        && r.state.sysProperties == Some(p)
        && (exists k :: 0 <= k < |r.calls| - 1 && r.calls[k].Init? && r.calls[k + 1] == InitConnections(p))
  {
    RunBeforeInit(inp);
    if ReachesInit(inp) && inp.initResult.Some? {
      var w := WaitPhase(inp);
      var props := PreferredEyeSize(inp.initResult.value, inp.window.value);
      var calls0 := w.calls + [Init(Descriptor(inp))] + [InitConnections(props)];
      var s0 := w.state.(sysProperties := Some(props));
      LoopState(s0, calls0, w.rest, inp.frames);
      LoopCalls(s0, calls0, w.rest, inp.frames);
      var l := Loop(s0, calls0, w.rest, inp.frames);
      var k := |w.calls|;
      assert l.calls[k] == calls0[k] && l.calls[k + 1] == calls0[k + 1];
      assert RunSpec(inp).calls[k] == l.calls[k] && RunSpec(inp).calls[k + 1] == l.calls[k + 1];
    }
  }

  /** The run loop adds no `Destroy` call. */
  lemma LoopNoDestroy(s: AppState, calls: seq<Call>, polls: seq<seq<PollEvent>>, frames: seq<FrameResult>)
    requires Call.Destroy !in calls
    ensures Call.Destroy !in Loop(s, calls, polls, frames).calls
  {
    LoopCalls(s, calls, polls, frames);
    var l := Loop(s, calls, polls, frames);
    forall k | 0 <= k < |l.calls| ensures l.calls[k] != Call.Destroy {
      if k < |calls| {
        assert l.calls[k] == calls[k];
      }
    }
  }

  /** From `alxr_init` on: a finish ends with `Shutdown` then the only
      `Destroy`, with the reason the loop gave; other outcomes add no `Destroy`. */
  lemma SessionTeardown(inp: RunInput, w: WaitEnd)
    requires inp.window.Some?
    requires Call.Destroy !in w.calls
    ensures var r := SessionPhase(inp, w);
      && (r.outcome.Finished? ==>
            && |r.calls| >= 2 && r.calls[|r.calls| - 2..] == [Shutdown, Call.Destroy]
            && multiset(r.calls)[Call.Destroy] == 1
            && (r.outcome.exit == DestroyRequested ==> r.state.destroyRequested)
            && (r.outcome.exit == EngineExit ==> multiset(r.calls)[ProcessFrame] >= 1))
      && (!r.outcome.Finished? ==> Call.Destroy !in r.calls)
  {
    if inp.initResult.Some? {
      var props := PreferredEyeSize(inp.initResult.value, inp.window.value);
      var calls0 := w.calls + [Init(Descriptor(inp))] + [InitConnections(props)];
      var s0 := w.state.(sysProperties := Some(props));
      assert Call.Destroy !in calls0;
      var l := Loop(s0, calls0, w.rest, inp.frames);
      LoopNoDestroy(s0, calls0, w.rest, inp.frames);
      if l.exit != FramesUsedUp {
        assert SessionPhase(inp, w) == RunEnd(Finished(l.exit), l.state, l.calls + [Shutdown, Call.Destroy]);
        FinishedCalls(l.calls);
        if l.exit == EngineExit {
          LoopExitReason(s0, calls0, w.rest, inp.frames);
          LoopFrameCount(s0, calls0, w.rest, inp.frames);
        } else {
          LoopExitReason(s0, calls0, w.rest, inp.frames);
        }
      }
    }
  }

  /** A loop that stops for destroy, entered with the flag clear, found
      `Destroy` in one of the polls it drained, one poll per `ProcessFrame`. */
  lemma LoopDestroyInDrainedPoll(s: AppState, calls: seq<Call>, polls: seq<seq<PollEvent>>, frames: seq<FrameResult>)
    requires !s.destroyRequested
    ensures var l := Loop(s, calls, polls, frames);
      l.exit == DestroyRequested ==>
        DeliversIn(polls, 0, multiset(l.calls)[ProcessFrame] as int - multiset(calls)[ProcessFrame], MainEvent.Destroy)
  {
    LoopState(s, calls, polls, frames);
    LoopFrameCount(s, calls, polls, frames);
  }

  /** From `alxr_init` on: a finish for destroy needs a `Destroy` in one of
      the polls the run loop drained, one poll per `ProcessFrame`. */
  lemma SessionDestroyComesFromEvent(inp: RunInput, w: WaitEnd)
    requires inp.window.Some? && !w.state.destroyRequested
    requires ProcessFrame !in w.calls
    ensures var r := SessionPhase(inp, w);
      r.outcome == Finished(DestroyRequested) ==>
        DeliversIn(w.rest, 0, multiset(r.calls)[ProcessFrame], MainEvent.Destroy)
  {
    if inp.initResult.Some? {
      var props := PreferredEyeSize(inp.initResult.value, inp.window.value);
      var calls0 := w.calls + [Init(Descriptor(inp))] + [InitConnections(props)];
      var s0 := w.state.(sysProperties := Some(props));
      var l := Loop(s0, calls0, w.rest, inp.frames);
      if l.exit == DestroyRequested {
        assert multiset(calls0)[ProcessFrame] == 0 by {
          assert multiset(calls0) == multiset(w.calls) + multiset{Init(Descriptor(inp)), InitConnections(props)};
        }
        LoopDestroyInDrainedPoll(s0, calls0, w.rest, inp.frames);
        assert multiset(l.calls + [Shutdown, Call.Destroy])[ProcessFrame] == multiset(l.calls)[ProcessFrame] by {
          assert multiset(l.calls + [Shutdown, Call.Destroy]) == multiset(l.calls) + multiset{Shutdown, Call.Destroy};
        }
      }
    }
  }

  /** Appending the teardown to calls without `Destroy`. */
  lemma FinishedCalls(calls: seq<Call>)
    requires Call.Destroy !in calls
    ensures var r := calls + [Shutdown, Call.Destroy];
      && r[|r| - 2..] == [Shutdown, Call.Destroy]
      && multiset(r)[Call.Destroy] == 1
      && multiset(r)[ProcessFrame] == multiset(calls)[ProcessFrame]
  {
    var r := calls + [Shutdown, Call.Destroy];
    assert multiset(r) == multiset(calls) + multiset{Shutdown, Call.Destroy};
  }


  /** A run that finishes ends with `Shutdown` then `Destroy`, the only
      `Destroy` of the run, after at least one `ProcessFrame` if the engine
      asked to exit; a finish for destroy has the flag set. Any other outcome
      makes no `Destroy` call. */
  lemma RunTeardown(inp: RunInput)
    ensures var r := RunSpec(inp);
      && (r.outcome.Finished? ==>
            && |r.calls| >= 2 && r.calls[|r.calls| - 2..] == [Shutdown, Call.Destroy]
            && multiset(r.calls)[Call.Destroy] == 1
            && (r.outcome.exit == DestroyRequested ==> r.state.destroyRequested)
            && (r.outcome.exit == EngineExit ==> multiset(r.calls)[ProcessFrame] >= 1))
      && (!r.outcome.Finished? ==> Call.Destroy !in r.calls)
      && var waited := |inp.polls| - |WaitPhase(inp).rest|;
         (r.outcome == Finished(DestroyRequested) ==>
            DeliversIn(inp.polls, waited, waited + multiset(r.calls)[ProcessFrame], MainEvent.Destroy))
  {
    RunBeforeInit(inp);
    if !ReachesInit(inp) {
      var c := RunSpec(inp).calls;
      assert forall k :: 0 <= k < |c| ==> EventCall(c[k]);
    } else {
      var w := WaitPhase(inp);
      assert Call.Destroy !in w.calls by {
        assert forall k :: 0 <= k < |w.calls| ==> EventCall(w.calls[k]);
      }
      SessionTeardown(inp, w);
      assert ProcessFrame !in w.calls by {
        assert forall k :: 0 <= k < |w.calls| ==> EventCall(w.calls[k]);
      }
      SessionDestroyComesFromEvent(inp, w);
      WaitInvariants(INITIAL, [], inp.polls, inp.window.Some?);
      DeliversInSuffix(inp.polls, |inp.polls| - |w.rest|, multiset(RunSpec(inp).calls)[ProcessFrame], MainEvent.Destroy);
    }
  }

  /** A delivery in a suffix of the polls is a delivery in the polls, shifted. */
  lemma DeliversInSuffix(polls: seq<seq<PollEvent>>, start: nat, n: int, ev: MainEvent)
    requires start <= |polls|
    ensures DeliversIn(polls[start..], 0, n, ev) ==> DeliversIn(polls, start, start + n, ev)
  {
    if DeliversIn(polls[start..], 0, n, ev) {
      var k :| 0 <= k < n && 0 <= k < |polls[start..]| && Main(ev) in polls[start..][k];
      assert polls[start..][k] == polls[start + k];
    }
  }

  /** A first poll delivering only `InitWindow` ends the wait at once. */
  lemma WaitForWindow(rest: seq<seq<PollEvent>>, hasWindow: bool)
    ensures Wait(INITIAL, [], [[Main(InitWindow)]] + rest, hasWindow)
         == WaitEnd(INITIAL.(windowInited := true), [], rest, false)
  {
    assert [Main(InitWindow)][..0] == [];
    assert ([[Main(InitWindow)]] + rest)[1..] == rest;
  }

  /** A loop iteration that drains a `Pause` and then gets an exit frame. */
  lemma LoopPauseThenExit(s: AppState, calls: seq<Call>)
    requires !s.destroyRequested
    ensures Loop(s, calls, [[Main(MainEvent.Pause)]], [FrameResult(true, false)])
         == LoopEnd(PauseEffect(s).next, calls + PauseEffect(s).calls + [ProcessFrame], EngineExit, [])
  {
    assert [Main(MainEvent.Pause)][..0] == [];
  }

  /** A loop iteration that drains a `Destroy`: its frame is still processed,
      and the next check stops the loop. */
  lemma LoopDestroyThenCheck(s: AppState, calls: seq<Call>, frame: FrameResult, rest: seq<FrameResult>)
    requires !s.destroyRequested && !frame.exitRenderLoop
    ensures Loop(s, calls, [[Main(MainEvent.Destroy)]], [frame] + rest)
         == LoopEnd(s.(destroyRequested := true), calls + [ProcessFrame], DestroyRequested, rest)
  {
    assert [Main(MainEvent.Destroy)][..0] == [];
    assert ([frame] + rest)[1..] == rest;
  }

  /** A session whose only event is a `Pause` and whose first frame asks to exit. */
  lemma SessionPauseThenExit(inp: RunInput, w: WaitEnd)
    requires inp.window.Some? && inp.initResult.Some? && !w.state.destroyRequested
    requires w.rest == [[Main(MainEvent.Pause)]] && inp.frames == [FrameResult(true, false)]
    ensures var p := PreferredEyeSize(inp.initResult.value, inp.window.value);
      SessionPhase(inp, w).calls
      == w.calls + [Init(Descriptor(inp)), InitConnections(p), Shutdown, OnPause, ReleaseWifi, ProcessFrame, Shutdown, Call.Destroy]
    ensures SessionPhase(inp, w).outcome == Finished(EngineExit)
  {
    var p := PreferredEyeSize(inp.initResult.value, inp.window.value);
    var s0 := w.state.(sysProperties := Some(p));
    var initCalls := w.calls + [Init(Descriptor(inp))] + [InitConnections(p)];
    LoopPauseThenExit(s0, initCalls);
    assert PauseEffect(s0).calls == [Shutdown, OnPause, ReleaseWifi];
  }

  /** A pause during the session shuts the engine down once more, before the
      final teardown: the run makes two `Shutdown` calls. */
  lemma RunPauseInSession(buildProp: string -> string, parse: string -> Option<seq<Part>>)
    ensures var inp := RunInput(true, false, buildProp, parse, Some(Window(100, 50)),
                                [[Main(InitWindow)], [Main(MainEvent.Pause)]],
                                Some(SystemProperties("", 0, 0)), [FrameResult(true, false)]);
      var r := RunSpec(inp);
      var p := SystemProperties("", 50, 50);
      && r.outcome == Finished(EngineExit)
      && r.calls == [Init(Descriptor(inp)), InitConnections(p), Shutdown, OnPause, ReleaseWifi, ProcessFrame, Shutdown, Call.Destroy]
  {
    var inp := RunInput(true, false, buildProp, parse, Some(Window(100, 50)),
                        [[Main(InitWindow)], [Main(MainEvent.Pause)]],
                        Some(SystemProperties("", 0, 0)), [FrameResult(true, false)]);
    WaitForWindow([[Main(MainEvent.Pause)]], true);
    var w := WaitPhase(inp);
    assert PreferredEyeSize(inp.initResult.value, inp.window.value) == SystemProperties("", 50, 50);
    SessionPauseThenExit(inp, w);
  }

  /** A destroy request drained inside the run loop is honoured only at the
      next loop check: the frame of that iteration is still processed. */
  lemma RunDestroyInSession(buildProp: string -> string, parse: string -> Option<seq<Part>>)
    ensures var inp := RunInput(true, false, buildProp, parse, Some(Window(100, 50)),
                                [[Main(InitWindow)], [Main(MainEvent.Destroy)]],
                                Some(SystemProperties("", 0, 0)), [FrameResult(false, false), FrameResult(false, false)]);
      var r := RunSpec(inp);
      && r.outcome == Finished(DestroyRequested)
      && r.calls == [Init(Descriptor(inp)), InitConnections(SystemProperties("", 50, 50)), ProcessFrame, Shutdown, Call.Destroy]
  {
    var inp := RunInput(true, false, buildProp, parse, Some(Window(100, 50)),
                        [[Main(InitWindow)], [Main(MainEvent.Destroy)]],
                        Some(SystemProperties("", 0, 0)), [FrameResult(false, false), FrameResult(false, false)]);
    WaitForWindow([[Main(MainEvent.Destroy)]], true);
    var w := WaitPhase(inp);
    var p := SystemProperties("", 50, 50);
    assert PreferredEyeSize(inp.initResult.value, inp.window.value) == p;
    var s0 := w.state.(sysProperties := Some(p));
    LoopDestroyThenCheck(s0, [Init(Descriptor(inp)), InitConnections(p)], FrameResult(false, false), [FrameResult(false, false)]);
  }
}
