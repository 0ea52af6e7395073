/**
 * The loopback capture of `do_loopback_recording`: the format set-up, the
 * single Initialize fallback, and the fixed-cadence capture loop as a
 * state machine that consumes one backend reply record per wake.
 */
module CaptureLoop {
  import opened WinTypes
  import opened AudioFormats

  /** One reference-time unit is 100ns, so a millisecond is 10000 units. */
  const REFTIMES_PER_MILLISEC: nat := 10000

  /**
   * The timer period of the loop: the device period in 100ns units divided
   * by REFTIMES_PER_MILLISEC with C++ integer division (rounding toward zero).
   */
  function PeriodMillis(hnsPeriod: i64): (ms: int)
    ensures hnsPeriod >= 0 ==> 0 <= ms && ms * REFTIMES_PER_MILLISEC <= hnsPeriod < (ms + 1) * REFTIMES_PER_MILLISEC
    ensures hnsPeriod < 0 ==> ms <= 0 && (ms - 1) * REFTIMES_PER_MILLISEC < hnsPeriod <= ms * REFTIMES_PER_MILLISEC
  {
    var p: int := hnsPeriod;
    if p >= 0 then p / REFTIMES_PER_MILLISEC
    else -((-p) / REFTIMES_PER_MILLISEC)
  }

  /**
   * C++ `/` rounds toward zero, so negating the period negates the result.
   * Dafny's own `/` on `int` is Euclidean and has no such symmetry
   * (-1 / 10000 is -1 there); this pins that the C++ operator is modelled.
   */
  lemma PeriodMillisOdd(hnsPeriod: i64)
    requires hnsPeriod > -0x8000_0000_0000_0000
    ensures PeriodMillis(-hnsPeriod) == -PeriodMillis(hnsPeriod)
  {
  }

  // ---------------------------------------------------------------------
  // Initialize with its one fallback

  datatype StreamFlag = Loopback | EventCallback

  /** The Initialize calls made, in order, and the mode the stream ended up in. */
  datatype InitResult = InitResult(attempts: seq<StreamFlag>, status: Checked<StreamFlag>)

  /**
   * Initialize in loopback mode; only when that fails, try once more with
   * the event-callback flag, and exit if the second attempt fails too.
   */
  function InitializeClient(loopbackHr: HRESULT, eventCallbackHr: HRESULT): (r: InitResult)
    ensures |r.attempts| >= 1 && r.attempts[0] == Loopback
    ensures |r.attempts| == 2 <==> Failed(loopbackHr)
    ensures |r.attempts| <= 2
    ensures r.status.Fatal? <==> Failed(loopbackHr) && Failed(eventCallbackHr)
    ensures r.status.Fatal? ==> r.status.hr == eventCallbackHr
    ensures r.status.Ok? ==> r.status.value == r.attempts[|r.attempts| - 1]
  {
    if !Failed(loopbackHr) then InitResult([Loopback], Ok(Loopback))
    else InitResult([Loopback, EventCallback], ExitOnFailed(eventCallbackHr, EventCallback))
  }

  // ---------------------------------------------------------------------
  // One wake of the loop

  /** What the loop needs of the stream: the frame size and the timer period. */
  datatype Config = Config(blockAlign: u16, duration: int)

  /**
   * The backend's replies during one pass through the loop body, and the
   * value of the stop flag when the `while` condition reads it.
   */
  datatype Wake = Wake(
    waitFailed: bool,      // timer.wait set an error code
    packetHr: HRESULT,     // GetNextPacketSize
    packetSize: u32,
    bufferHr: HRESULT,     // GetBuffer
    frames: u32,           // numFramesAvailable
    releaseHr: HRESULT,    // ReleaseBuffer
    stopFlag: bool)        // _stoppped, read by the loop condition

  /** What the loop does that can be observed: timer waits, backend calls, broadcasts. */
  datatype Event =
    | Wait(deadline: int)                       // expires_at(deadline); wait
    | NextPacketSize                            // GetNextPacketSize
    | GetBuffer                                 // GetBuffer
    | Broadcast(count: i32, bytesPerFrame: int) // broadcast_audio_data(data, count, nBlockAlign)
    | ReleaseBuffer(frames: u32)                // ReleaseBuffer(numFramesAvailable)
    | StopClient                                // pAudioClient->Stop()

  /** How a pass through the body ends. */
  datatype Next = Continue | Exit | Abort(hr: HRESULT)

  datatype Step = Step(events: seq<Event>, deadline: int, next: Next)

  /** Some backend call of the pass fails, so `exit_on_failed` ends the process. */
  predicate Faults(w: Wake) {
    && !w.waitFailed
    && (Failed(w.packetHr) || (w.packetSize != 0 && (Failed(w.bufferHr) || Failed(w.releaseHr))))
  }

  /** The pass acquires a buffer and hands it to the network. */
  predicate Delivers(w: Wake) {
    !w.waitFailed && !Failed(w.packetHr) && w.packetSize != 0 && !Failed(w.bufferHr)
  }

  /** The pass leaves the loop normally: the wait failed, or the stop flag was seen. */
  predicate Breaks(w: Wake) {
    w.waitFailed || (!Faults(w) && w.stopFlag)
  }

  /** The pass goes round again. */
  predicate Continues(w: Wake) {
    !Breaks(w) && !Faults(w)
  }

  /** The byte count handed to the network: `int count = numFramesAvailable * bytes_per_frame`. */
  function ByteCount(frames: u32, blockAlign: u16): (count: i32)
    ensures frames * blockAlign < 0x8000_0000 ==> count == frames * blockAlign
    ensures (frames * blockAlign - count) % 0x1_0000_0000 == 0
  {
    WrapI32(frames * blockAlign)
  }

  /** The two things the loop hands back to the outside, read off its events. */
  datatype Trail = Timer | Frames

  /** What one event contributes: the deadline a wait sets, or the frames a release gives back. */
  function Mark(t: Trail, e: Event): seq<int> {
    match t
    case Timer => if e.Wait? then [e.deadline] else []
    case Frames => if e.ReleaseBuffer? then [e.frames] else []
  }

  /** The deadlines the timer was set to (`Timer`), or the frame counts released (`Frames`), in order. */
  function Observed(t: Trail, ev: seq<Event>): seq<int> {
    if |ev| == 0 then [] else Mark(t, ev[0]) + Observed(t, ev[1..])
  }

  /**
   * Every broadcast comes right after a GetBuffer and right before the
   * ReleaseBuffer of the same frames, carries `frames * blockAlign` bytes
   * with `blockAlign` bytes per frame; and every release follows a broadcast.
   */
  ghost predicate Paired(ev: seq<Event>, blockAlign: u16) {
    && (forall i :: 0 <= i < |ev| && ev[i].Broadcast? ==>
          && 0 < i < |ev| - 1
          && ev[i - 1] == GetBuffer
          && ev[i + 1].ReleaseBuffer?
          && ev[i] == Broadcast(ByteCount(ev[i + 1].frames, blockAlign), blockAlign))
    && (forall i :: 0 <= i < |ev| && ev[i].ReleaseBuffer? ==> 0 < i && ev[i - 1].Broadcast?)
  }

  /**
   * One pass through the `do` body: advance the deadline by the period
   * and wait; ask for the packet size; if it is non-zero, get the buffer,
   * broadcast it and release it. `continue` and the end of the body both
   * reach the loop condition, which reads the stop flag.
   */
  function Iteration(cfg: Config, deadline: int, w: Wake): (s: Step)
    ensures s.deadline == deadline + cfg.duration
    ensures |s.events| >= 1 && s.events[0] == Wait(s.deadline)
    ensures StopClient !in s.events
    ensures s.next == Continue <==> Continues(w)
    ensures s.next == Exit <==> Breaks(w)
    ensures s.next.Abort? <==> Faults(w)
    ensures s.next.Abort? ==> Failed(s.next.hr)
  {
    var d := deadline + cfg.duration;
    var atCondition := if w.stopFlag then Exit else Continue;
    if w.waitFailed then
      Step([Wait(d)], d, Exit)
    else if Failed(w.packetHr) then
      Step([Wait(d), NextPacketSize], d, Abort(w.packetHr))
    else if w.packetSize == 0 then
      Step([Wait(d), NextPacketSize], d, atCondition)
    else if Failed(w.bufferHr) then
      Step([Wait(d), NextPacketSize, GetBuffer], d, Abort(w.bufferHr))
    else
      var ev := [Wait(d), NextPacketSize, GetBuffer,
                 Broadcast(ByteCount(w.frames, cfg.blockAlign), cfg.blockAlign),
                 ReleaseBuffer(w.frames)];
      Step(ev, d, if Failed(w.releaseHr) then Abort(w.releaseHr) else atCondition)
  }

  /**
   * A pass with no packet (or a failed wait or packet query) acquires no
   * buffer, broadcasts nothing and releases nothing.
   */
  lemma NoPacketNoBufferWork(cfg: Config, deadline: int, w: Wake)
    requires w.waitFailed || Failed(w.packetHr) || w.packetSize == 0
    ensures forall i :: 0 <= i < |Iteration(cfg, deadline, w).events| ==>
              Iteration(cfg, deadline, w).events[i] in {Wait(deadline + cfg.duration), NextPacketSize}
  {
  }

  /**
   * A pass that gets its buffer makes exactly one broadcast, of
   * `frames * nBlockAlign` bytes with `nBlockAlign` bytes per frame, right
   * after GetBuffer, and then releases the same number of frames.
   */
  lemma DeliveringPass(cfg: Config, deadline: int, w: Wake)
    requires Delivers(w)
    ensures var ev := Iteration(cfg, deadline, w).events;
            && |ev| == 5
            && ev[0] == Wait(deadline + cfg.duration)
            && ev[1] == NextPacketSize
            && ev[2] == GetBuffer
            && ev[3] == Broadcast(ByteCount(w.frames, cfg.blockAlign), cfg.blockAlign)
            && ev[4] == ReleaseBuffer(w.frames)
            && forall i :: 0 <= i < |ev| && i != 3 ==> !ev[i].Broadcast?
  {
  }

  /**
   * The stop flag is only read by the loop condition: it never changes
   * what a pass does, only whether another pass follows.
   */
  lemma StopFlagOnlyAtCondition(cfg: Config, deadline: int, w: Wake, flag: bool)
    ensures Iteration(cfg, deadline, w.(stopFlag := flag)).events == Iteration(cfg, deadline, w).events
    ensures Iteration(cfg, deadline, w.(stopFlag := flag)).deadline == Iteration(cfg, deadline, w).deadline
  {
  }

  lemma NothingObserved(t: Trail, ev: seq<Event>)
    requires forall i :: 0 <= i < |ev| ==> Mark(t, ev[i]) == []
    ensures Observed(t, ev) == []
  {
  }

  /** A pass sets the timer once, to the next deadline of the schedule. */
  lemma PassDeadlines(cfg: Config, deadline: int, w: Wake)
    ensures Observed(Timer, Iteration(cfg, deadline, w).events) == [deadline + cfg.duration]
  {
    var ev := Iteration(cfg, deadline, w).events;
    assert forall i :: 1 <= i < |ev| ==> Mark(Timer, ev[i]) == [];
    assert forall i :: 0 <= i < |ev[1..]| ==> ev[1..][i] == ev[i + 1];
    NothingObserved(Timer, ev[1..]);
  }

  /** A pass releases the frames of the buffer it got, if it got one, and nothing else. */
  lemma PassReleases(cfg: Config, deadline: int, w: Wake)
    ensures Observed(Frames, Iteration(cfg, deadline, w).events) == (if Delivers(w) then [w.frames] else [])
  {
    var ev := Iteration(cfg, deadline, w).events;
    if Delivers(w) {
      DeliveringPass(cfg, deadline, w);
      var front := ev[..4];
      assert ev == front + [ev[4]];
      assert forall i :: 0 <= i < |front| ==> front[i] == ev[i];
      NothingObserved(Frames, front);
      ObservedAppend(Frames, front, [ev[4]]);
    } else {
      assert forall i :: 0 <= i < |ev| ==> Mark(Frames, ev[i]) == [];
      NothingObserved(Frames, ev);
    }
  }

  /** The events of one pass are well paired. */
  lemma PassPaired(cfg: Config, deadline: int, w: Wake)
    ensures Paired(Iteration(cfg, deadline, w).events, cfg.blockAlign)
  {
    var ev := Iteration(cfg, deadline, w).events;
    if Delivers(w) {
      DeliveringPass(cfg, deadline, w);
      forall i | 0 <= i < |ev| && ev[i].ReleaseBuffer?
        ensures i == 4
      {
      }
    } else {
      assert forall i :: 0 <= i < |ev| ==> !ev[i].Broadcast? && !ev[i].ReleaseBuffer?;
    }
  }

  // ---------------------------------------------------------------------
  // The loop

  /** Whether the loop stopped normally, the process exited, or the replies ran out first. */
  datatype Outcome = Stopped | Aborted(hr: HRESULT) | Pending

  datatype Run = Run(events: seq<Event>, outcome: Outcome)

  /**
   * How many passes the loop makes over the given wakes: up to and
   * including the first one that does not continue, or all of them.
   */
  function Executed(trace: seq<Wake>): (n: nat)
    ensures n <= |trace|
    ensures n == 0 <==> |trace| == 0
    ensures forall j :: 0 <= j < n - 1 ==> Continues(trace[j])
    ensures n == |trace| || !Continues(trace[n - 1])
  {
    if |trace| == 0 then 0
    else if Continues(trace[0]) then 1 + Executed(trace[1..])
    else 1
  }

  /** The frame counts of the wakes that hand a buffer to the network, in order. */
  function Delivered(trace: seq<Wake>): seq<int> {
    if |trace| == 0 then []
    else (if Delivers(trace[0]) then [trace[0].frames] else []) + Delivered(trace[1..])
  }

  lemma {:induction false} ObservedAppend(t: Trail, a: seq<Event>, b: seq<Event>)
    ensures Observed(t, a + b) == Observed(t, a) + Observed(t, b)
    decreases |a|
  {
    if |a| == 0 {
      assert a + b == b;
    } else {
      calc {
        Observed(t, a + b);
      == { assert (a + b)[0] == a[0]; assert (a + b)[1..] == a[1..] + b; }
        Mark(t, a[0]) + Observed(t, a[1..] + b);
      == { ObservedAppend(t, a[1..], b); }
        Mark(t, a[0]) + (Observed(t, a[1..]) + Observed(t, b));
      }
    }
  }

  /** Pairing survives concatenation, since a well-paired run never ends on a broadcast. */
  lemma PairedAppend(a: seq<Event>, b: seq<Event>, blockAlign: u16)
    requires Paired(a, blockAlign) && Paired(b, blockAlign)
    ensures Paired(a + b, blockAlign)
  {
    var ev := a + b;
    forall i | 0 <= i < |ev| && ev[i].Broadcast?
      ensures && 0 < i < |ev| - 1
              && ev[i - 1] == GetBuffer
              && ev[i + 1].ReleaseBuffer?
              && ev[i] == Broadcast(ByteCount(ev[i + 1].frames, blockAlign), blockAlign)
    {
      if i < |a| {
        assert a[i].Broadcast?;
      } else {
        assert b[i - |a|].Broadcast?;
      }
    }
    forall i | 0 <= i < |ev| && ev[i].ReleaseBuffer?
      ensures 0 < i && ev[i - 1].Broadcast?
    {
      if i < |a| {
        assert a[i].ReleaseBuffer?;
      } else {
        assert b[i - |a|].ReleaseBuffer?;
      }
    }
  }

  /**
   * The `do ... while (!_stoppped)` loop from the deadline `deadline`,
   * consuming one wake per pass. A pass that breaks or sees the stop flag
   * is followed by `Stop()`; a failed backend call ends everything with no
   * `Stop()`; if the wakes run out the loop is still going.
   */
  function Loop(cfg: Config, deadline: int, trace: seq<Wake>): (r: Run)
    ensures r.outcome == Pending <==> forall j :: 0 <= j < |trace| ==> Continues(trace[j])
    ensures r.outcome == Stopped <==> |trace| > 0 && Breaks(trace[Executed(trace) - 1])
    ensures r.outcome.Aborted? <==> |trace| > 0 && Faults(trace[Executed(trace) - 1])
    ensures r.outcome.Aborted? ==> Failed(r.outcome.hr)
    decreases |trace|
  {
    if |trace| == 0 then
      Run([], Pending)
    else
      var s := Iteration(cfg, deadline, trace[0]);
      match s.next
      case Abort(hr) => Run(s.events, Aborted(hr))
      case Exit => Run(s.events + [StopClient], Stopped)
      case Continue =>
        var rest := Loop(cfg, s.deadline, trace[1..]);
        assert forall j :: 1 <= j < |trace| ==> trace[1..][j - 1] == trace[j];
        Run(s.events + rest.events, rest.outcome)
  }

  /** Every broadcast of a run sits between GetBuffer and the ReleaseBuffer of its frames. */
  lemma {:induction false} LoopPaired(cfg: Config, deadline: int, trace: seq<Wake>)
    ensures Paired(Loop(cfg, deadline, trace).events, cfg.blockAlign)
    decreases |trace|
  {
    if |trace| > 0 {
      var s := Iteration(cfg, deadline, trace[0]);
      PassPaired(cfg, deadline, trace[0]);
      match s.next
      case Abort(_) =>
      case Exit =>
        PairedAppend(s.events, [StopClient], cfg.blockAlign);
      case Continue =>
        LoopPaired(cfg, s.deadline, trace[1..]);
        PairedAppend(s.events, Loop(cfg, s.deadline, trace[1..]).events, cfg.blockAlign);
    }
  }

  /**
   * The timer keeps a fixed schedule: the run waits once per pass made, and
   * the k-th wait (from 0) is for `deadline + (k + 1) * duration`, whatever
   * each pass did.
   */
  lemma {:induction false} LoopSchedule(cfg: Config, deadline: int, trace: seq<Wake>)
    ensures |Observed(Timer, Loop(cfg, deadline, trace).events)| == Executed(trace)
    ensures forall k :: 0 <= k < Executed(trace) ==>
              Observed(Timer, Loop(cfg, deadline, trace).events)[k] == deadline + (k + 1) * cfg.duration
    decreases |trace|
  {
    if |trace| > 0 {
      var s := Iteration(cfg, deadline, trace[0]);
      PassDeadlines(cfg, deadline, trace[0]);
      match s.next
      case Abort(_) =>
      case Exit =>
        ObservedAppend(Timer, s.events, [StopClient]);
      case Continue =>
        var rest := Loop(cfg, s.deadline, trace[1..]);
        LoopSchedule(cfg, s.deadline, trace[1..]);
        ObservedAppend(Timer, s.events, rest.events);
        var ds := Observed(Timer, s.events + rest.events);
        forall k | 0 <= k < Executed(trace)
          ensures ds[k] == deadline + (k + 1) * cfg.duration
        {
          if k > 0 {
            assert ds[k] == Observed(Timer, rest.events)[k - 1];
            assert s.deadline + k * cfg.duration == deadline + (k + 1) * cfg.duration;
          }
        }
    }
  }

  /**
   * Nothing captured is lost or reordered: the frames released, in order,
   * are those of the passes that got a buffer, in capture order.
   */
  lemma {:induction false} LoopReleases(cfg: Config, deadline: int, trace: seq<Wake>)
    ensures Observed(Frames, Loop(cfg, deadline, trace).events) == Delivered(trace[..Executed(trace)])
    decreases |trace|
  {
    if |trace| > 0 {
      var s := Iteration(cfg, deadline, trace[0]);
      PassReleases(cfg, deadline, trace[0]);
      var n := Executed(trace);
      match s.next
      case Abort(_) =>
        assert trace[..n] == [trace[0]];
      case Exit =>
        assert trace[..n] == [trace[0]];
        ObservedAppend(Frames, s.events, [StopClient]);
      case Continue =>
        var rest := Loop(cfg, s.deadline, trace[1..]);
        LoopReleases(cfg, s.deadline, trace[1..]);
        ObservedAppend(Frames, s.events, rest.events);
        assert trace[..n][0] == trace[0];
        assert trace[..n][1..] == trace[1..][..n - 1];
    }
  }

  /**
   * `Stop()` is called exactly when the loop left normally, once, as the
   * last thing the run does.
   */
  lemma {:induction false} LoopStopsOnce(cfg: Config, deadline: int, trace: seq<Wake>)
    ensures var r := Loop(cfg, deadline, trace);
            && (StopClient in r.events <==> r.outcome == Stopped)
            && (r.outcome == Stopped ==>
                  r.events[|r.events| - 1] == StopClient && StopClient !in r.events[..|r.events| - 1])
    decreases |trace|
  {
    if |trace| > 0 {
      var s := Iteration(cfg, deadline, trace[0]);
      match s.next
      case Abort(_) =>
      case Exit =>
        var ev := s.events + [StopClient];
        assert ev[..|ev| - 1] == s.events;
      case Continue =>
        var rest := Loop(cfg, s.deadline, trace[1..]);
        LoopStopsOnce(cfg, s.deadline, trace[1..]);
        var ev := s.events + rest.events;
        if rest.outcome == Stopped {
          assert ev[..|ev| - 1] == s.events + rest.events[..|rest.events| - 1];
        }
    }
  }

  /**
   * The loop body always runs once: whatever the stop flag says during the
   * first pass, the run starts with that pass's events.
   */
  lemma FirstPassUnconditional(cfg: Config, deadline: int, trace: seq<Wake>)
    requires |trace| >= 1
    ensures Loop(cfg, deadline, trace).events[..|Iteration(cfg, deadline, trace[0]).events|]
         == Iteration(cfg, deadline, trace[0]).events
  {
    var s := Iteration(cfg, deadline, trace[0]);
    var r := Loop(cfg, deadline, trace);
    match s.next
    case Abort(_) =>
    case Exit =>
      assert r.events == s.events + [StopClient];
    case Continue =>
      assert r.events == s.events + Loop(cfg, s.deadline, trace[1..]).events;
  }

  // ---------------------------------------------------------------------
  // The whole capture session

  datatype Recording = Recording(format: AudioFormat, init: InitResult, run: Checked<Run>)

  /**
   * `do_loopback_recording` after the device is opened: rewrite an
   * extensible float mix format, publish it with `set_format`, initialise
   * the stream (with its one fallback) and run the loop with the mix
   * format's frame size and the device period, starting from `start`.
   */
  function DoLoopbackRecording(prior: AudioFormat, mix: WaveFormat, hnsPeriod: i64,
                               loopbackHr: HRESULT, eventCallbackHr: HRESULT,
                               start: int, trace: seq<Wake>): (r: Recording)
    ensures r.format == SetFormat(prior, mix)
    ensures r.run.Fatal? <==> Failed(loopbackHr) && Failed(eventCallbackHr)
    ensures r.run.Ok? ==> r.run.value == Loop(Config(mix.blockAlign, PeriodMillis(hnsPeriod)), start, trace)
  {
    var format := RewriteExtensible(mix);
    RewriteThenSetFormat(prior, mix);
    var published := SetFormat(prior, format);
    var init := InitializeClient(loopbackHr, eventCallbackHr);
    var cfg := Config(format.blockAlign, PeriodMillis(hnsPeriod));
    match init.status
    case Fatal(hr) => Recording(published, init, Fatal(hr))
    case Ok(_) => Recording(published, init, Ok(Loop(cfg, start, trace)))
  }
}
