/** The stall watchdog: when a run without step progress is failed, over any sequence of passes. */
module Stall {
  import opened Common
  import opened Castle
  import opened Drains

  datatype Phase = Pending | Running | Succeeded | Failed

  predicate TerminalPhase(p: Phase) {
    p.Succeeded? || p.Failed?
  }

  /** The status fields the watchdog reads and writes; lastStepProgress is stored in whole seconds. */
  datatype Status = Status(phase: Phase, lastStepProgress: Option<int>, stalled: bool)

  /** An authoritative observation: the run's idle signal and the newest consumed progress time. */
  datatype Observation = Observation(idle: bool, progress: Option<int>)

  /** One pass: the clock, the phase derived for it, the observation if there was one, and whether its status write is
      lost. */
  datatype Look = Look(now: int, phase: Phase, obs: Option<Observation>, writeFails: bool)

  /** What the pending status becomes, and whether the run must be failed. */
  ghost function Watch(update: Status, progress: Option<int>, now: int, window: int): (Status, bool) {
    if window <= 0 then (update, false)
    else if progress.None? && update.lastStepProgress.None? then (update.(lastStepProgress := Some(Stored(now))), false)
    else
      var clock := if progress.Some? then progress.value else update.lastStepProgress.value;
      var stamped := if progress.Some? then update.(lastStepProgress := Some(Stored(clock))) else update;
      if update.phase == Running && now - clock > window then (stamped.(phase := Phase.Failed, stalled := true), true)
      else (stamped, false)
  }

  /** A run's stored status, and the pass that works on a copy of it. */
  class WatchedRun {
    var status: Status
    const window: int

    constructor (status: Status, window: int)
      ensures this.status == status && this.window == window
    {
      this.status, this.window := status, window;
    }

    method ApplyStallWatchdog(update: Status, progress: Option<int>, now: int) returns (u: Status, fired: bool)
      ensures (u, fired) == Watch(update, progress, now, window)
    {
      u, fired := update, false;
      if window <= 0 {
        return;
      }
      var clock;
      if progress.None? {
        if u.lastStepProgress.None? {
          u := u.(lastStepProgress := Some(Stored(now)));
          return;
        }
        clock := u.lastStepProgress.value;
      } else {
        clock := progress.value;
        u := u.(lastStepProgress := Some(Stored(clock)));
      }
      if u.phase != Running {
        return;
      }
      if now - clock <= window {
        return;
      }
      u := u.(phase := Phase.Failed, stalled := true);
      fired := true;
    }

    /** The watched part of one pass over a run that is not yet terminal. */
    method Pass(look: Look) returns (fired: bool)
      modifies this`status
      ensures status == Step(old(status), look, window)
      ensures fired <==> !TerminalPhase(old(status).phase) && Fires(old(status), look, window)
    {
      fired := false;
      if status.phase.Succeeded? || status.phase.Failed? {
        return;
      }
      var update := status.(phase := look.phase);
      if look.obs.Some? && !look.obs.value.idle {
        update, fired := ApplyStallWatchdog(update, look.obs.value.progress, look.now);
      }
      if update != status && !look.writeFails {
        status := update;
      }
    }
  }

  predicate Watched(look: Look) {
    look.obs.Some? && !look.obs.value.idle
  }

  ghost predicate Fires(s: Status, look: Look, window: int) {
    Watched(look) && Watch(s.(phase := look.phase), look.obs.value.progress, look.now, window).1
  }

  /** The stored status after a pass; a terminal status is left alone. */
  ghost function Step(s: Status, look: Look, window: int): Status {
    if TerminalPhase(s.phase) || look.writeFails then s
    else
      var update := s.(phase := look.phase);
      if Watched(look) then Watch(update, look.obs.value.progress, look.now, window).0 else update
  }

  ghost function Exec(s: Status, looks: seq<Look>, window: int): Status {
    if looks == [] then s else Step(Exec(s, looks[..|looks| - 1], window), looks[|looks| - 1], window)
  }

  // ---------------------------------------------------------------- the clock of a pass

  /** A pass whose stamp reached the store. */
  predicate Stamps(look: Look) {
    Watched(look) && !look.writeFails
  }

  /** Pass k was the first to stamp, and no stamping pass of the run has seen any progress. */
  ghost predicate FirstObserved(looks: seq<Look>, k: nat) {
    && k < |looks| && Stamps(looks[k])
    && (forall j :: 0 <= j < k ==> !Stamps(looks[j]))
    && (forall j :: 0 <= j < |looks| && Stamps(looks[j]) ==> looks[j].obs.value.progress.None?)
  }

  /** Pass k was the last stamping pass that saw progress. */
  ghost predicate LastSeen(looks: seq<Look>, k: nat) {
    && k < |looks| && Stamps(looks[k]) && looks[k].obs.value.progress.Some?
    && (forall j :: k < j < |looks| && Stamps(looks[j]) ==> looks[j].obs.value.progress.None?)
  }

  ghost predicate SeenAt(looks: seq<Look>, k: nat, clock: int) {
    LastSeen(looks, k) && clock == Stored(looks[k].obs.value.progress.value)
  }

  ghost predicate ObservedAt(looks: seq<Look>, k: nat, clock: int) {
    FirstObserved(looks, k) && clock == Stored(looks[k].now)
  }

  /** The time a pass with no progress of its own is judged by: the last seen progress, else the first observation. */
  ghost predicate Baseline(looks: seq<Look>, clock: int) {
    (exists k: nat :: SeenAt(looks, k, clock)) || (exists k: nat :: ObservedAt(looks, k, clock))
  }

  /** The time a pass after these is judged by. */
  ghost predicate Clock(looks: seq<Look>, look: Look, clock: int)
    requires Watched(look)
  {
    if look.obs.value.progress.Some? then look.obs.value.progress == Some(clock) else Baseline(looks, clock)
  }

  ghost predicate Live(s: Status, looks: seq<Look>, window: int) {
    forall i :: 0 <= i <= |looks| ==> !TerminalPhase(Exec(s, looks[..i], window).phase)
  }

  predicate ShowsProgress(look: Look) {
    Stamps(look) && look.obs.value.progress.Some?
  }

  lemma SeenStep(before: seq<Look>, look: Look, c: int)
    ensures var looks := before + [look];
            (exists k: nat :: SeenAt(looks, k, c))
            <==> if ShowsProgress(look) then c == Stored(look.obs.value.progress.value)
              else exists k: nat :: SeenAt(before, k, c)
  {
    var looks, n := before + [look], |before|;
    assert looks[n] == look && forall j :: 0 <= j < n ==> looks[j] == before[j];
    if k: nat :| SeenAt(looks, k, c) {
      assert k < n ==> !ShowsProgress(look) && SeenAt(before, k, c);
    }
    if ShowsProgress(look) {
      assert c == Stored(look.obs.value.progress.value) ==> SeenAt(looks, n, c);
    } else if k: nat :| SeenAt(before, k, c) {
      assert SeenAt(looks, k, c);
    }
  }

  ghost predicate NoneStamped(looks: seq<Look>) {
    forall j :: 0 <= j < |looks| ==> !Stamps(looks[j])
  }

  lemma ObservedStep(before: seq<Look>, look: Look, c: int)
    ensures var looks := before + [look];
            (exists k: nat :: ObservedAt(looks, k, c))
            <==> !ShowsProgress(look) && if Stamps(look) && NoneStamped(before) then c == Stored(look.now)
              else exists k: nat :: ObservedAt(before, k, c)
  {
    var looks, n := before + [look], |before|;
    assert looks[n] == look && forall j :: 0 <= j < n ==> looks[j] == before[j];
    if k: nat :| ObservedAt(looks, k, c) {
      assert !ShowsProgress(look);
      assert k < n ==> ObservedAt(before, k, c);
    }
    if !ShowsProgress(look) && Stamps(look) && NoneStamped(before) {
      assert c == Stored(look.now) ==> ObservedAt(looks, n, c);
    } else if !ShowsProgress(look) {
      if k: nat :| ObservedAt(before, k, c) {
        assert ObservedAt(looks, k, c);
      }
    }
  }

  lemma NoneStampedNoBaseline(looks: seq<Look>, c: int)
    requires NoneStamped(looks)
    ensures !Baseline(looks, c)
  {
    forall k: nat ensures !SeenAt(looks, k, c) && !ObservedAt(looks, k, c) {}
  }

  /** One more pass moves the baseline exactly as the watchdog moves the stamp. */
  lemma BaselineStep(before: seq<Look>, look: Look, c: int)
    ensures Baseline(before + [look], c) <==>
              if ShowsProgress(look) then c == Stored(look.obs.value.progress.value)
              else if Stamps(look) && NoneStamped(before) then c == Stored(look.now)
              else Baseline(before, c)
  {
    SeenStep(before, look, c);
    ObservedStep(before, look, c);
    if NoneStamped(before) { NoneStampedNoBaseline(before, c); }
  }

  /** The stored stamp is the baseline, set once and then moved only by progress. */
  lemma {:induction false} StampIsBaseline(s: Status, looks: seq<Look>, window: int, c: int)
    requires window > 0 && s.lastStepProgress.None? && Live(s, looks, window)
    ensures Baseline(looks, c) <==> Exec(s, looks, window).lastStepProgress == Some(c)
    ensures NoneStamped(looks) <==> Exec(s, looks, window).lastStepProgress == None
    decreases |looks|
  {
    if looks == [] {
      NoneStampedNoBaseline(looks, c);
    } else {
      var before, last := looks[..|looks| - 1], |looks| - 1;
      assert forall i :: 0 <= i <= last ==> before[..i] == looks[..i];
      StampIsBaseline(s, before, window, c);
      assert !TerminalPhase(Exec(s, looks[..last], window).phase);
      assert looks == before + [looks[last]];
      BaselineStep(before, looks[last], c);
      NoneStampedStep(before, looks[last]);
      hide Baseline, NoneStamped, Exec;
      LastStep(s, looks, window);
    }
  }

  lemma NoneStampedStep(before: seq<Look>, look: Look)
    ensures NoneStamped(before + [look]) <==> NoneStamped(before) && !Stamps(look)
  {
    assert (before + [look])[|before|] == look && forall j :: 0 <= j < |before| ==> (before + [look])[j] == before[j];
  }

  lemma LastStep(s: Status, looks: seq<Look>, window: int)
    requires looks != []
    ensures Exec(s, looks, window) == Step(Exec(s, looks[..|looks| - 1], window), looks[|looks| - 1], window)
  {
  }

  /** A watched pass fails the run exactly when it is Running and its clock is more than the window old. */
  lemma FiresExactlyWhenStale(s: Status, looks: seq<Look>, look: Look, window: int)
    requires window > 0 && s.lastStepProgress.None? && Live(s, looks, window)
    ensures Fires(Exec(s, looks, window), look, window) <==>
              Watched(look) && look.phase == Running
                && exists clock :: Clock(looks, look, clock) && look.now - clock > window
  {
    var stamp := Exec(s, looks, window).lastStepProgress;
    if Watched(look) {
      if look.obs.value.progress.Some? {
        assert Clock(looks, look, look.obs.value.progress.value);
      } else {
        forall c ensures Clock(looks, look, c) <==> stamp == Some(c) { StampIsBaseline(s, looks, window, c); }
      }
    }
  }

  /** A run that never shows progress is failed by the first Running pass past the window since the first stored
      observation. */
  lemma HeartbeatOnlyRunIsFailed(s: Status, looks: seq<Look>, look: Look, window: int, k: nat)
    requires window > 0 && s.lastStepProgress.None? && Live(s, looks, window)
    requires FirstObserved(looks, k) && Watched(look) && look.obs.value.progress.None? && look.phase == Running
    ensures Fires(Exec(s, looks, window), look, window) <==> look.now - Stored(looks[k].now) > window
  {
    assert ObservedAt(looks, k, Stored(looks[k].now));
    StampIsBaseline(s, looks, window, Stored(looks[k].now));
  }

  /** Once failed for a stall the run stays failed. */
  lemma {:induction false} StallIsFinal(s: Status, looks: seq<Look>, window: int)
    requires s.phase == Succeeded || s.phase == Phase.Failed
    ensures Exec(s, looks, window) == s
    decreases |looks|
  {
    if looks != [] { StallIsFinal(s, looks[..|looks| - 1], window); }
  }

  // ---------------------------------------------------------------- what the failure says about the stream

  /** Every step-progress event of a stretch of the stream is older than the window. */
  ghost predicate Quiet(stream: seq<Envelope>, now: int, window: int) {
    forall e :: e in stream && IsProgress(e.payload) && e.ts.Some? ==> now - e.ts.value > window
  }

  lemma {:induction false} ConsumedIsQuiet(s: Status, consumed: seq<Envelope>, look: Look, window: int)
    requires look.obs.Some? && look.obs.value.progress == Progress(None, consumed) && Fires(s, look, window)
    ensures Quiet(consumed, look.now, window)
  {
    ProgressIsMaximum(consumed);
  }

  /** Every failure on what one drain consumed of the visible stream means all of the visible stream has been quiet. */
  ghost predicate FailuresMeanQuiet(stored: nat, upTo: nat, window: int)
    requires stored <= upTo
  {
    forall s: Status, stream: seq<Envelope>, look: Look ::
      Increasing(stream) && upTo <= |stream| && look.obs.Some?
      && look.obs.value.progress == Progress(None, stream[..Reached(stored, upTo)]) && Fires(s, look, window) ==>
        Quiet(stream[..upTo], look.now, window)
  }

  /** A failure can be trusted exactly when the visible stream goes at most fifty pages beyond the stored cursor. */
  lemma FailureMeansQuietIff(stored: nat, upTo: nat, window: int)
    requires window > 0 && stored <= upTo
    ensures FailuresMeanQuiet(stored, upTo, window) <==> upTo <= stored + PAGE_SIZE * MAX_PAGES
  {
    if upTo <= stored + PAGE_SIZE * MAX_PAGES {
      forall s: Status, stream: seq<Envelope>, look: Look |
        Increasing(stream) && upTo <= |stream| && look.obs.Some?
        && look.obs.value.progress == Progress(None, stream[..Reached(stored, upTo)]) && Fires(s, look, window)
        ensures Quiet(stream[..upTo], look.now, window)
      {
        ConsumedIsQuiet(s, stream[..upTo], look, window);
      }
    } else {
      var stream, look := LateProgress(stored + PAGE_SIZE * MAX_PAGES, upTo, window);
      assert stream[..upTo] == stream;
      assert Fires(Status(Running, None, false), look, window);
    }
  }

  /** A stream whose progress resumes only after its first n events, and a pass that fails the run on those. */
  ghost function Resuming(n: nat, upTo: nat, window: int): seq<Envelope>
    requires window > 0
  {
    seq(upTo, i requires 0 <= i < upTo => Envelope(i + 1, Some(if i < n then 0 else window + 1), StepEntered))
  }

  lemma LateProgress(n: nat, upTo: nat, window: int) returns (stream: seq<Envelope>, look: Look)
    requires window > 0 && 0 < n < upTo
    ensures stream == Resuming(n, upTo, window) && Increasing(stream) && Progress(None, stream[..n]) == Some(0)
    ensures look == Look(window + 1, Running, Some(Observation(false, Some(0))), false)
    ensures Fires(Status(Running, None, false), look, window) && !Quiet(stream, look.now, window)
  {
    stream := Resuming(n, upTo, window);
    look := Look(window + 1, Running, Some(Observation(false, Some(0))), false);
    var prefix := stream[..n];
    ProgressIsMaximum(prefix);
    assert prefix[0] in prefix && forall e :: e in prefix ==> e.ts == Some(0);
    assert stream[n] in stream && stream[n].ts == Some(window + 1);
  }

  /** One drain over what the server shows, and the progress it leaves. */
  method Observe(o: RunObserver, stream: seq<Envelope>, upTo: nat) returns (progress: Option<int>)
    requires o.Tracks(stream) && o.Reach() <= upTo <= |stream|
    modifies o
    ensures o.Tracks(stream) && o.stored == Reached(old(o.stored), upTo) <= |stream|
    ensures progress == Progress(None, stream[..Reached(old(o.stored), upTo)])
  {
    var server := (i: nat) => Visible(upTo, 0);
    ViewServes(stream, server, o.stored, o.Reach(), upTo);
    WalkOverOneView(server, o.stored, 0, upTo);
    hide Serves, Walk, Progress, RunObserver.Tracks;
    var r, n := o.Drain(stream, server);
    progress := r.lastProgress;
  }

  /** One pass over a live run: drain what the server shows, then judge the run by it. */
  method ObservedPass(
      o: RunObserver, run: WatchedRun, stream: seq<Envelope>, upTo: nat, now: int, phase: Phase, writeFails: bool)
    returns (fired: bool)
    requires o.Tracks(stream) && o.Reach() <= upTo <= |stream|
    modifies o, run`status
    ensures o.Tracks(stream) && o.stored == Reached(old(o.stored), upTo)
    ensures var progress := Progress(None, stream[..Reached(old(o.stored), upTo)]);
            var look := Look(now, phase, Some(Observation(false, progress)), writeFails);
      && run.status == Step(old(run.status), look, run.window)
      && (fired <==> !TerminalPhase(old(run.status.phase)) && Fires(old(run.status), look, run.window))
    ensures fired && upTo <= old(o.stored) + PAGE_SIZE * MAX_PAGES ==> Quiet(stream[..upTo], now, run.window)
  {
    hide RunObserver.Tracks, Fires, Step, Progress;
    ghost var n := Reached(o.stored, upTo);
    var progress := Observe(o, stream, upTo);
    var look := Look(now, phase, Some(Observation(false, progress)), writeFails);
    ghost var before := run.status;
    fired := run.Pass(look);
    if fired { ConsumedIsQuiet(before, stream[..n], look, run.window); }
  }

  /** After a restart one drain rereads at most fifty pages, so a run that is live at the end of a longer stream is
      failed on the progress those pages end with. */
  method BudgetedDrainCanFailALiveRun(window: int)
      returns (o: RunObserver, run: WatchedRun, ghost stream: seq<Envelope>)
    requires window > 0
    ensures fresh(o) && fresh(run) && o.Tracks(stream) && |stream| == PAGE_SIZE * MAX_PAGES + 1
    ensures run.status.phase == Phase.Failed && run.status.stalled && !Quiet(stream, window + 1, window)
  {
    var n := PAGE_SIZE * MAX_PAGES;
    var shown := seq(n + 1, i requires 0 <= i <= n =>
        Envelope(i + 1, Some(if i < n then 0 else window + 1), StepEntered));
    ghost var look;
    stream, look := LateProgress(n, n + 1, window);
    assert shown == stream;
    o := new RunObserver();
    run := new WatchedRun(Status(Running, None, false), window);
    var fired := ObservedPass(o, run, shown, n + 1, window + 1, Running, false);
  }
}
