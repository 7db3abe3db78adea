/** The guarded reap of a terminal run's Jobs, and the deferral stamp its force window reads. */
module Reap {
  import opened Common

  // ---------------------------------------------------------------- can the runner start again

  datatype ContainerState = Terminated(exitCode: int) | Running | Waiting(crashedBefore: bool) | Unobserved

  datatype PodPhase = Pending | Active | Succeeded | Failed | Unknown

  datatype RunnerPod = RunnerPod(name: string, deleting: bool, phase: PodPhase, neverRestarts: bool,
    init: seq<ContainerState>, main: seq<ContainerState>)

  /** Why a pod may still start a container; Text carries the message of any other condition. */
  datatype Wait =
    RestartFollows | StillRunning | BetweenAttempts | NotStarted | NoState | ListFailed | Text(text: string)

  /** A container that starts no further attempt. */
  predicate Finished(c: ContainerState, neverRestarts: bool) {
    c.Terminated? && (c.exitCode == 0 || neverRestarts)
  }

  /** No container of the pod can start again. */
  ghost predicate Settled(pod: RunnerPod) {
    || pod.deleting || pod.phase.Succeeded? || pod.phase.Failed?
    || forall c :: c in pod.init + pod.main ==> Finished(c, pod.neverRestarts)
  }

  function WaitOf(c: ContainerState): Wait {
    match c
    case Terminated(_) => RestartFollows
    case Running => StillRunning
    case Waiting(crashed) => if crashed then BetweenAttempts else NotStarted
    case Unobserved => NoState
  }

  /** The first container that is not finished. */
  ghost function FirstWait(statuses: seq<ContainerState>, never: bool): Option<Wait> {
    if statuses == [] then None
    else if Finished(statuses[0], never) then FirstWait(statuses[1..], never)
    else Some(WaitOf(statuses[0]))
  }

  ghost function PodWait(pod: RunnerPod): (w: Option<Wait>)
    ensures w.None? <==> Settled(pod)
  {
    if pod.deleting || pod.phase.Succeeded? || pod.phase.Failed? then None
    else
      FirstWaitNone(pod.init + pod.main, pod.neverRestarts);
      FirstWait(pod.init + pod.main, pod.neverRestarts)
  }

  lemma {:induction false} FirstWaitNone(statuses: seq<ContainerState>, never: bool)
    ensures FirstWait(statuses, never).None? <==> forall c :: c in statuses ==> Finished(c, never)
  {
    if statuses != [] {
      assert statuses == [statuses[0]] + statuses[1..];
      FirstWaitNone(statuses[1..], never);
    }
  }

  method PodRestartPending(pod: RunnerPod) returns (w: Option<Wait>)
    ensures w == PodWait(pod)
  {
    if pod.deleting {
      return None;
    }
    if pod.phase.Succeeded? || pod.phase.Failed? {
      return None;
    }
    var lists := [pod.init, pod.main];
    ghost var whole := FirstWait(pod.init + pod.main, pod.neverRestarts);
    for l := 0 to 2
      invariant var left := if l == 0 then pod.init + pod.main else if l == 1 then pod.main else [];
                whole == FirstWait(left, pod.neverRestarts)
    {
      var statuses := lists[l];
      ghost var rest := if l == 0 then pod.main else [];
      assert statuses + rest == if l == 0 then pod.init + pod.main else pod.main;
      for i := 0 to |statuses|
        invariant whole == FirstWait(statuses[i..] + rest, pod.neverRestarts)
      {
        assert statuses[i..] == [statuses[i]] + statuses[i + 1..];
        assert (statuses[i..] + rest)[1..] == statuses[i + 1..] + rest;
        match statuses[i] {
          case Terminated(code) =>
            if code == 0 || pod.neverRestarts { continue; }
            return Some(RestartFollows);
          case Running => return Some(StillRunning);
          case Waiting(crashed) =>
            if crashed { return Some(BetweenAttempts); }
            return Some(NotStarted);
          case Unobserved => return Some(NoState);
        }
      }
      assert statuses[|statuses|..] + rest == rest;
    }
    return None;
  }

  /** A failed listing counts as pending: the guard fails closed. */
  ghost function RunnerWait(pods: Option<seq<RunnerPod>>): (w: Option<Wait>)
    ensures w.None? <==> pods.Some? && forall p :: p in pods.value ==> Settled(p)
  {
    match pods
    case None => Some(ListFailed)
    case Some(ps) => AnyWait(ps)
  }

  ghost function AnyWait(pods: seq<RunnerPod>): (w: Option<Wait>)
    ensures w.None? <==> forall p :: p in pods ==> Settled(p)
  {
    if pods == [] then None
    else if PodWait(pods[0]).Some? then PodWait(pods[0])
    else
      assert pods == [pods[0]] + pods[1..];
      AnyWait(pods[1..])
  }

  method RunnerRestartPending(pods: Option<seq<RunnerPod>>) returns (w: Option<Wait>)
    ensures w == RunnerWait(pods)
  {
    if pods.None? {
      return Some(ListFailed);
    }
    var ps := pods.value;
    for i := 0 to |ps|
      invariant AnyWait(ps) == AnyWait(ps[i..])
    {
      assert ps[i..][1..] == ps[i + 1..];
      var wait := PodRestartPending(ps[i]);
      if wait.Some? {
        return wait;
      }
    }
    return None;
  }

  // ---------------------------------------------------------------- conditions

  datatype Condition = Condition(ctype: string, holds: bool, reason: string, message: Wait, since: nat)

  const CLEANUP := "TerminalCleanup"
  const RESTART_PENDING := "runnerRestartPending"

  /** A condition keeps its transition time while its status does not change. */
  function Upsert(conds: seq<Condition>, c: Condition, now: nat): seq<Condition> {
    if conds == [] then [c.(since := now)]
    else if conds[0].ctype == c.ctype then
        [c.(since := if conds[0].holds == c.holds then conds[0].since else now)] + conds[1..]
    else [conds[0]] + Upsert(conds[1..], c, now)
  }

  lemma {:induction false} UpsertFrom(conds: seq<Condition>, c: Condition, now: nat, i: nat)
    requires i <= |conds| && forall j :: 0 <= j < i ==> conds[j].ctype != c.ctype
    ensures Upsert(conds, c, now) == conds[..i] + Upsert(conds[i..], c, now)
  {
    if i == 0 {
      assert conds[..0] == [] && conds[0..] == conds;
    } else {
      UpsertFrom(conds[1..], c, now, i - 1);
      assert conds[1..][i - 1..] == conds[i..];
      assert [conds[0]] + conds[1..][..i - 1] == conds[..i];
    }
  }

  method UpsertCondition(conds: seq<Condition>, c: Condition, now: nat) returns (out: seq<Condition>)
    ensures out == Upsert(conds, c, now)
  {
    for i := 0 to |conds|
      invariant forall j :: 0 <= j < i ==> conds[j].ctype != c.ctype
    {
      if conds[i].ctype != c.ctype {
        continue;
      }
      UpsertFrom(conds, c, now, i);
      var since := if conds[i].holds != c.holds then now else conds[i].since;
      return conds[i := c.(since := since)];
    }
    UpsertFrom(conds, c, now, |conds|);
    return conds + [c.(since := now)];
  }

  /** The entry of a type. */
  function Entry(conds: seq<Condition>, ctype: string): Option<Condition> {
    if conds == [] then None
    else if conds[0].ctype == ctype then Some(conds[0])
    else Entry(conds[1..], ctype)
  }

  /** At most one entry carries the type. */
  predicate Single(conds: seq<Condition>, ctype: string) {
    forall i, j :: 0 <= i < j < |conds| ==> conds[i].ctype != ctype || conds[j].ctype != ctype
  }

  lemma {:induction false} UpsertReplacesOne(conds: seq<Condition>, c: Condition, now: nat, other: string)
    ensures var was := Entry(conds, c.ctype);
            Entry(Upsert(conds, c, now), c.ctype)
              == Some(c.(since := if was.Some? && was.value.holds == c.holds then was.value.since else now))
    ensures other != c.ctype ==> Entry(Upsert(conds, c, now), other) == Entry(conds, other)
    ensures Single(conds, c.ctype) ==> Single(Upsert(conds, c, now), c.ctype)
  {
    if conds != [] && conds[0].ctype != c.ctype {
      UpsertReplacesOne(conds[1..], c, now, other);
      SingleTail(conds, c.ctype);
      SingleCons(conds[0], Upsert(conds[1..], c, now), c.ctype);
    } else if conds != [] {
      assert conds == [conds[0]] + conds[1..];
      assert Single(conds, c.ctype) ==> forall i :: 1 <= i < |conds| ==> conds[i].ctype != c.ctype;
    }
  }

  lemma SingleTail(conds: seq<Condition>, ctype: string)
    requires conds != []
    ensures Single(conds, ctype) ==> Single(conds[1..], ctype)
  {
    var t := conds[1..];
    assert forall i :: 0 <= i < |t| ==> t[i] == conds[i + 1];
  }

  lemma SingleCons(c: Condition, conds: seq<Condition>, ctype: string)
    requires c.ctype != ctype
    ensures Single(conds, ctype) ==> Single([c] + conds, ctype)
  {
  }

  /** The entry of a type that holds: what the deferral reads. */
  function Stamp(conds: seq<Condition>): Option<nat> {
    if conds == [] then None
    else if conds[0].ctype == CLEANUP && conds[0].holds then Some(conds[0].since)
    else Stamp(conds[1..])
  }

  lemma {:induction false} StampIsEntry(conds: seq<Condition>)
    requires Single(conds, CLEANUP)
    ensures Stamp(conds) == if Entry(conds, CLEANUP).Some? && Entry(conds, CLEANUP).value.holds then
        Some(Entry(conds, CLEANUP).value.since) else None
  {
    if conds != [] {
      SingleTail(conds, CLEANUP);
      StampIsEntry(conds[1..]);
      if conds[0].ctype == CLEANUP { AbsentEntry(conds); }
    }
  }

  lemma AbsentEntry(conds: seq<Condition>)
    requires conds != [] && conds[0].ctype == CLEANUP && Single(conds, CLEANUP)
    ensures Entry(conds[1..], CLEANUP).None?
  {
    assert forall i :: 1 <= i < |conds| ==> conds[i].ctype != CLEANUP;
    NoEntry(conds[1..]);
  }

  lemma {:induction false} NoEntry(conds: seq<Condition>)
    requires forall i :: 0 <= i < |conds| ==> conds[i].ctype != CLEANUP
    ensures Entry(conds, CLEANUP).None?
  {
    if conds != [] { NoEntry(conds[1..]); }
  }

  function RemoveEntry(conds: seq<Condition>): seq<Condition> {
    if conds == [] then []
    else if conds[0].ctype == CLEANUP then conds[1..]
    else [conds[0]] + RemoveEntry(conds[1..])
  }

  lemma {:induction false} RemoveFrom(conds: seq<Condition>, i: nat)
    requires i <= |conds| && forall j :: 0 <= j < i ==> conds[j].ctype != CLEANUP
    ensures i < |conds| && conds[i].ctype == CLEANUP ==> RemoveEntry(conds) == conds[..i] + conds[i + 1..]
    ensures i == |conds| ==> RemoveEntry(conds) == conds
  {
    if i > 0 {
      RemoveFrom(conds[1..], i - 1);
      assert conds == [conds[0]] + conds[1..];
    }
  }

  lemma {:induction false} RemovedEntryIsGone(conds: seq<Condition>, other: string)
    requires Single(conds, CLEANUP) && other != CLEANUP
    ensures Entry(RemoveEntry(conds), CLEANUP).None? && Single(RemoveEntry(conds), CLEANUP)
    ensures Entry(RemoveEntry(conds), other) == Entry(conds, other)
  {
    if conds != [] {
      SingleTail(conds, CLEANUP);
      if conds[0].ctype == CLEANUP {
        AbsentEntry(conds);
      } else {
        RemovedEntryIsGone(conds[1..], other);
        SingleCons(conds[0], RemoveEntry(conds[1..]), CLEANUP);
      }
    }
  }

  // ---------------------------------------------------------------- one pass

  datatype JobAnswer = JobAnswer(getFails: bool, deleteFails: bool)

  /** What one pass observes: the clock, the runner pods (None when listing failed) and every API outcome. */
  datatype Look = Look(now: nat, pods: Option<seq<RunnerPod>>, getFails: bool, updateFails: bool,
                       onJob: string -> JobAnswer, clearGetFails: bool, clearUpdateFails: bool)

  datatype State = State(conditions: seq<Condition>, jobs: set<string>)

  function Deferral(w: Wait): Condition {
    Condition(CLEANUP, true, RESTART_PENDING, w, 0)
  }

  /** Jobs left, and whether every desired one was dealt with. */
  function DeleteJobs(jobs: set<string>, desired: seq<string>, onJob: string -> JobAnswer): (set<string>, bool) {
    if desired == [] then (jobs, true)
    else if onJob(desired[0]).getFails then (jobs, false)
    else if desired[0] !in jobs then DeleteJobs(jobs, desired[1..], onJob)
    else if onJob(desired[0]).deleteFails then (jobs, false)
    else DeleteJobs(jobs - {desired[0]}, desired[1..], onJob)
  }

  function Clear(s: State, look: Look): State {
    if look.clearGetFails || Stamp(s.conditions).None? || look.clearUpdateFails then s
    else s.(conditions := RemoveEntry(s.conditions))
  }

  function ReapJobs(s: State, desired: seq<string>, look: Look): State {
    var (jobs, ok) := DeleteJobs(s.jobs, desired, look.onJob);
    if ok then Clear(s.(jobs := jobs), look) else s.(jobs := jobs)
  }

  /** The deferral outlived the window. */
  predicate Overdue(s: State, window: nat, now: nat) {
    window > 0 && Stamp(s.conditions).Some? && now - Stamp(s.conditions).value > window
  }

  function Marked(s: State, wait: Wait, now: nat): State {
    s.(conditions := Upsert(s.conditions, Deferral(wait), Stored(now)))
  }

  ghost function PassOf(s: State, desired: seq<string>, window: nat, look: Look): State {
    match RunnerWait(look.pods)
    case None => ReapJobs(s, desired, look)
    case Some(wait) =>
      var marked := Marked(s, wait, look.now);
      if look.getFails || (marked != s && look.updateFails) then s
      else if Overdue(s, window, look.now) then ReapJobs(marked, desired, look)
      else marked
  }

  datatype Outcome = Deferred | DeferFailed | ReapFailed | Reaped

  /** How the pass ends: deferred or not, and whether every call of the reap it makes is answered. */
  ghost function OutcomeOf(s: State, desired: seq<string>, window: nat, look: Look): (outcome: Outcome)
    ensures outcome == Deferred || outcome == DeferFailed ==>
      RunnerWait(look.pods).Some? && PassOf(s, desired, window, look).jobs == s.jobs
  {
    match RunnerWait(look.pods)
    case None => ReapOutcome(s, desired, look)
    case Some(wait) =>
      var marked := Marked(s, wait, look.now);
      if look.getFails || (marked != s && look.updateFails) then DeferFailed
      else if !Overdue(s, window, look.now) then Deferred
      else ReapOutcome(marked, desired, look)
  }

  ghost function ReapOutcome(s: State, desired: seq<string>, look: Look): (outcome: Outcome)
    ensures outcome == ReapFailed || outcome == Reaped
  {
    if !DeleteJobs(s.jobs, desired, look.onJob).1 || look.clearGetFails
       || (Stamp(s.conditions).Some? && look.clearUpdateFails) then ReapFailed
    else Reaped
  }

  /** A terminal run as the reap sees it. */
  class TerminalRun {
    var conditions: seq<Condition>
    var jobs: set<string>
    const desired: seq<string>
    const window: nat

    constructor (conditions: seq<Condition>, jobs: set<string>, desired: seq<string>, window: nat)
      ensures this.conditions == conditions && this.jobs == jobs && this.desired == desired && this.window == window
    {
      this.conditions, this.jobs, this.desired, this.window := conditions, jobs, desired, window;
    }

    ghost function Abs(): State
      reads this
    {
      State(conditions, jobs)
    }

    method TerminalCleanupCondition() returns (since: Option<nat>)
      ensures since == Stamp(conditions)
    {
      for i := 0 to |conditions|
        invariant Stamp(conditions) == Stamp(conditions[i..])
      {
        assert conditions[i..][1..] == conditions[i + 1..];
        if conditions[i].ctype == CLEANUP && conditions[i].holds {
          return Some(conditions[i].since);
        }
      }
      return None;
    }

    /** Stamps the deferral; the first stamp of an episode never forces, and a lost write neither stamps nor forces. */
    method MarkTerminalCleanupDeferred(wait: Wait, look: Look) returns (forced: Option<bool>)
      modifies this`conditions
      ensures forced.None? <==> look.getFails || (Marked(old(Abs()), wait, look.now) != old(Abs()) && look.updateFails)
      ensures Abs() == if forced.None? then old(Abs()) else Marked(old(Abs()), wait, look.now)
      ensures forced.Some? ==> (forced.value <==> Overdue(old(Abs()), window, look.now))
    {
      if look.getFails {
        return None;
      }
      var since := TerminalCleanupCondition();
      var elapsed := look.now - since.GetOr(0);
      var force := window > 0 && elapsed > window;
      var update := UpsertCondition(conditions, Deferral(wait), Stored(look.now));
      if update != conditions {
        if look.updateFails {
          return None;
        }
        conditions := update;
      }
      return Some(since.Some? && force);
    }

    method ClearTerminalCleanup(look: Look) returns (ok: bool)
      modifies this`conditions
      ensures Abs() == Clear(old(Abs()), look)
      ensures ok <==> !look.clearGetFails && (Stamp(old(conditions)).None? || !look.clearUpdateFails)
    {
      if look.clearGetFails {
        return false;
      }
      var since := TerminalCleanupCondition();
      if since.None? {
        return true;
      }
      var update := conditions;
      hide Stamp;
      for i := 0 to |update|
        invariant update == conditions && forall j :: 0 <= j < i ==> conditions[j].ctype != CLEANUP
      {
        if update[i].ctype == CLEANUP {
          RemoveFrom(conditions, i);
          update := update[..i] + update[i + 1..];
          break;
        }
      }
      if update == conditions {
        RemoveFrom(conditions, |conditions|);
      }
      if look.clearUpdateFails {
        return false;
      }
      conditions := update;
      return true;
    }

    method DeleteChildJobs(look: Look) returns (ok: bool)
      modifies this`jobs
      ensures (jobs, ok) == DeleteJobs(old(jobs), desired, look.onJob)
    {
      for i := 0 to |desired|
        invariant DeleteJobs(old(jobs), desired, look.onJob) == DeleteJobs(jobs, desired[i..], look.onJob)
      {
        assert desired[i..][1..] == desired[i + 1..];
        if look.onJob(desired[i]).getFails {
          return false;
        }
        if desired[i] in jobs {
          if look.onJob(desired[i]).deleteFails {
            return false;
          }
          jobs := jobs - {desired[i]};
        }
      }
      return true;
    }

    method DeleteTerminalChildJobs(look: Look) returns (outcome: Outcome)
      modifies this`conditions, this`jobs
      ensures Abs() == PassOf(old(Abs()), desired, window, look)
      ensures outcome == OutcomeOf(old(Abs()), desired, window, look)
    {
      var wait := RunnerRestartPending(look.pods);
      if wait.Some? {
        var forced := MarkTerminalCleanupDeferred(wait.value, look);
        if forced.None? {
          return DeferFailed;
        }
        if !forced.value {
          return Deferred;
        }
      }
      var ok := DeleteChildJobs(look);
      if !ok {
        return ReapFailed;
      }
      ok := ClearTerminalCleanup(look);
      return if ok then Reaped else ReapFailed;
    }
  }

  // ---------------------------------------------------------------- over any number of passes

  /** A pass, or another writer changing conditions of other types. */
  datatype Event = Pass(look: Look) | Write(conditions: seq<Condition>)

  ghost function Step(s: State, e: Event, desired: seq<string>, window: nat): State {
    match e
    case Pass(look) => PassOf(s, desired, window, look)
    case Write(c) => if Single(c, CLEANUP) && Entry(c, CLEANUP) == Entry(s.conditions, CLEANUP) then
      s.(conditions := c) else s
  }

  ghost function Exec(s: State, events: seq<Event>, desired: seq<string>, window: nat): State {
    if events == [] then s else Step(Exec(s, events[..|events| - 1], desired, window), events[|events| - 1], desired,
        window)
  }

  lemma MarkedStamp(s: State, wait: Wait, now: nat)
    requires Single(s.conditions, CLEANUP)
    ensures var m := Marked(s, wait, now);
            Single(m.conditions, CLEANUP) && m.jobs == s.jobs
              && Stamp(m.conditions) == Some(Stamp(s.conditions).GetOr(Stored(now)))
  {
    UpsertReplacesOne(s.conditions, Deferral(wait), Stored(now), CLEANUP);
    StampIsEntry(s.conditions);
    StampIsEntry(Marked(s, wait, now).conditions);
  }

  lemma ReapStamp(s: State, desired: seq<string>, look: Look)
    requires Single(s.conditions, CLEANUP)
    ensures var r := ReapJobs(s, desired, look);
            Single(r.conditions, CLEANUP) && (Stamp(r.conditions) == Stamp(s.conditions) || Stamp(r.conditions) == None)
  {
    RemovedEntryIsGone(s.conditions, RESTART_PENDING);
    StampIsEntry(RemoveEntry(s.conditions));
  }

  /** One event either leaves the deferral stamp, clears it, or starts an episode at the clock of a deferring pass. */
  lemma StampStep(s: State, e: Event, desired: seq<string>, window: nat)
    requires Single(s.conditions, CLEANUP)
    ensures var after := Step(s, e, desired, window);
      && Single(after.conditions, CLEANUP)
      && (Stamp(after.conditions) == Stamp(s.conditions) || Stamp(after.conditions) == None
          || (Stamp(s.conditions) == None && e.Pass? && RunnerWait(e.look.pods).Some?
            && Stamp(after.conditions) == Some(Stored(e.look.now))))
      && (after.jobs != s.jobs ==> e.Pass? && (RunnerWait(e.look.pods).None? || Overdue(s, window, e.look.now)))
  {
    match e
    case Write(c) =>
      StampIsEntry(s.conditions);
      if Single(c, CLEANUP) { StampIsEntry(c); }
    case Pass(look) =>
      match RunnerWait(look.pods)
      case None => ReapStamp(s, desired, look);
      case Some(wait) =>
        MarkedStamp(s, wait, look.now);
        ReapStamp(Marked(s, wait, look.now), desired, look);
  }

  /** The deferral in force after some events began at pass j and has been in force ever since. */
  ghost predicate Episode(s: State, events: seq<Event>, desired: seq<string>, window: nat, j: nat) {
    && j < |events| && events[j].Pass? && RunnerWait(events[j].look.pods).Some?
    && Stamp(Exec(s, events[..j], desired, window).conditions) == None
    && forall k :: j < k <= |events| ==>
      Stamp(Exec(s, events[..k], desired, window).conditions) == Some(Stored(events[j].look.now))
  }

  ghost predicate Fresh(s: State) {
    Single(s.conditions, CLEANUP) && Stamp(s.conditions) == None
  }

  lemma {:induction false} SingleForever(s: State, events: seq<Event>, desired: seq<string>, window: nat)
    requires Fresh(s)
    ensures Single(Exec(s, events, desired, window).conditions, CLEANUP)
    decreases |events|
  {
    if events != [] {
      SingleForever(s, events[..|events| - 1], desired, window);
      StampStep(Exec(s, events[..|events| - 1], desired, window), events[|events| - 1], desired, window);
    }
  }

  /** The stamp is the time of the first persisted deferral of the episode, however often it was written again. */
  lemma {:induction false} StampIsFirstDeferral(s: State, events: seq<Event>, desired: seq<string>, window: nat)
      returns (j: nat)
    requires Fresh(s) && Stamp(Exec(s, events, desired, window).conditions).Some?
    ensures Episode(s, events, desired, window, j)
    decreases |events|
  {
    var last := |events| - 1;
    var before := events[..last];
    assert events[..|events|] == events;
    SingleForever(s, before, desired, window);
    StampStep(Exec(s, before, desired, window), events[last], desired, window);
    if Stamp(Exec(s, before, desired, window).conditions).Some? {
      j := StampIsFirstDeferral(s, before, desired, window);
      assert forall k :: 0 <= k <= last ==> before[..k] == events[..k];
    } else {
      j := last;
    }
  }

  /** A pass removes Jobs only when no runner pod can start again, or past the window since the episode's first
      deferral. */
  lemma ReapIsGuarded(s: State, events: seq<Event>, desired: seq<string>, window: nat, look: Look)
    requires Fresh(s)
    requires var before := Exec(s, events, desired, window); PassOf(before, desired, window, look).jobs != before.jobs
    ensures (look.pods.Some? && forall p :: p in look.pods.value ==> Settled(p))
         || (window > 0 && exists j: nat ::
           Episode(s, events, desired, window, j) && look.now - Stored(events[j].look.now) > window)
  {
    var before := Exec(s, events, desired, window);
    SingleForever(s, events, desired, window);
    StampStep(before, Pass(look), desired, window);
    if RunnerWait(look.pods).Some? {
      var j := StampIsFirstDeferral(s, events, desired, window);
      assert events[..|events|] == events;
    }
  }

  // ---------------------------------------------------------------- and it does happen

  ghost predicate Succeeds(look: Look) {
    && !look.getFails && !look.updateFails && !look.clearGetFails && !look.clearUpdateFails
    && forall n :: !look.onJob(n).getFails && !look.onJob(n).deleteFails
  }

  ghost predicate Gone(s: State, desired: seq<string>) {
    forall n :: n in desired ==> n !in s.jobs
  }

  lemma {:induction false} AllJobsDeleted(jobs: set<string>, desired: seq<string>, onJob: string -> JobAnswer)
    requires forall n :: !onJob(n).getFails && !onJob(n).deleteFails
    ensures var (left, ok) := DeleteJobs(jobs, desired, onJob); ok && left <= jobs && forall n :: n in desired ==>
        n !in left
  {
    if desired != [] {
      AllJobsDeleted(jobs, desired[1..], onJob);
      AllJobsDeleted(jobs - {desired[0]}, desired[1..], onJob);
      assert desired == [desired[0]] + desired[1..];
    }
  }

  /** A pass that reports the reap done has left no desired Job and no deferral. */
  lemma ReapedIsDone(s: State, desired: seq<string>, window: nat, look: Look)
    requires Single(s.conditions, CLEANUP) && OutcomeOf(s, desired, window, look) == Reaped
    ensures var after := PassOf(s, desired, window, look);
            Gone(after, desired) && Stamp(after.conditions) == None
  {
    var from := match RunnerWait(look.pods) case None => s case Some(wait) => Marked(s, wait, look.now);
    if RunnerWait(look.pods).Some? { MarkedStamp(s, RunnerWait(look.pods).value, look.now); }
    DealtWith(from.jobs, desired, look.onJob);
    RemovedEntryIsGone(from.conditions, RESTART_PENDING);
    StampIsEntry(RemoveEntry(from.conditions));
  }

  lemma {:induction false} DealtWith(jobs: set<string>, desired: seq<string>, onJob: string -> JobAnswer)
    ensures var (left, ok) := DeleteJobs(jobs, desired, onJob);
            left <= jobs && (ok ==> forall n :: n in desired ==> n !in left)
  {
    if desired != [] {
      DealtWith(jobs, desired[1..], onJob);
      DealtWith(jobs - {desired[0]}, desired[1..], onJob);
      assert desired == [desired[0]] + desired[1..];
    }
  }

  lemma SuccessfulPass(s: State, desired: seq<string>, window: nat, look: Look)
    requires Single(s.conditions, CLEANUP) && Succeeds(look)
    ensures var after := PassOf(s, desired, window, look);
            if RunnerWait(look.pods).None? || Overdue(s, window, look.now) then Gone(after, desired)
            else Stamp(after.conditions) == Some(Stamp(s.conditions).GetOr(Stored(look.now)))
  {
    AllJobsDeleted(s.jobs, desired, look.onJob);
    if RunnerWait(look.pods).Some? { MarkedStamp(s, RunnerWait(look.pods).value, look.now); }
  }

  ghost function Passes(looks: seq<Look>): seq<Event> {
    seq(|looks|, i requires 0 <= i < |looks| => Pass(looks[i]))
  }

  /** Pass i is the one that reaps: it sees settled pods, or is the first past the window. */
  ghost predicate Due(looks: seq<Look>, window: nat, i: nat)
    requires i < |looks|
  {
    RunnerWait(looks[i].pods).None? || (i > 0 && looks[i].now - Stored(looks[0].now) > window)
  }

  lemma LastPass(s: State, looks: seq<Look>, desired: seq<string>, window: nat, i: nat)
    requires i < |looks|
    ensures Exec(s, Passes(looks[..i + 1]), desired, window)
        == PassOf(Exec(s, Passes(looks[..i]), desired, window), desired, window, looks[i])
    ensures Exec(s, Passes(looks[..0]), desired, window) == s
  {
    var events := Passes(looks[..i + 1]);
    assert events[..i] == Passes(looks[..i]);
    assert events[i] == Pass(looks[i]);
  }

  lemma {:induction false} StampHolds(s: State, looks: seq<Look>, desired: seq<string>, window: nat, i: nat)
    requires Fresh(s) && 0 < i <= |looks| && (forall k :: 0 <= k < |looks| ==> Succeeds(looks[k]))
    requires forall k :: 0 <= k < i ==> !Due(looks, window, k)
    ensures Stamp(Exec(s, Passes(looks[..i]), desired, window).conditions) == Some(Stored(looks[0].now))
    decreases i
  {
    hide PassOf, Exec, Passes;
    LastPass(s, looks, desired, window, i - 1);
    var before := Passes(looks[..i - 1]);
    SingleForever(s, before, desired, window);
    SuccessfulPass(Exec(s, before, desired, window), desired, window, looks[i - 1]);
    assert !Due(looks, window, i - 1);
    if i > 1 {
      StampHolds(s, looks, desired, window, i - 1);
    }
  }

  lemma {:induction false} FirstDue(looks: seq<Look>, window: nat, i: nat) returns (j: nat)
    requires i < |looks| && Due(looks, window, i)
    ensures j <= i && Due(looks, window, j) && forall k :: 0 <= k < j ==> !Due(looks, window, k)
  {
    if k :| 0 <= k < i && Due(looks, window, k) {
      j := FirstDue(looks, window, k);
    } else {
      j := i;
    }
  }

  /** Passes at most d apart, with a working API, reap by one gap past the window, however the runner behaves. */
  lemma ReapIsBounded(s: State, looks: seq<Look>, desired: seq<string>, window: nat, d: nat) returns (i: nat)
    requires Fresh(s) && window > 0 && looks != [] && forall k :: 0 <= k < |looks| ==> Succeeds(looks[k])
    requires forall k :: 0 < k < |looks| ==> looks[k - 1].now <= looks[k].now <= looks[k - 1].now + d
    requires looks[|looks| - 1].now > looks[0].now + window
    ensures i < |looks| && looks[i].now <= looks[0].now + window + d
    ensures Gone(Exec(s, Passes(looks[..i + 1]), desired, window), desired)
  {
    i := FirstDue(looks, window, |looks| - 1);
    hide PassOf, Exec, Passes;
    LastPass(s, looks, desired, window, i);
    var before := Passes(looks[..i]);
    SingleForever(s, before, desired, window);
    if i > 0 { StampHolds(s, looks, desired, window, i); }
    SuccessfulPass(Exec(s, before, desired, window), desired, window, looks[i]);
    assert i > 0 ==> !Due(looks, window, i - 1);
  }

  /** A forced pass writes the deferral again before it deletes: when the deletion then fails, the wait it stored is
      the one it has just seen, under the stamp of the episode. */
  lemma ForcedPassRestamps(s: State, desired: seq<string>, window: nat, look: Look)
    requires Single(s.conditions, CLEANUP) && Overdue(s, window, look.now) && RunnerWait(look.pods).Some?
    requires !look.getFails && !look.updateFails && !DeleteJobs(s.jobs, desired, look.onJob).1
    ensures var after := PassOf(s, desired, window, look).conditions;
      && Stamp(after) == Stamp(s.conditions)
      && Entry(after, CLEANUP) == Some(Deferral(RunnerWait(look.pods).value).(since := Stamp(after).value))
  {
    var wait := RunnerWait(look.pods).value;
    MarkedStamp(s, wait, look.now);
    UpsertReplacesOne(s.conditions, Deferral(wait), Stored(look.now), CLEANUP);
    StampIsEntry(s.conditions);
  }

  /** A deferral begun at t0 is past the window. */
  predicate PastWindow(start: nat, window: nat, now: nat) {
    now - start > window
  }

  /** Whole-second storage lets the force come up to a second early; it is exact only for deferrals begun on a full
      second. */
  lemma ForceIsExactOnWholeSeconds(t0: nat, window: nat)
    ensures (forall now :: PastWindow(Stored(t0), window, now) <==> PastWindow(t0, window, now)) <==> t0 % SECOND == 0
  {
    assert !PastWindow(t0, window, t0 + window);
    assert PastWindow(Stored(t0), window, t0 + window) <==> t0 % SECOND != 0;
  }
}
