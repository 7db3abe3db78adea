/** What a pass does when its calls answer: it stores the outcome it was told, and no history stores another; it
    records the archive before it cleans up, and cleans up all there is. */
module LifecycleVerdicts {
  import opened Common
  import opened RunQueues
  import opened Lifecycle
  import opened LifecycleSafety
  import opened LifecycleHistories

  // ---------------------------------------------------------------- who may say so

  /** The answer says that the run the pass is about succeeded: castle's verdict, or the Job's phase without one. */
  predicate TellsSuccess(pc: Pc, act: Act) {
    || (pc.ObserveTerminal? && act.Castle? && act.success == Some(true))
    || (pc.Observe? && act.Observed? && (act.success == Some(true) || (act.success.None? && act.job == Succeeded)))
  }

  /** Or that it failed: castle or the Job again, the stall watchdog, and the checks that refuse a run. */
  predicate TellsFailure(pc: Pc, act: Act) {
    || (pc.ObserveTerminal? && act.Castle? && act.success == Some(false))
    || (pc.Observe? && act.Observed?
        && (act.success == Some(false)
            || (act.success.None? && (act.job == Failed || (act.job == Running && act.stalled)))))
    || (pc.Admission? && act.Checks? && act.refused)
    || (pc.Prepare? && act.Prepared? && (act.mismatch || act.drift))
    || (pc.Signals? && act.Conflict? && act.conflict)
  }

  /** The names some answer has called succeeded, and those it has called failed. */
  datatype Heard = Heard(good: set<Name>, bad: set<Name>)

  function Hears(h: Heard, pc: Pc, act: Act): Heard {
    if TellsSuccess(pc, act) then h.(good := h.good + {pc.run.name})
    else if TellsFailure(pc, act) then h.(bad := h.bad + {pc.run.name})
    else h
  }

  /** An outcome is only ever written for a run that was told it. */
  predicate Grounded(h: Heard, n: Name, s: Status) {
    (s.phase == Succeeded ==> n in h.good) && (s.phase == Failed ==> n in h.bad)
  }

  ghost predicate StoreGrounded(h: Heard, c: Cluster) {
    forall k :: k in c.runs ==> c.runs[k].name == k && Grounded(h, k, c.runs[k].status)
  }

  predicate PcGrounded(h: Heard, pc: Pc) {
    match pc
    case Idle => true
    case Fetch(_) => true
    case Refetch(_) => true
    case FinalizeGet(_) => true
    case StampWrite(run, found, upd, _) =>
      Grounded(h, run.name, run.status) && found.name == run.name && Grounded(h, run.name, upd)
    case WriteTerminal(run, upd) => Grounded(h, run.name, run.status) && Grounded(h, run.name, upd)
    case WriteQueued(run, upd) => Grounded(h, run.name, run.status) && Grounded(h, run.name, upd)
    case WriteRun(run, upd, _) => Grounded(h, run.name, run.status) && Grounded(h, run.name, upd)
    case WriteFailed(run, upd) => Grounded(h, run.name, run.status) && Grounded(h, run.name, upd)
    case TicketCheck(run, upd) => Grounded(h, run.name, run.status) && Grounded(h, run.name, upd)
    case Prepare(run, upd) => Grounded(h, run.name, run.status) && Grounded(h, run.name, upd)
    case CreateJobs(run, upd, _, _) => Grounded(h, run.name, run.status) && Grounded(h, run.name, upd)
    case Observe(run, upd, _) => Grounded(h, run.name, run.status) && Grounded(h, run.name, upd)
    case _ => Grounded(h, pc.run.name, pc.run.status)
  }

  ghost predicate AllGrounded(h: Heard, w: World) {
    StoreGrounded(h, w.c) && forall i :: i in w.replicas ==> PcGrounded(h, w.replicas[i].pc)
  }

  lemma GroundedWrite(h: Heard, c: Cluster, base: Run, upd: Status)
    requires StoreGrounded(h, c) && Grounded(h, base.name, upd)
    ensures var w := WriteStatus(c, base, upd); w.Some? ==> StoreGrounded(h, w.value)
  {
  }

  lemma GroundedNext(h: Heard, lane: bool, run: Run, path: Path, next: Then)
    requires Grounded(h, run.name, run.status)
    ensures PcGrounded(h, EnterGate(lane, run, path)) && PcGrounded(h, Resume(run, next))
  {
  }

  lemma WriteIsGrounded(h: Heard, lane: bool, c: Cluster, r: Replica, lost: bool)
    requires StoreGrounded(h, c) && PcGrounded(h, r.pc) && Writes(r.pc)
    ensures var o := StepWrite(lane, c, r.q, r.pc, lost); StoreGrounded(h, o.c) && PcGrounded(h, o.r.pc)
  {
    var base := if r.pc.StampWrite? then r.pc.found else r.pc.run;
    GroundedWrite(h, c, base, r.pc.upd);
    var w := WriteStatus(c, base, r.pc.upd);
    IdleIsGrounded(h);
    if w.Some? && base.name in w.value.runs {
      var run' := w.value.runs[base.name];
      assert Grounded(h, run'.name, run'.status);
      hide WriteStatus, EnterGate, Resume, Vacate, Grounded, AfterRunWrite, PcGrounded;
      match r.pc
      case WriteTerminal(_, _) => GroundedNext(h, lane, run', TerminalPath, Stop);
      case WriteQueued(_, _) =>
      case WriteRun(_, _, provisioned) => GroundedEnd(h, lane, run', provisioned);
      case WriteFailed(_, _) => GroundedNext(h, lane, run', FailPath, Stop);
      case StampWrite(run, found, upd, next) => StampedGoesOn(h, lane, run, found, upd, next);
    } else {
      hide PcGrounded, StoreGrounded;
    }
  }

  lemma GroundedEnd(h: Heard, lane: bool, run: Run, provisioned: bool)
    requires Grounded(h, run.name, run.status)
    ensures PcGrounded(h, AfterRunWrite(lane, run, provisioned))
  {
    GroundedNext(h, lane, run, EndPath, Stop);
    hide EnterGate;
  }

  lemma StampedGoesOn(h: Heard, lane: bool, run: Run, found: Run, upd: Status, next: Then)
    requires PcGrounded(h, StampWrite(run, found, upd, next))
    ensures PcGrounded(h, Resume(run, next))
  {
    GroundedNext(h, lane, run, EndPath, next);
  }

  lemma ObservedIsGrounded(h: Heard, lane: bool, run: Run, upd: Status, provisioned: bool, act: Act)
    requires Grounded(h, run.name, run.status) && act.Observed?
    ensures PcGrounded(Hears(h, Observe(run, upd, provisioned), act), StepObserve(lane, run, upd, provisioned, act))
  {
    GroundedNext(Hears(h, Observe(run, upd, provisioned), act), lane, run, EndPath, Stop);
    hide EnterGate, Resume;
  }

  lemma StampedIsGrounded(h: Heard, c: Cluster, run: Run, stamp: Stamp, next: Then, act: Act)
    requires StoreGrounded(h, c) && Grounded(h, run.name, run.status) && act.Fresh?
    ensures PcGrounded(h, StepStampGet(c, run, stamp, next, act))
  {
    GroundedNext(h, true, run, EndPath, next);
    GroundedNext(h, true, run, EndPath, Stop);
    hide EnterGate, Resume;
  }

  lemma StartIsGrounded(h: Heard, lane: bool, c: Cluster, r: Replica, act: Act)
    requires StoreGrounded(h, c) && PcGrounded(h, r.pc) && Starts(r.pc)
    ensures var o, h' := StepReplica(lane, c, r, act), Hears(h, r.pc, act);
            StoreGrounded(h', o.c) && PcGrounded(h', o.r.pc)
  {
    hide Enqueued, Released, Blocked, Resume, EnterGate;
    match r.pc
    case Fetch(k) => if k in c.runs { GroundedNext(h, lane, c.runs[k], FinalizePath, Stop); }
    case ObserveTerminal(run) => if act.Castle? { GroundedNext(Hears(h, r.pc, act), lane, run, TerminalPath, Stop); }
    case _ =>
  }

  lemma LaterIsGrounded(h: Heard, lane: bool, c: Cluster, r: Replica, act: Act)
    requires StoreGrounded(h, c) && PcGrounded(h, r.pc) && !Starts(r.pc) && !Writes(r.pc)
    ensures var o, h' := StepReplica(lane, c, r, act), Hears(h, r.pc, act);
            StoreGrounded(h', o.c) && PcGrounded(h', o.r.pc)
  {
    hide Released, Resume, EnterGate, StepObserve, StepStampGet;
    match r.pc
    case Observe(run, upd, provisioned) =>
      if act.Observed? { ObservedIsGrounded(h, lane, run, upd, provisioned, act); }
    case StampGet(run, stamp, next) => if act.Fresh? { StampedIsGrounded(h, c, run, stamp, next, act); }
    case Guard(run, path) => GroundedNext(h, lane, run, path, Reap(path));
    case _ =>
  }

  lemma ReplicaIsGrounded(h: Heard, lane: bool, c: Cluster, r: Replica, act: Act)
    requires StoreGrounded(h, c) && PcGrounded(h, r.pc)
    ensures var o, h' := StepReplica(lane, c, r, act), Hears(h, r.pc, act);
            StoreGrounded(h', o.c) && PcGrounded(h', o.r.pc)
  {
    if Writes(r.pc) {
      if act.Call? { WriteIsGrounded(h, lane, c, r, act.lost); }
    } else if Starts(r.pc) {
      StartIsGrounded(h, lane, c, r, act);
    } else {
      LaterIsGrounded(h, lane, c, r, act);
    }
  }

  lemma GroundedStays(h: Heard, h': Heard, pc: Pc)
    requires h.good <= h'.good && h.bad <= h'.bad && PcGrounded(h, pc)
    ensures PcGrounded(h', pc)
  {
  }

  lemma StepIsGrounded(h: Heard, lane: bool, w: World, e: Event)
    requires AllGrounded(h, w)
    ensures AllGrounded(HearsEvent(h, w, e), Step(lane, w, e))
  {
    hide StepReplica, Hears, PcGrounded, Grounded;
    match e
    case Operator(i, act) =>
      if i in w.replicas {
        ReplicaIsGrounded(h, lane, w.c, w.replicas[i], act);
        HearsMore(h, w.replicas[i].pc, act);
        forall j | j in w.replicas ensures PcGrounded(HearsEvent(h, w, e), w.replicas[j].pc)
        {
          GroundedStays(h, HearsEvent(h, w, e), w.replicas[j].pc);
        }
      }
    case Restart(i, order) => IdleIsGrounded(h);
    case Create(run) => NewIsGrounded(h, run);
    case _ =>
  }

  lemma HearsMore(h: Heard, pc: Pc, act: Act)
    ensures h.good <= Hears(h, pc, act).good && h.bad <= Hears(h, pc, act).bad
  {
  }

  lemma IdleIsGrounded(h: Heard)
    ensures PcGrounded(h, Idle)
  {
  }

  lemma NewIsGrounded(h: Heard, run: Run)
    ensures run.status.phase == Unset ==> Grounded(h, run.name, run.status)
  {
  }

  ghost function HearsEvent(h: Heard, w: World, e: Event): Heard {
    if e.Operator? && e.i in w.replicas then Hears(h, w.replicas[e.i].pc, e.act) else h
  }

  ghost function HeardIn(lane: bool, w: World, events: seq<Event>): Heard
    decreases |events|
  {
    if events == [] then Heard({}, {})
    else
      var init := events[..|events| - 1];
      HearsEvent(HeardIn(lane, w, init), Exec(lane, w, init), events[|events| - 1])
  }

  lemma {:induction false} ExecIsGrounded(lane: bool, w: World, events: seq<Event>)
    requires Initial(w)
    ensures AllGrounded(HeardIn(lane, w, events), Exec(lane, w, events))
    decreases |events|
  {
    if events != [] {
      var init := events[..|events| - 1];
      ExecIsGrounded(lane, w, init);
      StepIsGrounded(HeardIn(lane, w, init), lane, Exec(lane, w, init), events[|events| - 1]);
    }
  }

  /** Event j is an operator's call about run k whose answer calls it succeeded, or failed. */
  ghost predicate ToldAt(lane: bool, w: World, events: seq<Event>, j: nat, k: Name, good: bool) {
    && j < |events| && events[j].Operator?
    && var v := Exec(lane, w, events[..j]);
       && events[j].i in v.replicas
       && var pc := v.replicas[events[j].i].pc;
          && !pc.Idle? && !pc.Fetch? && !pc.Refetch? && !pc.FinalizeGet? && pc.run.name == k
          && (if good then TellsSuccess(pc, events[j].act) else TellsFailure(pc, events[j].act))
  }

  lemma {:induction false} HeardWasTold(lane: bool, w: World, events: seq<Event>, k: Name, good: bool) returns (j: nat)
    requires var h := HeardIn(lane, w, events); k in if good then h.good else h.bad
    ensures ToldAt(lane, w, events, j, k, good)
    decreases |events|
  {
    var last := |events| - 1;
    var h := HeardIn(lane, w, events[..last]);
    if k in if good then h.good else h.bad {
      j := HeardWasTold(lane, w, events[..last], k, good);
      assert events[..last][..j] == events[..j];
    } else {
      j := last;
    }
  }

  /** Over every history of any number of replicas, crashes, lost writes and restarts: a stored success was told by
      castle or by the runner Job, and a stored failure by one of them, by the watchdog or by a refusing check, each
      time to a pass over that very run. */
  lemma OutcomesWereTold(lane: bool, w: World, events: seq<Event>, k: Name) returns (j: nat)
    requires Initial(w) && k in Exec(lane, w, events).c.runs
    requires Terminal(Exec(lane, w, events).c.runs[k].status.phase)
    ensures ToldAt(lane, w, events, j, k, Exec(lane, w, events).c.runs[k].status.phase == Succeeded)
  {
    ExecIsGrounded(lane, w, events);
    j := HeardWasTold(lane, w, events, k, Exec(lane, w, events).c.runs[k].status.phase == Succeeded);
  }

  // ---------------------------------------------------------------- and a pass writes what it was told

  /** A pass over a terminal run, every call answering. */
  function TerminalPass(k: Name, castle: Act): seq<Act> {
    [Begin(k), Call(false), castle, Call(false)]
  }

  /** What a pass leaves of everything but one run's status. */
  ghost predicate OnlyStatus(before: Cluster, after: Cluster, k: Name) {
    && after.runs.Keys == before.runs.Keys && after.records == before.records && after.used == before.used
    && k in before.runs
    && (forall o :: o in before.runs && o != k ==> after.runs[o] == before.runs[o])
    && after.runs[k].(status := before.runs[k].status, version := before.runs[k].version) == before.runs[k]
  }

  /** A terminal run's status after castle answered: the verdict when there is one, the terminal time stamped once. */
  ghost predicate TerminalStored(s: Status, s': Status, success: Option<bool>, at: int, rest: int) {
    && (success == Some(true) ==> s'.phase == Succeeded)
    && (success == Some(false) ==> s'.phase == Failed)
    && (success.None? ==> s'.phase == s.phase)
    && s'.terminalAt == (if s.terminalAt.Some? then s.terminalAt else Some(at)) && s'.rest == rest
    && s'.jobName == s.jobName && s'.baseImage == s.baseImage && s'.configRender == s.configRender
    && s'.launchManifest == s.launchManifest && s'.archiveID == s.archiveID && s'.archivePending == s.archivePending
  }

  lemma TerminalCalls(lane: bool, c: Cluster, q: Queues, k: Name, success: Option<bool>, at: int, rest: int)
    requires k in c.runs && c.runs[k].name == k
    requires c.runs[k].status.phase == Succeeded || c.runs[k].status.phase == Failed
    ensures var o := StepReplica(lane, c, Replica(q, ObserveTerminal(c.runs[k])), Castle(success, at, rest));
            var c' := StepReplica(lane, o.c, o.r, Call(false)).c;
            OnlyStatus(c, c', k) && c'.jobs == c.jobs
            && TerminalStored(c.runs[k].status, c'.runs[k].status, success, at, rest)
  {
    var run, castle := c.runs[k], Castle(success, at, rest);
    var upd := TerminalUpdate(run, castle);
    assert TerminalStored(run.status, upd, success, at, rest);
    var pc := if upd == run.status then EnterGate(lane, run, TerminalPath) else WriteTerminal(run, upd);
    assert StepReplica(lane, c, Replica(q, ObserveTerminal(run)), castle) == Outcome(c, Replica(q, pc));
    hide StepReplica, TerminalUpdate, TerminalStored, EnterGate;
    GateStores(lane, c, q, run, TerminalPath);
    if upd != run.status { WriteCall(lane, c, q, pc, run, upd); }
  }

  /** The pass over a terminal run stores castle's verdict and nothing else. */
  lemma TerminalPassStores(lane: bool, w: World, i: nat, k: Name, success: Option<bool>, at: int, rest: int)
    requires i in w.replicas && w.replicas[i].pc == Idle && k in w.c.runs
    requires var run := w.c.runs[k];
      run.name == k && !run.deleting && run.finalizer && (run.status.phase == Succeeded || run.status.phase == Failed)
    ensures var c := Exec(lane, w, Calls(i, TerminalPass(k, Castle(success, at, rest)))).c;
      && OnlyStatus(w.c, c, k) && c.jobs == w.c.jobs
      && TerminalStored(w.c.runs[k].status, c.runs[k].status, success, at, rest)
  {
    var run, q, castle := w.c.runs[k], w.replicas[i].q, Castle(success, at, rest);
    var acts := TerminalPass(k, castle);
    assert w == At(w, i, w.c, Replica(q, Idle)) by { assert w.replicas == w.replicas[i := w.replicas[i]]; }
    hide Exec, Calls, Released, EnterGate, OnlyStatus, TerminalStored, TerminalUpdate, StepWrite;
    NextCall(lane, w, i, w.c, Replica(q, Idle), acts);
    NextCall(lane, w, i, w.c, Replica(q, Fetch(k)), acts[1..]);
    var q' := Vacate(q, run);
    NextCall(lane, w, i, w.c, Replica(q', ObserveTerminal(run)), acts[1..][1..]);
    TerminalCalls(lane, w.c, q', k, success, at, rest);
    var o := StepReplica(lane, w.c, Replica(q', ObserveTerminal(run)), castle);
    assert acts[1..][1..][1..] == [Call(false)];
    LastCall(lane, w, i, o.c, o.r, Call(false));
  }

  lemma LastCall(lane: bool, w: World, i: nat, c: Cluster, r: Replica, act: Act)
    ensures var o := StepReplica(lane, c, r, act);
            Exec(lane, At(w, i, c, r), Calls(i, [act])) == At(w, i, o.c, o.r)
  {
    var o := StepReplica(lane, c, r, act);
    NextCall(lane, w, i, c, r, [act]);
    NoCalls(lane, At(w, i, o.c, o.r), i);
    assert [act][1..] == [];
  }

  /** No status is waiting to be written behind the archive gate. */
  lemma GateStores(lane: bool, c: Cluster, q: Queues, run: Run, path: Path)
    requires path == TerminalPath || path == EndPath
    ensures StepReplica(lane, c, Replica(q, EnterGate(lane, run, path)), Call(false)).c == c
  {
  }

  function Answered(n: nat): seq<Act> {
    if n == 0 then [] else [Call(false)] + Answered(n - 1)
  }

  function JobsOf(todo: seq<Job>): set<Job> {
    set j | j in todo
  }

  lemma JobsOfNext(todo: seq<Job>, jobs: set<Job>)
    requires todo != []
    ensures |todo| == 1 ==> JobsOf(todo) == {todo[0]}
    ensures jobs + {todo[0]} + JobsOf(todo[1..]) == jobs + JobsOf(todo)
    ensures jobs - {todo[0]} - JobsOf(todo[1..]) == jobs - JobsOf(todo)
    ensures (exists j :: j in todo && j !in jobs) <==>
      todo[0] !in jobs || exists j :: j in todo[1..] && j !in jobs + {todo[0]}
  {
    assert forall j :: j in todo <==> j == todo[0] || j in todo[1..];
  }

  /** Every desired Job exists once the creating calls are through. */
  lemma {:induction false} CreatingCalls(lane: bool, w: World, i: nat, c: Cluster, q: Queues, run: Run, upd: Status,
      todo: seq<Job>, provisioned: bool, rest: seq<Act>) returns (provisioned': bool)
    requires todo != []
    ensures provisioned' <==> provisioned || exists j :: j in todo && j !in c.jobs
    ensures Exec(lane, At(w, i, c, Replica(q, CreateJobs(run, upd, todo, provisioned))),
                 Calls(i, Answered(|todo|) + rest))
         == Exec(lane, At(w, i, c.(jobs := c.jobs + JobsOf(todo)), Replica(q, Observe(run, upd, provisioned'))),
                 Calls(i, rest))
    decreases |todo|
  {
    CreateCall(lane, c, q, run, upd, todo, provisioned);
    AnsweredNext(|todo|, rest);
    hide Exec, Calls, StepReplica, At, Answered;
    CallThen(lane, w, i, c, Replica(q, CreateJobs(run, upd, todo, provisioned)), Call(false),
      Answered(|todo| - 1) + rest);
    var c', seen := c.(jobs := c.jobs + {todo[0]}), provisioned || todo[0] !in c.jobs;
    JobsOfNext(todo, c.jobs);
    hide JobsOf;
    if |todo| == 1 {
      provisioned' := seen;
    } else {
      provisioned' := CreatingCalls(lane, w, i, c', q, run, upd, todo[1..], seen, rest);
    }
  }

  lemma AnsweredNext(n: nat, rest: seq<Act>)
    requires n > 0
    ensures Answered(n) + rest == [Call(false)] + (Answered(n - 1) + rest)
    ensures n == 1 ==> Answered(n - 1) + rest == rest
  {
  }

  lemma CreateCall(lane: bool, c: Cluster, q: Queues, run: Run, upd: Status, todo: seq<Job>, provisioned: bool)
    requires todo != []
    ensures var seen := provisioned || todo[0] !in c.jobs;
      var next := if |todo| == 1 then Observe(run, upd, seen) else CreateJobs(run, upd, todo[1..], seen);
      && StepReplica(lane, c, Replica(q, CreateJobs(run, upd, todo, provisioned)), Call(false))
         == Outcome(c.(jobs := c.jobs + {todo[0]}), Replica(q, next))
  {
  }

  /** A pass over a live run that is admitted, every call answering: the ticket check only before the first Job. */
  function LivePass(run: Run, checked: int, render: Option<string>, prepared: int, observed: Act): seq<Act> {
    Prelude(run, checked, render, prepared, Answered(1 + |run.spec.adapterKinds|) + [observed, Call(false)])
  }

  /** Up to the first Job, and then the rest. */
  function Prelude(run: Run, checked: int, render: Option<string>, prepared: int, rest: seq<Act>): seq<Act> {
    [Begin(run.name)] + ([Call(false)] + ([Checks(false, checked)]
      + ((if run.status.jobName.None? then [Call(false)] else [])
         + ([Prepared(false, false, render, prepared)] + rest))))
  }

  /** The watchdog fires on a run that reads Running. */
  predicate Stalls(o: Act)
    requires o.Observed?
  {
    o.success.None? && o.job == Running && o.stalled
  }

  /** Where a pass stands after it stored what it observed: at the archive gate of a run that has just ended, unless it
      has itself created a Job in this pass; else at its signals. */
  predicate GoesOn(pc: Pc, run: Run, provisioned: bool) {
    if (run.status.phase == Succeeded || run.status.phase == Failed) && !provisioned
    then (pc.Archive? || pc.Guard?) && pc.run == run
    else pc == Signals(run)
  }

  /** A live run's status after its Jobs were observed: castle's verdict when there is one, else the Job's phase, unless
      the watchdog fails a run that still reads Running; the write-once fields keep what they hold. */
  ghost predicate LiveStored(k: Name, s: Status, s': Status, render: Option<string>, o: Act)
    requires o.Observed?
  {
    var stalled := Stalls(o);
    && (o.success == Some(true) ==> s'.phase == Succeeded)
    && (o.success == Some(false) ==> s'.phase == Failed)
    && (stalled ==> s'.phase == Failed)
    && (o.success.None? && !stalled ==> s'.phase == o.job)
    && s'.jobName == Some(k) && s'.rest == o.rest
    && s'.archiveID == s.archiveID && s'.archivePending == s.archivePending
    && s'.baseImage == (if s.baseImage != "" then s.baseImage else o.image)
    && s'.configRender == (if s.configRender.Some? then s.configRender else render)
    && s'.launchManifest == (if s.launchManifest.Some? || stalled then s.launchManifest else o.manifest)
    && s'.terminalAt == (if s.terminalAt.None? && !stalled && (s'.phase == Succeeded || s'.phase == Failed)
                         then Some(o.at) else s.terminalAt)
  }

  lemma ObservedStatus(lane: bool, run: Run, upd: Status, render: Option<string>, provisioned: bool, o: Act)
      returns (final: Status)
    requires o.Observed? && run.status.phase != Succeeded && run.status.phase != Failed
    requires upd == run.status.(rest := upd.rest,
      configRender := if run.status.configRender.None? then render else run.status.configRender)
    ensures LiveStored(run.name, run.status, final, render, o)
    ensures var pc := StepObserve(lane, run, upd, provisioned, o);
      || pc == WriteFailed(run, final) || pc == WriteRun(run, final, provisioned)
      || (final == run.status && pc == AfterRunWrite(lane, run, provisioned))
    ensures !Stalls(o) && final != run.status ==>
      StepObserve(lane, run, upd, provisioned, o) == WriteRun(run, final, provisioned)
  {
    hide AfterRunWrite;
    var seen := RunUpdate(run, upd, o);
    if o.stalled && seen.phase == Running {
      final := FailedWith(seen, o.rest);
    } else {
      var stamped := StampTerminalAt(seen, o.at);
      final := if stamped.launchManifest.None? then stamped.(launchManifest := o.manifest) else stamped;
    }
  }

  /** A write of a current copy lands, and a pass past its writes stores nothing more. */
  lemma WriteCall(lane: bool, c: Cluster, q: Queues, pc: Pc, run: Run, final: Status)
    requires run.name in c.runs && c.runs[run.name] == run
    requires
      || pc == WriteFailed(run, final) || (pc.WriteRun? && pc.run == run && pc.upd == final)
      || pc == WriteTerminal(run, final) || pc == WriteQueued(run, final)
      || (pc.StampWrite? && pc.found == run && pc.upd == final)
    ensures StepReplica(lane, c, Replica(q, pc), Call(false)).c
         == c.(runs := c.runs[run.name := run.(status := final, version := c.clock + 1)], clock := c.clock + 1)
  {
    hide EnterGate, Released, AfterRunWrite, Resume;
  }

  lemma OnlyWritten(c: Cluster, run: Run, final: Status)
    requires run.name in c.runs && c.runs[run.name] == run
    ensures OnlyStatus(c, c, run.name)
    ensures OnlyStatus(c,
      c.(runs := c.runs[run.name := run.(status := final, version := c.clock + 1)], clock := c.clock + 1), run.name)
  {
  }

  lemma QuietCall(lane: bool, c: Cluster, q: Queues, run: Run, provisioned: bool)
    ensures StepReplica(lane, c, Replica(q, AfterRunWrite(lane, run, provisioned)), Call(false)).c == c
  {
    GateStores(lane, c, q, run, EndPath);
    hide EnterGate;
  }

  lemma ObservingCalls(lane: bool, c: Cluster, q: Queues, k: Name, upd: Status, render: Option<string>,
      provisioned: bool, o: Act)
    requires k in c.runs && c.runs[k].name == k && o.Observed?
    requires c.runs[k].status.phase != Succeeded && c.runs[k].status.phase != Failed
    requires upd == c.runs[k].status.(rest := upd.rest,
      configRender := if c.runs[k].status.configRender.None? then render else c.runs[k].status.configRender)
    ensures var seen := StepReplica(lane, c, Replica(q, Observe(c.runs[k], upd, provisioned)), o);
            var c' := StepReplica(lane, seen.c, seen.r, Call(false)).c;
            OnlyStatus(c, c', k) && c'.jobs == c.jobs
            && LiveStored(k, c.runs[k].status, c'.runs[k].status, render, o)
    ensures var seen := StepReplica(lane, c, Replica(q, Observe(c.runs[k], upd, provisioned)), o);
            var last := StepReplica(lane, seen.c, seen.r, Call(false));
            k in last.c.runs && !Stalls(o) && last.c.runs[k].status != c.runs[k].status ==>
              GoesOn(last.r.pc, last.c.runs[k], provisioned)
  {
    var run := c.runs[k];
    var final := ObservedStatus(lane, run, upd, render, provisioned, o);
    var pc := StepObserve(lane, run, upd, provisioned, o);
    assert StepReplica(lane, c, Replica(q, Observe(run, upd, provisioned)), o) == Outcome(c, Replica(q, pc));
    hide StepReplica, StepObserve, LiveStored, AfterRunWrite, OnlyStatus;
    QuietCall(lane, c, q, run, provisioned);
    OnlyWritten(c, run, final);
    if pc == WriteFailed(run, final) || pc == WriteRun(run, final, provisioned) {
      WriteCall(lane, c, q, pc, run, final);
    }
    if pc == WriteRun(run, final, provisioned) {
      WriteLeadsOn(lane, c, q, run, final, provisioned);
    }
  }

  lemma WriteLeadsOn(lane: bool, c: Cluster, q: Queues, run: Run, final: Status, provisioned: bool)
    requires run.name in c.runs && c.runs[run.name] == run
    ensures var o := StepReplica(lane, c, Replica(q, WriteRun(run, final, provisioned)), Call(false));
            run.name in o.c.runs && GoesOn(o.r.pc, o.c.runs[run.name], provisioned)
  {
  }

  /** From the queue's event to the first Job. */
  lemma PreparingCalls(lane: bool, w: World, i: nat, c: Cluster, q: Queues, k: Name, checked: int,
      render: Option<string>, prepared: int, rest: seq<Act>) returns (upd: Status)
    requires k in c.runs && c.runs[k].name == k && Live(c.runs[k]) && c.runs[k].finalizer
    requires c.runs[k].status.jobName.None? ==> !Blocked(c, c.runs[k])
    requires Enqueued(q, Key(c.runs[k]), k).Admitted(Key(c.runs[k]), k)
    ensures upd == c.runs[k].status.(rest := checked,
      configRender := if c.runs[k].status.configRender.None? then render else c.runs[k].status.configRender)
    ensures Exec(lane, At(w, i, c, Replica(q, Idle)), Calls(i, Prelude(c.runs[k], checked, render, prepared, rest)))
      == Exec(lane, At(w, i, c, Replica(Enqueued(q, Key(c.runs[k]), k),
           CreateJobs(c.runs[k], upd, DesiredJobs(c.runs[k]), false))), Calls(i, rest))
  {
    AdmittingCalls(lane, c, q, k, checked, render, prepared);
    hide Exec, Calls, Enqueued, Blocked, DesiredJobs, StepReplica, Key;
    var run, q' := c.runs[k], Enqueued(q, Key(c.runs[k]), k);
    var checking := if run.status.jobName.None? then [Call(false)] else [];
    var started := run.status.(rest := checked);
    upd := if run.status.configRender.None? then started.(configRender := render) else started;
    var preparing := [Prepared(false, false, render, prepared)] + rest;
    hide At;
    CallThen(lane, w, i, c, Replica(q, Idle), Begin(k), [Call(false)] + ([Checks(false, checked)]
      + (checking + preparing)));
    CallThen(lane, w, i, c, Replica(q, Fetch(k)), Call(false), [Checks(false, checked)] + (checking + preparing));
    CallThen(lane, w, i, c, Replica(q, Admission(run)), Checks(false, checked), checking + preparing);
    if run.status.jobName.None? {
      CallThen(lane, w, i, c, Replica(q', TicketCheck(run, started)), Call(false), preparing);
    } else {
      assert checking + preparing == preparing;
    }
    CallThen(lane, w, i, c, Replica(q', Prepare(run, started)), Prepared(false, false, render, prepared), rest);
  }

  lemma CallThen(lane: bool, w: World, i: nat, c: Cluster, r: Replica, act: Act, rest: seq<Act>)
    ensures var o := StepReplica(lane, c, r, act);
            Exec(lane, At(w, i, c, r), Calls(i, [act] + rest)) == Exec(lane, At(w, i, o.c, o.r), Calls(i, rest))
  {
    hide StepReplica, Exec, Calls;
    NextCall(lane, w, i, c, r, [act] + rest);
    assert ([act] + rest)[1..] == rest;
  }

  lemma AdmittingCalls(lane: bool, c: Cluster, q: Queues, k: Name, checked: int, render: Option<string>, prepared: int)
    requires k in c.runs && c.runs[k].name == k && Live(c.runs[k]) && c.runs[k].finalizer
    requires c.runs[k].status.jobName.None? ==> !Blocked(c, c.runs[k])
    requires Enqueued(q, Key(c.runs[k]), k).Admitted(Key(c.runs[k]), k)
    ensures var run, q' := c.runs[k], Enqueued(q, Key(c.runs[k]), k);
      var started := run.status.(rest := checked);
      var upd := if run.status.configRender.None? then started.(configRender := render) else started;
      && StepReplica(lane, c, Replica(q, Idle), Begin(k)) == Outcome(c, Replica(q, Fetch(k)))
      && StepReplica(lane, c, Replica(q, Fetch(k)), Call(false)) == Outcome(c, Replica(q, Admission(run)))
      && StepReplica(lane, c, Replica(q, Admission(run)), Checks(false, checked))
         == Outcome(c, Replica(q', if run.status.jobName.None? then TicketCheck(run, started)
              else Prepare(run, started)))
      && (run.status.jobName.None? ==>
            StepReplica(lane, c, Replica(q', TicketCheck(run, started)), Call(false))
            == Outcome(c, Replica(q', Prepare(run, started))))
      && StepReplica(lane, c, Replica(q', Prepare(run, started)), Prepared(false, false, render, prepared))
         == Outcome(c, Replica(q', CreateJobs(run, upd, DesiredJobs(run), false)))
  {
    hide Enqueued, Released, Blocked, DesiredJobs, Key;
  }

  /** The pass over a live run has its Jobs created and stores what castle, the Job and the watchdog say of it. */
  lemma LivePassStores(lane: bool, w: World, i: nat, k: Name, checked: int, render: Option<string>, prepared: int,
      o: Act)
    requires i in w.replicas && w.replicas[i].pc == Idle && k in w.c.runs && o.Observed?
    requires var run := w.c.runs[k];
      && run.name == k && !run.deleting && run.finalizer
      && run.status.phase != Succeeded && run.status.phase != Failed
      && (run.status.jobName.None? ==> !Blocked(w.c, run))
      && Enqueued(w.replicas[i].q, Key(run), k).Admitted(Key(run), k)
    ensures var c := Exec(lane, w, Calls(i, LivePass(w.c.runs[k], checked, render, prepared, o))).c;
      && OnlyStatus(w.c, c, k)
      && LiveStored(k, w.c.runs[k].status, c.runs[k].status, render, o)
      && (forall j :: j in c.jobs <==>
            j in w.c.jobs || j == Job(k, RUNNER) || (j.run == k && j.role in w.c.runs[k].spec.adapterKinds))
    ensures var v := Exec(lane, w, Calls(i, LivePass(w.c.runs[k], checked, render, prepared, o)));
      i in v.replicas && (!Stalls(o) && v.c.runs[k].status != w.c.runs[k].status ==>
        GoesOn(v.replicas[i].pc, v.c.runs[k], v.c.jobs != w.c.jobs))
  {
    var run, q := w.c.runs[k], w.replicas[i].q;
    assert w == At(w, i, w.c, Replica(q, Idle)) by { assert w.replicas == w.replicas[i := w.replicas[i]]; }
    assert |DesiredJobs(run)| == 1 + |run.spec.adapterKinds|;
    hide Exec, Calls, Enqueued, OnlyStatus, LiveStored, DesiredJobs, StepReplica, Answered, Blocked, Key, At, GoesOn;
    hide Stalls;
    var rest := Answered(1 + |run.spec.adapterKinds|) + [o, Call(false)];
    var upd := PreparingCalls(lane, w, i, w.c, q, k, checked, render, prepared, rest);
    var q' := Enqueued(q, Key(run), k);
    var provisioned := CreatingCalls(lane, w, i, w.c, q', run, upd, DesiredJobs(run), false, [o, Call(false)]);
    var c1 := w.c.(jobs := w.c.jobs + JobsOf(DesiredJobs(run)));
    var c := FinalCalls(lane, w, i, c1, q', k, upd, render, provisioned, o);
    JobsAside(w.c, c1, c, k);
    DesiredAre(run);
    assert c1.jobs != w.c.jobs <==> provisioned;
  }

  lemma FinalCalls(lane: bool, w: World, i: nat, c: Cluster, q: Queues, k: Name, upd: Status, render: Option<string>,
      provisioned: bool, o: Act) returns (c': Cluster)
    requires k in c.runs && c.runs[k].name == k && o.Observed?
    requires c.runs[k].status.phase != Succeeded && c.runs[k].status.phase != Failed
    requires upd == c.runs[k].status.(rest := upd.rest,
      configRender := if c.runs[k].status.configRender.None? then render else c.runs[k].status.configRender)
    ensures c'
         == Exec(lane, At(w, i, c, Replica(q, Observe(c.runs[k], upd, provisioned))), Calls(i, [o, Call(false)])).c
    ensures OnlyStatus(c, c', k) && c'.jobs == c.jobs
    ensures LiveStored(k, c.runs[k].status, c'.runs[k].status, render, o)
    ensures var from := At(w, i, c, Replica(q, Observe(c.runs[k], upd, provisioned)));
      var v := Exec(lane, from, Calls(i, [o, Call(false)]));
      i in v.replicas && (!Stalls(o) && c'.runs[k].status != c.runs[k].status ==>
        GoesOn(v.replicas[i].pc, c'.runs[k], provisioned))
  {
    ObservingCalls(lane, c, q, k, upd, render, provisioned, o);
    hide Exec, Calls, OnlyStatus, LiveStored, StepReplica, GoesOn, Stalls;
    NextCall(lane, w, i, c, Replica(q, Observe(c.runs[k], upd, provisioned)), [o, Call(false)]);
    var seen := StepReplica(lane, c, Replica(q, Observe(c.runs[k], upd, provisioned)), o);
    assert [o, Call(false)][1..] == [Call(false)];
    LastCall(lane, w, i, seen.c, seen.r, Call(false));
    c' := StepReplica(lane, seen.c, seen.r, Call(false)).c;
  }

  lemma DesiredAre(run: Run)
    ensures forall j :: j in DesiredJobs(run) <==>
      j == Job(run.name, RUNNER) || (j.run == run.name && j.role in run.spec.adapterKinds)
  {
    var jobs := DesiredJobs(run);
    forall j ensures j in jobs <==> j == Job(run.name, RUNNER) || (j.run == run.name && j.role in run.spec.adapterKinds)
    {
      if j.run == run.name && j.role in run.spec.adapterKinds {
        var n :| 0 <= n < |run.spec.adapterKinds| && run.spec.adapterKinds[n] == j.role;
        assert jobs[n + 1] == j;
      }
      if j in jobs && j != Job(run.name, RUNNER) {
        var n :| 0 < n < |jobs| && jobs[n] == j;
        assert j.role == run.spec.adapterKinds[n - 1];
      }
      assert jobs[0] == Job(run.name, RUNNER);
    }
  }

  lemma JobsAside(c: Cluster, c1: Cluster, after: Cluster, k: Name)
    requires c1 == c.(jobs := c1.jobs) && OnlyStatus(c1, after, k)
    ensures OnlyStatus(c, after, k)
  {
  }

  /** The failing answers end with a stored Failed: a refused admission, another base image or a drifted config, a
      conflicting signal. */
  lemma FailuresAreStored(lane: bool, w: World, i: nat, act: Act)
    requires i in w.replicas
    requires var pc := w.replicas[i].pc;
      || (pc.Admission? && act.Checks? && act.refused)
      || (pc.Prepare? && act.Prepared? && (act.mismatch || act.drift))
      || (pc.Signals? && act.Conflict? && act.conflict)
    requires var run := w.replicas[i].pc.run; run.name in w.c.runs && w.c.runs[run.name] == run
    ensures var k := w.replicas[i].pc.run.name;
      var c := Exec(lane, w, Calls(i, [act, Call(false)])).c;
      OnlyStatus(w.c, c, k) && c.jobs == w.c.jobs
      && c.runs[k].status.phase == Failed && c.runs[k].status.rest == act.rest
  {
    var r := w.replicas[i];
    assert w == At(w, i, w.c, r) by { assert w.replicas == w.replicas[i := w.replicas[i]]; }
    var o := StepReplica(lane, w.c, r, act);
    FailingCall(lane, w.c, r, act);
    hide Exec, Calls, StepReplica;
    NextCall(lane, w, i, w.c, r, [act, Call(false)]);
    assert [act, Call(false)][1..] == [Call(false)];
    LastCall(lane, w, i, o.c, o.r, Call(false));
    WriteCall(lane, o.c, o.r.q, o.r.pc, r.pc.run, o.r.pc.upd);
  }

  lemma FailingCall(lane: bool, c: Cluster, r: Replica, act: Act)
    requires
      || (r.pc.Admission? && act.Checks? && act.refused)
      || (r.pc.Prepare? && act.Prepared? && (act.mismatch || act.drift))
      || (r.pc.Signals? && act.Conflict? && act.conflict)
    ensures var o := StepReplica(lane, c, r, act);
      && o.c == c && o.r.pc.WriteFailed? && o.r.pc.run == r.pc.run
      && o.r.pc.upd.phase == Failed && o.r.pc.upd.rest == act.rest
  {
  }

  /** A run that is not admitted is stored as Pending without a Job name, and nothing is created for it. */
  lemma QueuedPassStores(lane: bool, w: World, i: nat, k: Name, rest: int)
    requires i in w.replicas && w.replicas[i].pc == Idle && k in w.c.runs
    requires var run := w.c.runs[k];
      && run.name == k && !run.deleting && run.finalizer
      && run.status.phase != Succeeded && run.status.phase != Failed
      && !Enqueued(w.replicas[i].q, Key(run), k).Admitted(Key(run), k)
    ensures var c := Exec(lane, w, Calls(i, [Begin(k), Call(false), Checks(false, rest), Call(false)])).c;
      && OnlyStatus(w.c, c, k) && c.jobs == w.c.jobs
      && c.runs[k].status == w.c.runs[k].status.(phase := Pending, jobName := None, rest := rest)
  {
    var run, q := w.c.runs[k], w.replicas[i].q;
    var acts := [Begin(k), Call(false), Checks(false, rest), Call(false)];
    assert w == At(w, i, w.c, Replica(q, Idle)) by { assert w.replicas == w.replicas[i := w.replicas[i]]; }
    QueuedCalls(lane, w.c, q, k, rest);
    hide Exec, Calls, StepReplica, Enqueued, OnlyStatus;
    NextCall(lane, w, i, w.c, Replica(q, Idle), acts);
    NextCall(lane, w, i, w.c, Replica(q, Fetch(k)), acts[1..]);
    NextCall(lane, w, i, w.c, Replica(q, Admission(run)), acts[1..][1..]);
    var o := StepReplica(lane, w.c, Replica(q, Admission(run)), Checks(false, rest));
    assert acts[1..][1..][1..] == [Call(false)];
    LastCall(lane, w, i, o.c, o.r, Call(false));
  }

  lemma QueuedCalls(lane: bool, c: Cluster, q: Queues, k: Name, rest: int)
    requires k in c.runs && c.runs[k].name == k && Live(c.runs[k]) && c.runs[k].finalizer
    requires !Enqueued(q, Key(c.runs[k]), k).Admitted(Key(c.runs[k]), k)
    ensures StepReplica(lane, c, Replica(q, Idle), Begin(k)) == Outcome(c, Replica(q, Fetch(k)))
    ensures StepReplica(lane, c, Replica(q, Fetch(k)), Call(false)) == Outcome(c, Replica(q, Admission(c.runs[k])))
    ensures var o := StepReplica(lane, c, Replica(q, Admission(c.runs[k])), Checks(false, rest));
            var c' := StepReplica(lane, o.c, o.r, Call(false)).c;
            OnlyStatus(c, c', k) && c'.jobs == c.jobs
            && c'.runs[k].status == c.runs[k].status.(phase := Pending, jobName := None, rest := rest)
  {
    hide Enqueued, Released, EnterGate;
    var run := c.runs[k];
    var queued := run.status.(phase := Pending, jobName := None, rest := rest);
    var pc := if queued == run.status then Idle else WriteQueued(run, queued);
    assert StepReplica(lane, c, Replica(q, Admission(run)), Checks(false, rest))
        == Outcome(c, Replica(Enqueued(q, Key(run), k), pc));
    if pc.WriteQueued? { WriteCall(lane, c, Enqueued(q, Key(run), k), pc, run, queued); }
  }

  // ---------------------------------------------------------------- archive, then clean up

  /** A stored record is stamped on the run, which is pending no longer. */
  lemma ArchivedIsStamped(lane: bool, w: World, i: nat, id: string, force: bool, rest: int)
    requires i in w.replicas && w.replicas[i].pc.Archive? && id != ""
    requires var run := w.replicas[i].pc.run;
      && run.name in w.c.runs && w.c.runs[run.name] == run
      && (run.status.archiveID == "" || run.status.archivePending)
    ensures var run := w.replicas[i].pc.run;
      var c := Exec(lane, w, Calls(i, [Stored(id), Fresh(force, rest), Call(false)])).c;
      && run.name in c.records && c.jobs == w.c.jobs && run.name in c.runs
      && c.runs[run.name].status == run.status.(archiveID := id, archivePending := false, rest := rest)
      && forall o :: o != run.name ==> (o in c.runs <==> o in w.c.runs) && (o in c.runs ==> c.runs[o] == w.c.runs[o])
  {
    var r := w.replicas[i];
    var acts := [Stored(id), Fresh(force, rest), Call(false)];
    assert w == At(w, i, w.c, r) by { assert w.replicas == w.replicas[i := w.replicas[i]]; }
    StampingCalls(lane, w.c, r.q, r.pc.run, r.pc.path, r.pc.fallback, id, force, rest);
    hide Exec, Calls, StepReplica;
    NextCall(lane, w, i, w.c, r, acts);
    var o := StepReplica(lane, w.c, r, Stored(id));
    NextCall(lane, w, i, o.c, o.r, acts[1..]);
    var o2 := StepReplica(lane, o.c, o.r, Fresh(force, rest));
    assert acts[1..][1..] == [Call(false)];
    LastCall(lane, w, i, o2.c, o2.r, Call(false));
  }

  lemma StampingCalls(lane: bool, c: Cluster, q: Queues, run: Run, path: Path, fallback: bool, id: string, force: bool,
      rest: int)
    requires run.name in c.runs && c.runs[run.name] == run && id != ""
    requires run.status.archiveID == "" || run.status.archivePending
    ensures var o := StepReplica(lane, c, Replica(q, Archive(run, path, fallback)), Stored(id));
            var o2 := StepReplica(lane, o.c, o.r, Fresh(force, rest));
            var c' := StepReplica(lane, o2.c, o2.r, Call(false)).c;
      && c' == c.(records := c.records + {run.name}, clock := c.clock + 1, runs := c.runs[run.name := run.(
           status := run.status.(archiveID := id, archivePending := false, rest := rest), version := c.clock + 1)])
  {
    hide Resume;
    var upd := run.status.(archiveID := id, archivePending := false, rest := rest);
    var c1 := c.(records := c.records + {run.name});
    var writing := StampWrite(run, run, upd, GatePassed(path));
    assert StepReplica(lane, c, Replica(q, Archive(run, path, fallback)), Stored(id))
        == Outcome(c1, Replica(q, StampGet(run, Archived(id), GatePassed(path))));
    assert StepReplica(lane, c1, Replica(q, StampGet(run, Archived(id), GatePassed(path))), Fresh(force, rest))
        == Outcome(c1, Replica(q, writing));
    WriteCall(lane, c1, q, writing, run, upd);
  }

  /** A record that could not be stored is marked as pending, and the pass ends there: no Job and no run is touched. */
  lemma UnarchivedIsHeld(lane: bool, w: World, i: nat, landed: bool, force: bool, rest: int)
    requires i in w.replicas && w.replicas[i].pc.Archive?
    requires var run := w.replicas[i].pc.run; run.name in w.c.runs && w.c.runs[run.name] == run
    ensures var run := w.replicas[i].pc.run;
      var v := Exec(lane, w, Calls(i, [NotStored(landed, false), Fresh(force, rest), Call(false)]));
      && v.c.jobs == w.c.jobs && v.c.runs.Keys == w.c.runs.Keys && i in v.replicas && v.replicas[i].pc == Idle
      && v.c.runs[run.name].status == run.status.(archivePending := true, rest := rest)
  {
    var r := w.replicas[i];
    var acts := [NotStored(landed, false), Fresh(force, rest), Call(false)];
    assert w == At(w, i, w.c, r) by { assert w.replicas == w.replicas[i := w.replicas[i]]; }
    HoldingCalls(lane, w.c, r.q, r.pc.run, r.pc.path, r.pc.fallback, landed, force, rest);
    hide Exec, Calls, StepReplica;
    NextCall(lane, w, i, w.c, r, acts);
    var o := StepReplica(lane, w.c, r, NotStored(landed, false));
    NextCall(lane, w, i, o.c, o.r, acts[1..]);
    var o2 := StepReplica(lane, o.c, o.r, Fresh(force, rest));
    assert acts[1..][1..] == [Call(false)];
    LastCall(lane, w, i, o2.c, o2.r, Call(false));
  }

  lemma HoldingCalls(lane: bool, c: Cluster, q: Queues, run: Run, path: Path, fallback: bool, landed: bool, force: bool,
      rest: int)
    requires run.name in c.runs && c.runs[run.name] == run
    ensures var o := StepReplica(lane, c, Replica(q, Archive(run, path, fallback)), NotStored(landed, false));
            var o2 := StepReplica(lane, o.c, o.r, Fresh(force, rest));
            var o3 := StepReplica(lane, o2.c, o2.r, Call(false));
      && o3.c.jobs == c.jobs && o3.c.runs.Keys == c.runs.Keys && o3.r.pc == Idle
      && o3.c.runs[run.name].status == run.status.(archivePending := true, rest := rest)
  {
    var upd := run.status.(archivePending := true, rest := rest);
    var c1 := if landed then c.(records := c.records + {run.name}) else c;
    var stamping := StampGet(run, ArchiveFailed, Stop);
    var pc := if upd == run.status then Idle else StampWrite(run, run, upd, Stop);
    assert StepReplica(lane, c, Replica(q, Archive(run, path, fallback)), NotStored(landed, false))
        == Outcome(c1, Replica(q, stamping));
    assert StepReplica(lane, c1, Replica(q, stamping), Fresh(force, rest)) == Outcome(c1, Replica(q, pc));
    StopEnds(lane, c1, q, pc);
    if pc.StampWrite? { WriteCall(lane, c1, q, pc, run, upd); }
  }

  lemma StopEnds(lane: bool, c: Cluster, q: Queues, pc: Pc)
    requires pc.Idle? || (pc.StampWrite? && pc.next == Stop)
    ensures var o := StepReplica(lane, c, Replica(q, pc), Call(false));
      o.r.pc == Idle && (pc.Idle? ==> o.c == c)
  {
  }

  /** A record castle refuses under the run's own key is tried once more, and only once: the second answer decides. */
  lemma RefusedRecordIsRetriedOnce(w: World, i: nat, k: Name, landed: bool, id: string)
    requires i in w.replicas && w.replicas[i].pc == Idle && k in w.c.runs
    requires var run := w.c.runs[k];
      && run.name == k && run.deleting && run.finalizer && run.status.archiveID == "" && id != ""
    ensures var v := Exec(true, w, Calls(i, [Begin(k), Call(false), NotStored(landed, true), Stored(id)]));
      v.c.runs == w.c.runs && k in v.c.records && i in v.replicas && v.replicas[i].pc.StampGet?
      && v.replicas[i].pc.stamp == Archived(id)
    ensures var v := Exec(true, w, Calls(i, [Begin(k), Call(false), NotStored(landed, true), NotStored(false, true)]));
      v.c.runs == w.c.runs && i in v.replicas && v.replicas[i].pc.StampGet? && v.replicas[i].pc.stamp == ArchiveFailed
  {
    var run, q := w.c.runs[k], w.replicas[i].q;
    assert w == At(w, i, w.c, Replica(q, Idle)) by { assert w.replicas == w.replicas[i := w.replicas[i]]; }
    SecondAnswer(w, i, k, landed, Stored(id));
    SecondAnswer(w, i, k, landed, NotStored(false, true));
  }

  lemma SecondAnswer(w: World, i: nat, k: Name, landed: bool, second: Act)
    requires i in w.replicas && w.replicas[i].pc == Idle && k in w.c.runs
    requires w == At(w, i, w.c, Replica(w.replicas[i].q, Idle))
    requires var run := w.c.runs[k]; run.name == k && run.deleting && run.finalizer && run.status.archiveID == ""
    requires second.Stored? || second.NotStored?
    ensures var run := w.c.runs[k];
      var c := if landed then w.c.(records := w.c.records + {k}) else w.c;
      var o := StepReplica(true, c, Replica(Vacate(w.replicas[i].q, run), Archive(run, FinalizePath, true)), second);
      Exec(true, w, Calls(i, [Begin(k), Call(false), NotStored(landed, true), second])) == At(w, i, o.c, o.r)
  {
    var run, q := w.c.runs[k], w.replicas[i].q;
    var acts := [Begin(k), Call(false), NotStored(landed, true), second];
    RefusingCalls(w.c, q, k, landed);
    hide Exec, Calls, StepReplica;
    NextCall(true, w, i, w.c, Replica(q, Idle), acts);
    NextCall(true, w, i, w.c, Replica(q, Fetch(k)), acts[1..]);
    var q' := Vacate(q, run);
    NextCall(true, w, i, w.c, Replica(q', Archive(run, FinalizePath, false)), acts[1..][1..]);
    var c := if landed then w.c.(records := w.c.records + {k}) else w.c;
    assert acts[1..][1..][1..] == [second];
    LastCall(true, w, i, c, Replica(q', Archive(run, FinalizePath, true)), second);
  }

  lemma RefusingCalls(c: Cluster, q: Queues, k: Name, landed: bool)
    requires k in c.runs
      && c.runs[k].name == k && c.runs[k].deleting && c.runs[k].finalizer && c.runs[k].status.archiveID == ""
    ensures var run, q' := c.runs[k], Vacate(q, c.runs[k]);
      && StepReplica(true, c, Replica(q, Idle), Begin(k)) == Outcome(c, Replica(q, Fetch(k)))
      && StepReplica(true, c, Replica(q, Fetch(k)), Call(false))
         == Outcome(c, Replica(q', Archive(run, FinalizePath, false)))
      && StepReplica(true, c, Replica(q', Archive(run, FinalizePath, false)), NotStored(landed, true))
         == Outcome(if landed then c.(records := c.records + {k}) else c,
              Replica(q', Archive(run, FinalizePath, true)))
  {
    hide Released;
  }

  /** Every listed Job is gone once the deleting calls are through. */
  lemma {:induction false} DeletingCalls(lane: bool, w: World, i: nat, c: Cluster, q: Queues, run: Run, todo: seq<Job>,
      after: AfterJobs, rest: seq<Act>)
    requires todo != []
    ensures Exec(lane, At(w, i, c, Replica(q, DeleteJobs(run, todo, after))), Calls(i, Answered(|todo|) + rest))
         == Exec(lane, At(w, i, c.(jobs := c.jobs - JobsOf(todo)), Replica(q, JobsGone(run, after))),
                 Calls(i, rest))
    decreases |todo|
  {
    DeleteCall(lane, c, q, run, todo, after);
    AnsweredNext(|todo|, rest);
    hide Exec, Calls, JobsGone, StepReplica, At, Answered;
    CallThen(lane, w, i, c, Replica(q, DeleteJobs(run, todo, after)), Call(false), Answered(|todo| - 1) + rest);
    var c' := c.(jobs := c.jobs - {todo[0]});
    JobsOfNext(todo, c.jobs);
    hide JobsOf;
    if |todo| > 1 {
      DeletingCalls(lane, w, i, c', q, run, todo[1..], after, rest);
    }
  }

  lemma DeleteCall(lane: bool, c: Cluster, q: Queues, run: Run, todo: seq<Job>, after: AfterJobs)
    requires todo != []
    ensures StepReplica(lane, c, Replica(q, DeleteJobs(run, todo, after)), Call(false))
         == Outcome(c.(jobs := c.jobs - {todo[0]}), Replica(q, if |todo| == 1 then JobsGone(run, after)
              else DeleteJobs(run, todo[1..], after)))
  {
    hide JobsGone;
  }

  /** Exactly the run's own Jobs are missing: the runner's and those of its adapter kinds. */
  ghost predicate OwnJobsGone(before: Cluster, after: Cluster, run: Run) {
    forall j :: j in after.jobs <==>
      j in before.jobs && j != Job(run.name, RUNNER) && !(j.run == run.name && j.role in run.spec.adapterKinds)
  }

  /** A guarded reap over settled runner pods deletes the run's Jobs; behind a pod that may restart it deletes none. */
  lemma GuardDecides(lane: bool, w: World, i: nat, rest: int)
    requires i in w.replicas && w.replicas[i].pc.Guard?
    requires var run := w.replicas[i].pc.run; run.name in w.c.runs && w.c.runs[run.name] == run
    ensures var run := w.replicas[i].pc.run;
      var c := Exec(lane, w, Calls(i, [Guarded(false)] + Answered(1 + |run.spec.adapterKinds|))).c;
      c.runs == w.c.runs && OwnJobsGone(w.c, c, run)
    ensures var run := w.replicas[i].pc.run;
      var v := Exec(lane, w, Calls(i, [Guarded(true), Fresh(false, rest), Call(false)]));
      && v.c.jobs == w.c.jobs && v.c.runs.Keys == w.c.runs.Keys && i in v.replicas && v.replicas[i].pc == Idle
      && v.c.runs[run.name].status == run.status.(rest := rest)
  {
    assert w == At(w, i, w.c, w.replicas[i]) by { assert w.replicas == w.replicas[i := w.replicas[i]]; }
    SettledReap(lane, w, i, w.c, w.replicas[i].q, w.replicas[i].pc.run, w.replicas[i].pc.path);
    DeferredReap(lane, w, i, w.c, w.replicas[i].q, w.replicas[i].pc.run, w.replicas[i].pc.path, rest);
  }

  lemma SettledReap(lane: bool, w: World, i: nat, c: Cluster, q: Queues, run: Run, path: Path)
    ensures var c' := Exec(lane, At(w, i, c, Replica(q, Guard(run, path))),
        Calls(i, [Guarded(false)] + Answered(1 + |run.spec.adapterKinds|))).c;
      c'.runs == c.runs && OwnJobsGone(c, c', run)
  {
    OwnJobsAre(c, run);
    assert |DesiredJobs(run)| == 1 + |run.spec.adapterKinds|;
    SettledCall(lane, c, q, run, path);
    hide Exec, Calls, DesiredJobs, Answered, JobsGone, OwnJobsGone, StepReplica;
    var n := 1 + |run.spec.adapterKinds|;
    NextCall(lane, w, i, c, Replica(q, Guard(run, path)), [Guarded(false)] + Answered(n));
    assert ([Guarded(false)] + Answered(n))[1..] == Answered(n) + [];
    DeletingCalls(lane, w, i, c, q, run, DesiredJobs(run), ClearDeferral(path), []);
    NoCalls(lane, At(w, i, c.(jobs := c.jobs - JobsOf(DesiredJobs(run))),
      Replica(q, JobsGone(run, ClearDeferral(path)))), i);
  }

  lemma SettledCall(lane: bool, c: Cluster, q: Queues, run: Run, path: Path)
    ensures StepReplica(lane, c, Replica(q, Guard(run, path)), Guarded(false))
         == Outcome(c, Replica(q, DeleteJobs(run, DesiredJobs(run), ClearDeferral(path))))
  {
    hide DesiredJobs;
  }

  lemma DeferredReap(lane: bool, w: World, i: nat, c: Cluster, q: Queues, run: Run, path: Path, rest: int)
    requires run.name in c.runs && c.runs[run.name] == run
    ensures var v := Exec(lane, At(w, i, c, Replica(q, Guard(run, path))),
        Calls(i, [Guarded(true), Fresh(false, rest), Call(false)]));
      && v.c.jobs == c.jobs && v.c.runs.Keys == c.runs.Keys && i in v.replicas && v.replicas[i].pc == Idle
      && v.c.runs[run.name].status == run.status.(rest := rest)
  {
    DeferringCalls(lane, c, q, run, path, rest);
    hide Exec, Calls, StepReplica;
    var acts := [Guarded(true), Fresh(false, rest), Call(false)];
    NextCall(lane, w, i, c, Replica(q, Guard(run, path)), acts);
    var stamping := Replica(q, StampGet(run, CleanupCondition, Reap(path)));
    NextCall(lane, w, i, c, stamping, acts[1..]);
    var o := StepReplica(lane, c, stamping, Fresh(false, rest));
    assert acts[1..][1..] == [Call(false)];
    LastCall(lane, w, i, o.c, o.r, Call(false));
  }

  lemma DeferringCalls(lane: bool, c: Cluster, q: Queues, run: Run, path: Path, rest: int)
    requires run.name in c.runs && c.runs[run.name] == run
    ensures var stamping := StampGet(run, CleanupCondition, Reap(path));
            var o2 := StepReplica(lane, c, Replica(q, stamping), Fresh(false, rest));
            var o3 := StepReplica(lane, o2.c, o2.r, Call(false));
      && StepReplica(lane, c, Replica(q, Guard(run, path)), Guarded(true)) == Outcome(c, Replica(q, stamping))
      && o3.c.jobs == c.jobs && o3.c.runs.Keys == c.runs.Keys && o3.r.pc == Idle
      && o3.c.runs[run.name].status == run.status.(rest := rest)
  {
    var upd := run.status.(rest := rest);
    var pc := if upd == run.status then Idle else StampWrite(run, run, upd, Stop);
    assert StepReplica(lane, c, Replica(q, StampGet(run, CleanupCondition, Reap(path))), Fresh(false, rest))
        == Outcome(c, Replica(q, pc));
    StopEnds(lane, c, q, pc);
    if pc.StampWrite? { WriteCall(lane, c, q, pc, run, upd); }
  }

  /** After the reap, a pass that has just seen the run end goes on to its signals; one over an ended run is done. */
  lemma ReapedGoesOn(lane: bool, w: World, i: nat, path: Path, force: bool)
    requires i in w.replicas && w.replicas[i].pc.StampGet?
      && w.replicas[i].pc == StampGet(w.replicas[i].pc.run, CleanupCondition, Reaped(path))
    requires var run := w.replicas[i].pc.run; run.name in w.c.runs && w.c.runs[run.name] == run
    ensures var run := w.replicas[i].pc.run;
      var v := Exec(lane, w, Calls(i, [Fresh(force, run.status.rest)]));
      v.c == w.c && i in v.replicas && v.replicas[i].pc == if path == EndPath then Signals(run) else Idle
  {
    assert w == At(w, i, w.c, w.replicas[i]) by { assert w.replicas == w.replicas[i := w.replicas[i]]; }
    LastCall(lane, w, i, w.c, w.replicas[i], Fresh(force, w.replicas[i].pc.run.status.rest));
  }

  /** The pass over a deleted run whose record is stored deletes its Jobs, then lets the run go. */
  lemma FinalizePassRemoves(lane: bool, w: World, i: nat, k: Name)
    requires i in w.replicas && w.replicas[i].pc == Idle && k in w.c.runs
    requires var run := w.c.runs[k];
      run.name == k && run.deleting && run.finalizer
      && (!lane || (run.status.archiveID != "" && !run.status.archivePending))
    ensures var c := Exec(lane, w, Calls(i, [Begin(k), Call(false), Call(false)]
        + (Answered(1 + |w.c.runs[k].spec.adapterKinds|) + [Call(false)]))).c;
      c.runs == w.c.runs - {k} && OwnJobsGone(w.c, c, w.c.runs[k])
  {
    var run, q := w.c.runs[k], w.replicas[i].q;
    assert w == At(w, i, w.c, Replica(q, Idle)) by { assert w.replicas == w.replicas[i := w.replicas[i]]; }
    OwnJobsAre(w.c, run);
    assert |DesiredJobs(run)| == 1 + |run.spec.adapterKinds|;
    hide Exec, Calls, DesiredJobs, Answered, Released, OwnJobsGone, StepReplica;
    FinalizingCalls(lane, w.c, q, k);
    var left := Answered(1 + |run.spec.adapterKinds|) + [Call(false)];
    var acts := [Begin(k), Call(false), Call(false)] + left;
    NextCall(lane, w, i, w.c, Replica(q, Idle), acts);
    NextCall(lane, w, i, w.c, Replica(q, Fetch(k)), acts[1..]);
    var q' := Vacate(q, run);
    NextCall(lane, w, i, w.c, Replica(q', FinalizeGet(k)), acts[1..][1..]);
    assert acts[1..][1..][1..] == left;
    DeletingCalls(lane, w, i, w.c, q', run, DesiredJobs(run), DropFinalizer, [Call(false)]);
    var c1 := w.c.(jobs := w.c.jobs - JobsOf(DesiredJobs(run)));
    FinalizingCalls(lane, c1, q', k);
    LastCall(lane, w, i, c1, Replica(q', RemoveFinalizer(run)), Call(false));
    SameJobs(w.c, c1, StepReplica(lane, c1, Replica(q', RemoveFinalizer(run)), Call(false)).c, run);
  }

  lemma FinalizingCalls(lane: bool, c: Cluster, q: Queues, k: Name)
    requires k in c.runs && c.runs[k].name == k && c.runs[k].deleting && c.runs[k].finalizer
    requires !lane || (c.runs[k].status.archiveID != "" && !c.runs[k].status.archivePending)
    ensures var run := c.runs[k];
      && StepReplica(lane, c, Replica(q, Idle), Begin(k)) == Outcome(c, Replica(q, Fetch(k)))
      && StepReplica(lane, c, Replica(q, Fetch(k)), Call(false)) == Outcome(c, Replica(Vacate(q, run), FinalizeGet(k)))
      && StepReplica(lane, c, Replica(Vacate(q, run), FinalizeGet(k)), Call(false))
         == Outcome(c, Replica(Vacate(q, run), DeleteJobs(run, DesiredJobs(run), DropFinalizer)))
      && StepReplica(lane, c, Replica(q, RemoveFinalizer(run)), Call(false)).c == c.(runs := c.runs - {k})
  {
    hide Released, DesiredJobs;
  }

  lemma SameJobs(before: Cluster, c: Cluster, after: Cluster, run: Run)
    requires OwnJobsGone(before, c, run) && after.jobs == c.jobs
    ensures OwnJobsGone(before, after, run)
  {
  }

  lemma OwnJobsAre(c: Cluster, run: Run)
    ensures OwnJobsGone(c, c.(jobs := c.jobs - JobsOf(DesiredJobs(run))), run)
  {
    DesiredAre(run);
    hide DesiredJobs;
  }
}
