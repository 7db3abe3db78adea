/** What every call of every replica keeps, with crashes and failed or lost calls: copies are past states, and cleanup
    comes after the archive record. */
module LifecycleSafety {
  import opened Common
  import opened RunQueues
  import opened Lifecycle

  /** b is a state the run object a may have reached since. */
  ghost predicate Succeeds(a: Run, b: Run) {
    && a.name == b.name && a.spec == b.spec && a.created == b.created
    && (a.deleting ==> b.deleting)
    && Evolves(a.status, b.status)
  }

  /** A copy somebody may hold: some earlier state of the stored run, or its present one. */
  ghost predicate Past(c: Cluster, run: Run) {
    && run.name in c.used
    && run.version <= c.clock
    && (run.status.archiveID != "" ==> run.name in c.records)
    && (run.name in c.runs ==>
          && run.version <= c.runs[run.name].version
          && (run.version == c.runs[run.name].version ==> run == c.runs[run.name])
          && Succeeds(run, c.runs[run.name]))
  }

  ghost predicate StoreOk(c: Cluster) {
    forall k :: k in c.runs ==> c.runs[k].name == k && Past(c, c.runs[k])
  }

  /** What any event may do to the store. */
  ghost predicate Advance(c: Cluster, c': Cluster) {
    && c.used <= c'.used && c.records <= c'.records && c.clock <= c'.clock
    && forall k :: k in c'.runs ==>
         || k !in c.used
         || (k in c.runs && (c'.runs[k] == c.runs[k]
           || (c'.runs[k].version > c.clock && Succeeds(c.runs[k], c'.runs[k]))))
  }

  lemma PastStable(c: Cluster, c': Cluster, run: Run)
    requires Past(c, run) && Advance(c, c')
    ensures Past(c', run)
  {
  }

  // ---------------------------------------------------------------- what a pass knows

  /** A status prepared from a copy; only a current copy can ever be written. */
  ghost predicate Draft(c: Cluster, run: Run, upd: Status) {
    && Past(c, run)
    && Evolves(run.status, upd)
    && (upd.archiveID != "" ==> run.name in c.records)
  }

  ghost predicate Archived(lane: bool, c: Cluster, k: Name) {
    lane ==> k in c.records
  }

  ghost predicate PcOk(lane: bool, c: Cluster, pc: Pc) {
    match pc
    case Idle => true
    case Fetch(_) => true
    case Refetch(_) => true
    case AddFinalizer(run) => Past(c, run)
    case ObserveTerminal(run) => Past(c, run)
    case Admission(run) => Past(c, run) && !Terminal(run.status.phase)
    case WriteTerminal(run, upd) => Draft(c, run, upd)
    case WriteQueued(run, upd) => Draft(c, run, upd)
    case WriteRun(run, upd, _) => Draft(c, run, upd)
    case WriteFailed(run, upd) => Draft(c, run, upd)
    case TicketCheck(run, upd) => Draft(c, run, upd) && !Terminal(run.status.phase)
    case Prepare(run, upd) => Draft(c, run, upd) && !Terminal(run.status.phase)
    case CreateJobs(run, upd, _, _) => Draft(c, run, upd) && !Terminal(run.status.phase)
    case Observe(run, upd, _) => Draft(c, run, upd) && !Terminal(run.status.phase)
    case Signals(run) => Past(c, run)
    case Archive(run, _, _) => Past(c, run)
    case StampGet(run, stamp, next) =>
      Past(c, run) && (stamp.Archived? ==> run.name in c.records) && (next != Stop ==> Archived(lane, c, run.name))
    case StampWrite(run, found, upd, next) =>
      Past(c, run) && Draft(c, found, upd) && found.name == run.name && (next != Stop ==> Archived(lane, c, run.name))
    case FinalizeGet(k) => Archived(lane, c, k)
    case Guard(run, _) => Past(c, run) && Archived(lane, c, run.name)
    case DeleteJobs(run, todo, _) =>
      Past(c, run) && Archived(lane, c, run.name) && forall j :: j in todo ==> j.run == run.name
    case RemoveFinalizer(run) => Past(c, run) && Archived(lane, c, run.name)
  }

  lemma PcStable(lane: bool, c: Cluster, c': Cluster, pc: Pc)
    requires PcOk(lane, c, pc) && Advance(c, c')
    ensures PcOk(lane, c', pc)
  {
    match pc
    case StampWrite(run, found, _, _) => PastStable(c, c', run); PastStable(c, c', found);
    case Idle =>
    case Fetch(_) =>
    case Refetch(_) =>
    case FinalizeGet(_) =>
    case _ => PastStable(c, c', pc.run);
  }

  // ---------------------------------------------------------------- single steps

  /** A write lands only on the very object it was prepared from. */
  lemma WriteLands(c: Cluster, run: Run, upd: Status)
    requires StoreOk(c) && Draft(c, run, upd)
    ensures var w := WriteStatus(c, run, upd);
            w.Some? ==>
              && run.name in c.runs && c.runs[run.name] == run
              && Advance(c, w.value) && StoreOk(w.value)
              && w.value.jobs == c.jobs && w.value.records == c.records && w.value.used == c.used
              && w.value.runs == c.runs[run.name := run.(status := upd, version := c.clock + 1)]
  {
    var w := WriteStatus(c, run, upd);
    if w.Some? {
      forall k | k in w.value.runs ensures w.value.runs[k].name == k && Past(w.value, w.value.runs[k])
      {
        assert k in c.runs;
      }
    }
  }

  lemma ResumeOk(lane: bool, c: Cluster, run: Run, next: Then)
    requires Past(c, run) && (next != Stop ==> Archived(lane, c, run.name))
    ensures PcOk(lane, c, Resume(run, next))
  {
  }

  lemma GateOk(lane: bool, c: Cluster, run: Run, path: Path)
    requires Past(c, run)
    ensures PcOk(lane, c, EnterGate(lane, run, path))
  {
    if !lane || (run.status.archiveID != "" && !run.status.archivePending) {
      ResumeOk(lane, c, run, GatePassed(path));
    }
  }

  ghost predicate Sound(lane: bool, c: Cluster, o: Outcome) {
    Advance(c, o.c) && StoreOk(o.c) && PcOk(lane, o.c, o.r.pc)
  }

  lemma StoreChangeOk(c: Cluster, c': Cluster)
    requires StoreOk(c) && Advance(c, c')
    requires forall k :: k in c'.runs ==>
               k in c.runs && (c'.runs[k] == c.runs[k]
                 || (c'.runs[k].version <= c'.clock && c'.runs[k].status == c.runs[k].status))
    ensures StoreOk(c')
  {
    forall k | k in c'.runs ensures c'.runs[k].name == k && Past(c', c'.runs[k])
    {
      assert Past(c, c.runs[k]);
    }
  }

  lemma WriteTerminalOk(lane: bool, c: Cluster, r: Replica, lost: bool)
    requires StoreOk(c) && PcOk(lane, c, r.pc) && r.pc.WriteTerminal?
    ensures Sound(lane, c, StepWrite(lane, c, r.q, r.pc, lost))
  {
    WriteLands(c, r.pc.run, r.pc.upd);
    var w := WriteStatus(c, r.pc.run, r.pc.upd);
    if w.Some? { GateOk(lane, w.value, w.value.runs[r.pc.run.name], TerminalPath); }
  }

  lemma WriteQueuedOk(lane: bool, c: Cluster, r: Replica, lost: bool)
    requires StoreOk(c) && PcOk(lane, c, r.pc) && r.pc.WriteQueued?
    ensures Sound(lane, c, StepWrite(lane, c, r.q, r.pc, lost))
  {
    WriteLands(c, r.pc.run, r.pc.upd);
  }

  lemma WriteRunOk(lane: bool, c: Cluster, r: Replica, lost: bool)
    requires StoreOk(c) && PcOk(lane, c, r.pc) && r.pc.WriteRun?
    ensures Sound(lane, c, StepWrite(lane, c, r.q, r.pc, lost))
  {
    WriteLands(c, r.pc.run, r.pc.upd);
    var w := WriteStatus(c, r.pc.run, r.pc.upd);
    if w.Some? { GateOk(lane, w.value, w.value.runs[r.pc.run.name], EndPath); }
  }

  lemma WriteFailedOk(lane: bool, c: Cluster, r: Replica, lost: bool)
    requires StoreOk(c) && PcOk(lane, c, r.pc) && r.pc.WriteFailed?
    ensures Sound(lane, c, StepWrite(lane, c, r.q, r.pc, lost))
  {
    WriteLands(c, r.pc.run, r.pc.upd);
    var w := WriteStatus(c, r.pc.run, r.pc.upd);
    if w.Some? { GateOk(lane, w.value, w.value.runs[r.pc.run.name], FailPath); }
  }

  lemma StampWriteOk(lane: bool, c: Cluster, r: Replica, lost: bool)
    requires StoreOk(c) && PcOk(lane, c, r.pc) && r.pc.StampWrite?
    ensures Sound(lane, c, StepWrite(lane, c, r.q, r.pc, lost))
  {
    WriteLands(c, r.pc.found, r.pc.upd);
    var w := WriteStatus(c, r.pc.found, r.pc.upd);
    if w.Some? {
      PastStable(c, w.value, r.pc.run);
      ResumeOk(lane, w.value, r.pc.run, r.pc.next);
    }
  }

  lemma FetchOk(lane: bool, c: Cluster, q: Queues, k: Name)
    requires StoreOk(c)
    ensures PcOk(lane, c, StepFetch(lane, c, q, k).pc)
  {
    if k in c.runs {
      assert Past(c, c.runs[k]);
      GateOk(lane, c, c.runs[k], FinalizePath);
    }
  }

  lemma AddFinalizerOk(lane: bool, c: Cluster, q: Queues, run: Run, lost: bool)
    requires StoreOk(c) && Past(c, run)
    ensures Sound(lane, c, StepAddFinalizer(c, q, run, lost))
  {
    StoreChangeOk(c, StepAddFinalizer(c, q, run, lost).c);
  }

  lemma ObserveTerminalOk(lane: bool, c: Cluster, run: Run, act: Act)
    requires Past(c, run) && act.Castle?
    ensures Draft(c, run, TerminalUpdate(run, act))
    ensures PcOk(lane, c, EnterGate(lane, run, TerminalPath))
  {
    GateOk(lane, c, run, TerminalPath);
  }

  lemma AdmissionOk(lane: bool, c: Cluster, q: Queues, run: Run, act: Act)
    requires PcOk(lane, c, Admission(run)) && act.Checks?
    ensures PcOk(lane, c, StepAdmission(q, run, act).pc)
  {
  }

  lemma ObserveOk(lane: bool, c: Cluster, run: Run, upd: Status, provisioned: bool, act: Act)
    requires PcOk(lane, c, Observe(run, upd, provisioned)) && act.Observed?
    ensures PcOk(lane, c, StepObserve(lane, run, upd, provisioned, act))
  {
    GateOk(lane, c, run, EndPath);
  }

  lemma JobsChange(lane: bool, c: Cluster, jobs: set<Job>, pc: Pc)
    requires StoreOk(c) && PcOk(lane, c, pc)
    ensures var c' := c.(jobs := jobs); Advance(c, c') && StoreOk(c') && PcOk(lane, c', pc)
  {
    var c' := c.(jobs := jobs);
    StoreChangeOk(c, c');
    PcStable(lane, c, c', pc);
  }

  lemma ArchiveOk(lane: bool, c: Cluster, pc: Pc, act: Act)
    requires StoreOk(c) && PcOk(lane, c, pc) && pc.Archive? && (act.Stored? || act.NotStored?)
    ensures var (c', pc') := StepArchive(c, pc.run, pc.path, pc.fallback, act);
            Advance(c, c') && StoreOk(c') && PcOk(lane, c', pc')
  {
    var (c', pc') := StepArchive(c, pc.run, pc.path, pc.fallback, act);
    assert Advance(c, c');
    StoreChangeOk(c, c');
    PastStable(c, c', pc.run);
  }

  lemma StampGetOk(lane: bool, c: Cluster, run: Run, stamp: Stamp, next: Then, act: Act)
    requires StoreOk(c) && PcOk(lane, c, StampGet(run, stamp, next)) && act.Fresh?
    ensures PcOk(lane, c, StepStampGet(c, run, stamp, next, act))
  {
    hide Resume, StampedStatus, Past, Draft;
    if run.name in c.runs {
      StampedIsDraft(c, run.name, stamp, act.rest);
      ResumeOk(lane, c, run, next);
      ResumeOk(lane, c, run, Stop);
    }
  }

  lemma StampedIsDraft(c: Cluster, k: Name, stamp: Stamp, rest: int)
    requires StoreOk(c) && k in c.runs && (stamp.Archived? ==> k in c.records)
    ensures c.runs[k].name == k && Draft(c, c.runs[k], StampedStatus(c.runs[k], stamp, rest))
  {
    assert Past(c, c.runs[k]);
  }

  lemma RemoveFinalizerOk(lane: bool, c: Cluster, run: Run)
    requires StoreOk(c) && Past(c, run)
    ensures Advance(c, StepRemoveFinalizer(c, run)) && StoreOk(StepRemoveFinalizer(c, run))
  {
    StoreChangeOk(c, StepRemoveFinalizer(c, run));
  }

  predicate Writes(pc: Pc) {
    pc.WriteTerminal? || pc.WriteQueued? || pc.WriteRun? || pc.WriteFailed? || pc.StampWrite?
  }

  predicate Starts(pc: Pc) {
    pc.Idle? || pc.Fetch? || pc.AddFinalizer? || pc.Refetch? || pc.ObserveTerminal? || pc.Admission?
      || pc.TicketCheck? || pc.Prepare?
  }

  lemma WriteStepOk(lane: bool, c: Cluster, r: Replica, act: Act)
    requires StoreOk(c) && PcOk(lane, c, r.pc) && Writes(r.pc)
    ensures Sound(lane, c, StepReplica(lane, c, r, act))
  {
    if act.Call? {
      match r.pc
      case WriteTerminal(_, _) => WriteTerminalOk(lane, c, r, act.lost);
      case WriteQueued(_, _) => WriteQueuedOk(lane, c, r, act.lost);
      case WriteRun(_, _, _) => WriteRunOk(lane, c, r, act.lost);
      case WriteFailed(_, _) => WriteFailedOk(lane, c, r, act.lost);
      case StampWrite(_, _, _, _) => StampWriteOk(lane, c, r, act.lost);
    }
  }

  lemma StartStepOk(lane: bool, c: Cluster, r: Replica, act: Act)
    requires StoreOk(c) && PcOk(lane, c, r.pc) && Starts(r.pc)
    ensures Sound(lane, c, StepReplica(lane, c, r, act))
  {
    hide StepFetch, StepAddFinalizer, StepAdmission, TerminalUpdate, EnterGate, Blocked, Vacate;
    match r.pc
    case Fetch(k) => FetchOk(lane, c, r.q, k);
    case AddFinalizer(run) => if act.Call? { AddFinalizerOk(lane, c, r.q, run, act.lost); }
    case Refetch(k) => if k in c.runs { assert Past(c, c.runs[k]); }
    case ObserveTerminal(run) => if act.Castle? { ObserveTerminalOk(lane, c, run, act); }
    case Admission(run) => if act.Checks? { AdmissionOk(lane, c, r.q, run, act); }
    case _ =>
  }

  lemma StoredIsPast(c: Cluster, k: Name)
    requires StoreOk(c) && k in c.runs
    ensures c.runs[k].name == k && Past(c, c.runs[k]) && forall j :: j in DesiredJobs(c.runs[k]) ==> j.run == k
  {
  }

  lemma FailureIsDraft(c: Cluster, run: Run, rest: int)
    requires Past(c, run)
    ensures Draft(c, run, FailedWith(run.status, rest))
  {
  }

  lemma NothingAdvances(c: Cluster)
    ensures Advance(c, c)
  {
  }

  lemma JobStepOk(lane: bool, c: Cluster, r: Replica, act: Act)
    requires StoreOk(c) && PcOk(lane, c, r.pc) && (r.pc.CreateJobs? || r.pc.DeleteJobs?)
    ensures Sound(lane, c, StepReplica(lane, c, r, act))
  {
    hide StoreOk, Past, Advance, Draft;
    NothingAdvances(c);
    if |r.pc.todo| > 0 {
      JobsChange(lane, c, if r.pc.CreateJobs? then c.jobs + {r.pc.todo[0]} else c.jobs - {r.pc.todo[0]}, r.pc);
    }
  }

  lemma LaterStepOk(lane: bool, c: Cluster, r: Replica, act: Act)
    requires StoreOk(c) && PcOk(lane, c, r.pc) && !Starts(r.pc) && !Writes(r.pc) && !r.pc.CreateJobs?
        && !r.pc.DeleteJobs?
    ensures Sound(lane, c, StepReplica(lane, c, r, act))
  {
    hide StepObserve, StepStampGet, StepArchive, StepRemoveFinalizer, DesiredJobs, Resume, Advance;
    hide Past, Draft, Evolves, StoreOk;
    NothingAdvances(c);
    match r.pc
    case Observe(run, upd, provisioned) => if act.Observed? { ObserveOk(lane, c, run, upd, provisioned, act); }
    case Archive(_, _, _) => if act.Stored? || act.NotStored? { ArchiveOk(lane, c, r.pc, act); }
    case StampGet(run, stamp, next) => if act.Fresh? { StampGetOk(lane, c, run, stamp, next, act); }
    case FinalizeGet(k) => if k in c.runs { StoredIsPast(c, k); }
    case Signals(run) => if act.Conflict? { FailureIsDraft(c, run, act.rest); }
    case Guard(run, path) => ResumeOk(lane, c, run, Reap(path));
    case RemoveFinalizer(run) => RemoveFinalizerOk(lane, c, run);
    case _ =>
  }

  /** Every call of a pass advances the store and keeps what the pass knows. */
  lemma ReplicaStepOk(lane: bool, c: Cluster, r: Replica, act: Act)
    requires StoreOk(c) && PcOk(lane, c, r.pc)
    ensures Sound(lane, c, StepReplica(lane, c, r, act))
  {
    if Writes(r.pc) {
      WriteStepOk(lane, c, r, act);
    } else if Starts(r.pc) {
      StartStepOk(lane, c, r, act);
    } else if r.pc.CreateJobs? || r.pc.DeleteJobs? {
      JobStepOk(lane, c, r, act);
    } else {
      LaterStepOk(lane, c, r, act);
    }
  }

  // ---------------------------------------------------------------- every history

  ghost predicate Inv(lane: bool, w: World) {
    && StoreOk(w.c)
    && (forall i :: i in w.replicas ==> PcOk(lane, w.c, w.replicas[i].pc))
    && (forall run :: run in w.swept ==> Past(w.c, run))
  }

  lemma DeletedOk(c: Cluster, k: Name)
    requires StoreOk(c)
    ensures Advance(c, Deleted(c, k)) && StoreOk(Deleted(c, k))
  {
    if k in c.runs { assert Past(c, c.runs[k]); }
    StoreChangeOk(c, Deleted(c, k));
  }

  lemma CreateOk(c: Cluster, run: Run)
    requires StoreOk(c) && Creatable(c, run)
    ensures var c' := Created(c, run); Advance(c, c') && StoreOk(c')
  {
    var c' := Created(c, run);
    forall k | k in c'.runs ensures c'.runs[k].name == k && Past(c', c'.runs[k])
    {
      if k in c.runs { assert Past(c, c.runs[k]); }
    }
  }

  lemma TouchOk(c: Cluster, k: Name)
    requires StoreOk(c)
    ensures Advance(c, Touched(c, k)) && StoreOk(Touched(c, k))
  {
    if k in c.runs { assert Past(c, c.runs[k]); }
    StoreChangeOk(c, Touched(c, k));
  }

  lemma EventAdvances(lane: bool, w: World, e: Event)
    requires Inv(lane, w)
    ensures Advance(w.c, Step(lane, w, e).c) && StoreOk(Step(lane, w, e).c)
    ensures forall i :: i in Step(lane, w, e).replicas ==>
              || (i in w.replicas && Step(lane, w, e).replicas[i].pc == w.replicas[i].pc)
              || PcOk(lane, Step(lane, w, e).c, Step(lane, w, e).replicas[i].pc)
  {
    match e {
      case Operator(i, act) => if i in w.replicas { ReplicaStepOk(lane, w.c, w.replicas[i], act); }
      case Create(run) => if Creatable(w.c, run) { CreateOk(w.c, run); }
      case RequestDelete(k) => DeletedOk(w.c, k);
      case SweepDelete(run) => DeletedOk(w.c, run.name);
      case Touch(k) => TouchOk(w.c, k);
      case LoseJob(job) => JobsChange(lane, w.c, w.c.jobs - {job}, Idle);
      case _ =>
    }
  }

  lemma StepKeepsInv(lane: bool, w: World, e: Event)
    requires Inv(lane, w)
    ensures Inv(lane, Step(lane, w, e)) && Advance(w.c, Step(lane, w, e).c)
  {
    EventAdvances(lane, w, e);
    var c' := Step(lane, w, e).c;
    forall i | i in w.replicas ensures PcOk(lane, c', w.replicas[i].pc)
    {
      PcStable(lane, w.c, c', w.replicas[i].pc);
    }
    forall run | run in w.swept ensures Past(c', run)
    {
      PastStable(w.c, c', run);
    }
  }

  lemma {:induction false} ExecKeepsInv(lane: bool, w: World, events: seq<Event>)
    requires Inv(lane, w)
    ensures Inv(lane, Exec(lane, w, events))
    decreases |events|
  {
    if events != [] {
      ExecKeepsInv(lane, w, events[..|events| - 1]);
      StepKeepsInv(lane, Exec(lane, w, events[..|events| - 1]), events[|events| - 1]);
    }
  }

  /** The store after a replica's next call. */
  function After(lane: bool, c: Cluster, r: Replica, act: Act): Cluster {
    StepReplica(lane, c, r, act).c
  }

  ghost predicate RespectsGate(c: Cluster, c': Cluster) {
    && (forall j :: j in c.jobs && j !in c'.jobs ==> j.run in c.records)
    && (forall k :: k in c.runs && (k !in c'.runs || (c.runs[k].finalizer && !c'.runs[k].finalizer)) ==> k in c.records)
  }

  lemma StatusRespectsGate(c: Cluster, base: Run, upd: Status)
    ensures RespectsGate(c, c)
    ensures var w := WriteStatus(c, base, upd); w.Some? ==> RespectsGate(c, w.value)
  {
  }

  lemma WriteRespectsGate(c: Cluster, r: Replica, act: Act)
    requires Writes(r.pc)
    ensures RespectsGate(c, After(true, c, r, act))
  {
    hide StepReplica, WriteStatus, RespectsGate;
    var base := if r.pc.StampWrite? then r.pc.found else r.pc.run;
    StatusRespectsGate(c, base, r.pc.upd);
    WriteStores(true, c, r, act, base);
  }

  /** A writing call changes the store by its status write or not at all. */
  lemma WriteStores(lane: bool, c: Cluster, r: Replica, act: Act, base: Run)
    requires Writes(r.pc) && base == if r.pc.StampWrite? then r.pc.found else r.pc.run
    ensures var c' := StepReplica(lane, c, r, act).c; c' == c || WriteStatus(c, base, r.pc.upd) == Some(c')
  {
    hide WriteStatus, Released, EnterGate, AfterRunWrite, Resume;
  }

  lemma CallRespectsGate(c: Cluster, r: Replica, act: Act)
    requires StoreOk(c) && PcOk(true, c, r.pc)
    ensures RespectsGate(c, After(true, c, r, act))
  {
    if Writes(r.pc) {
      WriteRespectsGate(c, r, act);
    }
  }
}
