/** The invariants behind mutual exclusion: who may hold a ticket, for any number of replicas and across restarts, and
    who is admitted, for one replica that keeps running. */
module LifecycleAdmission {
  import opened Common
  import opened Ordering
  import opened RunQueues
  import opened Lifecycle
  import opened LifecycleSafety

  ghost predicate HasRunner(c: Cluster, k: Name) {
    Job(k, RUNNER) in c.jobs
  }

  /** The run occupies its ticket: its runner Job exists, or its status says one was made. */
  ghost predicate Holds(c: Cluster, k: Name)
    requires k in c.runs
  {
    HasRunner(c, k) || c.runs[k].status.jobName.Some?
  }

  ghost predicate Rival(c: Cluster, k: Name, o: Name)
    requires k in c.runs
  {
    && o in c.runs && o != k && o.namespace == k.namespace
    && c.runs[o].spec.ticketID == c.runs[k].spec.ticketID
    && Live(c.runs[o])
  }

  /** While k lives, no live run of its ticket holds it or is older. */
  ghost predicate Clear(c: Cluster, k: Name) {
    k in c.runs && Live(c.runs[k]) ==>
      forall o :: Rival(c, k, o) ==> !Holds(c, o) && !Older(c.runs[o], c.runs[k])
  }

  ghost predicate TicketOk(c: Cluster) {
    && (forall k :: k in c.runs && Live(c.runs[k]) && Holds(c, k) ==> Clear(c, k))
    && (forall j :: j in c.jobs ==> j.run in c.used)
  }

  predicate Building(pc: Pc) {
    pc.Prepare? || pc.CreateJobs? || pc.Observe? || pc.WriteRun?
  }

  /** The pass need not ask for its ticket any more: it has, or its copy of the run says a runner Job was made. */
  predicate Entitled(pc: Pc) {
    Building(pc) || (pc.Admission? && pc.run.status.jobName.Some?)
  }

  ghost predicate TicketPc(c: Cluster, pc: Pc) {
    && (Entitled(pc) ==> Clear(c, pc.run.name))
    && (pc.CreateJobs? ==> forall j :: j in pc.todo ==> j.run == pc.run.name)
    && (pc.WriteQueued? ==> pc.upd.jobName.None?)
    && (pc.WriteTerminal? || pc.WriteFailed? ==> Terminal(pc.upd.phase))
    && (pc.ObserveTerminal? ==> Terminal(pc.run.status.phase))
    && (pc.StampWrite? ==> pc.upd.jobName == pc.found.status.jobName)
  }

  /** No run that was clear stops being clear. */
  ghost predicate KeepsClear(c: Cluster, c': Cluster) {
    forall k :: k in c.used && Clear(c, k) ==> Clear(c', k)
  }

  lemma OlderTotal(a: Run, b: Run)
    requires a.name.namespace == b.name.namespace && a.name != b.name
    ensures Older(a, b) || Older(b, a)
    ensures !(Older(a, b) && Older(b, a))
  {
    LessTotal(a.name.name, b.name.name);
  }

  // ---------------------------------------------------------------- changes of the store

  /** Nothing but births of unheld, younger runs, losses of Jobs, deletions and metadata writes. */
  ghost predicate Calm(c: Cluster, c': Cluster) {
    && c'.jobs <= c.jobs && c.used <= c'.used
    && forall k :: k in c'.runs ==>
         if k in c.runs then
           && c'.runs[k].status == c.runs[k].status && c'.runs[k].name == c.runs[k].name
           && c'.runs[k].spec == c.runs[k].spec && c'.runs[k].created == c.runs[k].created
           && (c.runs[k].deleting ==> c'.runs[k].deleting)
         else
           && k !in c.used && c'.runs[k].status.jobName.None?
           && forall o ::
                o in c.runs && o.namespace == k.namespace && c.runs[o].spec.ticketID == c'.runs[k].spec.ticketID ==>
                  !Older(c'.runs[k], c.runs[o])
  }

  lemma CalmClear(c: Cluster, c': Cluster, k: Name)
    requires Calm(c, c') && TicketOk(c) && k in c.used && Clear(c, k)
    ensures Clear(c', k)
  {
    if k in c'.runs && Live(c'.runs[k]) {
      assert k in c.runs;
      forall o | Rival(c', k, o) ensures !Holds(c', o) && !Older(c'.runs[o], c'.runs[k])
      {
        if o in c.runs { assert Rival(c, k, o); }
      }
    }
  }

  lemma CalmTicket(c: Cluster, c': Cluster)
    requires Calm(c, c') && TicketOk(c) && StoreOk(c)
    ensures TicketOk(c') && KeepsClear(c, c')
  {
    hide Calm, Clear;
    forall k | k in c.used && Clear(c, k) ensures Clear(c', k) { CalmClear(c, c', k); }
    CalmHolds(c, c');
    forall k | k in c'.runs && Live(c'.runs[k]) && Holds(c', k) ensures Clear(c', k)
    {
      assert k in c.used && Clear(c, k);
    }
  }

  lemma CalmHolds(c: Cluster, c': Cluster)
    requires Calm(c, c') && TicketOk(c) && StoreOk(c)
    ensures forall j :: j in c'.jobs ==> j.run in c'.used
    ensures forall k :: k in c'.runs && Live(c'.runs[k]) && Holds(c', k) ==>
              k in c.runs && k in c.used && Live(c.runs[k]) && Holds(c, k)
  {
    assert forall k :: k in c.runs ==> Past(c, c.runs[k]);
  }

  /** What a pass relies on survives whatever keeps clear runs clear. */
  lemma PcTicketStable(lane: bool, c: Cluster, c': Cluster, pc: Pc)
    requires PcOk(lane, c, pc) && TicketPc(c, pc) && KeepsClear(c, c')
    ensures TicketPc(c', pc)
  {
    hide Clear, Evolves;
  }

  /** Runner Jobs appear, and statuses are written, only for runs that may hold their ticket. */
  ghost predicate Actuates(c: Cluster, c': Cluster, k: Name) {
    && c.used == c'.used && c'.runs.Keys == c.runs.Keys
    && (forall o :: o in c.runs && o != k ==> c'.runs[o] == c.runs[o])
    && (forall j :: j in c'.jobs && j !in c.jobs ==> j.run == k)
    && (k in c.runs ==>
          && c'.runs[k].spec == c.runs[k].spec && c'.runs[k].created == c.runs[k].created
            && c'.runs[k].name == c.runs[k].name
          && (Live(c'.runs[k]) ==> Live(c.runs[k]))
          && (Live(c'.runs[k]) && Holds(c', k) && !Holds(c, k) ==> Clear(c, k)))
  }

  lemma ActuateTicket(c: Cluster, c': Cluster, k: Name)
    requires Actuates(c, c', k) && TicketOk(c) && k in c.used
    requires forall o :: o in c.runs ==> c.runs[o].name == o
    ensures TicketOk(c') && KeepsClear(c, c')
  {
    forall m | m in c.used && Clear(c, m) ensures Clear(c', m) { ActuateClear(c, c', k, m); }
    hide Clear, Rival;
    forall m | m in c'.runs && Live(c'.runs[m]) && Holds(c', m) ensures Clear(c', m)
    {
      assert Holds(c, m) || m == k;
      ActuateClear(c, c', k, m);
    }
  }

  /** A run that comes to hold its ticket is clear itself, so nobody clear is younger than it. */
  lemma ActuateClear(c: Cluster, c': Cluster, k: Name, m: Name)
    requires Actuates(c, c', k) && Clear(c, m)
    requires forall o :: o in c.runs ==> c.runs[o].name == o
    ensures Clear(c', m)
  {
    if m in c'.runs && Live(c'.runs[m]) {
      forall o | Rival(c', m, o) ensures !Holds(c', o) && !Older(c'.runs[o], c'.runs[m])
      {
        assert Rival(c, m, o) && Rival(c, o, m);
        OlderTotal(c.runs[o], c.runs[m]);
      }
    }
  }

  // ---------------------------------------------------------------- the ticket invariant

  function Base(pc: Pc): Run
    requires Writes(pc)
  {
    if pc.StampWrite? then pc.found else pc.run
  }

  lemma WriteActuates(lane: bool, c: Cluster, pc: Pc)
    requires StoreOk(c) && PcOk(lane, c, pc) && Writes(pc) && TicketPc(c, pc)
    ensures var w := WriteStatus(c, Base(pc), pc.upd); w.Some? ==> Actuates(c, w.value, Base(pc).name)
  {
    WriteLands(c, Base(pc), pc.upd);
  }

  /** Once cleanup has begun, no later call depends on the ticket. */
  predicate Cleaning(pc: Pc) {
    pc.Idle? || pc.Archive? || pc.DeleteJobs? || pc.FinalizeGet? || pc.Guard? || pc.Signals? || pc.StampGet?
    || pc.RemoveFinalizer?
  }

  lemma CleaningTicket(c: Cluster, pc: Pc)
    requires Cleaning(pc)
    ensures TicketPc(c, pc) && !pc.TicketCheck? && !pc.WriteQueued? && !Building(pc)
  {
  }

  /** A pass that has written, whatever became of the write, goes on to clean up or ends. */
  lemma WriteCleans(lane: bool, c: Cluster, q: Queues, pc: Pc, lost: bool)
    requires Writes(pc)
    ensures Cleaning(StepWrite(lane, c, q, pc, lost).r.pc)
  {
    hide WriteStatus, Released;
  }

  /** It gives its place up only by failing the run. */
  lemma WriteVacates(lane: bool, c: Cluster, q: Queues, pc: Pc, lost: bool)
    requires Writes(pc)
    ensures var o, w := StepWrite(lane, c, q, pc, lost), WriteStatus(c, Base(pc), pc.upd);
            && (o.c == c || w == Some(o.c))
            && (o.r.q == q
                || (pc.WriteFailed? && pc.run.name in o.c.runs && w == Some(o.c)
                    && o.r.q == Vacate(q, o.c.runs[pc.run.name])))
  {
    hide WriteStatus, Released, EnterGate, AfterRunWrite, Resume;
  }

  lemma StepIsWrite(lane: bool, c: Cluster, r: Replica, act: Act)
    requires Writes(r.pc)
    ensures StepReplica(lane, c, r, act) ==
            if act.Call? then StepWrite(lane, c, r.q, r.pc, act.lost) else Outcome(c, Replica(r.q, Idle))
  {
    hide StepWrite;
  }

  lemma WriteLeadsOn(lane: bool, c: Cluster, r: Replica, act: Act)
    requires Writes(r.pc)
    ensures var o, w := StepReplica(lane, c, r, act), WriteStatus(c, Base(r.pc), r.pc.upd);
            && (o.c == c || w == Some(o.c))
            && TicketPc(o.c, o.r.pc) && !o.r.pc.TicketCheck? && !o.r.pc.WriteQueued? && !Building(o.r.pc)
            && (o.r.q == r.q
                || (r.pc.WriteFailed? && r.pc.run.name in o.c.runs && w == Some(o.c)
                    && o.r.q == Vacate(r.q, o.c.runs[r.pc.run.name])))
  {
    hide StepReplica, StepWrite, WriteStatus, Base, TicketPc, Building, Released;
    StepIsWrite(lane, c, r, act);
    var lost := act.Call? && act.lost;
    WriteCleans(lane, c, r.q, r.pc, lost);
    WriteVacates(lane, c, r.q, r.pc, lost);
    var o := StepReplica(lane, c, r, act);
    CleaningTicket(o.c, o.r.pc);
  }

  lemma NothingIsKeptClear(c: Cluster)
    ensures KeepsClear(c, c)
  {
  }

  lemma WriteTicket(lane: bool, c: Cluster, r: Replica, act: Act)
    requires StoreOk(c) && PcOk(lane, c, r.pc) && Writes(r.pc) && TicketOk(c) && TicketPc(c, r.pc)
    ensures var o := StepReplica(lane, c, r, act); TicketOk(o.c) && TicketPc(o.c, o.r.pc) && KeepsClear(c, o.c)
  {
    hide StepReplica, TicketPc, TicketOk, Clear;
    WriteLeadsOn(lane, c, r, act);
    WriteActuates(lane, c, r.pc);
    NothingIsKeptClear(c);
    var o := StepReplica(lane, c, r, act);
    if o.c != c {
      assert Past(c, Base(r.pc));
      hide KeepsClear;
      ActuateTicket(c, o.c, Base(r.pc).name);
    }
  }

  /** A free ticket: the list shows no blocker, so nobody else holds the ticket or is older. */
  lemma UnblockedIsClear(lane: bool, c: Cluster, run: Run, upd: Status)
    requires StoreOk(c) && TicketOk(c) && Past(c, run) && !Blocked(c, run)
    ensures Clear(c, run.name)
  {
    var k := run.name;
    if k in c.runs && Live(c.runs[k]) {
      forall o | Rival(c, k, o) ensures !Holds(c, o) && !Older(c.runs[o], c.runs[k])
      {
        assert !Blocks(c, o, run);
        if Holds(c, o) {
          OlderTotal(c.runs[o], c.runs[k]);
          assert Rival(c, o, k);
        }
      }
    }
  }

  /** Of two live runs of a ticket that have not been actuated, the one created first blocks the other and is not
      blocked by it; of equally old ones, the one with the smaller name. */
  lemma OlderRunWins(c: Cluster, a: Name, b: Name)
    requires a in c.runs && b in c.runs && a != b && c.runs[a].name == a && c.runs[b].name == b
    requires a.namespace == b.namespace && c.runs[a].spec.ticketID == c.runs[b].spec.ticketID
    requires forall k :: k in {a, b} ==>
      var run := c.runs[k];
      !run.deleting && run.status.phase != Succeeded && run.status.phase != Failed && run.status.jobName.None?
    requires c.runs[a].created < c.runs[b].created
      || (c.runs[a].created == c.runs[b].created && Less(a.name, b.name))
    ensures Blocks(c, a, c.runs[b]) && !Blocks(c, b, c.runs[a])
  {
    assert a in {a, b} && b in {a, b};
    LessTotal(a.name, b.name);
  }

  /** A run that already holds its ticket is never refused. */
  lemma HolderIsNotBlocked(c: Cluster, run: Run)
    requires StoreOk(c) && TicketOk(c) && Past(c, run)
    requires run.name in c.runs && Live(c.runs[run.name]) && Holds(c, run.name)
    ensures !Blocked(c, run)
  {
    forall o | o in c.runs ensures !Blocks(c, o, run)
    {
      if Blocks(c, o, run) { assert Rival(c, run.name, o); }
    }
  }

  lemma CreateTicket(lane: bool, c: Cluster, pc: Pc, j: Job)
    requires StoreOk(c) && PcOk(lane, c, pc) && TicketOk(c) && TicketPc(c, pc) && pc.CreateJobs? && j in pc.todo
    ensures var c' := c.(jobs := c.jobs + {j}); TicketOk(c') && KeepsClear(c, c') && Clear(c', pc.run.name)
  {
    var c' := c.(jobs := c.jobs + {j});
    assert Actuates(c, c', pc.run.name);
    ActuateTicket(c, c', pc.run.name);
  }

  lemma AdmissionTicket(c: Cluster, q: Queues, run: Run, act: Act)
    requires TicketPc(c, Admission(run)) && act.Checks?
    ensures TicketPc(c, StepAdmission(q, run, act).pc)
  {
    hide Enqueued, Clear;
  }

  /** Clearance says something only about a live run. */
  lemma VacantOrLive(c: Cluster, k: Name)
    ensures (k in c.runs ==> !Live(c.runs[k])) ==> Clear(c, k)
  {
  }

  lemma PrepareTicket(c: Cluster, run: Run, upd: Status, act: Act)
    requires TicketPc(c, Prepare(run, upd)) && act.Prepared?
    ensures TicketPc(c, StepPrepare(run, upd, act))
  {
    hide Clear;
  }

  lemma ObserveTicket(lane: bool, c: Cluster, run: Run, upd: Status, provisioned: bool, act: Act)
    requires TicketPc(c, Observe(run, upd, provisioned)) && act.Observed?
    ensures TicketPc(c, StepObserve(lane, run, upd, provisioned, act))
  {
    hide Clear;
  }

  lemma GateTicket(lane: bool, c: Cluster, run: Run, path: Path)
    ensures TicketPc(c, EnterGate(lane, run, path))
  {
  }

  lemma FetchTicket(lane: bool, c: Cluster, q: Queues, k: Name)
    requires StoreOk(c) && TicketOk(c)
    ensures TicketPc(c, StepFetch(lane, c, q, k).pc)
    ensures k in c.runs ==> TicketPc(c, Dispatch(q, c.runs[k]).pc)
  {
    hide Released, Evolves, EnterGate, Clear;
    if k in c.runs {
      VacantOrLive(c, k);
      assert Live(c.runs[k]) && c.runs[k].status.jobName.Some? ==> Holds(c, k);
      GateTicket(lane, c, c.runs[k], FinalizePath);
    }
  }

  lemma FinalizerTicket(lane: bool, c: Cluster, q: Queues, run: Run, lost: bool)
    requires StoreOk(c) && TicketOk(c)
    ensures var o := StepAddFinalizer(c, q, run, lost); TicketOk(o.c) && TicketPc(o.c, o.r.pc) && KeepsClear(c, o.c)
  {
    FinalizerIsCalm(c, q, run, lost);
    hide TicketOk, Calm, StoreOk, KeepsClear;
    CalmTicket(c, StepAddFinalizer(c, q, run, lost).c);
  }

  lemma FinalizerIsCalm(c: Cluster, q: Queues, run: Run, lost: bool)
    ensures Calm(c, StepAddFinalizer(c, q, run, lost).c)
  {
  }

  lemma TerminalTicket(lane: bool, c: Cluster, q: Queues, run: Run, act: Act)
    requires TicketPc(c, ObserveTerminal(run)) && act.Castle?
    ensures TicketPc(c, EnterGate(lane, run, TerminalPath)) && TicketPc(c, WriteTerminal(run, TerminalUpdate(run, act)))
  {
    GateTicket(lane, c, run, TerminalPath);
  }

  lemma StartTicket(lane: bool, c: Cluster, r: Replica, act: Act)
    requires StoreOk(c) && PcOk(lane, c, r.pc) && Starts(r.pc) && TicketOk(c) && TicketPc(c, r.pc)
    ensures var o := StepReplica(lane, c, r, act); TicketOk(o.c) && TicketPc(o.c, o.r.pc) && KeepsClear(c, o.c)
  {
    hide TicketOk, Clear, KeepsClear, Released, Enqueued, Blocked;
    hide Evolves, StepAdmission, StepPrepare, StepFetch, Dispatch;
    hide StepAddFinalizer, EnterGate, TerminalUpdate, StoreOk, Past;
    NothingIsKeptClear(c);
    match r.pc
    case Fetch(k) => FetchTicket(lane, c, r.q, k);
    case Refetch(k) => FetchTicket(lane, c, r.q, k);
    case ObserveTerminal(run) => if act.Castle? { TerminalTicket(lane, c, r.q, run, act); }
    case AddFinalizer(run) => if act.Call? { FinalizerTicket(lane, c, r.q, run, act.lost); }
    case Admission(run) => if act.Checks? { AdmissionTicket(c, r.q, run, act); }
    case TicketCheck(run, upd) => if !Blocked(c, run) { UnblockedIsClear(lane, c, run, upd); }
    case Prepare(run, upd) => if act.Prepared? { PrepareTicket(c, run, upd, act); }
    case _ =>
  }

  lemma ArchiveTicket(lane: bool, c: Cluster, pc: Pc, act: Act)
    requires StoreOk(c) && TicketOk(c) && pc.Archive? && (act.Stored? || act.NotStored?)
    ensures var (c', pc') := StepArchive(c, pc.run, pc.path, pc.fallback, act);
            TicketOk(c') && TicketPc(c', pc') && KeepsClear(c, c')
  {
    hide KeepsClear, TicketOk;
    CalmTicket(c, StepArchive(c, pc.run, pc.path, pc.fallback, act).0);
  }

  lemma DeleteTicket(lane: bool, c: Cluster, pc: Pc, lost: bool)
    requires StoreOk(c) && TicketOk(c) && pc.DeleteJobs? && |pc.todo| > 0
    ensures var (c', pc') := StepDelete(c, pc.run, pc.todo, pc.after, lost);
            TicketOk(c') && TicketPc(c', pc') && KeepsClear(c, c')
  {
    hide KeepsClear, TicketOk;
    CalmTicket(c, c.(jobs := c.jobs - {pc.todo[0]}));
  }

  lemma RemoveTicket(lane: bool, c: Cluster, run: Run)
    requires StoreOk(c) && TicketOk(c) && Past(c, run)
    ensures TicketOk(StepRemoveFinalizer(c, run)) && KeepsClear(c, StepRemoveFinalizer(c, run))
  {
    hide KeepsClear, TicketOk;
    CalmTicket(c, StepRemoveFinalizer(c, run));
  }

  lemma StampGetTicket(c: Cluster, run: Run, stamp: Stamp, next: Then, act: Act)
    requires act.Fresh?
    ensures TicketPc(c, StepStampGet(c, run, stamp, next, act))
  {
  }

  lemma LaterTicket(lane: bool, c: Cluster, r: Replica, act: Act)
    requires StoreOk(c) && PcOk(lane, c, r.pc) && !Starts(r.pc) && !Writes(r.pc) && TicketOk(c) && TicketPc(c, r.pc)
    ensures var o := StepReplica(lane, c, r, act); TicketOk(o.c) && TicketPc(o.c, o.r.pc) && KeepsClear(c, o.c)
  {
    hide TicketOk, Clear, KeepsClear, Released, Enqueued, Blocked, Evolves, StepObserve, StepArchive, StepDelete;
    hide StepRemoveFinalizer, StepStampGet, StoreOk, Past;
    NothingIsKeptClear(c);
    match r.pc
    case CreateJobs(run, _, todo, _) => if |todo| > 0 { CreateTicket(lane, c, r.pc, todo[0]); }
    case Observe(run, upd, provisioned) => if act.Observed? { ObserveTicket(lane, c, run, upd, provisioned, act); }
    case DeleteJobs(_, todo, _) => if |todo| > 0 && act.Call? { DeleteTicket(lane, c, r.pc, act.lost); }
    case RemoveFinalizer(run) => RemoveTicket(lane, c, run);
    case Archive(_, _, _) => if act.Stored? || act.NotStored? { ArchiveTicket(lane, c, r.pc, act); }
    case StampGet(run, stamp, next) => if act.Fresh? { StampGetTicket(c, run, stamp, next, act); }
    case _ =>
  }

  ghost predicate TicketInv(lane: bool, w: World) {
    && Inv(lane, w) && TicketOk(w.c)
    && (forall i :: i in w.replicas ==> TicketPc(w.c, w.replicas[i].pc))
  }

  lemma CreateIsCalm(c: Cluster, run: Run)
    requires StoreOk(c) && Creatable(c, run)
    ensures Calm(c, Created(c, run))
  {
    hide Evolves;
    assert forall k :: k in c.runs ==> c.runs[k].name == k && Past(c, c.runs[k]);
  }

  lemma ChangeIsCalm(c: Cluster, k: Name)
    ensures Calm(c, Deleted(c, k)) && Calm(c, Touched(c, k))
  {
  }

  lemma LossIsCalm(c: Cluster, jobs: set<Job>)
    requires jobs <= c.jobs
    ensures Calm(c, c.(jobs := jobs))
  {
  }

  lemma EnvironmentIsCalm(lane: bool, w: World, e: Event)
    requires Inv(lane, w) && !e.Operator?
    ensures Calm(w.c, Step(lane, w, e).c)
  {
    hide Calm, Created, Deleted, Touched, Creatable, StoreOk, Recovered, Listing, PcOk;
    match e {
      case Create(run) => if Creatable(w.c, run) { CreateIsCalm(w.c, run); }
      case RequestDelete(k) => ChangeIsCalm(w.c, k);
      case SweepDelete(run) => ChangeIsCalm(w.c, run.name);
      case Touch(k) => ChangeIsCalm(w.c, k);
      case LoseJob(job) => LossIsCalm(w.c, w.c.jobs - {job});
      case _ =>
    }
    LossIsCalm(w.c, w.c.jobs);
  }

  lemma OperatorTicket(lane: bool, c: Cluster, r: Replica, act: Act)
    requires StoreOk(c) && PcOk(lane, c, r.pc) && TicketOk(c) && TicketPc(c, r.pc)
    ensures var o := StepReplica(lane, c, r, act); TicketOk(o.c) && TicketPc(o.c, o.r.pc) && KeepsClear(c, o.c)
  {
    hide TicketOk, StoreOk, TicketPc, PcOk, StepReplica, KeepsClear;
    if Writes(r.pc) { WriteTicket(lane, c, r, act); }
    else if Starts(r.pc) { StartTicket(lane, c, r, act); }
    else { LaterTicket(lane, c, r, act); }
  }

  lemma StepKeepsTicketInv(lane: bool, w: World, e: Event)
    requires TicketInv(lane, w)
    ensures TicketInv(lane, Step(lane, w, e))
  {
    hide TicketOk, StoreOk, Calm, StepReplica, TicketPc, KeepsClear, PcOk;
    StepKeepsInv(lane, w, e);
    var w' := Step(lane, w, e);
    if e.Operator? && e.i in w.replicas {
      OperatorTicket(lane, w.c, w.replicas[e.i], e.act);
    } else if !e.Operator? {
      EnvironmentIsCalm(lane, w, e);
      CalmTicket(w.c, w'.c);
      CleaningTicket(w'.c, Idle);
    } else {
      NothingIsKeptClear(w.c);
    }
    forall i | i in w'.replicas ensures TicketPc(w'.c, w'.replicas[i].pc)
    {
      if i in w.replicas && w'.replicas[i] == w.replicas[i] { PcTicketStable(lane, w.c, w'.c, w.replicas[i].pc); }
    }
  }

  lemma {:induction false} ExecKeepsTicketInv(lane: bool, w: World, events: seq<Event>)
    requires TicketInv(lane, w)
    ensures TicketInv(lane, Exec(lane, w, events))
    decreases |events|
  {
    if events != [] {
      ExecKeepsTicketInv(lane, w, events[..|events| - 1]);
      StepKeepsTicketInv(lane, Exec(lane, w, events[..|events| - 1]), events[|events| - 1]);
    }
  }

  ghost predicate Occupies(c: Cluster, k: Name) {
    k in c.runs && Live(c.runs[k]) && HasRunner(c, k)
  }

  // ---------------------------------------------------------------- the admission invariant

  ghost predicate AdmitOk(c: Cluster, q: Queues) {
    forall k :: k in c.runs && Live(c.runs[k]) && Holds(c, k) ==> q.Admitted(Key(c.runs[k]), k)
  }

  ghost predicate AdmitPc(q: Queues, pc: Pc) {
    && (pc.TicketCheck? || Building(pc) ==> q.Admitted(Key(pc.run), pc.run.name))
    && (pc.WriteQueued? ==> !q.Admitted(Key(pc.run), pc.run.name))
  }

  lemma ReleaseKeepsOthers(q: Queues, k: QueueKey, n: Name)
    ensures forall k', m :: m != n && q.Admitted(k', m) ==> Released(q, k, n).Admitted(k', m)
  {
  }

  lemma EnqueueKeepsAdmitted(q: Queues, k: QueueKey, n: Name)
    ensures forall k', m :: q.Admitted(k', m) ==> Enqueued(q, k, n).Admitted(k', m)
  {
  }

  /** Only the pass's own write can make a run hold its ticket; none brings a run back to life. */
  lemma WriteHolds(lane: bool, c: Cluster, pc: Pc, c': Cluster)
    requires StoreOk(c) && PcOk(lane, c, pc) && Writes(pc) && TicketPc(c, pc)
    requires WriteStatus(c, Base(pc), pc.upd) == Some(c')
    ensures var k := Base(pc).name;
            && k in c.runs && c'.jobs == c.jobs && c'.runs == c.runs[k := c'.runs[k]]
            && c'.runs[k].name == c.runs[k].name == k && Key(c'.runs[k]) == Key(c.runs[k]) == Key(Base(pc))
            && (Live(c'.runs[k]) ==> Live(c.runs[k]))
            && (Live(c'.runs[k]) && Holds(c', k) ==> Holds(c, k) || pc.WriteRun?)
            && (pc.WriteFailed? ==> !Live(c'.runs[k]))
  {
    hide PcOk, TicketPc, StoreOk, WriteStatus, AdmissionClass;
    UpdateHolds(lane, c, pc);
    BaseLands(lane, c, pc, c');
  }

  lemma BaseLands(lane: bool, c: Cluster, pc: Pc, c': Cluster)
    requires StoreOk(c) && PcOk(lane, c, pc) && Writes(pc) && WriteStatus(c, Base(pc), pc.upd) == Some(c')
    ensures var base := Base(pc);
            && base.name in c.runs && c.runs[base.name] == base && c'.jobs == c.jobs
            && c'.runs == c.runs[base.name := base.(status := pc.upd, version := c.clock + 1)]
  {
    hide WriteStatus, Evolves;
    WriteLands(c, Base(pc), pc.upd);
  }

  lemma UpdateHolds(lane: bool, c: Cluster, pc: Pc)
    requires PcOk(lane, c, pc) && Writes(pc) && TicketPc(c, pc)
    ensures Terminal(Base(pc).status.phase) || pc.WriteFailed? ==> Terminal(pc.upd.phase)
    ensures pc.upd.jobName.Some? ==> Base(pc).status.jobName.Some? || pc.WriteRun? || Terminal(pc.upd.phase)
  {
    hide Clear, Past, DesiredJobs;
  }

  lemma WriteKeepsAdmitted(lane: bool, c: Cluster, q: Queues, pc: Pc)
    requires StoreOk(c) && PcOk(lane, c, pc) && Writes(pc) && TicketPc(c, pc) && AdmitOk(c, q) && AdmitPc(q, pc)
    ensures var w := WriteStatus(c, Base(pc), pc.upd);
            w.Some? ==>
              && AdmitOk(w.value, q)
              && (pc.WriteFailed? ==>
                    && pc.run.name in w.value.runs && !Live(w.value.runs[pc.run.name])
                    && w.value.runs[pc.run.name].name == pc.run.name)
  {
    hide PcOk, TicketPc, StoreOk, Key, WriteStatus, Live;
    var w := WriteStatus(c, Base(pc), pc.upd);
    if w.Some? { WriteHolds(lane, c, pc, w.value); }
  }

  lemma WriteAdmit(lane: bool, c: Cluster, r: Replica, act: Act)
    requires StoreOk(c) && PcOk(lane, c, r.pc) && Writes(r.pc) && TicketPc(c, r.pc) && AdmitOk(c, r.q)
        && AdmitPc(r.q, r.pc)
    ensures var o := StepReplica(lane, c, r, act); AdmitOk(o.c, o.r.q) && AdmitPc(o.r.q, o.r.pc)
  {
    hide StepReplica, TicketPc, PcOk, Released, AdmitOk, WriteStatus;
    WriteLeadsOn(lane, c, r, act);
    WriteKeepsAdmitted(lane, c, r.q, r.pc);
    var o := StepReplica(lane, c, r, act);
    if o.r.q != r.q { VacateKeepsAdmitted(o.c, r.q, o.c.runs[r.pc.run.name]); }
  }

  lemma VacateKeepsAdmitted(c: Cluster, q: Queues, run: Run)
    requires AdmitOk(c, q)
    requires run.name in c.runs ==> !(Live(c.runs[run.name]) && Holds(c, run.name))
    ensures AdmitOk(c, Vacate(q, run))
  {
    ReleaseKeepsOthers(q, Key(run), run.name);
  }

  lemma AdmissionAdmit(c: Cluster, q: Queues, run: Run, act: Act)
    requires AdmitOk(c, q) && act.Checks?
    ensures var r := StepAdmission(q, run, act); AdmitOk(c, r.q) && AdmitPc(r.q, r.pc)
  {
    EnqueueKeepsAdmitted(q, Key(run), run.name);
  }

  lemma FetchAdmit(lane: bool, c: Cluster, q: Queues, k: Name)
    requires StoreOk(c) && AdmitOk(c, q)
    ensures var r := StepFetch(lane, c, q, k); AdmitOk(c, r.q) && AdmitPc(r.q, r.pc)
    ensures k in c.runs ==> var r := Dispatch(q, c.runs[k]); AdmitOk(c, r.q) && AdmitPc(r.q, r.pc)
  {
    hide Released, AdmitOk, Past;
    if k in c.runs && (c.runs[k].deleting || Terminal(c.runs[k].status.phase)) { VacateKeepsAdmitted(c, q, c.runs[k]); }
  }

  lemma RefusedAdmit(lane: bool, c: Cluster, q: Queues, run: Run, upd: Status)
    requires StoreOk(c) && PcOk(lane, c, TicketCheck(run, upd)) && TicketOk(c) && AdmitOk(c, q) && Blocked(c, run)
    ensures AdmitOk(c, Vacate(q, run))
  {
    if run.name in c.runs && Live(c.runs[run.name]) && Holds(c, run.name) { HolderIsNotBlocked(c, run); }
    VacateKeepsAdmitted(c, q, run);
  }

  lemma StartAdmit(lane: bool, c: Cluster, r: Replica, act: Act)
    requires StoreOk(c) && PcOk(lane, c, r.pc) && Starts(r.pc) && TicketOk(c) && AdmitOk(c, r.q) && AdmitPc(r.q, r.pc)
    ensures var o := StepReplica(lane, c, r, act); AdmitOk(o.c, o.r.q) && AdmitPc(o.r.q, o.r.pc)
  {
    hide TicketOk, StepFetch, Dispatch, StepAdmission, StepAddFinalizer, Blocked;
    hide Released, Enqueued, AdmitOk, StoreOk, Evolves;
    match r.pc
    case Fetch(k) => FetchAdmit(lane, c, r.q, k);
    case Refetch(k) => FetchAdmit(lane, c, r.q, k);
    case AddFinalizer(run) => if act.Call? { FinalizerAdmit(c, r.q, run, act.lost); }
    case Admission(run) => if act.Checks? { AdmissionAdmit(c, r.q, run, act); }
    case TicketCheck(run, upd) => if Blocked(c, run) { RefusedAdmit(lane, c, r.q, run, upd); }
    case _ =>
  }

  lemma FinalizerAdmit(c: Cluster, q: Queues, run: Run, lost: bool)
    requires AdmitOk(c, q)
    ensures var o := StepAddFinalizer(c, q, run, lost); AdmitOk(o.c, o.r.q) && AdmitPc(o.r.q, o.r.pc)
  {
  }

  lemma SignalsAdmit(lane: bool, c: Cluster, q: Queues, run: Run)
    requires StoreOk(c) && Past(c, run) && AdmitOk(c, q)
    ensures AdmitOk(c, EndOfPass(q, run).q)
  {
    if Terminal(run.status.phase) { VacateKeepsAdmitted(c, q, run); }
  }

  lemma JobsAdmit(c: Cluster, q: Queues, jobs: set<Job>, k: Name)
    requires AdmitOk(c, q)
    requires forall j :: j in jobs && j !in c.jobs ==> j.run == k
    requires k in c.runs ==> q.Admitted(Key(c.runs[k]), k) || jobs <= c.jobs
    ensures AdmitOk(c.(jobs := jobs), q)
  {
  }

  lemma ManageJobsAdmit(lane: bool, c: Cluster, r: Replica, act: Act)
    requires StoreOk(c) && PcOk(lane, c, r.pc) && (r.pc.CreateJobs? || r.pc.DeleteJobs?) && TicketPc(c, r.pc)
        && AdmitOk(c, r.q) && AdmitPc(r.q, r.pc)
    ensures var o := StepReplica(lane, c, r, act); AdmitOk(o.c, o.r.q) && AdmitPc(o.r.q, o.r.pc)
  {
    hide AdmitOk, StoreOk, Evolves;
    if |r.pc.todo| > 0 {
      JobsAdmit(c, r.q, if r.pc.CreateJobs? then c.jobs + {r.pc.todo[0]} else c.jobs - {r.pc.todo[0]}, r.pc.run.name);
    }
  }

  lemma ObserveAdmit(lane: bool, q: Queues, run: Run, upd: Status, provisioned: bool, act: Act)
    requires act.Observed? && AdmitPc(q, Observe(run, upd, provisioned))
    ensures AdmitPc(q, StepObserve(lane, run, upd, provisioned, act))
  {
    hide Key;
  }

  lemma ArchiveCleans(c: Cluster, run: Run, path: Path, fallback: bool, act: Act)
    requires act.Stored? || act.NotStored?
    ensures Cleaning(StepArchive(c, run, path, fallback, act).1)
  {
  }

  lemma StampGetCleans(c: Cluster, run: Run, stamp: Stamp, next: Then, act: Act)
    requires act.Fresh?
    ensures var pc := StepStampGet(c, run, stamp, next, act); Cleaning(pc) || pc.StampWrite?
  {
  }

  lemma ReapCleans(run: Run, path: Path)
    ensures Cleaning(Resume(run, Reap(path)))
  {
  }

  lemma LaterAdmit(lane: bool, c: Cluster, r: Replica, act: Act)
    requires StoreOk(c) && PcOk(lane, c, r.pc) && !Starts(r.pc) && !Writes(r.pc)
    requires TicketPc(c, r.pc) && AdmitOk(c, r.q) && AdmitPc(r.q, r.pc)
    ensures var o := StepReplica(lane, c, r, act); AdmitOk(o.c, o.r.q) && AdmitPc(o.r.q, o.r.pc)
  {
    hide AdmitOk, StoreOk, Released, Evolves, StepCreate, StepDelete, StepObserve, StepStampGet, Resume, TicketPc;
    match r.pc
    case CreateJobs(_, _, _, _) => ManageJobsAdmit(lane, c, r, act);
    case DeleteJobs(_, _, _) => ManageJobsAdmit(lane, c, r, act);
    case Signals(run) => SignalsAdmit(lane, c, r.q, run);
    case RemoveFinalizer(run) => RemoveAdmit(c, r.q, run);
    case Archive(run, path, fallback) =>
      if act.Stored? || act.NotStored? {
        RecordsAdmit(c, r.q, StepReplica(lane, c, r, act).c.records);
        ArchiveCleans(c, run, path, fallback, act);
      }
    case Observe(run, upd, provisioned) =>
      if act.Observed? { ObserveAdmit(lane, r.q, run, upd, provisioned, act); }
    case StampGet(run, stamp, next) => if act.Fresh? { StampGetCleans(c, run, stamp, next, act); }
    case Guard(run, path) => ReapCleans(run, path);
    case _ =>
  }

  lemma RecordsAdmit(c: Cluster, q: Queues, records: set<Name>)
    requires AdmitOk(c, q)
    ensures AdmitOk(c.(records := records), q)
  {
  }

  lemma RemoveAdmit(c: Cluster, q: Queues, run: Run)
    requires AdmitOk(c, q) && Past(c, run)
    ensures AdmitOk(StepRemoveFinalizer(c, run), q)
  {
  }

  ghost predicate AdmissionInv(lane: bool, w: World) {
    && TicketInv(lane, w) && w.replicas.Keys == {0}
    && AdmitOk(w.c, w.replicas[0].q) && AdmitPc(w.replicas[0].q, w.replicas[0].pc)
  }

  /** The operator keeps running. */
  ghost predicate Uninterrupted(e: Event) {
    (e.Operator? ==> e.i == 0) && !e.Crash? && !e.Restart?
  }

  lemma CalmAdmit(lane: bool, w: World, e: Event)
    requires AdmissionInv(lane, w) && !e.Operator? && Uninterrupted(e)
    ensures AdmitOk(Step(lane, w, e).c, w.replicas[0].q)
  {
    EnvironmentIsCalm(lane, w, e);
    var c' := Step(lane, w, e).c;
    forall k | k in c'.runs && Live(c'.runs[k]) && Holds(c', k) ensures w.replicas[0].q.Admitted(Key(c'.runs[k]), k)
    {
      assert k in c'.used;
    }
  }

  lemma StepKeepsAdmissionInv(lane: bool, w: World, e: Event)
    requires AdmissionInv(lane, w) && Uninterrupted(e)
    ensures AdmissionInv(lane, Step(lane, w, e))
  {
    StepKeepsTicketInv(lane, w, e);
    var r := w.replicas[0];
    if e.Operator? {
      if Writes(r.pc) { WriteAdmit(lane, w.c, r, e.act); }
      else if Starts(r.pc) { StartAdmit(lane, w.c, r, e.act); }
      else { LaterAdmit(lane, w.c, r, e.act); }
    } else {
      CalmAdmit(lane, w, e);
    }
  }

  lemma {:induction false} ExecKeepsAdmissionInv(lane: bool, w: World, events: seq<Event>)
    requires AdmissionInv(lane, w) && forall e :: e in events ==> Uninterrupted(e)
    ensures AdmissionInv(lane, Exec(lane, w, events))
    decreases |events|
  {
    if events != [] {
      ExecKeepsAdmissionInv(lane, w, events[..|events| - 1]);
      StepKeepsAdmissionInv(lane, Exec(lane, w, events[..|events| - 1]), events[|events| - 1]);
    }
  }

  lemma InitialAdmission(lane: bool, w: World)
    requires Initial(w) && w.replicas.Keys == {0}
    ensures AdmissionInv(lane, w)
  {
  }
}
