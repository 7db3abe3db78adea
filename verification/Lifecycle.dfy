/** The CriteriaRun reconciler as a protocol over the API server.

    Every API call of a pass is one step of the machine, so a call may fail, apply its write and
    lose the answer, or be separated from the next one by other actors: users, metadata writers,
    the retention sweep, a crash, or further operator replicas (leader election is off). */
module Lifecycle {
  import opened Common
  import opened Ordering
  import opened RunQueues

  datatype Phase = Unset | Pending | Running | Succeeded | Failed | Unknown

  predicate Terminal(p: Phase) {
    p == Succeeded || p == Failed
  }

  /** Status fields the lifecycle depends on; rest stands for every other field. */
  datatype Status = Status(
    phase: Phase, jobName: Option<Name>, baseImage: string, configRender: Option<string>,
    launchManifest: Option<string>, terminalAt: Option<int>,
    archiveID: string, archivePending: bool, rest: int)

  datatype Spec = Spec(ticketID: string, repoURL: string, workflowClass: Option<string>, adapterKinds: seq<string>)

  datatype Run = Run(
    name: Name, spec: Spec, created: int, deleting: bool, finalizer: bool, version: nat, status: Status)

  datatype Job = Job(run: Name, role: string)

  const RUNNER := "runner"

  datatype Cluster = Cluster(
    runs: map<Name, Run>, used: set<Name>, jobs: set<Job>, records: set<Name>, clock: nat)

  function Key(run: Run): QueueKey {
    QueueKeyOf(AsQueued(run))
  }

  function AsQueued(run: Run): QueuedRun {
    QueuedRun(run.name, run.spec.repoURL, run.spec.workflowClass, run.deleting, Terminal(run.status.phase))
  }

  /** The runner Job first, then one Job per legacy adapter kind. */
  function DesiredJobs(run: Run): (jobs: seq<Job>)
    ensures forall j :: j in jobs ==> j.run == run.name
  {
    [Job(run.name, RUNNER)] + seq(|run.spec.adapterKinds|, i requires 0 <= i < |run.spec.adapterKinds| =>
      Job(run.name, run.spec.adapterKinds[i]))
  }

  predicate Older(a: Run, b: Run) {
    if a.created != b.created then a.created < b.created else Less(a.name.name, b.name.name)
  }

  // ---------------------------------------------------------------- status updates

  function StampTerminalAt(s: Status, at: int): Status {
    if Terminal(s.phase) && s.terminalAt.None? then s.(terminalAt := Some(at)) else s
  }

  function FailedWith(s: Status, rest: int): Status {
    s.(phase := Failed, rest := rest)
  }

  /** Fields that are written once, and the phases a run never leaves. */
  ghost predicate Evolves(a: Status, b: Status) {
    && (Terminal(a.phase) ==> Terminal(b.phase))
    && (a.baseImage != "" ==> b.baseImage == a.baseImage)
    && (a.configRender.Some? ==> b.configRender == a.configRender)
    && (a.launchManifest.Some? ==> b.launchManifest == a.launchManifest)
    && (a.terminalAt.Some? ==> b.terminalAt == a.terminalAt)
  }

  // ---------------------------------------------------------------- program counters of one pass

  /** Which code path a cleanup belongs to. */
  datatype Path = FailPath | FinalizePath | TerminalPath | EndPath

  /** What follows a status stamp written from a fresh read. */
  datatype Then =
    | Stop                     // the pass ends with an error or a requeue
    | GatePassed(path: Path)   // the archive gate is satisfied
    | Reap(path: Path)         // the restart guard lets the deletion through
    | Reaped(path: Path)       // the Jobs are gone and the deferral is cleared

  datatype Stamp = Archived(id: string) | ArchiveFailed | CleanupCondition

  datatype AfterJobs = EndPass | DropFinalizer | ClearDeferral(path: Path)

  datatype Pc =
    | Idle
    | Fetch(k: Name)
    | AddFinalizer(run: Run)
    | Refetch(k: Name)
    | ObserveTerminal(run: Run)
    | WriteTerminal(run: Run, upd: Status)
    | Admission(run: Run)
    | WriteQueued(run: Run, upd: Status)
    | TicketCheck(run: Run, upd: Status)
    | Prepare(run: Run, upd: Status)
    | CreateJobs(run: Run, upd: Status, todo: seq<Job>, provisioned: bool)
    | Observe(run: Run, upd: Status, provisioned: bool)
    | WriteRun(run: Run, upd: Status, provisioned: bool)
    | Signals(run: Run)
    | WriteFailed(run: Run, upd: Status)
    | Archive(run: Run, path: Path, fallback: bool)
    | StampGet(run: Run, stamp: Stamp, next: Then)
    | StampWrite(run: Run, found: Run, upd: Status, next: Then)
    | FinalizeGet(k: Name)
    | Guard(run: Run, path: Path)
    | DeleteJobs(run: Run, todo: seq<Job>, after: AfterJobs)
    | RemoveFinalizer(run: Run)

  /** Outcomes of the call a pass is about to make. */
  datatype Act =
    | Fail                                       // the call fails and changes nothing
    | Begin(k: Name)
    | Call(lost: bool)                           // the call takes effect; lost: its answer never arrives
    | Castle(success: Option<bool>, at: int, rest: int)
    | Checks(refused: bool, rest: int)
    | Prepared(mismatch: bool, drift: bool, render: Option<string>, rest: int)
    | Observed(job: Phase, success: Option<bool>, image: string, manifest: Option<string>, stalled: bool, at: int,
      rest: int)
    | Conflict(conflict: bool, rest: int)
    | Stored(id: string)
    | NotStored(landed: bool, retry: bool)
    | Guarded(pending: bool)
    | Fresh(force: bool, rest: int)

  // ---------------------------------------------------------------- API writes

  /** A status write with an optimistic version check. */
  function WriteStatus(c: Cluster, base: Run, s: Status): Option<Cluster> {
    if base.name in c.runs && c.runs[base.name].version == base.version then
      var written := c.runs[base.name].(status := s, version := c.clock + 1);
      Some(c.(runs := c.runs[base.name := written], clock := c.clock + 1))
    else None
  }

  function Blocked(c: Cluster, run: Run): bool {
    exists o :: o in c.runs && Blocks(c, o, run)
  }

  predicate Blocks(c: Cluster, o: Name, run: Run)
    requires o in c.runs
  {
    && o != run.name && o.namespace == run.name.namespace
    && c.runs[o].spec.ticketID == run.spec.ticketID
    && Live(c.runs[o])
    && (c.runs[o].status.jobName.Some? || Older(c.runs[o], run))
  }

  predicate Live(run: Run) {
    !run.deleting && !Terminal(run.status.phase)
  }

  // ---------------------------------------------------------------- local decisions between calls

  /** The archive gate: off with the lane, satisfied by a recorded archive id. */
  function EnterGate(lane: bool, run: Run, path: Path): Pc {
    if !lane || (run.status.archiveID != "" && !run.status.archivePending) then Resume(run, GatePassed(path))
    else Archive(run, path, false)
  }

  function Resume(run: Run, next: Then): Pc {
    match next
    case Stop => Idle
    case GatePassed(path) =>
      (match path
       case FailPath => DeleteJobs(run, DesiredJobs(run), EndPass)
       case FinalizePath => FinalizeGet(run.name)
       case _ => Guard(run, path))
    case Reap(path) => DeleteJobs(run, DesiredJobs(run), ClearDeferral(path))
    case Reaped(path) => if path == EndPath then Signals(run) else Idle
  }

  function JobsGone(run: Run, after: AfterJobs): Pc {
    match after
    case EndPass => Idle
    case DropFinalizer => RemoveFinalizer(run)
    case ClearDeferral(path) => StampGet(run, CleanupCondition, Reaped(path))
  }

  /** The state of one operator process between two calls. */
  datatype Replica = Replica(q: Queues, pc: Pc)

  function Vacate(q: Queues, run: Run): Queues {
    Released(q, Key(run), run.name)
  }

  function Dispatch(q: Queues, run: Run): Replica {
    if Terminal(run.status.phase) then Replica(Vacate(q, run), ObserveTerminal(run))
    else Replica(q, Admission(run))
  }

  function AfterRunWrite(lane: bool, run: Run, provisioned: bool): Pc {
    if Terminal(run.status.phase) && !provisioned then EnterGate(lane, run, EndPath) else Signals(run)
  }

  function EndOfPass(q: Queues, run: Run): Replica {
    Replica(if Terminal(run.status.phase) then Vacate(q, run) else q, Idle)
  }

  // ---------------------------------------------------------------- one step of a pass

  datatype Outcome = Outcome(c: Cluster, r: Replica)

  function StepFetch(lane: bool, c: Cluster, q: Queues, k: Name): Replica {
    if k !in c.runs then Replica(q, Idle)
    else
      var run := c.runs[k];
      if run.deleting then
        if run.finalizer then Replica(Vacate(q, run), EnterGate(lane, run, FinalizePath)) else Replica(q, Idle)
      else if !run.finalizer then Replica(q, AddFinalizer(run))
      else Dispatch(q, run)
  }

  function StepAddFinalizer(c: Cluster, q: Queues, run: Run, lost: bool): Outcome {
    if run.name in c.runs && c.runs[run.name].version == run.version then
      var run' := c.runs[run.name].(finalizer := true, version := c.clock + 1);
      Outcome(c.(runs := c.runs[run.name := run'], clock := c.clock + 1),
        Replica(q, if lost then Idle else Refetch(run.name)))
    else Outcome(c, Replica(q, Idle))
  }

  function TerminalUpdate(run: Run, act: Act): Status
    requires act.Castle?
  {
    var phase := if act.success.None? then run.status.phase else if act.success.value then Succeeded else Failed;
    StampTerminalAt(run.status.(phase := phase, rest := act.rest), act.at)
  }

  function StepAdmission(q: Queues, run: Run, act: Act): Replica
    requires act.Checks?
  {
    if act.refused then Replica(q, WriteFailed(run, FailedWith(run.status, act.rest)))
    else
      var q' := Enqueued(q, Key(run), run.name);
      var upd := run.status.(rest := act.rest);
      if !q'.Admitted(Key(run), run.name) then
        var queued := upd.(phase := Pending, jobName := None);
        Replica(q', if queued == run.status then Idle else WriteQueued(run, queued))
      else Replica(q', if run.status.jobName.None? then TicketCheck(run, upd) else Prepare(run, upd))
  }

  function StepPrepare(run: Run, upd: Status, act: Act): Pc
    requires act.Prepared?
  {
    if act.mismatch then WriteFailed(run, FailedWith(run.status, act.rest))
    else if act.drift then WriteFailed(run, FailedWith(upd, act.rest))
    else
      var upd' := if run.status.configRender.None? then upd.(configRender := act.render) else upd;
      CreateJobs(run, upd', DesiredJobs(run), false)
  }

  /** Get-or-create of the next desired Job. */
  function StepCreate(c: Cluster, run: Run, upd: Status, todo: seq<Job>, provisioned: bool, lost: bool): (Cluster, Pc)
    requires |todo| > 0
  {
    var j := todo[0];
    var provisioned' := provisioned || j !in c.jobs;
    (c.(jobs := c.jobs + {j}),
     if lost then Idle
     else if |todo| == 1 then Observe(run, upd, provisioned')
     else CreateJobs(run, upd, todo[1..], provisioned'))
  }

  function RunUpdate(run: Run, upd: Status, act: Act): Status
    requires act.Observed?
  {
    var phase := if act.success.None? then act.job else if act.success.value then Succeeded else Failed;
    upd.(baseImage := if upd.baseImage == "" then act.image else upd.baseImage,
         phase := phase, jobName := Some(run.name), rest := act.rest)
  }

  function StepObserve(lane: bool, run: Run, upd: Status, provisioned: bool, act: Act): Pc
    requires act.Observed?
  {
    var seen := RunUpdate(run, upd, act);
    if act.stalled && seen.phase == Running then WriteFailed(run, FailedWith(seen, act.rest))
    else
      var stamped := StampTerminalAt(seen, act.at);
      var final := if stamped.launchManifest.None? then stamped.(launchManifest := act.manifest) else stamped;
      if final == run.status then AfterRunWrite(lane, run, provisioned) else WriteRun(run, final, provisioned)
  }

  /** A status write of the pass's own copy: the answer carries the stored object. */
  function Committed(c: Cluster, run: Run): Run
    requires run.name in c.runs
  {
    c.runs[run.name]
  }

  function StampedStatus(found: Run, stamp: Stamp, rest: int): Status {
    match stamp
    case Archived(id) => found.status.(archiveID := id, archivePending := false, rest := rest)
    case ArchiveFailed => found.status.(archivePending := true, rest := rest)
    case CleanupCondition => found.status.(rest := rest)
  }

  function StepStampGet(c: Cluster, run: Run, stamp: Stamp, next: Then, act: Act): Pc
    requires act.Fresh?
  {
    if run.name !in c.runs then Idle
    else
      var found := c.runs[run.name];
      var upd := StampedStatus(found, stamp, act.rest);
      // A deferral only lets the reap continue once its force window has passed.
      var next' := if next.Reap? && !act.force then Stop else next;
      if upd == found.status then Resume(run, next') else StampWrite(run, found, upd, next')
  }

  function StepArchive(c: Cluster, run: Run, path: Path, fallback: bool, act: Act): (Cluster, Pc)
    requires act.Stored? || act.NotStored?
  {
    if act.Stored? then
      (c.(records := c.records + {run.name}), StampGet(run, Archived(act.id), GatePassed(path)))
    else
      (if act.landed then c.(records := c.records + {run.name}) else c,
       if act.retry && !fallback then Archive(run, path, true) else StampGet(run, ArchiveFailed, Stop))
  }

  function StepDelete(c: Cluster, run: Run, todo: seq<Job>, after: AfterJobs, lost: bool): (Cluster, Pc)
    requires |todo| > 0
  {
    (c.(jobs := c.jobs - {todo[0]}),
     if lost then Idle else if |todo| == 1 then JobsGone(run, after) else DeleteJobs(run, todo[1..], after))
  }

  function StepRemoveFinalizer(c: Cluster, run: Run): Cluster {
    if run.name in c.runs && c.runs[run.name].version == run.version then
      if run.deleting then c.(runs := c.runs - {run.name})
      else c.(runs := c.runs[run.name := run.(finalizer := false, version := c.clock + 1)], clock := c.clock + 1)
    else c
  }

  /** Writes of the pass's own copy and where they lead. */
  function StepWrite(lane: bool, c: Cluster, q: Queues, pc: Pc, lost: bool): Outcome
    requires pc.WriteTerminal? || pc.WriteQueued? || pc.WriteRun? || pc.WriteFailed? || pc.StampWrite?
  {
    var base := if pc.StampWrite? then pc.found else pc.run;
    match WriteStatus(c, base, pc.upd)
    case None => Outcome(c, Replica(q, Idle))
    case Some(c') =>
      if lost || base.name !in c'.runs then Outcome(c', Replica(q, Idle))
      else
        var run' := Committed(c', base);
        Outcome(c', match pc
          case WriteTerminal(_, _) => Replica(q, EnterGate(lane, run', TerminalPath))
          case WriteQueued(_, _) => Replica(q, Idle)
          case WriteRun(_, _, provisioned) => Replica(q, AfterRunWrite(lane, run', provisioned))
          case WriteFailed(_, _) => Replica(Vacate(q, run'), EnterGate(lane, run', FailPath))
          case StampWrite(run, _, _, next) => Replica(q, Resume(run, next)))
  }

  /** One call of a pass; an outcome that does not fit the call is a failed call. */
  function StepReplica(lane: bool, c: Cluster, r: Replica, act: Act): Outcome {
    var q := r.q;
    var stay := Outcome(c, Replica(q, Idle));
    match r.pc
    case Idle => if act.Begin? then Outcome(c, Replica(q, Fetch(act.k))) else stay
    case Fetch(k) => if act.Call? then Outcome(c, StepFetch(lane, c, q, k)) else stay
    case AddFinalizer(run) => if act.Call? then StepAddFinalizer(c, q, run, act.lost) else stay
    case Refetch(k) => if act.Call? && k in c.runs then Outcome(c, Dispatch(q, c.runs[k])) else stay
    case ObserveTerminal(run) =>
      if !act.Castle? then stay
      else
        var upd := TerminalUpdate(run, act);
        Outcome(c, Replica(q, if upd == run.status then EnterGate(lane, run, TerminalPath)
          else WriteTerminal(run, upd)))
    case Admission(run) => if act.Checks? then Outcome(c, StepAdmission(q, run, act)) else stay
    case TicketCheck(run, upd) =>
      if !act.Call? then stay
      else if Blocked(c, run) then Outcome(c, Replica(Vacate(q, run), Idle))
      else Outcome(c, Replica(q, Prepare(run, upd)))
    case Prepare(run, upd) => if act.Prepared? then Outcome(c, Replica(q, StepPrepare(run, upd, act))) else stay
    case CreateJobs(run, upd, todo, provisioned) =>
      if act.Call? && |todo| > 0 then
        var (c', pc') := StepCreate(c, run, upd, todo, provisioned, act.lost);
        Outcome(c', Replica(q, pc'))
      else stay
    case Observe(run, upd, provisioned) =>
      if act.Observed? then Outcome(c, Replica(q, StepObserve(lane, run, upd, provisioned, act))) else stay
    case Signals(run) =>
      if !act.Conflict? then stay
      else if act.conflict then Outcome(c, Replica(q, WriteFailed(run, FailedWith(run.status, act.rest))))
      else Outcome(c, EndOfPass(q, run))
    case Archive(run, path, fallback) =>
      if act.Stored? || act.NotStored? then
        var (c', pc') := StepArchive(c, run, path, fallback, act);
        Outcome(c', Replica(q, pc'))
      else stay
    case StampGet(run, stamp, next) =>
      if act.Fresh? then Outcome(c, Replica(q, StepStampGet(c, run, stamp, next, act))) else stay
    case FinalizeGet(k) =>
      if act.Call? && k in c.runs then
        Outcome(c, Replica(q, DeleteJobs(c.runs[k], DesiredJobs(c.runs[k]), DropFinalizer)))
      else stay
    case Guard(run, path) =>
      if !act.Guarded? then stay
      else if act.pending then Outcome(c, Replica(q, StampGet(run, CleanupCondition, Reap(path))))
      else Outcome(c, Replica(q, Resume(run, Reap(path))))
    case DeleteJobs(run, todo, after) =>
      if act.Call? && |todo| > 0 then
        var (c', pc') := StepDelete(c, run, todo, after, act.lost);
        Outcome(c', Replica(q, pc'))
      else stay
    case RemoveFinalizer(run) => if act.Call? then Outcome(StepRemoveFinalizer(c, run), Replica(q, Idle)) else stay
    case _ => if act.Call? then StepWrite(lane, c, q, r.pc, act.lost) else stay
  }

  // ---------------------------------------------------------------- the world

  datatype World = World(c: Cluster, replicas: map<nat, Replica>, swept: set<Run>)

  datatype Event =
    | Operator(i: nat, act: Act)
    | Crash(i: nat)
    | Restart(i: nat, order: seq<Name>)
    | Create(run: Run)
    | RequestDelete(k: Name)
    | Touch(k: Name)
    | LoseJob(job: Job)
    | SweepList
    | SweepDelete(run: Run)

  /** A created run has a name never used before and an empty status, and sorts after its ticket's older runs. */
  ghost predicate Creatable(c: Cluster, run: Run) {
    && run.name !in c.used
    && !run.deleting && !run.finalizer
    && run.status == Status(Unset, None, "", None, None, None, "", false, 0)
    && forall o ::
         o in c.runs && o.namespace == run.name.namespace && c.runs[o].spec.ticketID == run.spec.ticketID ==>
           !Older(run, c.runs[o])
  }

  function Created(c: Cluster, run: Run): Cluster {
    c.(runs := c.runs[run.name := run.(version := c.clock + 1)], used := c.used + {run.name}, clock := c.clock + 1)
  }

  /** A metadata write by someone else: it only moves the version. */
  function Touched(c: Cluster, k: Name): Cluster {
    if k in c.runs then c.(runs := c.runs[k := c.runs[k].(version := c.clock + 1)], clock := c.clock + 1) else c
  }

  function Deleted(c: Cluster, k: Name): Cluster {
    if k !in c.runs || c.runs[k].deleting then c
    else if !c.runs[k].finalizer then c.(runs := c.runs - {k})
    else c.(runs := c.runs[k := c.runs[k].(deleting := true, version := c.clock + 1)], clock := c.clock + 1)
  }

  /** The retention sweep's own conditions on the snapshot it listed. */
  predicate Sweepable(run: Run) {
    Terminal(run.status.phase) && run.status.archiveID != "" && !run.status.archivePending
      && run.status.terminalAt.Some? && !run.deleting
  }

  function QueuedRuns(c: Cluster, order: seq<Name>): (list: seq<QueuedRun>)
    requires forall n :: n in order ==> n in c.runs
    ensures |list| == |order|
    ensures forall i :: 0 <= i < |list| ==> list[i] == AsQueued(c.runs[order[i]])
  {
    seq(|order|, i requires 0 <= i < |order| => AsQueued(c.runs[order[i]]))
  }

  ghost predicate Listing(c: Cluster, order: seq<Name>) {
    NoDup(order) && (forall n :: n in order <==> n in c.runs)
  }

  ghost function Step(lane: bool, w: World, e: Event): World {
    match e
    case Operator(i, act) =>
      if i !in w.replicas then w
      else
        var o := StepReplica(lane, w.c, w.replicas[i], act);
        w.(c := o.c, replicas := w.replicas[i := o.r])
    case Crash(i) => w.(replicas := w.replicas - {i})
    case Restart(i, order) =>
      if Listing(w.c, order) then
        var recovered := Replica(Recovered(EMPTY, QueuedRuns(w.c, order)), Idle);
        w.(replicas := w.replicas[i := recovered])
      else w
    case Create(run) =>
      if Creatable(w.c, run) then w.(c := Created(w.c, run)) else w
    case RequestDelete(k) => w.(c := Deleted(w.c, k))
    case Touch(k) => w.(c := Touched(w.c, k))
    case LoseJob(job) => w.(c := w.c.(jobs := w.c.jobs - {job}))
    case SweepList => w.(swept := set k | k in w.c.runs :: w.c.runs[k])
    case SweepDelete(run) => if run in w.swept && Sweepable(run) then w.(c := Deleted(w.c, run.name)) else w
  }

  ghost function Exec(lane: bool, w: World, events: seq<Event>): World
    decreases |events|
  {
    if events == [] then w else Step(lane, Exec(lane, w, events[..|events| - 1]), events[|events| - 1])
  }

  const EMPTY_CLUSTER := Cluster(map[], {}, {}, {}, 0)

  /** Any number of freshly started replicas over an empty cluster. */
  ghost predicate Initial(w: World) {
    && w.c == EMPTY_CLUSTER && w.swept == {}
    && forall i :: i in w.replicas ==> w.replicas[i] == Replica(EMPTY, Idle)
  }
}
