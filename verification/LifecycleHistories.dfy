/** What every history of the reconciler keeps, what a restart keeps of the queues, and histories that end with two
    live runs of one queue, each with its runner Job. */
module LifecycleHistories {
  import opened Common
  import opened RunQueues
  import opened Lifecycle
  import opened LifecycleSafety
  import opened LifecycleAdmission

  // ---------------------------------------------------------------- archive gate and absorbing phases

  /** With the archive lane on, no replica ever deletes a child Job or drops a finalizer of a
      run castle has stored no record for: on no path, after no failure, in no interleaving. */
  lemma NoCleanupBeforeArchive(w: World, events: seq<Event>, i: nat, act: Act)
    requires Initial(w) && i in Exec(true, w, events).replicas
    ensures var v := Exec(true, w, events);
            RespectsGate(v.c, After(true, v.c, v.replicas[i], act))
  {
    ExecKeepsInv(true, w, events);
    var v := Exec(true, w, events);
    CallRespectsGate(v.c, v.replicas[i], act);
  }

  /** So a run with a finalizer only ever disappears by a step of the operator, with its record stored; a delete
      request marks it and leaves it there. */
  lemma FinalizerHoldsTheRun(w: World, events: seq<Event>, e: Event, k: Name)
    requires Initial(w) && k in Exec(true, w, events).c.runs && Exec(true, w, events).c.runs[k].finalizer
    ensures var c := Step(true, Exec(true, w, events), e).c;
      && (k !in c.runs ==> e.Operator? && k in c.records)
      && (e == RequestDelete(k) ==> k in c.runs && c.runs[k].deleting)
  {
    ExecKeepsInv(true, w, events);
    var v := Exec(true, w, events);
    StepKeepsInv(true, v, e);
    hide StepReplica, Evolves, Past, Inv, Advance, RespectsGate;
    match e
    case Operator(i, act) => if i in v.replicas { CallRespectsGate(v.c, v.replicas[i], act); }
    case _ =>
  }

  /** Whoever writes a run in between makes every copy a pass holds stale: its status write is refused. */
  lemma OthersMakeCopiesStale(lane: bool, w: World, events: seq<Event>, e: Event, copy: Run, upd: Status)
    requires Initial(w) && Past(Exec(lane, w, events).c, copy) && copy.name in Exec(lane, w, events).c.runs
    requires
      || e == Touch(copy.name)
      || (e == RequestDelete(copy.name) && !Exec(lane, w, events).c.runs[copy.name].deleting)
    ensures WriteStatus(Step(lane, Exec(lane, w, events), e).c, copy, upd).None?
  {
  }

  /** However stale its snapshot, the retention sweep only ever deletes terminal runs whose
      record castle holds. */
  lemma SweepDeletesOnlyArchived(lane: bool, w: World, events: seq<Event>, run: Run)
    requires Initial(w)
    requires run in Exec(lane, w, events).swept && Sweepable(run)
    ensures var c := Exec(lane, w, events).c;
            run.name in c.records && (run.name in c.runs ==> Terminal(c.runs[run.name].status.phase))
  {
    ExecKeepsInv(lane, w, events);
  }

  /** And it deletes only what it listed as ended, archived, stamped and not yet deleted. */
  lemma SweepIsSelective(lane: bool, w: World, run: Run)
    requires Step(lane, w, SweepDelete(run)) != w
    ensures run in w.swept && !run.deleting && (run.status.phase == Succeeded || run.status.phase == Failed)
    ensures run.status.archiveID != "" && !run.status.archivePending && run.status.terminalAt.Some?
  {
  }

  /** A terminal phase is absorbing and the write-once fields never change, for every run that is
      still stored, between any two points of any history. */
  lemma TerminalIsAbsorbing(lane: bool, w: World, events: seq<Event>, more: seq<Event>, k: Name)
    requires Initial(w)
    requires k in Exec(lane, w, events).c.runs && k in Exec(lane, w, events + more).c.runs
    ensures Succeeds(Exec(lane, w, events).c.runs[k], Exec(lane, w, events + more).c.runs[k])
  {
    ExecKeepsInv(lane, w, events);
    var run := Exec(lane, w, events).c.runs[k];
    assert Past(Exec(lane, w, events).c, run);
    StaysPast(lane, w, events, more, run);
  }

  lemma {:induction false} StaysPast(lane: bool, w: World, events: seq<Event>, more: seq<Event>, run: Run)
    requires Initial(w) && Past(Exec(lane, w, events).c, run)
    ensures Past(Exec(lane, w, events + more).c, run)
    decreases |more|
  {
    if more == [] {
      assert events + more == events;
    } else {
      var init := more[..|more| - 1];
      StaysPast(lane, w, events, init, run);
      assert events + more == (events + init) + [more[|more| - 1]];
      StaysPastOnce(lane, w, events + init, more[|more| - 1], run);
    }
  }

  lemma StaysPastOnce(lane: bool, w: World, events: seq<Event>, e: Event, run: Run)
    requires Initial(w) && Past(Exec(lane, w, events).c, run)
    ensures Past(Exec(lane, w, events + [e]).c, run)
  {
    ExecKeepsInv(lane, w, events);
    var v := Exec(lane, w, events);
    assert (events + [e])[..|events|] == events;
    StepKeepsInv(lane, v, e);
    PastStable(v.c, Step(lane, v, e).c, run);
  }

  // ---------------------------------------------------------------- mutual exclusion

  /** Over every history of any number of replicas, restarts and lost writes included, no two live runs with a runner
      Job share a ticket. */
  lemma OneRunPerTicket(lane: bool, w: World, events: seq<Event>, a: Name, b: Name)
    requires Initial(w)
    requires var c := Exec(lane, w, events).c; Occupies(c, a) && Occupies(c, b) && a != b && a.namespace == b.namespace
    ensures var c := Exec(lane, w, events).c; c.runs[a].spec.ticketID != c.runs[b].spec.ticketID
  {
    ExecKeepsTicketInv(lane, w, events);
    var c := Exec(lane, w, events).c;
    if c.runs[a].spec.ticketID == c.runs[b].spec.ticketID {
      assert Rival(c, a, b) && Holds(c, a) && Holds(c, b);
    }
  }

  /** While the operator is not restarted, every live run with a runner Job is the admitted run
      of its queue, so no two of them share a (repository, class). */
  lemma OneRunPerQueue(lane: bool, w: World, events: seq<Event>, a: Name, b: Name)
    requires Initial(w) && w.replicas.Keys == {0} && forall e :: e in events ==> Uninterrupted(e)
    requires var v := Exec(lane, w, events); Occupies(v.c, a) && Occupies(v.c, b)
    ensures var v := Exec(lane, w, events);
            && 0 in v.replicas && v.replicas[0].q.Admitted(Key(v.c.runs[a]), a)
            && (a != b ==> Key(v.c.runs[a]) != Key(v.c.runs[b]))
            && (a != b && v.c.runs[a].spec.repoURL == v.c.runs[b].spec.repoURL ==>
                  (v.c.runs[a].spec.workflowClass == Some("triage")
                   <==> v.c.runs[b].spec.workflowClass != Some("triage")))
  {
    InitialAdmission(lane, w);
    ExecKeepsAdmissionInv(lane, w, events);
  }

  /** The not-admitted branch blanks the JobName field, yet it never erases one: whenever its
      write can land, the run has neither a recorded Job name nor, while live, a runner Job. */
  lemma QueuedWriteErasesNothing(lane: bool, w: World, events: seq<Event>)
    requires Initial(w) && w.replicas.Keys == {0} && forall e :: e in events ==> Uninterrupted(e)
    requires var v := Exec(lane, w, events); 0 in v.replicas && v.replicas[0].pc.WriteQueued?
    ensures var v := Exec(lane, w, events);
            var run := v.replicas[0].pc.run;
            WriteStatus(v.c, run, v.replicas[0].pc.upd).Some? && Live(run) ==>
              run.status.jobName.None? && !HasRunner(v.c, run.name)
  {
    InitialAdmission(lane, w);
    ExecKeepsAdmissionInv(lane, w, events);
    var v := Exec(lane, w, events);
    var pc := v.replicas[0].pc;
    WriteLands(v.c, pc.run, pc.upd);
    if WriteStatus(v.c, pc.run, pc.upd).Some? && Live(pc.run) {
      assert v.c.runs[pc.run.name] == pc.run;
    }
  }

  // ---------------------------------------------------------------- restarts

  /** k comes before every other live run of its queue in the list the restart reads. */
  ghost predicate ListedFirst(c: Cluster, order: seq<Name>, k: Name)
    requires Listing(c, order) && k in c.runs
  {
    forall i, j :: 0 <= i < j < |order| && order[j] == k && Live(c.runs[order[i]]) ==>
        Key(c.runs[order[i]]) != Key(c.runs[k])
  }

  lemma RestartAdmits(c: Cluster, order: seq<Name>, k: Name)
    requires StoreOk(c) && Listing(c, order) && k in c.runs && Live(c.runs[k])
    ensures Recovered(EMPTY, QueuedRuns(c, order)).Admitted(Key(c.runs[k]), k) <==> ListedFirst(c, order, k)
  {
    var list := QueuedRuns(c, order);
    var key := Key(c.runs[k]);
    forall i | 0 <= i < |order| ensures list[i].name == order[i]
        && (LinesUp(list[i], key) <==> Contends(c, order[i], key))
    {
      ListedRun(c, order, i, key);
    }
    hide Recovered, Evolves, StoreOk, QueuedRuns, LinesUp, Arrivals, ListedFirst, Contends;
    assert Contends(c, k, key) by { LiveContends(c, k); }
    RecoverRefinesFifo(list);
    var j := FirstListedIsHead(list, key);
    FirstContender(c, order, k, j, list);
    HeadIsAdmitted(Recovered(EMPTY, list), key, order[j]);
  }

  /** A live run of the queue. */
  ghost predicate Contends(c: Cluster, n: Name, key: QueueKey) {
    n in c.runs && Live(c.runs[n]) && Key(c.runs[n]) == key
  }

  lemma LiveContends(c: Cluster, k: Name)
    requires k in c.runs && Live(c.runs[k])
    ensures Contends(c, k, Key(c.runs[k]))
  {
  }

  lemma FirstContender(c: Cluster, order: seq<Name>, k: Name, j: nat, list: seq<QueuedRun>)
    requires Listing(c, order) && k in c.runs && Contends(c, k, Key(c.runs[k]))
    requires |list| == |order| && forall i :: 0 <= i < |order| ==>
        (LinesUp(list[i], Key(c.runs[k])) <==> Contends(c, order[i], Key(c.runs[k])))
    requires j <= |list| && NoneBefore(list, j, Key(c.runs[k])) && (j < |list| ==> LinesUp(list[j], Key(c.runs[k])))
    ensures j < |list| && (order[j] == k <==> ListedFirst(c, order, k))
  {
    hide LinesUp, Live, Key;
    var p :| 0 <= p < |order| && order[p] == k;
    assert LinesUp(list[p], Key(c.runs[k]));
    assert j <= p;
    if order[j] == k {
      forall i, m | 0 <= i < m < |order| && order[m] == k && Live(c.runs[order[i]])
          ensures Key(c.runs[order[i]]) != Key(c.runs[k])
      {
        assert m == j;
        assert !LinesUp(list[i], Key(c.runs[k]));
      }
    } else {
      assert j < p && order[p] == k && Contends(c, order[j], Key(c.runs[k]));
    }
  }

  lemma ListedRun(c: Cluster, order: seq<Name>, i: nat, key: QueueKey)
    requires StoreOk(c) && Listing(c, order) && i < |order|
    ensures var run := QueuedRuns(c, order)[i];
            run.name == order[i] && (LinesUp(run, key) <==> Contends(c, order[i], key))
  {
    assert order[i] in c.runs;
    assert c.runs[order[i]].name == order[i];
  }

  lemma HeadIsAdmitted(q: Queues, key: QueueKey, n: Name)
    requires q.Valid() && Line(q.queues, key) != [] && Line(q.queues, key)[0] == n
    ensures forall k :: q.Admitted(key, k) <==> k == n
  {
  }

  /** A restart re-establishes admission exactly when the list shows every job-holding live run
      before the other live runs of its queue; it admits the list head, not the run with the Job. */
  lemma RestartAdmitsIff(c: Cluster, order: seq<Name>)
    requires StoreOk(c) && Listing(c, order)
    ensures AdmitOk(c, Recovered(EMPTY, QueuedRuns(c, order))) <==>
            forall k :: k in c.runs && Live(c.runs[k]) && Holds(c, k) ==> ListedFirst(c, order, k)
  {
    hide Recovered, Evolves, StoreOk, ListedFirst;
    forall k | k in c.runs && Live(c.runs[k])
      ensures Recovered(EMPTY, QueuedRuns(c, order)).Admitted(Key(c.runs[k]), k) <==> ListedFirst(c, order, k)
    {
      RestartAdmits(c, order, k);
    }
  }

  // ---------------------------------------------------------------- a first pass

  /** Replica i of the world at some point of its pass. */
  function At(w: World, i: nat, c: Cluster, r: Replica): World {
    w.(c := c, replicas := w.replicas[i := r])
  }

  function Calls(i: nat, acts: seq<Act>): seq<Event> {
    if acts == [] then [] else [Operator(i, acts[0])] + Calls(i, acts[1..])
  }

  /** Every call answers: the first pass over a new run, up to the creation of its runner Job. */
  function FirstPass(k: Name): seq<Act> {
    [Begin(k), Call(false), Call(false), Call(false), Checks(false, 0), Call(false), Prepared(false, false, None, 0),
     Call(false)]
  }

  lemma {:induction false} ExecConcat(lane: bool, w: World, a: seq<Event>, b: seq<Event>)
    ensures Exec(lane, w, a + b) == Exec(lane, Exec(lane, w, a), b)
    decreases |b|
  {
    if b == [] {
      assert a + b == a;
    } else {
      assert (a + b)[..|a + b| - 1] == a + b[..|b| - 1];
      ExecConcat(lane, w, a, b[..|b| - 1]);
    }
  }

  lemma ExecFirst(lane: bool, w: World, e: Event, rest: seq<Event>)
    ensures Exec(lane, w, [e] + rest) == Exec(lane, Step(lane, w, e), rest)
  {
    ExecConcat(lane, w, [e], rest);
    assert [e][..0] == [];
  }

  function Finalizing(c: Cluster, k: Name): Cluster
    requires k in c.runs
  {
    c.(runs := c.runs[k := c.runs[k].(finalizer := true, version := c.clock + 1)], clock := c.clock + 1)
  }

  lemma NextCall(lane: bool, w: World, i: nat, c: Cluster, r: Replica, acts: seq<Act>)
    requires acts != []
    ensures var o := StepReplica(lane, c, r, acts[0]);
            Exec(lane, At(w, i, c, r), Calls(i, acts)) == Exec(lane, At(w, i, o.c, o.r), Calls(i, acts[1..]))
  {
    hide StepReplica;
    ExecFirst(lane, At(w, i, c, r), Operator(i, acts[0]), Calls(i, acts[1..]));
    var o := StepReplica(lane, c, r, acts[0]);
    assert w.replicas[i := r][i := o.r] == w.replicas[i := o.r];
  }

  /** Nobody's ticket depends on finalizers. */
  lemma SameBlockers(c: Cluster, k: Name)
    requires k in c.runs && c.runs[k].name == k && !Blocked(c, c.runs[k])
    ensures !Blocked(Finalizing(c, k), Finalizing(c, k).runs[k])
  {
    var c' := Finalizing(c, k);
    forall o | o in c'.runs ensures !Blocks(c', o, c'.runs[k])
    {
      assert !Blocks(c, o, c.runs[k]);
    }
  }

  /** From the queue's first event to a run with its finalizer. */
  lemma FinalizerCalls(lane: bool, w: World, i: nat, c: Cluster, q: Queues, k: Name, acts: seq<Act>)
    requires k in c.runs && c.runs[k].name == k && Live(c.runs[k]) && !c.runs[k].finalizer
    requires |acts| >= 4 && acts[0] == Begin(k) && acts[1] == acts[2] == acts[3] == Call(false)
    ensures var c' := Finalizing(c, k);
            Exec(lane, At(w, i, c, Replica(q, Idle)), Calls(i, acts))
            == Exec(lane, At(w, i, c', Replica(q, Admission(c'.runs[k]))), Calls(i, acts[4..]))
  {
    hide Exec, Calls, Enqueued, Released;
    var run := c.runs[k];
    NextCall(lane, w, i, c, Replica(q, Idle), acts);
    NextCall(lane, w, i, c, Replica(q, Fetch(k)), acts[1..]);
    NextCall(lane, w, i, c, Replica(q, AddFinalizer(run)), acts[1..][1..]);
    NextCall(lane, w, i, Finalizing(c, k), Replica(q, Refetch(k)), acts[1..][1..][1..]);
    assert acts[1..][1..] == acts[2..] && acts[1..][1..][1..] == acts[3..] && acts[1..][1..][1..][1..] == acts[4..];
  }

  /** From admission to the runner Job. */
  lemma ActuatingCalls(lane: bool, w: World, i: nat, c: Cluster, q: Queues, run: Run, acts: seq<Act>)
      returns (after: Replica)
    requires run.status.jobName.None? && !Blocked(c, run)
        && Enqueued(q, Key(run), run.name).Admitted(Key(run), run.name)
    requires acts == [Checks(false, 0), Call(false), Prepared(false, false, None, 0), Call(false)]
    ensures Exec(lane, At(w, i, c, Replica(q, Admission(run))), Calls(i, acts))
            == At(w, i, c.(jobs := c.jobs + {Job(run.name, RUNNER)}), after)
  {
    hide Exec, Calls, Enqueued, Released, Blocked;
    var q', upd := Enqueued(q, Key(run), run.name), run.status.(rest := 0);
    var preparing := Replica(q', Prepare(run, upd));
    var creating := StepReplica(lane, c, preparing, acts[2]).r;
    NextCall(lane, w, i, c, Replica(q, Admission(run)), acts);
    NextCall(lane, w, i, c, Replica(q', TicketCheck(run, upd)), acts[1..]);
    NextCall(lane, w, i, c, preparing, acts[1..][1..]);
    NextCall(lane, w, i, c, creating, acts[1..][1..][1..]);
    var o := StepReplica(lane, c, creating, acts[3]);
    assert o.c == c.(jobs := c.jobs + {Job(run.name, RUNNER)});
    after := o.r;
    NoCalls(lane, At(w, i, o.c, after), i);
    assert acts[1..][1..][1..][1..] == [];
  }

  /** A new run that is admitted and not blocked gets its runner Job. */
  lemma FirstPassCreates(lane: bool, w: World, i: nat, k: Name)
    requires i in w.replicas && w.replicas[i].pc == Idle && k in w.c.runs
    requires var run := w.c.runs[k];
      && run.name == k && Live(run) && !run.finalizer && run.status.jobName.None? && !Blocked(w.c, run)
      && Enqueued(w.replicas[i].q, Key(run), k).Admitted(Key(run), k)
    ensures var v := Exec(lane, w, Calls(i, FirstPass(k)));
      && v.c == Finalizing(w.c, k).(jobs := w.c.jobs + {Job(k, RUNNER)})
      && v.replicas.Keys == w.replicas.Keys && forall j :: j in w.replicas && j != i ==> v.replicas[j] == w.replicas[j]
  {
    var q, c' := w.replicas[i].q, Finalizing(w.c, k);
    SameBlockers(w.c, k);
    assert w == At(w, i, w.c, Replica(q, Idle)) by { assert w.replicas == w.replicas[i := w.replicas[i]]; }
    var acts := FirstPass(k);
    assert acts[4..] == [Checks(false, 0), Call(false), Prepared(false, false, None, 0), Call(false)];
    hide Exec, Calls, Enqueued, Blocked;
    FinalizerCalls(lane, w, i, w.c, q, k, acts);
    assert Key(c'.runs[k]) == Key(w.c.runs[k]);
    var after := ActuatingCalls(lane, w, i, c', q, c'.runs[k], acts[4..]);
  }

  lemma NoCalls(lane: bool, w: World, i: nat)
    ensures Exec(lane, w, Calls(i, [])) == w
  {
  }

  // ---------------------------------------------------------------- two runs of one queue

  const UNSET := Status(Unset, None, "", None, None, None, "", false, 0)

  predicate IsNew(run: Run) {
    !run.deleting && !run.finalizer && run.status == UNSET
  }

  /** Two new runs that contend for one queue but for no ticket. */
  predicate Pair(x: Run, y: Run) {
    IsNew(x) && IsNew(y) && x.name != y.name && Key(x) == Key(y) && x.spec.ticketID != y.spec.ticketID
  }

  /** The first run gets its Job, then the second one is created. */
  function Opening(x: Run, y: Run): seq<Event> {
    [Create(x)] + Calls(0, FirstPass(x.name)) + [Create(y)]
  }

  /** The cluster the histories share. */
  ghost predicate Opened(c: Cluster, x: Run, y: Run) {
    && c.runs.Keys == {x.name, y.name} && Job(x.name, RUNNER) in c.jobs
    && c.runs[y.name] == y.(version := c.runs[y.name].version)
    && c.runs[x.name] == x.(finalizer := true, version := c.runs[x.name].version)
  }

  lemma EmptyLineAdmits(k: QueueKey, n: Name)
    ensures Enqueued(EMPTY, k, n).Admitted(k, n)
  {
  }

  lemma FirstRunOpens(lane: bool, w: World, x: Run)
    requires Initial(w) && 0 in w.replicas && IsNew(x)
    ensures var v := Exec(lane, w, [Create(x)] + Calls(0, FirstPass(x.name)));
            && v.c.runs.Keys == v.c.used == {x.name} && Job(x.name, RUNNER) in v.c.jobs
            && v.c.runs[x.name] == x.(finalizer := true, version := v.c.runs[x.name].version)
            && v.replicas.Keys == w.replicas.Keys
            && forall j :: j in w.replicas && j != 0 ==> v.replicas[j] == w.replicas[j]
  {
    hide Exec, Enqueued, Calls, FirstPass;
    assert Creatable(w.c, x);
    var w1 := w.(c := Created(w.c, x));
    EmptyLineAdmits(Key(w1.c.runs[x.name]), x.name);
    assert !Blocked(w1.c, w1.c.runs[x.name]);
    FirstPassCreates(lane, w1, 0, x.name);
    ExecFirst(lane, w, Create(x), Calls(0, FirstPass(x.name)));
  }

  lemma OpeningCreates(lane: bool, w: World, x: Run, y: Run)
    requires Initial(w) && 0 in w.replicas && Pair(x, y)
    ensures var v := Exec(lane, w, Opening(x, y));
            && Opened(v.c, x, y) && v.replicas.Keys == w.replicas.Keys
            && forall j :: j in w.replicas && j != 0 ==> v.replicas[j] == w.replicas[j]
  {
    hide Exec, Calls, FirstPass, Initial;
    FirstRunOpens(lane, w, x);
    var opening := [Create(x)] + Calls(0, FirstPass(x.name));
    var w2 := Exec(lane, w, opening);
    assert Creatable(w2.c, y);
    ExecConcat(lane, w, opening, [Create(y)]);
    ExecLast(lane, w2, Create(y));
  }

  lemma ExecLast(lane: bool, w: World, e: Event)
    ensures Exec(lane, w, [e]) == Step(lane, w, e)
  {
    assert [e][..0] == [];
  }

  /** Both runs live, and each has its runner Job. */
  ghost predicate QueueHeldTwice(c: Cluster, x: Run, y: Run) {
    Occupies(c, x.name) && Occupies(c, y.name) && Key(c.runs[x.name]) == Key(c.runs[y.name])
  }

  /** Whichever replica admits the second run, it gets its Job beside the first. */
  lemma SecondPassCreates(lane: bool, w: World, i: nat, x: Run, y: Run)
    requires Opened(w.c, x, y) && Pair(x, y) && i in w.replicas && w.replicas[i].pc == Idle
    requires Enqueued(w.replicas[i].q, Key(y), y.name).Admitted(Key(y), y.name)
    ensures QueueHeldTwice(Exec(lane, w, Calls(i, FirstPass(y.name))).c, x, y)
  {
    hide Exec, Enqueued, Calls, FirstPass;
    assert !Blocked(w.c, w.c.runs[y.name]);
    FirstPassCreates(lane, w, i, y.name);
  }

  /** Two replicas keep two queues: without any restart, each admits one of the two runs. */
  lemma TwoReplicasAdmitTwo(lane: bool, x: Run, y: Run) returns (w: World, events: seq<Event>)
    requires Pair(x, y)
    ensures Initial(w) && w.replicas.Keys == {0, 1} && forall e :: e in events ==> !e.Restart? && !e.Crash?
    ensures QueueHeldTwice(Exec(lane, w, events).c, x, y)
  {
    hide Exec, Enqueued, Calls, FirstPass, Opening, Opened, Pair, QueueHeldTwice;
    w := World(EMPTY_CLUSTER, map[0 := Replica(EMPTY, Idle), 1 := Replica(EMPTY, Idle)], {});
    events := Opening(x, y) + Calls(1, FirstPass(y.name));
    OpeningCreates(lane, w, x, y);
    EmptyLineAdmits(Key(y), y.name);
    OpeningIsQuiet(x, y);
    CallsAreCalls(1, FirstPass(y.name));
    ExecConcat(lane, w, Opening(x, y), Calls(1, FirstPass(y.name)));
    SecondPassCreates(lane, Exec(lane, w, Opening(x, y)), 1, x, y);
  }

  lemma {:induction false} CallsAreCalls(i: nat, acts: seq<Act>)
    ensures forall e :: e in Calls(i, acts) ==> e.Operator?
  {
    if acts != [] { CallsAreCalls(i, acts[1..]); }
  }

  lemma OpeningIsQuiet(x: Run, y: Run)
    ensures forall e :: e in Opening(x, y) ==> !e.Restart? && !e.Crash?
  {
    CallsAreCalls(0, FirstPass(x.name));
    hide Calls, FirstPass;
  }

  /** The repository lock does not survive a restart: when the list shows the second run first, it is admitted and gets
      its Job beside the first run's, which still lives. */
  lemma RestartCanAdmitAnother(lane: bool, x: Run, y: Run) returns (w: World, events: seq<Event>)
    requires Pair(x, y)
    ensures Initial(w) && w.replicas.Keys == {0} && QueueHeldTwice(Exec(lane, w, events).c, x, y)
  {
    hide Exec, Calls, FirstPass, Opening, Opened, Pair, QueueHeldTwice, Enqueued, Recovered;
    w := World(EMPTY_CLUSTER, map[0 := Replica(EMPTY, Idle)], {});
    var restart, opening, pass := Restart(0, [y.name, x.name]), Opening(x, y), Calls(0, FirstPass(y.name));
    var w1 := Exec(lane, w, opening);
    events := opening + [restart] + pass;
    OpeningCreates(lane, w, x, y);
    StoreStaysOk(lane, w, opening);
    ExecConcat(lane, w, opening, [restart]);
    ExecConcat(lane, w, opening + [restart], pass);
    ExecLast(lane, w1, restart);
    RestartAdmitsSecond(lane, w1, x, y);
    SecondPassCreates(lane, Step(lane, w1, restart), 0, x, y);
  }

  lemma StoreStaysOk(lane: bool, w: World, events: seq<Event>)
    requires Initial(w)
    ensures StoreOk(Exec(lane, w, events).c)
  {
    assert StoreOk(w.c);
    hide Exec, StoreOk;
    ExecKeepsInv(lane, w, events);
  }

  lemma RestartAdmitsSecond(lane: bool, w: World, x: Run, y: Run)
    requires Opened(w.c, x, y) && Pair(x, y) && StoreOk(w.c)
    ensures var v := Step(lane, w, Restart(0, [y.name, x.name]));
            && v.c == w.c && 0 in v.replicas && v.replicas[0].pc == Idle
            && Enqueued(v.replicas[0].q, Key(y), y.name).Admitted(Key(y), y.name)
  {
    hide Enqueued, Recovered, QueuedRuns, StoreOk;
    var order := [y.name, x.name];
    assert order[0] == y.name && order[1] == x.name;
    assert Listing(w.c, order);
    assert ListedFirst(w.c, order, y.name);
    RestartAdmits(w.c, order, y.name);
    EnqueueKeepsAdmitted(Recovered(EMPTY, QueuedRuns(w.c, order)), Key(y), y.name);
  }

  /** Two cards of one repository are such a pair, so the operator can reach such a state from an empty cluster. */
  lemma TwoCardsShareARepository(lane: bool) returns (x: Run, y: Run, w: World, events: seq<Event>)
    ensures x.name.namespace == y.name.namespace && x.spec.ticketID != y.spec.ticketID
    ensures Initial(w) && w.replicas.Keys == {0} && QueueHeldTwice(Exec(lane, w, events).c, x, y)
  {
    x := Run(Name("ns", "kb-2-1"), Spec("KB-2", "repo", None, []), 1, false, false, 0, UNSET);
    y := Run(Name("ns", "kb-1-1"), Spec("KB-1", "repo", None, []), 2, false, false, 0, UNSET);
    assert x.name.name[3] == '2' && y.name.name[3] == '1';
    assert x.spec.ticketID[3] == '2' && y.spec.ticketID[3] == '1';
    hide Exec, QueueHeldTwice;
    w, events := RestartCanAdmitAnother(lane, x, y);
  }
}
