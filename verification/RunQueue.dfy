/** The operator's in-memory admission queue: one FIFO per (repository, class). */
module RunQueues {
  import opened Common

  datatype Name = Name(namespace: string, name: string)

  /** The zero value of a Go NamespacedName, which a lookup of an absent key yields. */
  const NO_NAME := Name("", "")

  const CLASS_DEV := "dev"
  const CLASS_TRIAGE := "triage"

  datatype QueueKey = QueueKey(repo: string, runClass: string)

  /** What the queue reads off a CriteriaRun. */
  datatype QueuedRun = QueuedRun(
    name: Name, repoURL: string, workflowClass: Option<string>, deleting: bool, terminal: bool)

  /** Only an explicitly stamped triage class leaves the dev queue. */
  function AdmissionClass(run: QueuedRun): (c: string)
    ensures c == CLASS_TRIAGE || c == CLASS_DEV
    ensures c == CLASS_TRIAGE <==> run.workflowClass == Some(CLASS_TRIAGE)
  {
    if run.workflowClass == Some(CLASS_TRIAGE) then CLASS_TRIAGE else CLASS_DEV
  }

  function QueueKeyOf(run: QueuedRun): QueueKey {
    QueueKey(run.repoURL, AdmissionClass(run))
  }

  datatype Queues = Queues(queues: map<QueueKey, seq<Name>>, running: map<QueueKey, Name>) {
    function Entries(k: QueueKey): seq<Name> {
      if k in queues then queues[k] else []
    }

    function Running(k: QueueKey): Name {
      if k in running then running[k] else NO_NAME
    }

    predicate Admitted(k: QueueKey, n: Name) {
      k in running && running[k] == n
    }

    /** Every kept queue is non-empty and duplicate-free, and its head is the admitted run. */
    ghost predicate Valid() {
      && running.Keys == queues.Keys
      && forall k :: k in queues ==> |queues[k]| > 0 && NoDup(queues[k]) && running[k] == queues[k][0]
    }
  }

  const EMPTY := Queues(map[], map[])

  // ---------------------------------------------------------------- the three operations

  function AdmitHead(q: Queues, k: QueueKey): Queues {
    if k !in q.running && |q.Entries(k)| > 0 then q.(running := q.running[k := q.Entries(k)[0]]) else q
  }

  function Append(q: Queues, k: QueueKey, n: Name): Queues {
    if n in q.Entries(k) then q else q.(queues := q.queues[k := q.Entries(k) + [n]])
  }

  function Enqueued(q: Queues, k: QueueKey, n: Name): Queues {
    AdmitHead(Append(q, k, n), k)
  }

  function Released(q: Queues, k: QueueKey, n: Name): Queues {
    var entries := q.Entries(k);
    if n !in entries then q
    else
      var rest := RemoveAt(entries, Find(entries, n));
      var queues := if rest == [] then q.queues - {k} else q.queues[k := rest];
      var running := if q.Running(k) == n then q.running - {k} else q.running;
      AdmitHead(Queues(queues, running), k)
  }

  predicate Recoverable(run: QueuedRun) {
    !run.deleting && !run.terminal
  }

  function Appended(q: Queues, list: seq<QueuedRun>): Queues
    decreases |list|
  {
    if list == [] then q
    else
      var run := list[|list| - 1];
      var q' := Appended(q, list[..|list| - 1]);
      if Recoverable(run) then Append(q', QueueKeyOf(run), run.name) else q'
  }

  function AdmitAllHeads(q: Queues): Queues {
    q.(running := map k | k in q.queues.Keys + q.running.Keys && (k in q.running || |q.queues[k]| > 0)
                    :: if k in q.running then q.running[k] else q.queues[k][0])
  }

  function Recovered(q: Queues, list: seq<QueuedRun>): Queues {
    AdmitAllHeads(Appended(q, list))
  }

  // ---------------------------------------------------------------- refinement of a FIFO

  /** The abstract queue: a map from key to a non-empty duplicate-free sequence. */
  type Fifo = map<QueueKey, seq<Name>>

  function Line(f: Fifo, k: QueueKey): seq<Name> {
    if k in f then f[k] else []
  }

  function WithLine(f: Fifo, k: QueueKey, line: seq<Name>): Fifo {
    if line == [] then f - {k} else f[k := line]
  }

  function Without(line: seq<Name>, n: Name): seq<Name> {
    if n in line then RemoveAt(line, Find(line, n)) else line
  }

  lemma EnqueueRefinesFifo(q: Queues, k: QueueKey, n: Name)
    requires q.Valid()
    ensures Enqueued(q, k, n).Valid()
    ensures var line := Line(q.queues, k);
            Enqueued(q, k, n).queues == WithLine(q.queues, k, if n in line then line else line + [n])
    ensures Enqueued(q, k, n).Admitted(k, n) <==> Line(Enqueued(q, k, n).queues, k)[0] == n
  {
    var line := Line(q.queues, k);
    assert q.Entries(k) == line;
  }

  lemma ReleaseRefinesFifo(q: Queues, k: QueueKey, n: Name)
    requires q.Valid()
    ensures Released(q, k, n).Valid()
    ensures Released(q, k, n).queues == WithLine(q.queues, k, Without(Line(q.queues, k), n))
  {
    var entries := q.Entries(k);
    if n in entries {
      RemoveKeepsOrder(entries, Find(entries, n));
      hide NoDup, RemoveAt, Find;
      assert entries != [] && entries == q.queues[k];
    } else if k !in q.queues {
      assert q.queues - {k} == q.queues;
    }
  }

  lemma RemoveKeepsOrder(s: seq<Name>, i: nat)
    requires NoDup(s) && i < |s|
    ensures NoDup(RemoveAt(s, i))
    ensures 0 < i ==> RemoveAt(s, i) != [] && RemoveAt(s, i)[0] == s[0]
    ensures Find(s, s[0]) == 0
  {
    var r := RemoveAt(s, i);
    assert forall j :: 0 <= j < |r| ==> r[j] == s[if j < i then j else j + 1];
  }

  /** The order in which a restarted operator lines up the runs of one key. */
  function Arrivals(list: seq<QueuedRun>, k: QueueKey): (line: seq<Name>)
    ensures NoDup(line)
    ensures forall n :: n in line <==> exists i ::
        0 <= i < |list| && Recoverable(list[i]) && QueueKeyOf(list[i]) == k && list[i].name == n
    decreases |list|
  {
    if list == [] then []
    else
      var run := list[|list| - 1];
      var line := Arrivals(list[..|list| - 1], k);
      if Recoverable(run) && QueueKeyOf(run) == k && run.name !in line then line + [run.name] else line
  }

  lemma {:induction false} AppendedLines(q: Queues, list: seq<QueuedRun>, k: QueueKey)
    requires q == EMPTY
    ensures Appended(q, list).running == map[]
    ensures Appended(q, list).Entries(k) == Arrivals(list, k)
    ensures k in Appended(q, list).queues <==> Arrivals(list, k) != []
    decreases |list|
  {
    if list != [] {
      AppendedLines(q, list[..|list| - 1], k);
    }
  }

  /** A restart rebuilds, per key, exactly the listed live runs in list order, head admitted. */
  lemma RecoverRefinesFifo(list: seq<QueuedRun>)
    ensures Recovered(EMPTY, list).Valid()
    ensures forall k :: Line(Recovered(EMPTY, list).queues, k) == Arrivals(list, k)
  {
    forall k ensures Line(Recovered(EMPTY, list).queues, k) == Arrivals(list, k)
    {
      AppendedLines(EMPTY, list, k);
    }
    var q := Recovered(EMPTY, list);
    forall k | k in q.queues ensures |q.queues[k]| > 0 && NoDup(q.queues[k]) && q.running[k] == q.queues[k][0]
    {
      AppendedLines(EMPTY, list, k);
      assert Line(q.queues, k) == Arrivals(list, k);
    }
    AppendedLines(EMPTY, list, QueueKey("", ""));
    assert q.running.Keys == q.queues.Keys;
  }

  predicate LinesUp(run: QueuedRun, k: QueueKey) {
    Recoverable(run) && QueueKeyOf(run) == k
  }

  predicate NoneBefore(list: seq<QueuedRun>, j: nat, k: QueueKey)
    requires j <= |list|
  {
    forall i :: 0 <= i < j ==> !LinesUp(list[i], k)
  }

  /** After a restart the head of a queue is the first live run of that queue in the list. */
  lemma {:induction false} FirstListedIsHead(list: seq<QueuedRun>, k: QueueKey) returns (j: nat)
    ensures j <= |list| && NoneBefore(list, j, k)
    ensures j == |list| <==> Arrivals(list, k) == []
    ensures j < |list| ==> LinesUp(list[j], k) && Arrivals(list, k)[0] == list[j].name
    decreases |list|
  {
    if list == [] {
      j := 0;
    } else {
      var init := list[..|list| - 1];
      j := FirstListedIsHead(init, k);
      assert NoneBefore(list, j, k) by { assert NoneBefore(init, j, k); assert forall i :: 0 <= i < j ==>
          list[i] == init[i]; }
      if j == |init| && !LinesUp(list[j], k) {
        j := |list|;
      }
    }
  }

  // ---------------------------------------------------------------- whole runs of the queue

  datatype Op =
    | Enqueue(k: QueueKey, n: Name)
    | Release(k: QueueKey, n: Name)

  function Apply(q: Queues, op: Op): Queues {
    match op
    case Enqueue(k, n) => Enqueued(q, k, n)
    case Release(k, n) => Released(q, k, n)
  }

  function Run(q: Queues, ops: seq<Op>): Queues
    decreases |ops|
  {
    if ops == [] then q else Apply(Run(q, ops[..|ops| - 1]), ops[|ops| - 1])
  }

  lemma ApplyValid(q: Queues, op: Op)
    requires q.Valid()
    ensures Apply(q, op).Valid()
    ensures forall k :: k != op.k ==> Apply(q, op).Entries(k) == q.Entries(k) && Apply(q, op).Running(k) == q.Running(k)
  {
    match op
    case Enqueue(k, n) => EnqueueRefinesFifo(q, k, n);
    case Release(k, n) => ReleaseRefinesFifo(q, k, n);
  }

  /** Over any history the invariant holds, and a key nobody touches keeps its whole queue. */
  lemma {:induction false} RunKeepsFifo(q: Queues, ops: seq<Op>)
    requires q.Valid()
    ensures Run(q, ops).Valid()
    ensures forall k :: (forall i :: 0 <= i < |ops| ==> ops[i].k != k) ==>
              Run(q, ops).Entries(k) == q.Entries(k) && Run(q, ops).Running(k) == q.Running(k)
    decreases |ops|
  {
    if ops != [] {
      RunKeepsFifo(q, ops[..|ops| - 1]);
      ApplyValid(Run(q, ops[..|ops| - 1]), ops[|ops| - 1]);
    }
  }

  /** How many operations of the history removed a run standing in front of n. */
  function DeparturesAhead(q: Queues, ops: seq<Op>, k: QueueKey, n: Name): nat
    decreases |ops|
  {
    if ops == [] then 0
    else
      var before := Run(q, ops[..|ops| - 1]);
      var op := ops[|ops| - 1];
      DeparturesAhead(q, ops[..|ops| - 1], k, n) +
      if op.Release? && op.k == k && Find(before.Entries(k), op.n) < Find(before.Entries(k), n) then 1 else 0
  }

  lemma StepMovesUp(q: Queues, op: Op, k: QueueKey, n: Name)
    requires q.Valid() && n in q.Entries(k) && op != Release(k, n)
    ensures n in Apply(q, op).Entries(k)
    ensures Find(Apply(q, op).Entries(k), n) ==
            Find(q.Entries(k), n) - if op.Release? && op.k == k
              && Find(q.Entries(k), op.n) < Find(q.Entries(k), n) then 1 else 0
  {
    ApplyValid(q, op);
    hide Released, Enqueued, NoDup;
    if op.k == k {
      assert q.Entries(k) == Line(q.queues, k) && Apply(q, op).Entries(k) == Line(Apply(q, op).queues, k);
      if op.Enqueue? {
        EnqueueRefinesFifo(q, k, op.n);
        FindAt(Apply(q, op).Entries(k), n, Find(q.Entries(k), n));
      } else {
        ReleaseRefinesFifo(q, k, op.n);
        WithoutMovesUp(q.Entries(k), op.n, n);
      }
    }
  }

  lemma WithoutMovesUp(line: seq<Name>, x: Name, n: Name)
    requires NoDup(line) && n in line && x != n
    ensures n in Without(line, x)
    ensures Find(Without(line, x), n) == Find(line, n) - if Find(line, x) < Find(line, n) then 1 else 0
  {
    if x in line {
      var p, d := Find(line, n), Find(line, x);
      FindAt(Without(line, x), n, if d < p then p - 1 else p);
    }
  }

  /** A waiting run at position p is admitted after exactly p departures in front of it,
      whatever else is enqueued, released or re-enqueued in between. */
  lemma {:induction false} WaitIsExact(q: Queues, ops: seq<Op>, k: QueueKey, n: Name)
    requires q.Valid() && n in q.Entries(k)
    requires Release(k, n) !in ops
    ensures n in Run(q, ops).Entries(k)
    ensures Find(Run(q, ops).Entries(k), n) == Find(q.Entries(k), n) - DeparturesAhead(q, ops, k, n)
    ensures Run(q, ops).Admitted(k, n) <==> DeparturesAhead(q, ops, k, n) == Find(q.Entries(k), n)
    decreases |ops|
  {
    RunKeepsFifo(q, ops);
    if ops != [] {
      var init := ops[..|ops| - 1];
      RunKeepsFifo(q, init);
      WaitIsExact(q, init, k, n);
      StepMovesUp(Run(q, init), ops[|ops| - 1], k, n);
    }
    var line := Run(q, ops).Entries(k);
    assert Find(line, n) == 0 <==> line[0] == n;
  }

  /** An admitted run stays admitted until its own release. */
  lemma AdmissionIsStable(q: Queues, ops: seq<Op>, k: QueueKey, n: Name)
    requires q.Valid() && q.Admitted(k, n) && Release(k, n) !in ops
    ensures Run(q, ops).Admitted(k, n)
  {
    assert q.queues[k][0] == n;
    FindAt(q.Entries(k), n, 0);
    WaitIsExact(q, ops, k, n);
  }

  // ---------------------------------------------------------------- the mutable object

  datatype QueueStatus = QueueStatus(
    repoURL: string, runClass: string, length: nat, running: string, pending: seq<string>, position: nat)

  function NamesOf(line: seq<Name>): (r: seq<string>)
    ensures |r| == |line|
    ensures forall i :: 0 <= i < |r| ==> r[i] == line[i].name
  {
    if line == [] then [] else NamesOf(line[..|line| - 1]) + [line[|line| - 1].name]
  }

  class RunQueue {
    var queues: map<QueueKey, seq<Name>>
    var running: map<QueueKey, Name>

    function State(): Queues
      reads this
    {
      Queues(queues, running)
    }

    constructor ()
      ensures State() == EMPTY && State().Valid()
    {
      queues, running := map[], map[];
    }

    static method IndexOf(entries: seq<Name>, key: Name) returns (idx: int)
      ensures idx == -1 <==> key !in entries
      ensures idx != -1 ==> idx == Find(entries, key)
    {
      for i := 0 to |entries|
        invariant key !in entries[..i]
      {
        if entries[i] == key {
          FindAt(entries, key, i);
          return i;
        }
      }
      return -1;
    }

    /** The status shows the admitted run, the others in order, and the caller's own place. */
    method StatusLocked(k: QueueKey, key: Name) returns (status: QueueStatus)
      requires State().Valid() && k in queues
      ensures status.repoURL == k.repo && status.runClass == k.runClass
      ensures status.length == |queues[k]|
      ensures queues[k][0] != NO_NAME ==> status.running == queues[k][0].name
      ensures status.pending == NamesOf(queues[k][1..])
      ensures status.position == if key in queues[k] then Find(queues[k], key) else 0
    {
      var runKey := running[k];
      var entries := queues[k];
      var pending := [];
      var position := 0;
      for i := 0 to |entries|
        invariant pending == NamesOf(entries[1..][..if i == 0 then 0 else i - 1])
        invariant position == if key in entries[..i] then Find(entries, key) else 0
      {
        FindAtPrefix(entries, i);
        if entries[i] != runKey {
          if entries[i] == key {
            FindAt(entries, key, i);
            position := |pending| + 1;
          }
          assert entries[1..][..i] == entries[1..][..i - 1] + [entries[i]];
          pending := pending + [entries[i].name];
        } else {
          assert i == 0;
          if key == entries[0] { FindAt(entries, key, 0); }
        }
      }
      assert entries[..|entries|] == entries;
      assert entries[1..][..|entries| - 1] == entries[1..];
      var head := if runKey != NO_NAME then runKey.name else "";
      status := QueueStatus(k.repo, k.runClass, |entries|, head, pending, position);
    }

    static lemma FindAtPrefix(entries: seq<Name>, i: nat)
      requires i < |entries|
      ensures entries[..i + 1] == entries[..i] + [entries[i]]
    {
    }

    method Enqueue(run: QueuedRun) returns (admitted: bool, status: QueueStatus, prevRunning: Option<Name>)
      requires State().Valid()
      modifies this
      ensures State() == Enqueued(old(State()), QueueKeyOf(run), run.name) && State().Valid()
      ensures admitted <==> State().Admitted(QueueKeyOf(run), run.name)
      ensures status.position == Find(State().Entries(QueueKeyOf(run)), run.name)
      ensures status.length == |State().Entries(QueueKeyOf(run))|
      ensures !admitted && State().Running(QueueKeyOf(run)) != NO_NAME ==>
          prevRunning == Some(State().Running(QueueKeyOf(run)))
      ensures admitted ==> prevRunning.None?
    {
      var k := QueueKeyOf(run);
      EnqueueRefinesFifo(State(), k, run.name);
      var entries := if k in queues then queues[k] else [];
      var idx := IndexOf(entries, run.name);
      if idx == -1 {
        entries := entries + [run.name];
        queues := queues[k := entries];
      }
      if k !in running && |entries| > 0 {
        running := running[k := entries[0]];
      }
      admitted := running[k] == run.name;
      prevRunning := None;
      if !admitted && running[k] != NO_NAME {
        prevRunning := Some(running[k]);
      }
      status := StatusLocked(k, run.name);
    }

    method Release(run: QueuedRun) returns (next: Option<Name>)
      requires State().Valid()
      modifies this
      ensures State() == Released(old(State()), QueueKeyOf(run), run.name) && State().Valid()
      ensures next.Some? <==>
                old(State()).Admitted(QueueKeyOf(run), run.name) && |old(State()).Entries(QueueKeyOf(run))| > 1
      ensures next.Some? ==>
                && State().Admitted(QueueKeyOf(run), next.value)
                && next.value == old(State()).Entries(QueueKeyOf(run))[1]
    {
      var k := QueueKeyOf(run);
      ReleaseRefinesFifo(State(), k, run.name);
      var entries := if k in queues then queues[k] else [];
      var idx := IndexOf(entries, run.name);
      if idx == -1 {
        return None;
      }
      entries := entries[..idx] + entries[idx + 1..];
      if |entries| == 0 {
        queues := queues - {k};
      } else {
        queues := queues[k := entries];
      }
      if k in running && running[k] == run.name {
        running := running - {k};
      }
      if |entries| > 0 && k !in running {
        running := running[k := entries[0]];
        return Some(entries[0]);
      }
      return None;
    }

    /** Startup recovery over the listed runs; a fresh queue ends up lined up in list order. */
    method Recover(list: seq<QueuedRun>)
      modifies this
      ensures State() == Recovered(old(State()), list)
      ensures old(State()) == EMPTY ==> State().Valid()
    {
      ghost var start := State();
      for i := 0 to |list|
        invariant State() == Appended(start, list[..i])
      {
        assert list[..i + 1][..i] == list[..i];
        var run := list[i];
        if run.deleting || run.terminal {
          continue;
        }
        var k := QueueKeyOf(run);
        var entries := if k in queues then queues[k] else [];
        var idx := IndexOf(entries, run.name);
        if idx == -1 {
          queues := queues[k := entries + [run.name]];
        }
      }
      assert list[..|list|] == list;
      ghost var filled := State();
      var todo := queues.Keys;
      while todo != {}
        invariant todo <= queues.Keys && queues == filled.queues
        invariant forall k :: k in running <==> k in filled.running || (k in queues && k !in todo && |queues[k]| > 0)
        invariant forall k :: k in running ==>
            running[k] == if k in filled.running then filled.running[k] else queues[k][0]
        decreases todo
      {
        var k :| k in todo;
        if k !in running && |queues[k]| > 0 {
          running := running[k := queues[k][0]];
        }
        todo := todo - {k};
      }
      assert running == AdmitAllHeads(filled).running;
      if start == EMPTY {
        RecoverRefinesFifo(list);
      }
    }
  }
}
