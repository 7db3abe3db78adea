/** The serial assignment lane and the bridge that mirrors a run's lifecycle onto its castle row. */
module Bridge {
  import opened Common

  datatype Phase = Pending | Running | Succeeded | Failed

  /** What castle acknowledged, and the lane's own brackets around each assignment. */
  datatype Entry =
    | Begin(run: string)
    | StartedAck(run: string)
    | TerminalAck(run: string, completed: bool)
    | ClosedAck(run: string)
    | End(run: string, why: Why)

  datatype Why = NotExecuted | Disabled | AlreadyTerminal | Acked | RecordLost | ContextEnded

  /** One reading of the run record. */
  datatype Read = ReadFailed | Gone | Snapshot(phase: Phase, finalState: string)

  /** One poll: what was read, and whether the submit it may lead to is acknowledged. */
  datatype Poll = Poll(read: Read, submitOk: bool)

  /** One delivery of an assignment: fail-closed reasons or not, ownership, attachment, and the polls until the
      context ends. */
  datatype Delivery = Delivery(run: string, failsClosed: bool, closeOk: bool, owned: bool, attached: bool,
    polls: seq<Poll>)

  predicate Completing(finalState: string) {
    finalState == "handler_complete" || finalState == "ready_for_development"
  }

  /** The row completes only for a success with a completing verdict; every other terminal status fails it. */
  predicate CompletedPayload(phase: Phase, finalState: string) {
    phase == Succeeded && Completing(finalState)
  }

  // ---------------------------------------------------------------- the acknowledged history

  ghost predicate HasStarted(log: seq<Entry>, run: string) {
    exists i :: 0 <= i < |log| && log[i] == StartedAck(run)
  }

  ghost predicate HasTerminal(log: seq<Entry>, run: string) {
    exists i :: 0 <= i < |log| && log[i].TerminalAck? && log[i].run == run
  }

  /** At most one start and one terminal per run, and no start after the terminal. */
  ghost predicate OncePerRun(log: seq<Entry>) {
    forall i, j :: 0 <= i < j < |log| && log[i].run == log[j].run ==>
      && !(log[i].StartedAck? && log[j].StartedAck?)
      && !(log[i].TerminalAck? && (log[j].TerminalAck? || log[j].StartedAck?))
  }

  ghost predicate Ledgers(started: set<string>, terminal: set<string>, log: seq<Entry>) {
    && (forall r :: r in started <==> HasStarted(log, r))
    && (forall r :: r in terminal <==> HasTerminal(log, r))
    && OncePerRun(log)
  }

  /** Whether an assignment is in flight; None when the brackets are out of order. */
  function InFlight(log: seq<Entry>): Option<Option<string>> {
    if log == [] then Some(None)
    else
      var before, e := InFlight(log[..|log| - 1]), log[|log| - 1];
      match before
      case None => None
      case Some(busy) =>
        if e.Begin? then (if busy == None then Some(Some(e.run)) else None)
        else if e.End? then (if busy == Some(e.run) then Some(None) else None)
        else if busy == Some(e.run) then before else None
  }

  lemma AppendEntry(started: set<string>, terminal: set<string>, log: seq<Entry>, e: Entry)
    requires Ledgers(started, terminal, log)
    requires e.StartedAck? ==> e.run !in started && e.run !in terminal
    requires e.TerminalAck? ==> e.run !in terminal
    ensures var started' := if e.StartedAck? then started + {e.run} else started;
            var terminal' := if e.TerminalAck? then terminal + {e.run} else terminal;
            Ledgers(started', terminal', log + [e])
    ensures InFlight(log + [e]) ==
      match InFlight(log)
      case None => None
      case Some(busy) =>
        if e.Begin? then (if busy == None then Some(Some(e.run)) else None)
        else if e.End? then (if busy == Some(e.run) then Some(None) else None)
        else if busy == Some(e.run) then InFlight(log) else None
  {
    var next := log + [e];
    assert next[..|log|] == log && next[|log|] == e;
    forall r ensures HasStarted(next, r) <==> HasStarted(log, r) || e == StartedAck(r)
    {
      if HasStarted(log, r) {
        var i :| 0 <= i < |log| && log[i] == StartedAck(r);
        assert next[i] == StartedAck(r);
      }
    }
    forall r ensures HasTerminal(next, r) <==> HasTerminal(log, r) || (e.TerminalAck? && e.run == r)
    {
      if HasTerminal(log, r) {
        var i :| 0 <= i < |log| && log[i].TerminalAck? && log[i].run == r;
        assert next[i] == log[i];
      }
    }
  }

  /** The lane and its two ledgers. */
  class AssignmentAgent {
    var started: set<string>
    var terminal: set<string>
    ghost var log: seq<Entry>
    const hasEvents: bool
    const hasDispositions: bool
    const hasClient: bool

    ghost predicate Valid()
      reads this
    {
      Ledgers(started, terminal, log)
    }

    function Config(): Lane {
      Lane(hasEvents, hasDispositions, hasClient)
    }

    constructor (hasEvents: bool, hasDispositions: bool, hasClient: bool)
      ensures Valid() && log == [] && started == {} && terminal == {}
      ensures this.hasEvents == hasEvents && this.hasDispositions == hasDispositions && this.hasClient == hasClient
    {
      started, terminal, log := {}, {}, [];
      this.hasEvents, this.hasDispositions, this.hasClient := hasEvents, hasDispositions, hasClient;
    }

    method EnsureStarted(run: string, ok: bool)
      requires Valid() && run !in terminal && InFlight(log) == Some(Some(run))
      modifies this
      ensures Valid() && terminal == old(terminal) && InFlight(log) == old(InFlight(log))
      ensures started == if ok then old(started) + {run} else old(started)
      ensures log == old(log) + if run !in old(started) && ok then [StartedAck(run)] else []
    {
      if run in started {
        return;
      }
      if !ok {
        return;
      }
      AppendEntry(started, terminal, log, StartedAck(run));
      started := started + {run};
      log := log + [StartedAck(run)];
    }

    method BridgeTerminal(run: string, completed: bool, recordLost: bool, ok: bool) returns (release: bool)
      requires Valid() && run !in terminal && InFlight(log) == Some(Some(run))
      modifies this
      ensures Valid() && started == old(started) && InFlight(log) == old(InFlight(log))
      ensures terminal == if ok then old(terminal) + {run} else old(terminal)
      ensures log == old(log) + if ok then [TerminalAck(run, completed)] else []
      ensures release <==> ok || recordLost
    {
      if !ok {
        return recordLost;
      }
      AppendEntry(started, terminal, log, TerminalAck(run, completed));
      terminal := terminal + {run};
      log := log + [TerminalAck(run, completed)];
      return true;
    }

    /** One poll of the record; nothing is ever submitted for a run whose terminal was acknowledged. */
    method BridgeStep(run: string, poll: Poll) returns (release: bool)
      requires Valid() && run !in terminal && InFlight(log) == Some(Some(run))
      modifies this
      ensures Valid() && InFlight(log) == old(InFlight(log))
      ensures release <==> hasClient && Closes(poll)
      ensures log == old(log) + Owes(poll, run, hasClient, run in old(started))
      ensures run in terminal <==> hasClient && Closes(poll) && poll.submitOk
      ensures !release ==> (run in started
          <==> run in old(started) || Owes(poll, run, hasClient, run in old(started)) != [])
    {
      if !hasClient {
        return false;
      }
      match poll.read
      case ReadFailed => return false;
      case Gone =>
        release := BridgeTerminal(run, false, true, poll.submitOk);
      case Snapshot(phase, finalState) =>
        if phase == Succeeded || phase == Failed {
          if run in terminal {
            return true;
          }
          release := BridgeTerminal(run, CompletedPayload(phase, finalState), false, poll.submitOk);
        } else {
          if phase == Running {
            EnsureStarted(run, poll.submitOk);
          }
          return false;
        }
    }

    /** Follows the record until the terminal is acknowledged, the record is lost, or the polls end with the context. */
    method Deliver(run: string, polls: seq<Poll>) returns (why: Why)
      requires Valid() && InFlight(log) == Some(Some(run))
      modifies this
      ensures Valid() && InFlight(log) == old(InFlight(log))
      ensures !hasEvents || !hasDispositions ==> why == Disabled && log == old(log)
      ensures hasEvents && hasDispositions && run in old(terminal) ==> why == AlreadyTerminal && log == old(log)
      ensures hasEvents && hasDispositions && run !in old(terminal) ==>
        (log, why) == Then(old(log), Follow(polls, run, hasClient, run in old(started)))
    {
      if !hasEvents || !hasDispositions {
        return Disabled;
      }
      if run in terminal {
        return AlreadyTerminal;
      }
      hide Owes, Closes, InFlight, Ledgers, Follow, Then;
      ghost var all := Then(log, Follow(polls, run, hasClient, run in started));
      assert polls[0..] == polls;
      for i := 0 to |polls|
        invariant Valid() && InFlight(log) == old(InFlight(log))
        invariant run !in terminal
        invariant all == Then(log, Follow(polls[i..], run, hasClient, run in started))
      {
        FollowStep(polls, run, hasClient, run in started, i, log);
        var release := BridgeStep(run, polls[i]);
        if release {
          return if polls[i].submitOk then Acked else RecordLost;
        }
      }
      FollowNone(run, hasClient, run in started, log);
      return ContextEnded;
    }

    /** Records a step of the lane that needs no ledger. */
    ghost method Note(e: Entry)
      requires Valid() && (e.Begin? || e.ClosedAck? || e.End?)
      requires InFlight(log) == Some(if e.Begin? then None else Some(e.run))
      modifies this`log
      ensures Valid() && log == old(log) + [e]
      ensures InFlight(log) == Some(if e.End? then None else Some(e.run))
    {
      AppendEntry(started, terminal, log, e);
      log := log + [e];
    }

    /** One assignment from the queue, with the branches that never reach the bridge. */
    method Process(d: Delivery)
      requires Valid() && InFlight(log) == Some(None)
      modifies this
      ensures Valid() && InFlight(log) == Some(None)
      ensures log == old(log) + Bracketed(d, Config(), d.run in old(started), d.run in old(terminal))
    {
      hide Follow, Ledgers, InFlight;
      Note(Begin(d.run));
      var why := NotExecuted;
      if d.failsClosed {
        if hasEvents && d.closeOk {
          Note(ClosedAck(d.run));
        }
      } else if d.owned && d.attached {
        why := Deliver(d.run, d.polls);
      }
      Note(End(d.run, why));
    }

    /** The lane executes the queue one assignment at a time. */
    method ProcessLoop(queue: seq<Delivery>)
      requires Valid() && InFlight(log) == Some(None)
      modifies this
      ensures Valid() && InFlight(log) == Some(None)
      ensures log == After(old(log), queue, Config())
    {
      hide Ledgers, InFlight, Bracketed, HasStarted, HasTerminal;
      for i := 0 to |queue|
        invariant Valid() && InFlight(log) == Some(None)
        invariant log == After(old(log), queue[..i], Config())
      {
        assert queue[..i + 1][..i] == queue[..i];
        LedgersSay(started, terminal, log, queue[i].run);
        Process(queue[i]);
      }
      assert queue[..|queue|] == queue;
    }
  }

  /** A poll after which the lane lets go of the assignment. */
  predicate Closes(poll: Poll) {
    match poll.read
    case ReadFailed => false
    case Gone => true
    case Snapshot(phase, _) => (phase == Succeeded || phase == Failed) && poll.submitOk
  }

  /** What a poll adds to the history of a run whose terminal is still open. */
  function Owes(poll: Poll, run: string, hasClient: bool, started: bool): seq<Entry> {
    if !hasClient || !poll.submitOk then []
    else
      match poll.read
      case ReadFailed => []
      case Gone => [TerminalAck(run, false)]
      case Snapshot(phase, finalState) =>
        if phase == Succeeded || phase == Failed then [TerminalAck(run, CompletedPayload(phase, finalState))]
        else if phase == Running && !started then [StartedAck(run)]
        else []
  }

  /** What following a record adds to the history, and how it ends. */
  function Follow(polls: seq<Poll>, run: string, hasClient: bool, started: bool): (seq<Entry>, Why) {
    if polls == [] then ([], ContextEnded)
    else
      var owed := Owes(polls[0], run, hasClient, started);
      if hasClient && Closes(polls[0]) then (owed, if polls[0].submitOk then Acked else RecordLost)
      else
        var (rest, why) := Follow(polls[1..], run, hasClient, started || owed != []);
        (owed + rest, why)
  }

  function Then(done: seq<Entry>, rest: (seq<Entry>, Why)): (seq<Entry>, Why) {
    (done + rest.0, rest.1)
  }

  lemma FollowNone(run: string, hasClient: bool, started: bool, done: seq<Entry>)
    ensures Then(done, Follow([], run, hasClient, started)) == (done, ContextEnded)
  {
    assert done + [] == done;
  }

  lemma FollowStep(polls: seq<Poll>, run: string, hasClient: bool, started: bool, i: nat, done: seq<Entry>)
    requires i < |polls|
    ensures var owed := Owes(polls[i], run, hasClient, started);
            Then(done, Follow(polls[i..], run, hasClient, started)) ==
              if hasClient && Closes(polls[i]) then (done + owed, if polls[i].submitOk then Acked else RecordLost)
              else Then(done + owed, Follow(polls[i + 1..], run, hasClient, started || owed != []))
  {
    var owed := Owes(polls[i], run, hasClient, started);
    var rest := Follow(polls[i + 1..], run, hasClient, started || owed != []).0;
    assert polls[i..][1..] == polls[i + 1..];
    assert done + (owed + rest) == done + owed + rest;
  }

  /** Which of its collaborators the agent was given. */
  datatype Lane = Lane(hasEvents: bool, hasDispositions: bool, hasClient: bool)

  function Handle(d: Delivery, lane: Lane, started: bool, terminal: bool): (seq<Entry>, Why) {
    if d.failsClosed then (if lane.hasEvents && d.closeOk then [ClosedAck(d.run)] else [], NotExecuted)
    else if !d.owned || !d.attached then ([], NotExecuted)
    else if !lane.hasEvents || !lane.hasDispositions then ([], Disabled)
    else if terminal then ([], AlreadyTerminal)
    else Follow(d.polls, d.run, lane.hasClient, started)
  }

  function Bracketed(d: Delivery, lane: Lane, started: bool, terminal: bool): seq<Entry> {
    var (entries, why) := Handle(d, lane, started, terminal);
    [Begin(d.run)] + entries + [End(d.run, why)]
  }

  /** The history once a queue of deliveries has been handled in order. */
  ghost function After(log: seq<Entry>, queue: seq<Delivery>, lane: Lane): seq<Entry>
    decreases |queue|
  {
    if queue == [] then log
    else
      var before, d := After(log, queue[..|queue| - 1], lane), queue[|queue| - 1];
      before + Bracketed(d, lane, HasStarted(before, d.run), HasTerminal(before, d.run))
  }

  lemma LedgersSay(started: set<string>, terminal: set<string>, log: seq<Entry>, run: string)
    requires Ledgers(started, terminal, log)
    ensures (run in started <==> HasStarted(log, run)) && (run in terminal <==> HasTerminal(log, run))
  {
  }

  /** The poll at which a followed record lets go, or the number of polls. */
  function FirstClosing(polls: seq<Poll>): (k: nat)
    ensures k <= |polls| && (k < |polls| ==> Closes(polls[k]))
    ensures forall j :: 0 <= j < k ==> !Closes(polls[j])
  {
    if polls == [] || Closes(polls[0]) then 0 else 1 + FirstClosing(polls[1..])
  }

  /** The record's closing poll is acknowledged, and completes the row exactly for a success whose verdict says that the
      work was delivered or handed on. */
  predicate EndsAs(polls: seq<Poll>, completed: bool) {
    var k := FirstClosing(polls);
    && k < |polls| && polls[k].submitOk
    && (completed <==>
          && polls[k].read.Snapshot? && polls[k].read.phase == Succeeded
          && polls[k].read.finalState in {"handler_complete", "ready_for_development"})
  }

  /** Without an acknowledged terminal the lane is released only by the end of the context, or by a lost record whose
      submit failed. */
  lemma {:induction false} ReleaseReasons(polls: seq<Poll>, run: string, hasClient: bool, started: bool)
    ensures var (entries, why) := Follow(polls, run, hasClient, started);
            var k := FirstClosing(polls);
      && (why == Acked <==> hasClient && k < |polls| && polls[k].submitOk)
      && (why == RecordLost <==> hasClient && k < |polls| && polls[k] == Poll(Gone, false))
      && (why == ContextEnded <==> !hasClient || k == |polls|)
      && (why == Acked <==> exists e :: e in entries && e.TerminalAck?)
      && (forall e :: e in entries ==> e.run == run && (e.StartedAck? || e.TerminalAck?))
      && (forall e :: e in entries && e.TerminalAck? ==> EndsAs(polls, e.completed))
  {
    if polls != [] {
      var owed := Owes(polls[0], run, hasClient, started);
      if !(hasClient && Closes(polls[0])) {
        assert forall e :: e in owed ==> e == StartedAck(run);
        ReleaseReasons(polls[1..], run, hasClient, started || owed != []);
      } else {
        assert polls[0].submitOk ==> owed[0] in owed && owed[0].TerminalAck?;
      }
    }
  }

  // ---------------------------------------------------------------- terminals that keep no ledger

  /** An acknowledged terminal of a run, whichever path submitted it. */
  predicate Final(e: Entry) {
    e.TerminalAck? || e.ClosedAck?
  }

  /** Once a terminal of a run is acknowledged on either path, no start and no further terminal of it is. */
  ghost predicate FinalOnce(log: seq<Entry>) {
    forall i, j :: 0 <= i < j < |log| && log[i].run == log[j].run && Final(log[i]) ==>
      !Final(log[j]) && !log[j].StartedAck?
  }

  /** The delivery closes its run without following it, and castle acknowledges. */
  predicate ClosesRun(d: Delivery, lane: Lane) {
    d.failsClosed && lane.hasEvents && d.closeOk
  }

  predicate Followed(d: Delivery, lane: Lane) {
    !d.failsClosed && d.owned && d.attached && lane.hasEvents && lane.hasDispositions && lane.hasClient
  }

  /** The delivery reaches a closing poll whose terminal is acknowledged. */
  predicate Finishes(d: Delivery, lane: Lane) {
    var k := FirstClosing(d.polls);
    Followed(d, lane) && k < |d.polls| && d.polls[k].submitOk
  }

  /** The delivery sees the run Running before any closing poll, and castle acknowledges the start. */
  predicate Starts(d: Delivery, lane: Lane) {
    Followed(d, lane) && StartsWithin(d.polls)
  }

  predicate StartsWithin(polls: seq<Poll>) {
    polls != [] && !Closes(polls[0])
    && ((polls[0].read.Snapshot? && polls[0].read.phase == Running && polls[0].submitOk) || StartsWithin(polls[1..]))
  }

  function Acknowledged(run: string, start: bool, finish: bool, completed: bool): seq<Entry> {
    (if start then [StartedAck(run)] else []) + (if finish then [TerminalAck(run, completed)] else [])
  }

  predicate FinishesWithin(polls: seq<Poll>) {
    var k := FirstClosing(polls);
    k < |polls| && polls[k].submitOk
  }

  /** What following a record adds: a start if it is seen and still owed, then a terminal if one is acknowledged. */
  lemma {:induction false} FollowShape(polls: seq<Poll>, run: string, started: bool) returns (completed: bool)
    ensures Follow(polls, run, true, started).0
            == Acknowledged(run, StartsWithin(polls) && !started, FinishesWithin(polls), completed)
  {
    completed := false;
    if polls != [] {
      var owed := Owes(polls[0], run, true, started);
      if Closes(polls[0]) {
        if owed != [] { completed := owed[0].completed; }
      } else {
        completed := FollowShape(polls[1..], run, started || owed != []);
        var rest := Follow(polls[1..], run, true, started || owed != []).0;
        assert FinishesWithin(polls) == FinishesWithin(polls[1..]);
        assert owed == if polls[0].read.Snapshot? && polls[0].read.phase == Running && polls[0].submitOk && !started
                       then [StartedAck(run)] else [];
      }
    }
  }

  /** What a delivery adds between its brackets. */
  lemma HandleShape(d: Delivery, lane: Lane, started: bool, terminal: bool) returns (completed: bool)
    ensures Handle(d, lane, started, terminal).0 ==
      if ClosesRun(d, lane) then [ClosedAck(d.run)]
      else Acknowledged(d.run, Starts(d, lane) && !started && !terminal, Finishes(d, lane) && !terminal, completed)
  {
    completed := false;
    if Followed(d, lane) && !terminal {
      completed := FollowShape(d.polls, d.run, started);
    } else if !lane.hasClient {
      NoClient(d.polls, d.run, started);
    }
  }

  lemma {:induction false} NoClient(polls: seq<Poll>, run: string, started: bool)
    ensures Follow(polls, run, false, started).0 == []
  {
    if polls != [] { NoClient(polls[1..], run, started); }
  }

  // -------------------------------------------------------------- the history of a queue

  ghost predicate Closed(queue: seq<Delivery>, lane: Lane, run: string) {
    exists i :: 0 <= i < |queue| && queue[i].run == run && ClosesRun(queue[i], lane)
  }

  ghost predicate Finished(queue: seq<Delivery>, lane: Lane, run: string) {
    exists i :: 0 <= i < |queue| && queue[i].run == run && Finishes(queue[i], lane)
  }

  ghost predicate Begun(queue: seq<Delivery>, lane: Lane, run: string) {
    exists i :: 0 <= i < |queue| && queue[i].run == run && Starts(queue[i], lane)
  }

  /** A delivery may follow the ones before it: a run that was closed is neither closed, finished nor first started
      again, and a run that finished is not closed. */
  ghost predicate Fits(d: Delivery, queue: seq<Delivery>, lane: Lane) {
    && (Closed(queue, lane, d.run) ==>
          !ClosesRun(d, lane) && !Finishes(d, lane) && (Starts(d, lane) ==> Begun(queue, lane, d.run)))
    && (Finished(queue, lane, d.run) ==> !ClosesRun(d, lane))
  }

  ghost predicate Orderly(queue: seq<Delivery>, lane: Lane) {
    forall j :: 0 <= j < |queue| ==> Fits(queue[j], queue[..j], lane)
  }

  ghost predicate HasClosed(log: seq<Entry>, run: string) {
    exists i :: 0 <= i < |log| && log[i] == ClosedAck(run)
  }

  ghost predicate HasFinal(log: seq<Entry>, run: string) {
    HasTerminal(log, run) || HasClosed(log, run)
  }

  /** What one more entry does to the facts about a history. */
  lemma EntryStep(log: seq<Entry>, e: Entry, run: string)
    ensures HasStarted(log + [e], run) <==> HasStarted(log, run) || e == StartedAck(run)
    ensures HasTerminal(log + [e], run) <==> HasTerminal(log, run) || (e.TerminalAck? && e.run == run)
    ensures HasClosed(log + [e], run) <==> HasClosed(log, run) || e == ClosedAck(run)
  {
    var next := log + [e];
    assert next[|log|] == e && forall i :: 0 <= i < |log| ==> next[i] == log[i];
    if i :| 0 <= i < |log| && log[i] == StartedAck(run) { assert next[i] == log[i]; }
    if i :| 0 <= i < |log| && log[i] == ClosedAck(run) { assert next[i] == log[i]; }
    if i :| 0 <= i < |log| && log[i].TerminalAck? && log[i].run == run { assert next[i] == log[i]; }
  }

  lemma FinalStep(log: seq<Entry>, e: Entry)
    ensures FinalOnce(log + [e]) <==> FinalOnce(log) && (HasFinal(log, e.run) ==> !Final(e) && !e.StartedAck?)
  {
    var next := log + [e];
    assert next[|log|] == e && forall i :: 0 <= i < |log| ==> next[i] == log[i];
    if FinalOnce(next) {
      forall i, j | 0 <= i < j < |log| && log[i].run == log[j].run && Final(log[i])
        ensures !Final(log[j]) && !log[j].StartedAck?
      {
        assert next[i] == log[i] && next[j] == log[j];
      }
      if i :| 0 <= i < |log| && log[i].run == e.run && Final(log[i]) { assert next[i] == log[i]; }
    }
  }

  lemma BothFinals(log: seq<Entry>, run: string)
    requires FinalOnce(log)
    ensures !(HasTerminal(log, run) && HasClosed(log, run))
  {
  }

  /** The facts about the history after a delivery, read off the deliveries. */
  ghost predicate Mirrors(log: seq<Entry>, queue: seq<Delivery>, lane: Lane, run: string) {
    && (HasClosed(log, run) <==> Closed(queue, lane, run))
    && (HasTerminal(log, run) <==> Finished(queue, lane, run))
    && (HasStarted(log, run) ==> Begun(queue, lane, run))
    && (Begun(queue, lane, run) && !Finished(queue, lane, run) ==> HasStarted(log, run))
  }

  lemma QueueStep(queue: seq<Delivery>, d: Delivery, lane: Lane, run: string)
    ensures Closed(queue + [d], lane, run) <==> Closed(queue, lane, run) || (d.run == run && ClosesRun(d, lane))
    ensures Finished(queue + [d], lane, run) <==> Finished(queue, lane, run) || (d.run == run && Finishes(d, lane))
    ensures Begun(queue + [d], lane, run) <==> Begun(queue, lane, run) || (d.run == run && Starts(d, lane))
  {
    hide ClosesRun, Finishes, Starts;
    var next := queue + [d];
    assert next[|queue|] == d && forall i :: 0 <= i < |queue| ==> next[i] == queue[i];
    if i :| 0 <= i < |queue| && queue[i].run == run && ClosesRun(queue[i], lane) { assert next[i] == queue[i]; }
    if i :| 0 <= i < |queue| && queue[i].run == run && Finishes(queue[i], lane) { assert next[i] == queue[i]; }
    if i :| 0 <= i < |queue| && queue[i].run == run && Starts(queue[i], lane) { assert next[i] == queue[i]; }
  }

  lemma OrderlyStep(queue: seq<Delivery>, d: Delivery, lane: Lane)
    ensures Orderly(queue + [d], lane) <==> Orderly(queue, lane) && Fits(d, queue, lane)
  {
    hide Fits;
    var next := queue + [d];
    assert next[..|queue|] == queue && next[|queue|] == d;
    forall j | 0 <= j < |queue| ensures Fits(next[j], next[..j], lane) <==> Fits(queue[j], queue[..j], lane)
    {
      assert next[..j] == queue[..j];
    }
  }

  /** What a delivery adds: its brackets, and a close, or a start and a terminal. */
  ghost predicate Adds(before: seq<Entry>, after: seq<Entry>, run: string, close: bool, start: bool, finish: bool) {
    && (HasClosed(after, run) <==> HasClosed(before, run) || close)
    && (HasTerminal(after, run) <==> HasTerminal(before, run) || finish)
    && (HasStarted(after, run) <==> HasStarted(before, run) || start)
    && (forall r :: r != run ==>
          && (HasClosed(after, r) <==> HasClosed(before, r))
          && (HasTerminal(after, r) <==> HasTerminal(before, r))
          && (HasStarted(after, r) <==> HasStarted(before, r)))
    && (FinalOnce(after) <==>
          FinalOnce(before) && (close || start || finish ==> !HasFinal(before, run)))
  }

  lemma AddEntry(before: seq<Entry>, log: seq<Entry>, e: Entry, close: bool, start: bool, finish: bool)
    requires Adds(before, log, e.run, close, start, finish) && !close && !finish
    ensures Adds(before, log + [e], e.run, close || e.ClosedAck?, start || e.StartedAck?, finish || e.TerminalAck?)
  {
    hide HasStarted, HasTerminal, HasClosed, FinalOnce;
    forall r ensures
      && (HasStarted(log + [e], r) <==> HasStarted(log, r) || e == StartedAck(r))
      && (HasTerminal(log + [e], r) <==> HasTerminal(log, r) || (e.TerminalAck? && e.run == r))
      && (HasClosed(log + [e], r) <==> HasClosed(log, r) || e == ClosedAck(r))
    {
      EntryStep(log, e, r);
    }
    FinalStep(log, e);
  }

  lemma AddEnd(before: seq<Entry>, log: seq<Entry>, e: Entry, close: bool, start: bool, finish: bool)
    requires Adds(before, log, e.run, close, start, finish) && e.End?
    ensures Adds(before, log + [e], e.run, close, start, finish)
  {
    hide HasStarted, HasTerminal, HasClosed, FinalOnce;
    forall r ensures
      && (HasStarted(log + [e], r) <==> HasStarted(log, r)) && (HasTerminal(log + [e], r) <==> HasTerminal(log, r))
      && (HasClosed(log + [e], r) <==> HasClosed(log, r))
    {
      EntryStep(log, e, r);
    }
    FinalStep(log, e);
  }

  lemma AddsNothing(log: seq<Entry>, run: string)
    ensures Adds(log, log, run, false, false, false)
  {
    hide HasStarted, HasTerminal, HasClosed, FinalOnce;
  }

  lemma BracketedAdds(before: seq<Entry>, d: Delivery, lane: Lane)
    ensures var started, terminal := HasStarted(before, d.run), HasTerminal(before, d.run);
            var close := ClosesRun(d, lane);
            Adds(before, before + Bracketed(d, lane, started, terminal), d.run, close,
                 !close && Starts(d, lane) && !started && !terminal, !close && Finishes(d, lane) && !terminal)
  {
    hide Adds, HasStarted, HasTerminal, ClosesRun, Starts, Finishes, Handle;
    var run, started, terminal := d.run, HasStarted(before, d.run), HasTerminal(before, d.run);
    var close := ClosesRun(d, lane);
    var start, finish := !close && Starts(d, lane) && !started && !terminal, !close && Finishes(d, lane) && !terminal;
    var completed := HandleShape(d, lane, started, terminal);
    var (entries, why) := Handle(d, lane, started, terminal);
    AddsNothing(before, run);
    var log := before + [Begin(run)];
    AddEntry(before, before, Begin(run), false, false, false);
    if start {
      AddEntry(before, log, StartedAck(run), false, false, false);
      log := log + [StartedAck(run)];
    }
    if finish {
      AddEntry(before, log, TerminalAck(run, completed), false, start, false);
      log := log + [TerminalAck(run, completed)];
    }
    if close {
      AddEntry(before, log, ClosedAck(run), false, start, finish);
      log := log + [ClosedAck(run)];
    }
    AddEnd(before, log, End(run, why), close, start, finish);
    assert log + [End(run, why)] == before + Bracketed(d, lane, started, terminal);
  }

  /** For every queue the lane may be given: after an acknowledged terminal, on the bridge or on the fail-closed path,
      nothing more is acknowledged for the run, exactly when the deliveries are orderly. */
  lemma {:induction false} FinalOnceIff(queue: seq<Delivery>, lane: Lane)
    ensures forall run :: Mirrors(After([], queue, lane), queue, lane, run)
    ensures FinalOnce(After([], queue, lane)) <==> Orderly(queue, lane)
    decreases |queue|
  {
    if queue != [] {
      var init, d := queue[..|queue| - 1], queue[|queue| - 1];
      var before, log := After([], init, lane), After([], queue, lane);
      FinalOnceIff(init, lane);
      BracketedAdds(before, d, lane);
      assert init + [d] == queue;
      OrderlyStep(init, d, lane);
      assert !(ClosesRun(d, lane) && (Starts(d, lane) || Finishes(d, lane)));
      hide HasStarted, HasTerminal, HasClosed, Closed, Finished, Begun, ClosesRun, Starts, Finishes, FinalOnce, Orderly;
      hide Bracketed;
      assert Mirrors(before, init, lane, d.run);
      if FinalOnce(before) { BothFinals(before, d.run); }
      forall run ensures Mirrors(log, queue, lane, run)
      {
        assert Mirrors(before, init, lane, run);
        QueueStep(init, d, lane, run);
      }
    }
  }

  /** Every terminal the lane acknowledges mirrors the record its delivery followed. */
  lemma {:induction false} TerminalsMirrorTheRecord(queue: seq<Delivery>, lane: Lane, e: Entry)
    requires e in After([], queue, lane) && e.TerminalAck?
    ensures exists d :: d in queue && d.run == e.run && EndsAs(d.polls, e.completed)
    decreases |queue|
  {
    var init, d := queue[..|queue| - 1], queue[|queue| - 1];
    var before := After([], init, lane);
    hide EndsAs, HasStarted, HasTerminal;
    if e in before {
      TerminalsMirrorTheRecord(init, lane, e);
      var o :| o in init && o.run == e.run && EndsAs(o.polls, e.completed);
      assert o in queue;
    } else {
      ReleaseReasons(d.polls, d.run, lane.hasClient, HasStarted(before, d.run));
      assert d in queue;
    }
  }

  /** The fail-closed path keeps no ledger: a run can be closed and then started, and end with two acknowledged
      terminals. */
  method FailClosedBypassesTheLedger() returns (agent: AssignmentAgent)
    ensures agent.Valid() && agent.log ==
      [Begin("r"), ClosedAck("r"), End("r", NotExecuted), Begin("r"), StartedAck("r"), TerminalAck("r", true),
        End("r", Acked)]
  {
    agent := new AssignmentAgent(true, true, true);
    agent.Process(Delivery("r", true, true, true, true, []));
    var polls := [Poll(Snapshot(Running, ""), true), Poll(Snapshot(Succeeded, "handler_complete"), true)];
    assert polls[1..] == [polls[1]];
    assert !HasStarted(agent.log, "r") && !HasTerminal(agent.log, "r");
    agent.Process(Delivery("r", false, true, true, true, polls));
  }

  /** Two failed-closed deliveries of one run are two acknowledged terminals, although the ledgers stay valid. */
  lemma ClosedTwice()
    ensures var d := Delivery("r", true, true, true, true, []);
            var lane := Lane(true, true, true);
            !Orderly([d, d], lane) && !FinalOnce(After([], [d, d], lane))
  {
    var d, lane := Delivery("r", true, true, true, true, []), Lane(true, true, true);
    FinalOnceIff([d, d], lane);
    assert [d, d][..1][0] == d && Closed([d, d][..1], lane, "r");
    assert !Fits([d, d][1], [d, d][..1], lane);
  }
}
