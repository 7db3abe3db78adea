/** The board watcher: column reconciliation, the firing gates, and the memo that makes it fire on entry. */
module Watcher {
  import opened Common
  import opened Ordering

  datatype Phase = NoPhase | Pending | Running | Succeeded | Failed

  /** A run as the index reads it. */
  datatype Run = Run(name: string, ticket: string, created: int, phase: Phase, runClass: string, finalState: string,
    reason: string)

  /** What one poll knows of a ticket's runs: whether any is in flight, and the most recent one. */
  datatype RunPhases = RunPhases(active: bool, phase: Phase, run: string, finalState: string, runClass: string,
    reason: string)

  const TRIAGE := "triage"

  predicate InFlight(r: Run) {
    !r.phase.Succeeded? && !r.phase.Failed?
  }

  predicate Newer(a: Run, b: Run) {
    if a.created != b.created then b.created < a.created else Less(b.name, a.name)
  }

  // ---------------------------------------------------------------- the runs index

  predicate BoardTicket(t: string) {
    "KB-" <= t
  }

  function PhasesOf(active: bool, latest: Run): RunPhases {
    RunPhases(active, latest.phase, latest.name, latest.finalState, latest.runClass, if latest.phase.Failed? then
      latest.reason else "")
  }

  /** The entry of a ticket: active when some run of it has not settled, and drawn from the run created last, of equally
      late ones the one with the greatest name. */
  ghost predicate Indexes(entry: RunPhases, ticket: string, runs: seq<Run>) {
    && (entry.active <==>
          exists r :: r in runs && r.ticket == ticket && r.phase != Succeeded && r.phase != Failed)
    && exists r :: r in runs && r.ticket == ticket && Summarises(entry, r)
         && forall o :: o in runs && o.ticket == ticket ==>
              o.created < r.created || (o.created == r.created && (Less(o.name, r.name) || o.name == r.name))
  }

  ghost predicate Summarises(entry: RunPhases, r: Run) {
    && entry.phase == r.phase && entry.run == r.name && entry.finalState == r.finalState
    && entry.runClass == r.runClass && entry.reason == if r.phase == Failed then r.reason else ""
  }

  lemma LatestIndexes(active: bool, r: Run, ticket: string, runs: seq<Run>)
    requires Latest(r, ticket, runs) && (active <==> exists o :: o in runs && o.ticket == ticket && InFlight(o))
    ensures Indexes(PhasesOf(active, r), ticket, runs)
  {
    assert active <==> exists o :: o in runs && o.ticket == ticket && o.phase != Succeeded && o.phase != Failed by {
      if active {
        var o :| o in runs && o.ticket == ticket && InFlight(o);
        assert o.phase != Succeeded && o.phase != Failed;
      }
      forall o | o in runs && o.ticket == ticket && o.phase != Succeeded && o.phase != Failed ensures InFlight(o) {}
    }
    forall o | o in runs && o.ticket == ticket
      ensures o.created < r.created || (o.created == r.created && (Less(o.name, r.name) || o.name == r.name))
    {
      assert !Newer(o, r);
      LessTotal(o.name, r.name);
    }
    assert Summarises(PhasesOf(active, r), r);
  }

  ghost predicate Latest(r: Run, ticket: string, runs: seq<Run>) {
    r in runs && r.ticket == ticket && forall o :: o in runs && o.ticket == ticket ==> !Newer(o, r)
  }

  ghost predicate Grouped(groups: map<string, (bool, Run)>, runs: seq<Run>) {
    && (forall t :: t in groups <==> BoardTicket(t) && exists r :: r in runs && r.ticket == t)
    && (forall t :: t in groups ==>
      (groups[t].0 <==> exists r :: r in runs && r.ticket == t && InFlight(r)) && Latest(groups[t].1, t, runs))
  }

  lemma NewerIsOrder(a: Run, b: Run, c: Run)
    ensures !Newer(a, a)
    ensures Newer(a, b) ==> !Newer(b, a)
    ensures !Newer(a, b) && !Newer(b, c) ==> !Newer(a, c)
  {
    LessIrreflexive(a.name);
    LessTotal(a.name, b.name);
    LessTotal(b.name, c.name);
    LessTotal(a.name, c.name);
    if Less(c.name, a.name) && Less(a.name, b.name) { LessTransitive(c.name, a.name, b.name); }
  }

  method Accumulate(groups: map<string, (bool, Run)>, list: seq<Run>, ghost before: seq<Run>)
      returns (out: map<string, (bool, Run)>)
    requires Grouped(groups, before)
    ensures Grouped(out, before + list)
  {
    out := groups;
    assert before + list[..0] == before;
    for i := 0 to |list|
      invariant Grouped(out, before + list[..i])
    {
      var r := list[i];
      assert before + list[..i + 1] == before + list[..i] + [r];
      GroupStep(out, before + list[..i], r);
      if !BoardTicket(r.ticket) {
        continue;
      }
      var known := r.ticket in out;
      var active := (known && out[r.ticket].0) || InFlight(r);
      var latest := if !known || Newer(r, out[r.ticket].1) then r else out[r.ticket].1;
      out := out[r.ticket := (active, latest)];
    }
    assert list[..|list|] == list;
  }

  function Regrouped(groups: map<string, (bool, Run)>, r: Run): map<string, (bool, Run)> {
    if !BoardTicket(r.ticket) then groups
    else
      var known := r.ticket in groups;
      groups[r.ticket := ((known && groups[r.ticket].0) || InFlight(r), if !known || Newer(r, groups[r.ticket].1) then
        r else groups[r.ticket].1)]
  }

  lemma GroupStep(groups: map<string, (bool, Run)>, runs: seq<Run>, r: Run)
    requires Grouped(groups, runs)
    ensures Grouped(Regrouped(groups, r), runs + [r])
  {
    hide Newer;
    var next, out := runs + [r], Regrouped(groups, r);
    assert r in next && forall x :: x in runs ==> x in next;
    forall t | t in out ensures Latest(out[t].1, t, next)
    {
      if t == r.ticket {
        if t in groups {
          var cur := groups[t].1;
          forall o | o in next && o.ticket == t ensures !Newer(o, out[t].1)
          {
            NewerIsOrder(o, cur, r);
            NewerIsOrder(r, cur, o);
          }
        } else {
          NewerIsOrder(r, r, r);
          assert forall o :: o in runs ==> o.ticket != t;
        }
      }
    }
  }

  /** Lists the watcher's namespace and, after a cut-over, the project's; any failed listing fails the poll. */
  method IndexRunPhases(own: Option<seq<Run>>, project: Option<Option<seq<Run>>>)
      returns (index: Option<map<string, RunPhases>>)
    ensures index.None? <==> own.None? || (project.Some? && project.value.None?)
    ensures index.Some? ==>
      var runs := own.value + (if project.Some? then project.value.value else []);
      && (forall t :: t in index.value <==> "KB-" <= t && exists r :: r in runs && r.ticket == t)
      && (forall t :: t in index.value ==> Indexes(index.value[t], t, runs))
  {
    if own.None? {
      return None;
    }
    var groups := Accumulate(map[], own.value, []);
    assert [] + own.value == own.value;
    ghost var runs := own.value;
    if project.Some? {
      if project.value.None? {
        return None;
      }
      groups := Accumulate(groups, project.value.value, own.value);
      runs := own.value + project.value.value;
    } else {
      assert own.value + [] == own.value;
    }
    var out := Summaries(groups);
    forall t | t in out ensures Indexes(out[t], t, runs)
    {
      LatestIndexes(groups[t].0, groups[t].1, t, runs);
    }
    return Some(out);
  }

  method Summaries(groups: map<string, (bool, Run)>) returns (out: map<string, RunPhases>)
    ensures out.Keys == groups.Keys && forall t :: t in out ==> out[t] == PhasesOf(groups[t].0, groups[t].1)
  {
    out := map[];
    var todo := groups.Keys;
    while todo != {}
      invariant todo <= groups.Keys && out.Keys == groups.Keys - todo
      invariant forall t :: t in out ==> out[t] == PhasesOf(groups[t].0, groups[t].1)
      decreases todo
    {
      var t :| t in todo;
      todo := todo - {t};
      out := out[t := PhasesOf(groups[t].0, groups[t].1)];
    }
  }

  // ---------------------------------------------------------------- one ticket at one poll

  /** A listed card; routed says which columns its tags trigger a route in. */
  datatype Card = Card(ticket: string, column: int, tagged: bool, hasRepo: bool)

  /** Everything a poll sees of one ticket; createOk says whether a run it creates for the ticket, or an assignment it
      submits, would be taken. */
  datatype View = View(listed: Option<Card>, phases: Option<RunPhases>, submitted: bool, moveOk: bool, createOk: bool,
    routed: int -> bool)

  /** The watcher's memory of one ticket. */
  datatype Memory = Memory(lastRun: Option<RunPhases>, lastCard: Option<int>)

  datatype Board = Board(review: int, done: int)

  /** Where a settled run sends its card, if anywhere. */
  function Decision(ph: RunPhases, column: int, board: Board): Option<int> {
    match ph.phase
    case Succeeded =>
      if ph.runClass == TRIAGE then None
      else if ph.finalState == "need_assistance" || ph.finalState == "awaiting_human" || ph.finalState == "failed" then
        if column == board.done then Some(board.review) else None
      else if ph.finalState == "handler_complete" then Some(board.done)
      else None
    case Failed => Some(board.review)
    case _ => None
  }

  /** The card's column after reconciliation: it moves only on a run change, only by a decision, and only if the move
      succeeds. */
  function Landed(lastRun: Option<RunPhases>, column: int, phases: Option<RunPhases>, moveOk: bool, board: Board): int {
    if phases.None? || lastRun == phases then column
    else
      match Decision(phases.value, column, board)
      case None => column
      case Some(target) => if moveOk then target else column
  }

  function ColumnOf(m: Memory, v: View, board: Board): int
    requires v.listed.Some?
  {
    Landed(m.lastRun, v.listed.value.column, v.phases, v.moveOk, board)
  }

  /** Where reconciliation leaves a listed card, from the latest run's own fields: seen is the run the card was last
      reconciled with. */
  ghost predicate HandedOn(from: int, to: int, seen: Option<RunPhases>, latest: Option<RunPhases>, moveOk: bool,
      board: Board) {
    if latest.None? || seen == latest || !moveOk then to == from
    else
      var ph := latest.value;
      var settled := ph.phase == Succeeded && ph.runClass != TRIAGE;
      // A failed run parks its card for a human.
      && (ph.phase == Failed ==> to == board.review)
      && (settled && ph.finalState == "handler_complete" ==> to == board.done)
      // A verdict against the work only takes back a card already marked done.
      && (settled && ph.finalState in {"need_assistance", "awaiting_human", "failed"} ==>
            to == if from == board.done then board.review else from)
      // Runs in flight, triage runs and verdicts nobody knows move nothing.
      && (ph.phase == Failed
          || (settled && ph.finalState in {"handler_complete", "need_assistance", "awaiting_human", "failed"})
          || to == from)
  }

  lemma LandedIsHandedOn(from: int, seen: Option<RunPhases>, latest: Option<RunPhases>, moveOk: bool, board: Board)
    ensures HandedOn(from, Landed(seen, from, latest, moveOk, board), seen, latest, moveOk, board)
  {
  }

  /** A card is marked done only by a developing run whose own verdict says the work is complete. */
  lemma DoneIsEarned(from: int, seen: Option<RunPhases>, latest: Option<RunPhases>, moveOk: bool, board: Board)
    requires HandedOn(from, board.done, seen, latest, moveOk, board) && board.review != board.done
    ensures from == board.done
      || (latest.Some? && seen != latest && moveOk && latest.value.phase == Succeeded
          && latest.value.runClass != TRIAGE && latest.value.finalState == "handler_complete")
  {
    assert "handler_complete"[0] == 'h';
  }

  /** A ticket with no indexed run is forgotten, unless a submitted assignment is still in flight. */
  predicate Retained(v: View) {
    v.phases.Some? || v.submitted
  }

  predicate GatesOpen(card: Card, column: int, v: View) {
    card.tagged && v.routed(column) && card.hasRepo && !(v.phases.Some? && v.phases.value.active) && !v.submitted
  }

  function Remember(m: Memory, v: View, board: Board): Memory {
    Memory(if v.phases.None? then None else if v.listed.Some? then v.phases else m.lastRun,
           if v.listed.Some? then Some(ColumnOf(m, v, board)) else if Retained(v) then m.lastCard else None)
  }

  predicate Fires(m: Memory, v: View, board: Board) {
    && v.listed.Some?
    && var column := ColumnOf(m, v, board);
       GatesOpen(v.listed.value, column, v) && (m.lastCard != Some(column) || !Retained(v))
  }

  /** The run the poll tries to create is taken. */
  predicate Creates(m: Memory, v: View, board: Board) {
    Fires(m, v, board) && v.createOk
  }

  // ---------------------------------------------------------------- the poll

  /** What the routes, the index and the board answer during one poll, and which tickets have an assignment in flight.
      */
  datatype Answers = Answers(routesOk: bool, index: Option<map<string, RunPhases>>, cards: Option<seq<Card>>,
                             submitted: set<string>, moveOk: string -> bool, createOk: string -> bool,
                             routed: (string, int) -> bool)

  ghost predicate OneCardPerTicket(cards: seq<Card>) {
    forall i, j :: 0 <= i < j < |cards| ==> cards[i].ticket != cards[j].ticket
  }

  ghost function ListedCard(cards: seq<Card>, t: string): (c: Option<Card>)
    ensures c.Some? ==> c.value in cards && c.value.ticket == t
    ensures c.None? <==> forall i :: 0 <= i < |cards| ==> cards[i].ticket != t
  {
    if i :| 0 <= i < |cards| && cards[i].ticket == t then Some(cards[i]) else None
  }

  ghost function ViewOf(a: Answers, t: string): View
    requires a.index.Some? && a.cards.Some?
  {
    View(ListedCard(a.cards.value, t), Lookup(a.index.value, t), t in a.submitted, a.moveOk(t), a.createOk(t),
      c => a.routed(t, c))
  }

  function Lookup<T>(m: map<string, T>, t: string): Option<T> {
    if t in m then Some(m[t]) else None
  }

  class BoardWatcher {
    var lastRuns: map<string, RunPhases>
    var lastCards: map<string, int>
    const board: Board

    constructor (board: Board)
      ensures lastRuns == map[] && lastCards == map[] && this.board == board
    {
      lastRuns, lastCards := map[], map[];
      this.board := board;
    }

    function MemoryOf(t: string): Memory
      reads this
    {
      Memory(Lookup(lastRuns, t), Lookup(lastCards, t))
    }

    /** Moves one card if its run changed, and returns its column. */
    method ReconcileTaskColumn(card: Card, ph: RunPhases, moveOk: bool) returns (column: int)
      requires Lookup(lastRuns, card.ticket) != Some(ph)
      ensures column == Landed(Lookup(lastRuns, card.ticket), card.column, Some(ph), moveOk, board)
      ensures HandedOn(card.column, column, Lookup(lastRuns, card.ticket), Some(ph), moveOk, board)
    {
      var target := Decision(ph, card.column, board);
      if target.None? || target.value == card.column {
        return card.column;
      }
      return if moveOk then target.value else card.column;
    }

    /** A run is recorded as seen even when its move failed. */
    method ReconcileCards(cards: seq<Card>, index: map<string, RunPhases>, moveOk: string -> bool)
        returns (out: seq<Card>)
      requires OneCardPerTicket(cards)
      modifies this`lastRuns
      ensures |out| == |cards|
      ensures forall i :: 0 <= i < |cards| ==>
        out[i] == cards[i].(column := Landed(Lookup(old(lastRuns), cards[i].ticket), cards[i].column,
          Lookup(index, cards[i].ticket), moveOk(cards[i].ticket), board))
      ensures forall i :: 0 <= i < |cards| ==>
        HandedOn(cards[i].column, out[i].column, Lookup(old(lastRuns), cards[i].ticket),
          Lookup(index, cards[i].ticket), moveOk(cards[i].ticket), board)
      ensures forall t :: Lookup(lastRuns, t) == if t in index && Listed(cards, t) then Some(index[t])
          else Lookup(old(lastRuns), t)
    {
      hide Landed, Decision, Listed, HandedOn;
      out := cards;
      assert cards[..|cards|] == cards;
      NoneListed(cards);
      for i := 0 to |cards|
        invariant |out| == |cards| && forall j :: i <= j < |cards| ==> out[j] == cards[j]
        invariant forall j :: 0 <= j < i ==>
          out[j] == cards[j].(column := Landed(Lookup(old(lastRuns), cards[j].ticket), cards[j].column,
            Lookup(index, cards[j].ticket), moveOk(cards[j].ticket), board))
        invariant forall t :: Lookup(lastRuns, t) == if t in index && Listed(cards[..i], t) then Some(index[t])
            else Lookup(old(lastRuns), t)
      {
        var t := cards[i].ticket;
        NextListed(cards, i);
        LandedIdle(cards[i].column, Lookup(index, t), moveOk(t), board);
        if t !in index {
          continue;
        }
        if t in lastRuns && lastRuns[t] == index[t] {
          continue;
        }
        var column := ReconcileTaskColumn(out[i], index[t], moveOk(t));
        out := out[i := out[i].(column := column)];
        lastRuns := lastRuns[t := index[t]];
      }
      forall i | 0 <= i < |cards|
        ensures HandedOn(cards[i].column, out[i].column, Lookup(old(lastRuns), cards[i].ticket),
          Lookup(index, cards[i].ticket), moveOk(cards[i].ticket), board)
      {
        var t := cards[i].ticket;
        LandedIsHandedOn(cards[i].column, Lookup(old(lastRuns), t), Lookup(index, t), moveOk(t), board);
      }
    }

    method Forget(index: map<string, RunPhases>, submitted: set<string>)
      modifies this`lastRuns, this`lastCards
      ensures lastRuns == map t | t in old(lastRuns) && t in index :: old(lastRuns)[t]
      ensures lastCards == map t | t in old(lastCards) && (t in index || t in submitted) :: old(lastCards)[t]
    {
      var todo, was := lastRuns.Keys, lastRuns;
      while todo != {}
        invariant todo <= was.Keys && lastCards == old(lastCards)
        invariant lastRuns == map t | t in was && (t in todo || t in index) :: was[t]
        decreases todo
      {
        var t :| t in todo;
        todo := todo - {t};
        if t !in index {
          lastRuns := lastRuns - {t};
        }
      }
      var left, cards := lastCards.Keys, lastCards;
      while left != {}
        invariant left <= cards.Keys && lastRuns == map t | t in was && t in index :: was[t]
        invariant lastCards == map t | t in cards && (t in left || t in index || t in submitted) :: cards[t]
        decreases left
      {
        var t :| t in left;
        left := left - {t};
        if t in index {
          continue;
        }
        if t in submitted {
          continue;
        }
        lastCards := lastCards - {t};
      }
    }

    /** The memo is written before any gate is consulted, and a failed create does not undo it. */
    method FireEntries(cards: seq<Card>, index: map<string, RunPhases>, submitted: set<string>,
        createOk: string -> bool, routed: (string, int) -> bool) returns (fires: seq<string>, created: seq<string>)
      requires OneCardPerTicket(cards)
      modifies this`lastCards
      ensures forall t :: Lookup(lastCards, t) == if Listed(cards, t) then Some(ColumnIn(cards, t))
          else Lookup(old(lastCards), t)
      ensures forall t :: t in fires <==> exists i ::
          0 <= i < |cards| && cards[i].ticket == t
          && Enters(cards[i], Lookup(old(lastCards), t), index, submitted, routed)
      ensures forall t :: t in created <==> t in fires && createOk(t)
    {
      fires, created := [], [];
      for i := 0 to |cards|
        invariant forall t :: Lookup(lastCards, t) == if Listed(cards[..i], t) then Some(ColumnIn(cards, t))
            else Lookup(old(lastCards), t)
        invariant forall t :: t in fires <==> exists j ::
            0 <= j < i && cards[j].ticket == t && Enters(cards[j], Lookup(old(lastCards), t), index, submitted, routed)
        invariant forall t :: t in created <==> t in fires && createOk(t)
      {
        var card := cards[i];
        var t := card.ticket;
        ColumnAt(cards, i);
        var known := Lookup(lastCards, t);
        lastCards := lastCards[t := card.column];
        if !card.tagged { continue; }
        if !routed(t, card.column) { continue; }
        if !card.hasRepo { continue; }
        if t in index && index[t].active { continue; }
        if t in submitted { continue; }
        if known == Some(card.column) { continue; }
        fires := fires + [t];
        if !createOk(t) { continue; }
        created := created + [t];
      }
    }

    /** One poll; any failed read changes nothing and fires nothing. */
    method Poll(a: Answers) returns (fires: Option<seq<string>>, created: seq<string>)
      requires a.cards.Some? ==> OneCardPerTicket(a.cards.value)
      modifies this
      ensures fires.None? <==> !a.routesOk || a.index.None? || a.cards.None?
      ensures fires.None? ==> lastRuns == old(lastRuns) && lastCards == old(lastCards) && created == []
      ensures fires.Some? ==> forall t ::
        && MemoryOf(t) == Remember(old(MemoryOf(t)), ViewOf(a, t), board)
        && (t in fires.value <==> Fires(old(MemoryOf(t)), ViewOf(a, t), board))
        && (t in created <==> Creates(old(MemoryOf(t)), ViewOf(a, t), board))
      ensures fires.Some? ==> forall card :: card in a.cards.value ==>
        && card.ticket in lastCards
        && HandedOn(card.column, lastCards[card.ticket], Lookup(old(lastRuns), card.ticket),
             Lookup(a.index.value, card.ticket), a.moveOk(card.ticket), board)
    {
      if !a.routesOk || a.index.None? || a.cards.None? {
        return None, [];
      }
      hide Landed, Decision, Enters, ColumnIn, ListedCard;
      var index := a.index.value;
      var cards := ReconcileCards(a.cards.value, index, a.moveOk);
      assert OneCardPerTicket(cards);
      Forget(index, a.submitted);
      ghost var kept := lastCards;
      var fired, made := FireEntries(cards, index, a.submitted, a.createOk, a.routed);
      forall t
        ensures MemoryOf(t) == Remember(old(MemoryOf(t)), ViewOf(a, t), board)
        ensures t in fired <==> Fires(old(MemoryOf(t)), ViewOf(a, t), board)
      {
        TicketPoll(a, cards, t, old(MemoryOf(t)), Lookup(kept, t), MemoryOf(t), fired, board);
      }
      forall card | card in a.cards.value
        ensures card.ticket in lastCards
        ensures HandedOn(card.column, lastCards[card.ticket], Lookup(old(lastRuns), card.ticket),
          Lookup(index, card.ticket), a.moveOk(card.ticket), board)
      {
        var i :| 0 <= i < |cards| && a.cards.value[i] == card;
        assert cards[i].ticket == card.ticket;
        ListedAs(cards, i);
      }
      return Some(fired), made;
    }
  }

  /** What the three stages of a poll do to one ticket is one step of its memory. */
  lemma TicketPoll(a: Answers, cards: seq<Card>, t: string, m: Memory, kept: Option<int>, after: Memory,
      fires: seq<string>, board: Board)
    requires a.index.Some? && a.cards.Some? && OneCardPerTicket(a.cards.value) && OneCardPerTicket(cards)
        && |cards| == |a.cards.value|
    requires forall i :: 0 <= i < |cards| && cards[i].ticket == t ==>
      var was := a.cards.value[i];
      cards[i] == was.(column := Landed(m.lastRun, was.column, Lookup(a.index.value, t), a.moveOk(t), board))
    requires forall i :: 0 <= i < |cards| ==> cards[i].ticket == a.cards.value[i].ticket
    requires after.lastRun == if t !in a.index.value then None
        else if Listed(a.cards.value, t) then Some(a.index.value[t]) else m.lastRun
    requires kept == if t in a.index.value || t in a.submitted then m.lastCard else None
    requires after.lastCard == if Listed(cards, t) then Some(ColumnIn(cards, t)) else kept
    requires t in fires <==> exists i ::
        0 <= i < |cards| && cards[i].ticket == t && Enters(cards[i], kept, a.index.value, a.submitted, a.routed)
    ensures after == Remember(m, ViewOf(a, t), board)
    ensures t in fires <==> Fires(m, ViewOf(a, t), board)
  {
    hide Landed;
    var v := ViewOf(a, t);
    if Listed(cards, t) {
      var i :| 0 <= i < |cards| && cards[i].ticket == t;
      ColumnAt(cards, i);
      ListedAt(a.cards.value, i);
      assert forall j :: 0 <= j < |cards| && cards[j].ticket == t ==> j == i;
      assert ColumnOf(m, v, board) == cards[i].column;
    }
  }

  ghost predicate Listed(cards: seq<Card>, t: string) {
    exists i :: 0 <= i < |cards| && cards[i].ticket == t
  }

  lemma ListedAs(cards: seq<Card>, i: nat)
    requires OneCardPerTicket(cards) && i < |cards|
    ensures Listed(cards, cards[i].ticket) && ColumnIn(cards, cards[i].ticket) == cards[i].column
  {
    ColumnAt(cards, i);
  }

  lemma NoneListed(cards: seq<Card>)
    ensures forall t :: !Listed(cards[..0], t)
  {
  }

  lemma NextListed(cards: seq<Card>, i: nat)
    requires OneCardPerTicket(cards) && i < |cards|
    ensures !Listed(cards[..i], cards[i].ticket)
    ensures forall t :: Listed(cards[..i + 1], t) <==> Listed(cards[..i], t) || t == cards[i].ticket
  {
    forall t ensures Listed(cards[..i + 1], t) <==> Listed(cards[..i], t) || t == cards[i].ticket
    {
      assert cards[..i + 1][i] == cards[i];
      if j :| 0 <= j < i && cards[j].ticket == t { assert cards[..i][j].ticket == t && cards[..i + 1][j].ticket == t; }
    }
  }

  lemma LandedIdle(column: int, phases: Option<RunPhases>, moveOk: bool, board: Board)
    ensures Landed(phases, column, phases, moveOk, board) == column
    ensures forall lastRun :: Landed(lastRun, column, None, moveOk, board) == column
  {
  }

  lemma ListedAt(cards: seq<Card>, i: nat)
    requires OneCardPerTicket(cards) && i < |cards|
    ensures ListedCard(cards, cards[i].ticket) == Some(cards[i])
  {
  }

  /** A card that passes every gate in a column its ticket was not last seen in. */
  predicate Enters(card: Card, known: Option<int>, index: map<string, RunPhases>, submitted: set<string>,
      routed: (string, int) -> bool) {
    && card.tagged && routed(card.ticket, card.column) && card.hasRepo
    && !(card.ticket in index && index[card.ticket].active) && card.ticket !in submitted
    && known != Some(card.column)
  }

  ghost function ColumnIn(cards: seq<Card>, t: string): int
    requires Listed(cards, t)
  {
    var i :| 0 <= i < |cards| && cards[i].ticket == t;
    cards[i].column
  }

  lemma ColumnAt(cards: seq<Card>, i: nat)
    requires OneCardPerTicket(cards) && i < |cards|
    ensures ColumnIn(cards, cards[i].ticket) == cards[i].column
  {
  }

  // ---------------------------------------------------------------- over any sequence of polls

  function Exec(m: Memory, views: seq<View>, board: Board): Memory
    decreases |views|
  {
    if views == [] then m else Exec(Remember(m, views[0], board), views[1..], board)
  }

  function FireCount(m: Memory, views: seq<View>, board: Board): nat
    decreases |views|
  {
    if views == [] then 0
    else (if Fires(m, views[0], board) then 1 else 0) + FireCount(Remember(m, views[0], board), views[1..], board)
  }

  function CreateCount(m: Memory, views: seq<View>, board: Board): nat
    decreases |views|
  {
    if views == [] then 0
    else
      (if Creates(m, views[0], board) then 1 else 0) + CreateCount(Remember(m, views[0], board), views[1..], board)
  }

  /** How often the card was listed in another column than the one last recorded. */
  function Changes(m: Memory, views: seq<View>, board: Board): nat
    decreases |views|
  {
    if views == [] then 0
    else
      var v := views[0];
      (if v.listed.Some? && m.lastCard.Some? && m.lastCard != Some(ColumnOf(m, v, board)) then 1 else 0)
      + Changes(Remember(m, v, board), views[1..], board)
  }

  /** While the ticket stays known, fires are bounded by the column changes, plus one for a first sighting. */
  lemma {:induction false} FiresAreBounded(m: Memory, views: seq<View>, board: Board)
    requires forall i :: 0 <= i < |views| ==> Retained(views[i])
    ensures FireCount(m, views, board) <= Changes(m, views, board) + if m.lastCard.None? then 1 else 0
    decreases |views|
  {
    hide ColumnOf, GatesOpen;
    if views != [] {
      FiresAreBounded(Remember(m, views[0], board), views[1..], board);
    }
  }

  lemma {:induction false} ExecSplit(m: Memory, views: seq<View>, i: nat, board: Board)
    requires i < |views|
    ensures Exec(m, views[..i + 1], board) == Remember(Exec(m, views[..i], board), views[i], board)
    decreases |views|
  {
    assert views[..i + 1][1..] == views[1..][..i];
    if i > 0 {
      assert views[..i][1..] == views[1..][..i - 1];
      ExecSplit(Remember(m, views[0], board), views[1..], i - 1, board);
    } else {
      assert views[..1][1..] == [];
    }
  }

  /** The memo is the post-reconciliation column of the last poll that listed the card. */
  lemma {:induction false} MemoIsLastListed(m: Memory, views: seq<View>, k: nat, j: nat, board: Board)
    requires k < j <= |views| && views[k].listed.Some?
    requires forall l :: k < l < j ==> views[l].listed.None? && Retained(views[l])
    ensures Exec(m, views[..j], board).lastCard == Some(ColumnOf(Exec(m, views[..k], board), views[k], board))
  {
    ExecSplit(m, views, j - 1, board);
    if j > k + 1 { MemoIsLastListed(m, views, k, j - 1, board); }
  }

  /** A later fire needs every run of the ticket settled and the card in another column than at the last poll that
      listed it. */
  lemma FiresOnEntryOnly(m: Memory, views: seq<View>, k: nat, j: nat, board: Board)
    requires k < j < |views| && views[k].listed.Some? && Retained(views[j])
    requires forall l :: k < l < j ==> views[l].listed.None? && Retained(views[l])
    requires Fires(Exec(m, views[..j], board), views[j], board)
    ensures views[j].phases.Some? && !views[j].phases.value.active && !views[j].submitted
    ensures ColumnOf(Exec(m, views[..j], board), views[j], board) != ColumnOf(Exec(m, views[..k], board), views[k],
        board)
  {
    MemoIsLastListed(m, views, k, j, board);
  }

  /** The card is listed in one and the same column at each of these polls. */
  predicate Stays(m: Memory, views: seq<View>, column: int, board: Board)
    decreases |views|
  {
    views == [] ||
    (views[0].listed.Some? && ColumnOf(m, views[0], board) == column
     && Stays(Remember(m, views[0], board), views[1..], column, board))
  }

  /** And its ticket is never forgotten meanwhile. */
  predicate Resides(m: Memory, views: seq<View>, column: int, board: Board) {
    Stays(m, views, column, board) && forall i :: 0 <= i < |views| ==> Retained(views[i])
  }

  lemma {:induction false} ResidencyNeverFires(m: Memory, views: seq<View>, column: int, board: Board)
    requires m.lastCard == Some(column) && Resides(m, views, column, board)
    ensures FireCount(m, views, board) == 0 && CreateCount(m, views, board) == 0
    decreases |views|
  {
    if views != [] { ResidencyNeverFires(Remember(m, views[0], board), views[1..], column, board); }
  }

  /** A stay in a column fires once if the gates were open at the poll that saw the entry, and never otherwise. When
      that one create fails, the stay makes no run at all. */
  lemma EntryFiresIffGatesOpen(m: Memory, views: seq<View>, column: int, board: Board)
    requires views != [] && m.lastCard != Some(column) && Resides(m, views, column, board)
    ensures FireCount(m, views, board) == if GatesOpen(views[0].listed.value, column, views[0]) then 1 else 0
    ensures CreateCount(m, views, board) == if views[0].createOk then FireCount(m, views, board) else 0
  {
    ResidencyNeverFires(Remember(m, views[0], board), views[1..], column, board);
  }

  /** The poll finds the gates open and its create is taken. */
  predicate CanCreate(v: View, column: int) {
    v.listed.Some? && GatesOpen(v.listed.value, column, v) && v.createOk
  }

  lemma {:induction false} OldCardCreatesIff(m: Memory, views: seq<View>, column: int, board: Board)
    requires m.lastCard == Some(column) && Stays(m, views, column, board)
    ensures CreateCount(m, views, board) > 0 <==>
      exists i :: 0 <= i < |views| && CanCreate(views[i], column) && !Retained(views[i])
    decreases |views|
  {
    if views != [] {
      var rest := views[1..];
      OldCardCreatesIff(Remember(m, views[0], board), rest, column, board);
      assert forall i :: 0 <= i < |rest| ==> rest[i] == views[i + 1];
      assert forall i :: 0 < i < |views| ==> views[i] == rest[i - 1];
      hide ColumnOf, GatesOpen, Retained;
    }
  }

  /** A stay makes a run exactly when the create succeeds at the entry, or at a later poll that finds the ticket with
      neither an indexed run nor an assignment in flight: then the memo was forgotten and the fire is tried again. So a
      failed create is repeated at every poll for a ticket without runs, and lost for one with settled runs. */
  lemma StayCreatesIff(m: Memory, views: seq<View>, column: int, board: Board)
    requires views != [] && m.lastCard != Some(column) && Stays(m, views, column, board)
    ensures CreateCount(m, views, board) > 0 <==>
      exists i :: 0 <= i < |views| && CanCreate(views[i], column) && (i == 0 || !Retained(views[i]))
  {
    var rest := views[1..];
    OldCardCreatesIff(Remember(m, views[0], board), rest, column, board);
    assert forall i :: 0 <= i < |rest| ==> rest[i] == views[i + 1];
    assert forall i :: 0 < i < |views| ==> views[i] == rest[i - 1];
    hide ColumnOf, GatesOpen, Retained;
  }

  /** So a card handed to a trigger column while its run is still in flight is never fired there, although the gates
      open later. */
  lemma HandoffDuringRunIsLost(board: Board) returns (m: Memory, views: seq<View>, column: int)
    ensures |views| == 2 && m.lastCard != Some(column) && Resides(m, views, column, board)
    ensures views[1].listed.Some? && GatesOpen(views[1].listed.value, column, views[1])
        && FireCount(m, views, board) == 0
  {
    var card := Card("KB-1", board.done + board.review + 1, true, true);
    column := card.column;
    var running := RunPhases(true, Running, "kb-1-1", "", TRIAGE, "");
    var settled := RunPhases(false, Succeeded, "kb-1-1", "ready_for_development", TRIAGE, "");
    m := Memory(Some(running), Some(column + 1));
    var first := View(Some(card), Some(running), false, true, true, c => true);
    var second := View(Some(card), Some(settled), false, true, true, c => true);
    views := [first, second];
    assert views[1..] == [second] && [second][1..] == [];
    var after := Remember(m, first, board);
    assert Stays(Remember(after, second, board), [], column, board);
    assert Stays(after, [second], column, board);
    EntryFiresIffGatesOpen(m, views, column, board);
  }
}
