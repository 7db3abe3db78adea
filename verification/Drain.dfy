/** Draining a run's event stream page by page: a drain may fail between pages, and the next one replays. */
module Drains {
  import opened Castle
  import opened Common
  import opened Events

  // ---------------------------------------------------------------- the stream and its pages

  predicate Increasing(stream: seq<Envelope>) {
    && (forall i :: 0 <= i < |stream| ==> stream[i].sequence > 0)
    && (forall i, j :: 0 <= i < j < |stream| ==> stream[i].sequence < stream[j].sequence)
  }

  /** How many leading events have a sequence number up to since. */
  function Position(stream: seq<Envelope>, since: nat): (p: nat)
    ensures p <= |stream|
    ensures forall i :: 0 <= i < p ==> stream[i].sequence <= since
    ensures p < |stream| ==> stream[p].sequence > since
  {
    if stream == [] || stream[0].sequence > since then 0 else 1 + Position(stream[1..], since)
  }

  /** The cursor after a page: the largest sequence number seen. */
  function Highest(cursor: nat, events: seq<Envelope>): nat
    decreases |events|
  {
    if events == [] then cursor
    else
      var h := Highest(cursor, events[..|events| - 1]);
      if events[|events| - 1].sequence > h then events[|events| - 1].sequence else h
  }

  lemma {:induction false} HighestIsLast(cursor: nat, stream: seq<Envelope>, at: nat, n: nat)
    requires Increasing(stream) && at <= n <= |stream| && Position(stream, cursor) == at
    ensures Highest(cursor, stream[at..n]) == if at == n then cursor else stream[n - 1].sequence
    decreases n - at
  {
    if at < n {
      SliceInit(stream, at, n);
      hide Position;
      HighestIsLast(cursor, stream, at, n - 1);
    }
  }

  lemma SliceInit<T>(s: seq<T>, at: nat, n: nat)
    requires at < n <= |s|
    ensures s[at..n][..n - at - 1] == s[at..n - 1] && s[at..n][n - at - 1] == s[n - 1]
  {
  }

  /** A page moves the cursor to its own end, and so does a next cursor that passes nothing it did not deliver. */
  lemma CursorAfterPage(stream: seq<Envelope>, cursor: nat, n: nat, count: nat, next: nat)
    requires Increasing(stream) && Position(stream, cursor) == n && n + count <= |stream|
    requires Position(stream, next) <= n + count
    ensures Position(stream, Max(Highest(cursor, stream[n..n + count]), next)) == n + count
  {
    hide Highest, Position, Increasing;
    HighestIsLast(cursor, stream, n, n + count);
    CursorAfterEvents(stream, cursor, n, n + count, next);
  }

  lemma CursorAfterEvents(stream: seq<Envelope>, cursor: nat, n: nat, k: nat, next: nat)
    requires Increasing(stream) && Position(stream, cursor) == n <= k <= |stream| && Position(stream, next) <= k
    ensures Position(stream, Max(if n == k then cursor else stream[k - 1].sequence, next)) == k
  {
    hide Position, Increasing;
    Neighbours(stream, cursor, n, k);
    Neighbours(stream, next, Position(stream, next), k);
    PositionIs(stream, Max(if n == k then cursor else stream[k - 1].sequence, next), k);
  }

  lemma Neighbours(stream: seq<Envelope>, since: nat, n: nat, k: nat)
    requires Increasing(stream) && Position(stream, since) == n <= k <= |stream|
    ensures n > 0 ==> stream[n - 1].sequence <= since
    ensures k < |stream| ==> since < stream[k].sequence
    ensures 0 < k < |stream| ==> stream[k - 1].sequence < stream[k].sequence
  {
  }

  lemma PositionIs(stream: seq<Envelope>, since: nat, p: nat)
    requires Increasing(stream) && p <= |stream|
    requires p > 0 ==> stream[p - 1].sequence <= since
    requires p < |stream| ==> stream[p].sequence > since
    ensures Position(stream, since) == p
  {
  }

  /** The server's answer to one page request: an error, or the events it can see, with its own next cursor. */
  datatype Reply = Unavailable | Visible(upTo: nat, next: nat)

  /** How many events a page holds that starts at position at. */
  function PageCount(at: nat, upTo: nat): nat {
    if upTo <= at then 0 else if upTo - at <= PAGE_SIZE then upTo - at else PAGE_SIZE
  }

  /** What the server may answer to a drain from position at: it never shows less of the stream than position m, and no
      next cursor passes an event that has not been delivered; page i starts i full pages after position at. */
  ghost predicate Serves(server: nat -> Reply, stream: seq<Envelope>, at: nat, m: nat) {
    forall i :: server(i).Visible? ==>
      && m <= server(i).upTo <= |stream|
      && Position(stream, server(i).next) <= at + PAGE_SIZE * i + PageCount(at + PAGE_SIZE * i, server(i).upTo)
  }

  lemma ServedPage(server: nat -> Reply, stream: seq<Envelope>, at: nat, m: nat, i: nat, n: nat)
    requires Serves(server, stream, at, m) && server(i).Visible? && n == at + PAGE_SIZE * i
    ensures m <= server(i).upTo <= |stream|
    ensures Position(stream, server(i).next) <= n + PageCount(n, server(i).upTo)
  {
  }

  /** Where a drain that has read some pages and stands at position at ends, and whether it succeeds. */
  ghost function Walk(server: nat -> Reply, at: nat, page: nat): (bool, nat)
    decreases MAX_PAGES - page
  {
    if page >= MAX_PAGES then (true, at)
    else
      match server(page)
      case Unavailable => (false, at)
      case Visible(upTo, _) =>
        var count := PageCount(at, upTo);
        if count < PAGE_SIZE then (true, at + count) else Walk(server, at + count, page + 1)
  }

  lemma WalkStep(server: nat -> Reply, at: nat, page: nat)
    ensures Walk(server, at, page) ==
      if page >= MAX_PAGES then (true, at)
      else if server(page).Unavailable? then (false, at)
      else
        var count := PageCount(at, server(page).upTo);
        if count < PAGE_SIZE then (true, at + count) else Walk(server, at + count, page + 1)
  {
  }

  lemma PageCountFits(at: nat, upTo: nat)
    ensures PageCount(at, upTo) <= PAGE_SIZE && (PageCount(at, upTo) < PAGE_SIZE ==> at + PageCount(at, upTo) >= upTo)
  {
  }

  function Reached(at: nat, upTo: nat): nat {
    if upTo <= at + PAGE_SIZE * MAX_PAGES then upTo else at + PAGE_SIZE * MAX_PAGES
  }

  /** A drain over one view of the stream reads all of it exactly when it is at most fifty pages long. */
  lemma {:induction false} WalkOverOneView(server: nat -> Reply, at: nat, page: nat, upTo: nat)
    requires forall i :: server(i).Visible? && server(i).upTo == upTo
    requires at <= upTo && page <= MAX_PAGES
    ensures Walk(server, at, page) ==
            (true, if upTo <= at + PAGE_SIZE * (MAX_PAGES - page) then upTo else at + PAGE_SIZE * (MAX_PAGES - page))
    decreases MAX_PAGES - page
  {
    if page < MAX_PAGES {
      assert server(page).Visible?;
      if upTo - at >= PAGE_SIZE { WalkOverOneView(server, at + PAGE_SIZE, page + 1, upTo); }
    }
  }

  /** No drain gets further than fifty pages. */
  lemma {:induction false} WalkIsBounded(server: nat -> Reply, at: nat, page: nat)
    requires page <= MAX_PAGES
    ensures at <= Walk(server, at, page).1 <= at + PAGE_SIZE * (MAX_PAGES - page) <= at + 10_000
    decreases MAX_PAGES - page
  {
    if page < MAX_PAGES && server(page).Visible? {
      WalkIsBounded(server, at + PageCount(at, server(page).upTo), page + 1);
    }
  }

  /** At most a page of the visible events whose sequence number exceeds since. */
  function Page(stream: seq<Envelope>, since: nat, upTo: nat): seq<Envelope>
    requires upTo <= |stream|
  {
    var p := Position(stream, since);
    if upTo <= p then [] else if upTo - p <= PAGE_SIZE then stream[p..upTo] else stream[p..p + PAGE_SIZE]
  }

  // ---------------------------------------------------------------- replays

  /** What the folded sequence raw must look like when the cursor stands at p although some failed
      drains already folded events up to m: scopes and terminals untouched in between agree. */
  ghost predicate Replayed(raw: seq<Envelope>, stream: seq<Envelope>, p: nat, m: nat)
    requires p <= m <= |stream|
  {
    && (forall s :: LastOf(Raw(stream[p..m]), s).None? ==> LastOf(Raw(raw), s) == LastOf(Raw(stream[..p]), s))
    && (LastTerminal(stream[p..m]).None? ==> LastTerminal(raw) == LastTerminal(stream[..p]))
    && (forall e :: e in raw ==> e in stream)
  }

  /** What has been folded when a drain that began at p with before already folded reaches n. */
  ghost function Upto(before: seq<Envelope>, stream: seq<Envelope>, p: nat, n: nat): seq<Envelope>
    requires p <= n <= |stream|
  {
    before + stream[p..n]
  }

  lemma Halves<T>(s: seq<T>, p: nat, m: nat, n: nat)
    requires p <= m <= n <= |s|
    ensures s[p..n] == s[p..m] + s[m..n] && s[..n] == s[..p] + s[p..n]
  {
  }

  /** A drain that gets at least as far as every failed one before it erases their traces. */
  lemma ReplayCompletes(raw: seq<Envelope>, stream: seq<Envelope>, p: nat, m: nat, n: nat)
    requires p <= m <= n <= |stream| && Replayed(raw, stream, p, m)
    ensures forall s :: LastOf(Raw(raw + stream[p..n]), s) == LastOf(Raw(stream[..n]), s)
    ensures LastTerminal(raw + stream[p..n]) == LastTerminal(stream[..n])
  {
    hide Raw, LastOf, LastTerminal;
    Halves(stream, p, m, n);
    RawConcat(raw, stream[p..n]);
    RawConcat(stream[..p], stream[p..n]);
    RawConcat(stream[p..m], stream[m..n]);
    LastTerminalConcat(raw, stream[p..n]);
    LastTerminalConcat(stream[..p], stream[p..n]);
    LastTerminalConcat(stream[p..m], stream[m..n]);
    forall s ensures LastOf(Raw(raw + stream[p..n]), s) == LastOf(Raw(stream[..n]), s)
    {
      LastOfConcat(Raw(raw), Raw(stream[p..n]), s);
      LastOfConcat(Raw(stream[..p]), Raw(stream[p..n]), s);
      LastOfConcat(Raw(stream[p..m]), Raw(stream[m..n]), s);
    }
  }

  /** A drain cut short at x leaves a replay behind. */
  lemma ReplayInterrupted(raw: seq<Envelope>, stream: seq<Envelope>, p: nat, m: nat, x: nat, m': nat)
    requires p <= m <= m' <= |stream| && p <= x <= m' && Replayed(raw, stream, p, m)
    ensures Replayed(raw + stream[p..x], stream, p, m')
  {
    hide Raw, LastOf, LastTerminal;
    Halves(stream, p, x, m');
    Halves(stream, p, m, m');
    RawConcat(raw, stream[p..x]);
    RawConcat(stream[p..x], stream[x..m']);
    RawConcat(stream[p..m], stream[m..m']);
    LastTerminalConcat(raw, stream[p..x]);
    LastTerminalConcat(stream[p..x], stream[x..m']);
    LastTerminalConcat(stream[p..m], stream[m..m']);
    forall s | LastOf(Raw(stream[p..m']), s).None?
      ensures LastOf(Raw(raw + stream[p..x]), s) == LastOf(Raw(stream[..p]), s)
    {
      LastOfConcat(Raw(raw), Raw(stream[p..x]), s);
      LastOfConcat(Raw(stream[p..x]), Raw(stream[x..m']), s);
      LastOfConcat(Raw(stream[p..m]), Raw(stream[m..m']), s);
    }
  }

  lemma SettledReplay(raw: seq<Envelope>, stream: seq<Envelope>, n: nat)
    requires n <= |stream| && forall e :: e in raw ==> e in stream
    requires forall s :: LastOf(Raw(raw), s) == LastOf(Raw(stream[..n]), s)
    requires LastTerminal(raw) == LastTerminal(stream[..n])
    ensures Replayed(raw, stream, n, n)
  {
  }

  lemma SameLastsSameFaith(active: map<string, LifecycleEvent>, a: seq<LifecycleEvent>, b: seq<LifecycleEvent>)
    requires Faithful(active, a) && forall s :: LastOf(a, s) == LastOf(b, s)
    ensures Faithful(active, b)
  {
  }

  lemma ReplayedHasOneAdapter(raw: seq<Envelope>, stream: seq<Envelope>)
    requires OneAdapterPerScope(Raw(stream)) && forall e :: e in raw ==> e in stream
    ensures OneAdapterPerScope(Raw(raw)) && forall e :: e in Raw(raw) ==> e in Raw(stream)
  {
    hide LifecycleOf;
    forall e | e in Raw(raw) ensures e in Raw(stream)
    {
      RawMembers(raw, e);
      RawMembers(stream, e);
    }
  }

  /** The active set of a settled history is that of the consumed prefix of the stream. */
  lemma SettledIsFaithful(raw: seq<Envelope>, stream: seq<Envelope>, n: nat)
    requires n <= |stream| && Replayed(raw, stream, n, n) && OneAdapterPerScope(Raw(stream))
    requires NoClash(raw) || KeysApart(Raw(stream))
    ensures Faithful(Active(ConsumeAll(FRESH, raw).lifecycle), Raw(stream[..n]))
  {
    hide ConsumeAll, Active, Faithful, OneAdapterPerScope, NoClash, KeysApart;
    ReplayedHasOneAdapter(raw, stream);
    if KeysApart(Raw(stream)) { KeysApartNeverClash(raw, Raw(stream)); }
    HistoryIsFaithfulIff(raw);
    assert FaithfulAt(raw, |raw|);
    assert raw[..|raw|] == raw;
    assert stream[n..n] == [];
    SameLastsSameFaith(Active(ConsumeAll(FRESH, raw).lifecycle), Raw(raw), Raw(stream[..n]));
  }

  // ---------------------------------------------------------------- the step list

  /** One drain: the stretch of the stream it folded, and whether it succeeded. */
  datatype Leg = Leg(start: nat, end: nat, complete: bool)

  function Stretch(stream: seq<Envelope>, l: Leg): seq<Envelope> {
    if l.start <= l.end <= |stream| then stream[l.start..l.end] else []
  }

  /** Where the next drain starts. */
  function Standing(legs: seq<Leg>): nat {
    if legs == [] then 0 else if legs[|legs| - 1].complete then legs[|legs| - 1].end else legs[|legs| - 1].start
  }

  /** Each drain starts where the last successful one stopped. */
  ghost predicate Chain(legs: seq<Leg>, stream: seq<Envelope>)
    decreases |legs|
  {
    legs == [] ||
    var l := legs[|legs| - 1];
    l.start <= l.end <= |stream| && Standing(legs[..|legs| - 1]) == l.start && Chain(legs[..|legs| - 1], stream)
  }

  function Told(legs: seq<Leg>, stream: seq<Envelope>): seq<Envelope>
    decreases |legs|
  {
    if legs == [] then [] else Told(legs[..|legs| - 1], stream) + Stretch(stream, legs[|legs| - 1])
  }

  function Own(stream: seq<Envelope>, l: Leg): seq<StepRecord> {
    Outcomes(Stretch(stream, l))
  }

  function ToldSteps(legs: seq<Leg>, stream: seq<Envelope>): seq<StepRecord>
    decreases |legs|
  {
    if legs == [] then [] else ToldSteps(legs[..|legs| - 1], stream) + Own(stream, legs[|legs| - 1])
  }

  /** The outcomes that were due when the drains stand where they do. */
  function Due(stream: seq<Envelope>, at: nat): seq<StepRecord>
    requires at <= |stream|
  {
    Outcomes(stream[..at])
  }

  lemma {:induction false} StepsAreTold(legs: seq<Leg>, stream: seq<Envelope>)
    ensures Outcomes(Told(legs, stream)) == ToldSteps(legs, stream)
    decreases |legs|
  {
    if legs != [] {
      StepsAreTold(legs[..|legs| - 1], stream);
      OutcomesConcat(Told(legs[..|legs| - 1], stream), Stretch(stream, legs[|legs| - 1]));
    }
  }

  lemma DueGrows(stream: seq<Envelope>, a: nat, b: nat)
    requires a <= b <= |stream|
    ensures Due(stream, b) == Due(stream, a) + Outcomes(stream[a..b])
  {
    Halves(stream, a, a, b);
    OutcomesConcat(stream[..a], stream[a..b]);
  }

  lemma {:induction false} ChainStands(legs: seq<Leg>, stream: seq<Envelope>)
    requires Chain(legs, stream)
    ensures Standing(legs) <= |stream|
  {
    if legs != [] { ChainStands(legs[..|legs| - 1], stream); }
  }

  lemma {:induction false} ChainPrefix(legs: seq<Leg>, stream: seq<Envelope>, i: nat)
    requires Chain(legs, stream) && i <= |legs|
    ensures Chain(legs[..i], stream)
    decreases |legs|
  {
    if i == |legs| {
      assert legs[..i] == legs;
    } else {
      assert legs[..|legs| - 1][..i] == legs[..i];
      ChainPrefix(legs[..|legs| - 1], stream, i);
    }
  }

  lemma {:induction false} ToldPrefix(legs: seq<Leg>, stream: seq<Envelope>, i: nat)
    requires i <= |legs|
    ensures ToldSteps(legs[..i], stream) <= ToldSteps(legs, stream)
    decreases |legs|
  {
    if i == |legs| {
      assert legs[..i] == legs;
    } else {
      assert legs[..|legs| - 1][..i] == legs[..i];
      ToldPrefix(legs[..|legs| - 1], stream, i);
    }
  }

  lemma ToldNext(legs: seq<Leg>, stream: seq<Envelope>, i: nat)
    requires i < |legs|
    ensures ToldSteps(legs[..i + 1], stream) == ToldSteps(legs[..i], stream) + Own(stream, legs[i])
  {
    assert legs[..i + 1][..i] == legs[..i];
  }

  /** No failed drain folded an outcome. */
  ghost predicate NothingRetold(legs: seq<Leg>, stream: seq<Envelope>) {
    forall i :: 0 <= i < |legs| && !legs[i].complete ==> Own(stream, legs[i]) == []
  }

  /** Something is told twice, and nothing is missing. */
  lemma {:induction false} ToldCoversDue(legs: seq<Leg>, stream: seq<Envelope>)
    requires Chain(legs, stream) && Standing(legs) <= |stream|
    ensures NothingRetold(legs, stream) ==> ToldSteps(legs, stream) == Due(stream, Standing(legs))
    ensures !NothingRetold(legs, stream) ==> |ToldSteps(legs, stream)| > |Due(stream, Standing(legs))|
    decreases |legs|
  {
    if legs != [] {
      var n := |legs| - 1;
      var init, l := legs[..n], legs[n];
      ChainStands(init, stream);
      ToldCoversDue(init, stream);
      DueGrows(stream, l.start, l.end);
      RetoldStep(legs, stream);
      assert Own(stream, l) == Outcomes(stream[l.start..l.end]);
      hide Own, Due, Outcomes, NothingRetold;
      assert ToldSteps(legs, stream) == ToldSteps(init, stream) + Own(stream, l);
    } else {
      assert stream[..0] == [];
    }
  }

  lemma RetoldStep(legs: seq<Leg>, stream: seq<Envelope>)
    requires legs != []
    ensures var n := |legs| - 1;
            NothingRetold(legs, stream)
            <==> NothingRetold(legs[..n], stream) && (legs[n].complete || Own(stream, legs[n]) == [])
  {
    hide Own;
    var n := |legs| - 1;
    assert forall i :: 0 <= i < n ==> legs[..n][i] == legs[i];
  }

  /** The stored steps are the due ones. */
  ghost predicate Exact(legs: seq<Leg>, stream: seq<Envelope>)
    requires Standing(legs) <= |stream|
  {
    ConsumeAll(FRESH, Told(legs, stream)).steps == Capped(Due(stream, Standing(legs)))
  }

  lemma ExactIsToldCapped(legs: seq<Leg>, stream: seq<Envelope>)
    requires Standing(legs) <= |stream|
    ensures Exact(legs, stream) <==> Capped(ToldSteps(legs, stream)) == Capped(Due(stream, Standing(legs)))
  {
    TerminalAndSteps(Told(legs, stream));
    StepsAreTold(legs, stream);
  }

  /** While fewer outcomes than the cap are due, whatever drains failed and succeeded: the step list is exact
      exactly when no failed drain folded an outcome. */
  lemma StepsAreExactIff(legs: seq<Leg>, stream: seq<Envelope>)
    requires Chain(legs, stream) && Standing(legs) <= |stream| && |Due(stream, Standing(legs))| < MAX_STEPS
    ensures Exact(legs, stream) <==> NothingRetold(legs, stream)
  {
    ExactIsToldCapped(legs, stream);
    ToldCoversDue(legs, stream);
  }

  ghost predicate LandsAt(x: int, at: nat, own: seq<StepRecord>, due: seq<StepRecord>)
    requires at <= x < at + |own|
  {
    x < |due| && due[x] == own[x - at]
  }

  /** Outcomes folded at some place repeat, below the cap, the ones that are due there. */
  ghost predicate LandsRight(at: nat, own: seq<StepRecord>, due: seq<StepRecord>) {
    forall x :: at <= x < at + |own| && x < MAX_STEPS ==> LandsAt(x, at, own, due)
  }

  ghost predicate LegLandsRight(legs: seq<Leg>, i: nat, stream: seq<Envelope>, due: seq<StepRecord>)
    requires i < |legs|
  {
    LandsRight(|ToldSteps(legs[..i], stream)|, Own(stream, legs[i]), due)
  }

  lemma LandedStep(told: seq<StepRecord>, own: seq<StepRecord>, due: seq<StepRecord>)
    ensures LandsRight(0, told + own, due) <==> LandsRight(0, told, due) && LandsRight(|told|, own, due)
  {
    var all, n := told + own, |told|;
    forall x | 0 <= x < |all|
      ensures LandsAt(x, 0, all, due) <==> if x < n then LandsAt(x, 0, told, due) else LandsAt(x, n, own, due)
    {
    }
    hide LandsAt;
    if LandsRight(0, all, due) {
      forall x | 0 <= x < n && x < MAX_STEPS ensures LandsAt(x, 0, told, due) { assert LandsAt(x, 0, all, due); }
      forall x | n <= x < |all| && x < MAX_STEPS ensures LandsAt(x, n, own, due) { assert LandsAt(x, 0, all, due); }
    }
  }

  lemma {:induction false} LandedIff(legs: seq<Leg>, stream: seq<Envelope>, due: seq<StepRecord>)
    ensures LandsRight(0, ToldSteps(legs, stream), due)
            <==> forall i :: 0 <= i < |legs| ==> LegLandsRight(legs, i, stream, due)
    decreases |legs|
  {
    hide LandsRight, Own;
    if legs == [] {
      assert LandsRight(0, [], due) by { NothingLands(due); }
    } else {
      var n := |legs| - 1;
      var init := legs[..n];
      LandedIff(init, stream, due);
      LandedStep(ToldSteps(init, stream), Own(stream, legs[n]), due);
      forall i | 0 <= i < n ensures LegLandsRight(init, i, stream, due) <==> LegLandsRight(legs, i, stream, due)
      {
        assert init[..i] == legs[..i];
      }
      assert LegLandsRight(legs, n, stream, due) <==> LandsRight(|ToldSteps(init, stream)|, Own(stream, legs[n]), due);
    }
  }

  lemma NothingLands(due: seq<StepRecord>)
    ensures LandsRight(0, [], due)
  {
  }

  lemma CappedLands(told: seq<StepRecord>, due: seq<StepRecord>)
    requires |told| >= |due|
    ensures Capped(told) == Capped(due) <==> LandsRight(0, told, due)
  {
    if Capped(told) == Capped(due) {
      forall x | 0 <= x < |told| && x < MAX_STEPS ensures LandsAt(x, 0, told, due)
      {
        assert Capped(told)[x] == told[x];
      }
    }
    if LandsRight(0, told, due) {
      assert |told| > 0 ==> LandsAt(|Capped(told)| - 1, 0, told, due);
      forall x | 0 <= x < |Capped(told)| ensures x < |due| && Capped(told)[x] == due[x]
      {
        assert LandsAt(x, 0, told, due);
      }
    }
  }

  /** With the cap, drain by drain: the step list is exact exactly when every drain's outcomes repeat the due ones where
      they land. StepsAreExactIff and DistinctStepsAreExactIff give the conditions a reader can check on the drains. */
  lemma StepsLandIff(legs: seq<Leg>, stream: seq<Envelope>)
    requires Chain(legs, stream) && Standing(legs) <= |stream|
    ensures Exact(legs, stream)
            <==> forall i :: 0 <= i < |legs| ==> LegLandsRight(legs, i, stream, Due(stream, Standing(legs)))
  {
    hide Chain, Due, ToldSteps, Exact, LandsRight, LegLandsRight;
    ExactIsToldCapped(legs, stream);
    ToldCoversDue(legs, stream);
    CappedLands(ToldSteps(legs, stream), Due(stream, Standing(legs)));
    LandedIff(legs, stream, Due(stream, Standing(legs)));
  }

  lemma LegStands(legs: seq<Leg>, stream: seq<Envelope>, i: nat)
    requires Chain(legs, stream) && i < |legs|
    ensures Standing(legs[..i]) == legs[i].start <= legs[i].end <= |stream| && Chain(legs[..i], stream)
    ensures Own(stream, legs[i]) == Outcomes(stream[legs[i].start..legs[i].end])
  {
    ChainPrefix(legs, stream, i + 1);
    assert legs[..i + 1][..i] == legs[..i];
  }

  lemma OutcomesJoin(stream: seq<Envelope>, a: nat, b: nat, c: nat)
    requires a <= b <= c <= |stream|
    ensures Outcomes(stream[a..c]) == Outcomes(stream[a..b]) + Outcomes(stream[b..c])
  {
    Halves(stream, a, b, c);
    OutcomesConcat(stream[a..b], stream[b..c]);
  }

  /** While nothing more is told after a failed drain, the drains since have passed no outcome. */
  lemma {:induction false} SilentSince(legs: seq<Leg>, stream: seq<Envelope>, i: nat)
    requires Chain(legs, stream) && i < |legs| && !legs[i].complete
    requires |ToldSteps(legs, stream)| == |ToldSteps(legs[..i + 1], stream)|
    ensures legs[i].start <= Standing(legs) <= |stream| && Outcomes(stream[legs[i].start..Standing(legs)]) == []
    decreases |legs|
  {
    hide Own, Outcomes;
    var n, p := |legs| - 1, legs[i].start;
    LegStands(legs, stream, n);
    if i == n {
      assert stream[p..p] == [] && Outcomes(stream[p..p]) == [] by { NoOutcomes(); }
    } else {
      var init := legs[..n];
      assert init[..i + 1] == legs[..i + 1] && init[i] == legs[i];
      ToldPrefix(init, stream, i + 1);
      SilentSince(init, stream, i);
      OutcomesJoin(stream, p, legs[n].start, legs[n].end);
    }
  }

  lemma NoOutcomes()
    ensures Outcomes([]) == []
  {
  }

  /** What is told next after a failed drain is what it told first. */
  lemma {:induction false} NextTold(legs: seq<Leg>, stream: seq<Envelope>, i: nat)
    requires Chain(legs, stream) && i < |legs| && !legs[i].complete && Own(stream, legs[i]) != []
    requires |ToldSteps(legs, stream)| > |ToldSteps(legs[..i + 1], stream)|
    ensures ToldSteps(legs, stream)[|ToldSteps(legs[..i + 1], stream)|] == Own(stream, legs[i])[0]
    decreases |legs|
  {
    hide Own, Outcomes;
    var n, p := |legs| - 1, legs[i].start;
    assert legs[..|legs|] == legs;
    var init := legs[..n];
    assert i < n && init[..i + 1] == legs[..i + 1] && init[i] == legs[i];
    LegStands(legs, stream, n);
    LegStands(legs, stream, i);
    ToldPrefix(init, stream, i + 1);
    if |ToldSteps(init, stream)| > |ToldSteps(legs[..i + 1], stream)| {
      NextTold(init, stream, i);
    } else {
      SilentSince(init, stream, i);
      OutcomesJoin(stream, p, legs[n].start, legs[n].end);
      SameFirst(stream, p, legs[i].end, legs[n].end);
    }
  }

  lemma SameFirst(stream: seq<Envelope>, p: nat, a: nat, b: nat)
    requires p <= a <= |stream| && p <= b <= |stream|
    requires Outcomes(stream[p..a]) != [] && Outcomes(stream[p..b]) != []
    ensures Outcomes(stream[p..a])[0] == Outcomes(stream[p..b])[0]
  {
    hide Outcomes;
    if a <= b { OutcomesJoin(stream, p, a, b); } else { OutcomesJoin(stream, p, b, a); }
  }

  /** A failed drain that folded an outcome. */
  ghost predicate Retells(legs: seq<Leg>, i: nat, stream: seq<Envelope>)
    requires i < |legs|
  {
    !legs[i].complete && Own(stream, legs[i]) != []
  }

  /** The first failed drain that folds an outcome tells what is due up to where it broke off. */
  lemma FirstRetelling(legs: seq<Leg>, stream: seq<Envelope>, i: nat)
    requires Chain(legs, stream) && i < |legs| && forall j :: 0 <= j < i ==> !Retells(legs, j, stream)
    ensures legs[i].start <= legs[i].end <= |stream|
    ensures ToldSteps(legs[..i + 1], stream) == Due(stream, legs[i].end) <= ToldSteps(legs, stream)
    ensures |ToldSteps(legs[..i], stream)| + |Own(stream, legs[i])| == |Due(stream, legs[i].end)|
  {
    hide Own, Outcomes;
    LegStands(legs, stream, i);
    assert NothingRetold(legs[..i], stream) by {
      forall j | 0 <= j < i && !legs[..i][j].complete ensures Own(stream, legs[..i][j]) == []
      {
        assert legs[..i][j] == legs[j] && !Retells(legs, j, stream);
      }
    }
    ToldCoversDue(legs[..i], stream);
    ToldNext(legs, stream, i);
    ToldPrefix(legs, stream, i + 1);
    DueGrows(stream, legs[i].start, legs[i].end);
  }

  lemma SameCappedDue(stream: seq<Envelope>, told: seq<StepRecord>, a: nat, b: nat)
    requires a <= |stream| && b <= |stream| && Due(stream, a) <= told
    requires |Due(stream, a)| >= MAX_STEPS && |Due(stream, b)| >= MAX_STEPS
    ensures Capped(told) == Capped(Due(stream, b))
  {
    if a <= b { DueGrows(stream, a, b); } else { DueGrows(stream, b, a); }
    hide Due;
    assert told[..MAX_STEPS] == Due(stream, a)[..MAX_STEPS] == Due(stream, b)[..MAX_STEPS];
  }

  /** A failed drain that folded an outcome and left room below the cap makes a repetition visible. */
  lemma RepetitionShows(legs: seq<Leg>, stream: seq<Envelope>, i: nat, due: seq<StepRecord>)
    requires Chain(legs, stream) && i < |legs| && Retells(legs, i, stream)
    requires NoDup(due) && Capped(ToldSteps(legs, stream)) == Capped(due) && |due| >= MAX_STEPS
    ensures |ToldSteps(legs[..i + 1], stream)| >= MAX_STEPS
  {
    hide Own, ToldSteps;
    var told, at, t := ToldSteps(legs, stream), |ToldSteps(legs[..i], stream)|, |ToldSteps(legs[..i + 1], stream)|;
    ToldNext(legs, stream, i);
    ToldPrefix(legs, stream, i + 1);
    if t < MAX_STEPS {
      DistinctTold(told, due, at, t);
      NextTold(legs, stream, i);
    }
  }

  lemma DistinctTold(told: seq<StepRecord>, due: seq<StepRecord>, at: nat, t: nat)
    requires NoDup(due) && Capped(told) == Capped(due) && at < t < MAX_STEPS <= |due|
    ensures |told| >= MAX_STEPS && told[at] != told[t]
  {
    assert told[at] == Capped(told)[at] == due[at] && told[t] == Capped(told)[t] == due[t];
  }

  /** When no due outcome occurs twice: the step list is exact exactly when no failed drain folded an outcome, or the
      list was already full when the first one that did broke off. */
  lemma DistinctStepsAreExactIff(legs: seq<Leg>, stream: seq<Envelope>)
    requires Chain(legs, stream) && Standing(legs) <= |stream| && NoDup(Due(stream, Standing(legs)))
    ensures Exact(legs, stream)
            <==> forall i :: 0 <= i < |legs| && Retells(legs, i, stream) ==>
                   |Due(stream, Standing(legs))| >= MAX_STEPS && |ToldSteps(legs[..i + 1], stream)| >= MAX_STEPS
  {
    hide Chain, Due, Own, ToldSteps, Exact;
    var told, due := ToldSteps(legs, stream), Due(stream, Standing(legs));
    ExactIsToldCapped(legs, stream);
    if NothingRetold(legs, stream) {
      ToldCoversDue(legs, stream);
    } else {
      var i := FirstRetold(legs, stream);
      if |due| < MAX_STEPS {
        StepsAreExactIff(legs, stream);
      } else if Capped(told) == Capped(due) {
        forall j | 0 <= j < |legs| && Retells(legs, j, stream) ensures |ToldSteps(legs[..j + 1], stream)| >= MAX_STEPS
        {
          RepetitionShows(legs, stream, j, due);
        }
      } else if |ToldSteps(legs[..i + 1], stream)| >= MAX_STEPS {
        FirstRetelling(legs, stream, i);
        SameCappedDue(stream, told, legs[i].end, Standing(legs));
      }
    }
  }

  lemma FirstRetold(legs: seq<Leg>, stream: seq<Envelope>) returns (i: nat)
    requires !NothingRetold(legs, stream)
    ensures i < |legs| && Retells(legs, i, stream) && forall j :: 0 <= j < i ==> !Retells(legs, j, stream)
  {
    hide Own;
    i := 0;
    var w :| 0 <= w < |legs| && !legs[w].complete && Own(stream, legs[w]) != [];
    while !Retells(legs, i, stream)
      invariant i <= w && forall j :: 0 <= j < i ==> !Retells(legs, j, stream)
      decreases w - i
    {
      i := i + 1;
    }
  }

  // ---------------------------------------------------------------- the client

  datatype Drained = Failed | Drained(terminal: Option<Terminal>, lifecycle: seq<LifecycleEvent>,
    lastProgress: Option<int>)

  /** The client's state for one run: the entries its maps hold under that run's id. */
  class RunObserver {
    var cursor: nat
    var scopes: map<string, string>
    var lifecycle: seq<LifecycleEvent>
    var terminal: Option<Terminal>
    var progress: Option<int>
    var steps: seq<StepRecord>

    /** Every envelope folded so far, in fold order. */
    ghost var folded: seq<Envelope>
    /** The stored position, and how many full pages beyond it some failed drain has folded. */
    ghost var stored: nat
    ghost var ahead: nat
    /** The drains so far. */
    ghost var legs: seq<Leg>

    function State(): RunState
      reads this
    {
      RunState(scopes, lifecycle, terminal, steps)
    }

    ghost function Reach(): nat
      reads this
    {
      stored + PAGE_SIZE * ahead
    }

    /** What is known of the run is a fold of its stream. */
    ghost predicate Tracks(stream: seq<Envelope>)
      reads this
    {
      && Increasing(stream)
      && ahead < MAX_PAGES && Reach() <= |stream|
      && Position(stream, cursor) == stored
      && Chain(legs, stream) && Standing(legs) == stored && folded == Told(legs, stream)
      && State() == ConsumeAll(FRESH, folded)
      && progress == Progress(None, stream[..stored])
      && Replayed(folded, stream, stored, Reach())
    }

    /** What the caller may rely on once a drain has succeeded up to position n. */
    ghost predicate Settled(stream: seq<Envelope>, n: nat, r: Drained)
      requires n <= |stream| && r.Drained?
      reads this
    {
      && stored == Reach() == n && Position(stream, cursor) == n
      && r.terminal == LastTerminal(stream[..n])
      && RepeatsLastEnd(r.terminal, stream[..n])
      && r.lastProgress == Progress(None, stream[..n])
      && r.lifecycle == lifecycle
      && (forall s :: LastOf(Raw(folded), s) == LastOf(Raw(stream[..n]), s))
      && (OneAdapterPerScope(Raw(stream)) && (NoClash(folded) || KeysApart(Raw(stream))) ==>
            Faithful(Active(r.lifecycle), Raw(stream[..n])) && ActiveAsTold(Active(r.lifecycle), stream[..n]))
    }

    /** The stored steps are those the drains told, up to the cap. */
    lemma StepsAreStored(stream: seq<Envelope>)
      requires Tracks(stream)
      ensures steps == Capped(ToldSteps(legs, stream))
      ensures steps == Capped(Due(stream, stored)) <==> Exact(legs, stream)
    {
      TerminalAndSteps(folded);
      StepsAreTold(legs, stream);
    }

    constructor ()
      ensures forall stream :: Increasing(stream) ==> Tracks(stream)
      ensures cursor == 0 && lifecycle == [] && terminal.None? && progress.None? && steps == []
      ensures legs == [] && stored == Reach() == 0
    {
      cursor, scopes, lifecycle, terminal, progress, steps := 0, map[], [], None, None, [];
      folded, stored, ahead, legs := [], 0, 0, [];
      new;
      forall stream: seq<Envelope> | Increasing(stream) ensures Tracks(stream)
      {
        assert stream[0..0] == [] && stream[..0] == [];
      }
    }

    method FoldEnvelope(env: Envelope)
      modifies `scopes, `lifecycle, `terminal, `steps, `folded
      ensures State() == Consume(old(State()), env) && folded == old(folded) + [env]
    {
      match TerminalOf(env) {
        case Some(t) => terminal := Some(t);
        case None =>
      }
      if env.payload.StepOutcome? && |steps| < MAX_STEPS {
        steps := steps + [env.payload.step];
      }
      match LifecycleOf(env) {
        case Some(e) =>
          var ev := ResolveRelease(scopes, e);
          lifecycle := lifecycle + [ev];
          if ev.event == ProvisionWanted {
            scopes := scopes[ev.scopeID := ev.adapterName];
          }
        case None =>
      }
      folded := folded + [env];
    }

    method FoldPage(events: seq<Envelope>, from: nat, newest: Option<int>)
        returns (since: nat, lastProgress: Option<int>)
      requires State() == ConsumeAll(FRESH, folded)
      modifies `scopes, `lifecycle, `terminal, `steps, `folded
      ensures folded == old(folded) + events && State() == ConsumeAll(FRESH, folded)
      ensures lastProgress == Progress(newest, events) && since == Highest(from, events)
    {
      hide Consume, Later;
      since, lastProgress := from, newest;
      for i := 0 to |events|
        invariant folded == old(folded) + events[..i] && State() == ConsumeAll(FRESH, folded)
        invariant lastProgress == Progress(newest, events[..i]) && since == Highest(from, events[..i])
      {
        ghost var before := folded;
        assert events[..i + 1][..i] == events[..i];
        assert (before + [events[i]])[..|before|] == before;
        assert before + [events[i]] == old(folded) + events[..i + 1];
        lastProgress := Later(lastProgress, events[i]);
        FoldEnvelope(events[i]);
        if events[i].sequence > since {
          since := events[i].sequence;
        }
      }
      assert events[..|events|] == events;
    }

    /** A drain that began at p with before already folded stands at n: the local cursor and progress are those of n. */
    ghost predicate Reading(
        stream: seq<Envelope>, before: seq<Envelope>, p: nat, n: nat, since: nat, lastProgress: Option<int>)
      reads this
    {
      && p <= n <= |stream| && folded == Upto(before, stream, p, n) && State() == ConsumeAll(FRESH, folded)
      && Position(stream, since) == n && lastProgress == Progress(None, stream[..n])
    }

    /** One successful page request, folded. */
    method ReadPage(
        stream: seq<Envelope>, from: nat, reply: Reply, newest: Option<int>, ghost n: nat, ghost p: nat,
        ghost before: seq<Envelope>)
      returns (count: nat, since: nat, lastProgress: Option<int>)
      requires Increasing(stream) && Reading(stream, before, p, n, from, newest)
      requires reply.Visible? && reply.upTo <= |stream| && Position(stream, reply.next) <= n + PageCount(n, reply.upTo)
      modifies `scopes, `lifecycle, `terminal, `steps, `folded
      ensures count == PageCount(n, reply.upTo) && Reading(stream, before, p, n + count, since, lastProgress)
    {
      hide Consume, Later, Page, Highest, Increasing, Position;
      var events := Page(stream, from, reply.upTo);
      PageExtends(stream, p, n, from, reply.upTo, before);
      count := |events|;
      CursorAfterPage(stream, from, n, count, reply.next);
      since, lastProgress := FoldPage(events, from, newest);
      since := Max(since, reply.next);
    }

    /** The page loop: it stops at a short page, at the page budget, or at an error. */
    method Pages(stream: seq<Envelope>, server: nat -> Reply, ghost before: seq<Envelope>, ghost m: nat)
      returns (ok: bool, since: nat, lastProgress: Option<int>, page: nat, ghost n: nat)
      requires Increasing(stream) && m < stored + PAGE_SIZE * MAX_PAGES
      requires Serves(server, stream, stored, m)
      requires Reading(stream, before, stored, stored, cursor, progress)
      modifies `scopes, `lifecycle, `terminal, `steps, `folded
      ensures Reading(stream, before, stored, n, since, lastProgress)
      ensures (ok, n) == Walk(server, stored, 0)
      ensures ok ==> n >= m
      ensures !ok ==> page < MAX_PAGES && n == stored + PAGE_SIZE * page
    {
      hide Reading, Serves, Walk, PageCount, Increasing, Position;
      since, lastProgress, page, ok := cursor, progress, 0, true;
      var more := true;
      n := stored;
      while page < MAX_PAGES && more
        invariant 0 <= page <= MAX_PAGES && ok
        invariant Reading(stream, before, stored, n, since, lastProgress)
        invariant if more then n == stored + PAGE_SIZE * page else n >= m
        invariant Walk(server, stored, 0) == if more then Walk(server, n, page) else (true, n)
        decreases MAX_PAGES - page, more
      {
        var reply := server(page);
        WalkStep(server, n, page);
        if reply.Unavailable? {
          ok := false;
          return;
        }
        PageCountFits(n, reply.upTo);
        ServedPage(server, stream, stored, m, page, n);
        var count;
        count, since, lastProgress := ReadPage(stream, since, reply, lastProgress, n, stored, before);
        n := n + count;
        page := page + 1;
        if count < PAGE_SIZE {
          more := false;
        }
      }
      WalkStep(server, n, page);
    }

    /** Drains the run's stream from the stored cursor. An error loses the cursor but not what
        was folded; a success settles everything at the position it reached. */
    method Drain(stream: seq<Envelope>, server: nat -> Reply) returns (r: Drained, ghost n: nat)
      requires Tracks(stream)
      requires Serves(server, stream, stored, Reach())
      modifies this
      ensures Tracks(stream)
      ensures (r.Drained?, n) == Walk(server, old(stored), 0) && n <= |stream|
      ensures legs == old(legs) + [Leg(old(stored), n, r.Drained?)]
      ensures r.Drained? ==> old(Reach()) <= n && Settled(stream, n, r)
      ensures r.Failed? ==> cursor == old(cursor) && progress == old(progress) && stored == old(stored)
      ensures r.Failed? ==> Reach() == Max(old(Reach()), n)
    {
      hide Consume, Later, Raw, LastOf, LastTerminal, Replayed, Increasing, Position, Faithful, OneAdapterPerScope;
      hide NoClash, KeysApart, Active, Serves, Walk, Chain, Told, Upto, Progress, ConsumeAll;
      hide RepeatsLastEnd, ActiveAsTold;
      ghost var p, m := stored, Reach();
      ghost var before := folded;
      var ok, since, lastProgress, page;
      StartsReading(before, stream, p);
      ok, since, lastProgress, page, n := Pages(stream, server, before, m);
      LegAdded(legs, stream, Leg(p, n, ok));
      legs := legs + [Leg(p, n, ok)];
      if !ok {
        Interrupted(before, stream, p, m, n);
        ahead := if m < n then page else ahead;
        return Failed, n;
      }
      ProgressOnlyGrows(stream, p, n);
      cursor := since;
      if lastProgress.Some? && After(lastProgress.value, progress) {
        progress := lastProgress;
      }
      stored, ahead := n, 0;
      Settles(before, stream, p, m, n);
      TerminalAndSteps(folded);
      LastTerminalRepeats(stream[..n]);
      r := Drained(terminal, lifecycle, lastProgress);
      if OneAdapterPerScope(Raw(stream)) && (NoClash(folded) || KeysApart(Raw(stream))) {
        SettledIsFaithful(folded, stream, n);
        FaithfulIsAsTold(Active(r.lifecycle), stream[..n]);
      }
    }
  }

  lemma StartsReading(before: seq<Envelope>, stream: seq<Envelope>, p: nat)
    requires p <= |stream|
    ensures Upto(before, stream, p, p) == before
  {
  }

  lemma LegAdded(legs: seq<Leg>, stream: seq<Envelope>, l: Leg)
    requires Chain(legs, stream) && Standing(legs) == l.start <= l.end <= |stream|
    ensures var next := legs + [l];
      && Chain(next, stream) && Standing(next) == (if l.complete then l.end else l.start)
      && Told(next, stream) == Upto(Told(legs, stream), stream, l.start, l.end)
  {
    assert (legs + [l])[..|legs|] == legs;
  }

  lemma PageShape(stream: seq<Envelope>, n: nat, since: nat, upTo: nat)
    requires Position(stream, since) == n <= |stream| && upTo <= |stream|
    ensures var events := Page(stream, since, upTo);
            |events| == PageCount(n, upTo) && n + |events| <= |stream| && events == stream[n..n + |events|]
  {
    hide Position;
  }

  lemma Slices<T>(a: seq<T>, s: seq<T>, p: nat, n: nat, k: nat)
    requires p <= n <= k <= |s|
    ensures (a + s[p..n]) + s[n..k] == a + s[p..k]
    ensures s[..n] + s[n..k] == s[..k]
  {
  }

  lemma PageExtends(stream: seq<Envelope>, p: nat, n: nat, since: nat, upTo: nat, before: seq<Envelope>)
    requires Position(stream, since) == n && p <= n <= |stream| && upTo <= |stream|
    ensures var events := Page(stream, since, upTo);
            && |events| == PageCount(n, upTo) && n + |events| <= |stream| && events == stream[n..n + |events|]
            && Upto(before, stream, p, n) + events == Upto(before, stream, p, n + |events|)
            && Progress(None, stream[..n + |events|]) == Progress(Progress(None, stream[..n]), events)
  {
    hide Later, Position, Page;
    PageShape(stream, n, since, upTo);
    var events := Page(stream, since, upTo);
    Slices(before, stream, p, n, n + |events|);
    ProgressConcat(None, stream[..n], events);
  }

  lemma Interrupted(before: seq<Envelope>, stream: seq<Envelope>, p: nat, m: nat, n: nat)
    requires p <= m <= |stream| && p <= n <= |stream| && Replayed(before, stream, p, m)
    ensures Replayed(Upto(before, stream, p, n), stream, p, if m < n then n else m)
  {
    ReplayInterrupted(before, stream, p, m, n, if m < n then n else m);
  }

  lemma Settles(before: seq<Envelope>, stream: seq<Envelope>, p: nat, m: nat, n: nat)
    requires p <= m <= n <= |stream| && Replayed(before, stream, p, m)
    ensures var folded := Upto(before, stream, p, n);
            && Replayed(folded, stream, n, n)
            && (forall s :: LastOf(Raw(folded), s) == LastOf(Raw(stream[..n]), s))
            && LastTerminal(folded) == LastTerminal(stream[..n])
  {
    hide Raw, LastOf, LastTerminal;
    ReplayCompletes(before, stream, p, m, n);
    SettledReplay(Upto(before, stream, p, n), stream, n);
  }

  /** Progress never moves back along a stream. */
  lemma ProgressOnlyGrows(stream: seq<Envelope>, p: nat, n: nat)
    requires p <= n <= |stream|
    ensures var a, b := Progress(None, stream[..p]), Progress(None, stream[..n]);
            a == b || (b.Some? && After(b.value, a))
  {
    Halves(stream, p, p, n);
    ProgressConcat(None, stream[..p], stream[p..n]);
    ProgressGrows(Progress(None, stream[..p]), stream[p..n]);
  }

  lemma {:induction false} ProgressGrows(start: Option<int>, envs: seq<Envelope>)
    ensures var b := Progress(start, envs); b == start || (b.Some? && After(b.value, start))
    decreases |envs|
  {
    if envs != [] {
      ProgressGrows(start, envs[..|envs| - 1]);
    }
  }

  // ---------------------------------------------------------------- a step told twice

  lemma ViewServes(stream: seq<Envelope>, server: nat -> Reply, at: nat, m: nat, upTo: nat)
    requires Increasing(stream) && m <= upTo <= |stream|
    requires forall i :: server(i).Visible? ==> server(i) == Visible(upTo, 0)
    ensures Serves(server, stream, at, m)
  {
    assert Position(stream, 0) == 0;
  }

  lemma {:induction false} SilentOutcomes(envs: seq<Envelope>)
    requires forall i :: 0 < i < |envs| ==> !envs[i].payload.StepOutcome?
    ensures Outcomes(envs) == if envs == [] || !envs[0].payload.StepOutcome? then [] else [envs[0].payload.step]
    decreases |envs|
  {
    if |envs| > 1 {
      SilentOutcomes(envs[..|envs| - 1]);
    } else if |envs| == 1 {
      assert envs[..0] == [];
    }
  }

  /** A fresh client whose first drain fails at its second page. */
  method FailsOnce(stream: seq<Envelope>, view: Reply) returns (o: RunObserver)
    requires Increasing(stream) && view == Visible(|stream|, 0) && |stream| > PAGE_SIZE
    ensures fresh(o) && o.Tracks(stream) && o.stored == 0 && o.Reach() == PAGE_SIZE
    ensures o.legs == [Leg(0, PAGE_SIZE, false)]
  {
    hide RunObserver.Settled, RunObserver.Tracks, Serves, Walk, Increasing;
    var failing := (i: nat) => if i == 0 then view else Unavailable;
    o := new RunObserver();
    ViewServes(stream, failing, 0, 0, |stream|);
    var r, n := o.Drain(stream, failing);
    FirstPageOnly(failing, view);
  }

  /** A drain that fails at its second page and the one that repeats it: the step of the first page is listed twice. */
  method DoubledStep(x: StepRecord) returns (o: RunObserver, stream: seq<Envelope>)
    ensures fresh(o) && o.Tracks(stream) && o.stored == |stream| == PAGE_SIZE + 1
    ensures Outcomes(stream) == [x] && o.steps == [x, x]
  {
    stream := OneOutcome(x);
    hide OneOutcome, RunObserver.Tracks, Serves, Walk, Increasing, Outcomes, Own;
    var view := Visible(PAGE_SIZE + 1, 0);
    var working := (i: nat) => view;
    o := FailsOnce(stream, view);
    ViewServes(stream, working, 0, PAGE_SIZE, PAGE_SIZE + 1);
    var r, n := o.Drain(stream, working);
    WalkOverOneView(working, 0, 0, PAGE_SIZE + 1);
    TellsOne(stream, PAGE_SIZE, false, x);
    TellsOne(stream, PAGE_SIZE + 1, true, x);
    ToldTwice(o, stream, o.legs[0], o.legs[1], x);
    assert stream[0..PAGE_SIZE + 1] == stream;
  }

  /** One outcome, and nothing but heartbeats for the rest of a page and one event more. */
  function OneOutcome(x: StepRecord): (stream: seq<Envelope>)
    ensures |stream| == PAGE_SIZE + 1 && stream[0].payload == StepOutcome(x) && Increasing(stream)
    ensures forall i :: 0 < i < |stream| ==> !stream[i].payload.StepOutcome?
  {
    seq(PAGE_SIZE + 1, i requires 0 <= i <= PAGE_SIZE =>
      Envelope(i + 1, None, if i == 0 then StepOutcome(x) else Heartbeat))
  }

  lemma FirstPageOnly(server: nat -> Reply, view: Reply)
    requires view.Visible? && view.upTo > PAGE_SIZE && server(0) == view && server(1).Unavailable?
    ensures Walk(server, 0, 0) == (false, PAGE_SIZE)
  {
    WalkStep(server, 0, 0);
    WalkStep(server, PAGE_SIZE, 1);
  }

  /** A stretch from the start of such a stream tells its one outcome. */
  lemma TellsOne(stream: seq<Envelope>, n: nat, complete: bool, x: StepRecord)
    requires 0 < n <= |stream| && stream[0].payload == StepOutcome(x)
    requires forall i :: 0 < i < |stream| ==> !stream[i].payload.StepOutcome?
    ensures Own(stream, Leg(0, n, complete)) == [x] && Outcomes(stream[0..n]) == [x]
  {
    var first := stream[0..n];
    assert first[0] == stream[0] && forall i :: 0 < i < n ==> first[i] == stream[i];
    SilentOutcomes(first);
    hide Outcomes;
  }

  lemma ToldTwice(o: RunObserver, stream: seq<Envelope>, a: Leg, b: Leg, x: StepRecord)
    requires o.Tracks(stream) && o.legs == [a, b] && Own(stream, a) == Own(stream, b) == [x]
    ensures o.steps == [x, x]
  {
    hide Own, RunObserver.Tracks;
    o.StepsAreStored(stream);
    ToldNext(o.legs, stream, 0);
    ToldNext(o.legs, stream, 1);
    assert o.legs[..0] == [] && o.legs[..2] == o.legs;
    assert ToldSteps([], stream) == [] && [] + [x] == [x] && [x] + [x] == [x, x];
  }
}
