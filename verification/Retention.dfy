/** The retention sweep: which archived terminal runs age out, and what every sweep leaves behind. */
module Retention {
  import opened Common
  import opened Ordering
  import opened Sorting

  /** A run as the sweep reads it; times are positive once set. */
  datatype Run = Run(
    ticket: string, created: nat, terminal: bool, terminalAt: Option<nat>, parked: bool,
    archiveID: string, archivePending: bool, deleting: bool)

  datatype Entry = Entry(name: string, run: Run)

  /** Unstamped runs rank oldest. */
  function RankTime(r: Run): nat {
    r.terminalAt.GetOr(0)
  }

  /** Newest terminal time first, then newest creation, then name. */
  predicate Outranks(a: Entry, b: Entry) {
    if RankTime(a.run) != RankTime(b.run) then RankTime(a.run) > RankTime(b.run)
    else if a.run.created != b.run.created then a.run.created > b.run.created
    else Less(a.name, b.name)
  }

  lemma OutranksIsStrict()
    ensures Strict(Outranks)
  {
    forall a, b ensures !(Outranks(a, b) && Outranks(b, a)) { LessTotal(a.name, b.name); }
    forall a, b, c | Outranks(a, b) && Outranks(b, c) ensures Outranks(a, c) { OutranksTransitive(a, b, c); }
  }

  lemma OutranksTransitive(a: Entry, b: Entry, c: Entry)
    requires Outranks(a, b) && Outranks(b, c)
    ensures Outranks(a, c)
  {
    if Less(a.name, b.name) && Less(b.name, c.name) { LessTransitive(a.name, b.name, c.name); }
  }

  type Runs = map<string, Run>

  function At(runs: Runs, n: string): Entry
    requires n in runs
  {
    Entry(n, runs[n])
  }

  /** Terminal runs of the same ticket that rank above e. */
  ghost function Outrankers(runs: Runs, e: Entry): set<string> {
    set n | n in runs && runs[n].terminal && runs[n].ticket == e.run.ticket && Outranks(At(runs, n), e)
  }

  ghost predicate Kept(runs: Runs, n: string, keepLast: nat)
    requires n in runs
  {
    runs[n].terminal && |Outrankers(runs, At(runs, n))| < keepLast
  }

  /** What a sweep deletes. */
  ghost predicate Candidate(runs: Runs, n: string, keepLast: nat, retention: nat, now: int) {
    && n in runs && runs[n].terminal && !runs[n].parked
    && runs[n].archiveID != "" && !runs[n].archivePending
    && runs[n].terminalAt.Some? && now - runs[n].terminalAt.value >= retention
    && !Kept(runs, n, keepLast)
  }

  // ---------------------------------------------------------------- the protected window

  ghost predicate Lists(listed: seq<Entry>, runs: Runs) {
    && (forall i, j :: 0 <= i < j < |listed| ==> listed[i].name != listed[j].name)
    && (forall e :: e in listed <==> e.name in runs && e == At(runs, e.name))
  }

  /** A family in rank order: the runs above position k are exactly the first k. */
  lemma PositionIsRank(runs: Runs, s: seq<Entry>, ticket: string, k: nat)
    requires Sorted(s, Outranks) && k < |s|
    requires forall e :: e in s <==> e.name in runs && e == At(runs, e.name) && e.run.terminal && e.run.ticket == ticket
    ensures |Outrankers(runs, s[k])| == k
  {
    OutranksIsStrict();
    var above := FirstNames(s, k);
    SortedNamesDiffer(s);
    NamesCount(s, k);
    forall n ensures n in above <==> n in Outrankers(runs, s[k])
    {
      assert s[k] in s;
      if n in above {
        var i :| 0 <= i < k && s[i].name == n;
        assert s[i] in s;
      }
      if n in Outrankers(runs, s[k]) {
        assert At(runs, n) in s;
        var i :| 0 <= i < |s| && s[i] == At(runs, n);
        assert i < k;
      }
    }
    assert above == Outrankers(runs, s[k]);
  }

  /** The names of the first k entries. */
  ghost function FirstNames(s: seq<Entry>, k: nat): set<string>
    requires k <= |s|
  {
    set i | 0 <= i < k :: s[i].name
  }

  lemma {:induction false} NamesCount(s: seq<Entry>, k: nat)
    requires k <= |s| && forall i, j :: 0 <= i < j < |s| ==> s[i].name != s[j].name
    ensures |FirstNames(s, k)| == k
  {
    if k > 0 {
      NamesCount(s, k - 1);
      assert FirstNames(s, k) == FirstNames(s, k - 1) + {s[k - 1].name};
      assert s[k - 1].name !in FirstNames(s, k - 1);
    }
  }

  lemma SortedNamesDiffer(s: seq<Entry>)
    requires Sorted(s, Outranks) && forall e, e' :: e in s && e' in s && e.name == e'.name ==> e == e'
    ensures forall i, j :: 0 <= i < j < |s| ==> s[i].name != s[j].name
  {
    OutranksIsStrict();
    forall i, j | 0 <= i < j < |s| ensures s[i].name != s[j].name
    {
      assert s[i] in s && s[j] in s && Outranks(s[i], s[j]);
    }
  }

  // ---------------------------------------------------------------- the sweep

  ghost predicate InFamily(e: Entry, ticket: string) {
    e.run.terminal && e.run.ticket == ticket
  }

  ghost predicate Families(families: map<string, seq<Entry>>, listed: seq<Entry>) {
    && (forall e :: e in listed && e.run.terminal ==> e.run.ticket in families)
    && (forall t, e :: t in families ==> (e in families[t] <==> e in listed && InFamily(e, t)))
    && (forall t, i, j :: t in families && 0 <= i < j < |families[t]| ==> families[t][i].name != families[t][j].name)
  }

  lemma FamiliesStep(families: map<string, seq<Entry>>, listed: seq<Entry>, e: Entry)
    requires Families(families, listed) && forall x :: x in listed ==> x.name != e.name
    ensures var members := if e.run.ticket in families then families[e.run.ticket] else [];
            Families(if e.run.terminal then families[e.run.ticket := members + [e]] else families, listed + [e])
  {
    if e.run.terminal && e.run.ticket in families {
      var family := families[e.run.ticket];
      forall i | 0 <= i < |family| ensures family[i].name != e.name { assert family[i] in family; }
    }
  }

  method FamilyOrder(listed: seq<Entry>) returns (families: map<string, seq<Entry>>)
    requires forall i, j :: 0 <= i < j < |listed| ==> listed[i].name != listed[j].name
    ensures Families(families, listed)
  {
    hide Families;
    families := map[];
    assert Families(families, listed[..0]) by { NoFamilies(); }
    for i := 0 to |listed|
      invariant Families(families, listed[..i])
    {
      var e := listed[i];
      assert listed[..i + 1] == listed[..i] + [e];
      FamiliesStep(families, listed[..i], e);
      if e.run.terminal {
        var t := e.run.ticket;
        families := families[t := (if t in families then families[t] else []) + [e]];
      }
    }
    assert listed[..|listed|] == listed;
  }

  lemma NoFamilies()
    ensures Families(map[], [])
  {
  }

  method KeptByFamily(listed: seq<Entry>, keepLast: nat, ghost runs: Runs) returns (kept: set<string>)
    requires Lists(listed, runs)
    ensures forall n :: n in kept <==> n in runs && Kept(runs, n, keepLast)
  {
    var families := FamilyOrder(listed);
    kept := {};
    var todo := families.Keys;
    while todo != {}
      invariant todo <= families.Keys
      invariant forall n :: n in kept <==> n in runs && runs[n].ticket !in todo && Kept(runs, n, keepLast)
      decreases todo
    {
      var t :| t in todo;
      todo := todo - {t};
      var newest := NewestOf(families[t], t, listed, runs, keepLast);
      kept := kept + newest;
    }
    forall n | n in runs && Kept(runs, n, keepLast) ensures runs[n].ticket in families
    {
      assert At(runs, n) in listed;
    }
  }

  method NewestOf(family: seq<Entry>, ticket: string, ghost listed: seq<Entry>, ghost runs: Runs, keepLast: nat)
      returns (newest: set<string>)
    requires Lists(listed, runs)
    requires forall e :: e in family <==> e in listed && InFamily(e, ticket)
    requires forall i, j :: 0 <= i < j < |family| ==> family[i].name != family[j].name
    ensures forall n :: n in newest <==> n in runs && runs[n].ticket == ticket && Kept(runs, n, keepLast)
  {
    hide Kept;
    OutranksIsStrict();
    NamesSeparate(family);
    var members := Sort(family, Outranks);
    newest := {};
    for k := 0 to |members|
      invariant forall n :: n in newest <==> exists i :: 0 <= i < k && members[i].name == n && i < keepLast
    {
      if k < keepLast {
        newest := newest + {members[k].name};
      }
    }
    NewestAreKept(runs, listed, members, ticket, keepLast, newest);
  }

  lemma NamesSeparate(family: seq<Entry>)
    requires forall i, j :: 0 <= i < j < |family| ==> family[i].name != family[j].name
    ensures Separated(family, Outranks)
  {
    forall i, j | 0 <= i < j < |family| ensures Outranks(family[i], family[j]) || Outranks(family[j], family[i])
    {
      LessTotal(family[i].name, family[j].name);
    }
  }

  lemma NewestAreKept(runs: Runs, listed: seq<Entry>, members: seq<Entry>, ticket: string, keepLast: nat,
      newest: set<string>)
    requires Lists(listed, runs) && Sorted(members, Outranks)
    requires forall e :: e in members <==> e in listed && InFamily(e, ticket)
    requires forall n :: n in newest <==> exists i :: 0 <= i < |members| && members[i].name == n && i < keepLast
    ensures forall n :: n in newest <==> n in runs && runs[n].ticket == ticket && Kept(runs, n, keepLast)
  {
    forall i | 0 <= i < |members|
      ensures members[i].name in runs && members[i] == At(runs, members[i].name)
          && runs[members[i].name].ticket == ticket
      ensures Kept(runs, members[i].name, keepLast) <==> i < keepLast
    {
      assert members[i] in members;
      PositionIsRank(runs, members, ticket, i);
    }
    forall n | n in runs && runs[n].ticket == ticket && Kept(runs, n, keepLast) ensures n in newest
    {
      assert At(runs, n) in listed && At(runs, n) in members;
      var i :| 0 <= i < |members| && members[i] == At(runs, n);
    }
  }

  /** The runs after deleting those hit; a deleted run stays listed while its finalizer holds. */
  ghost function Swept(runs: Runs, hit: set<string>, lingers: string -> bool): Runs {
    map n | n in runs && (n in hit ==> lingers(n)) :: if n in hit then runs[n].(deleting := true) else runs[n]
  }

  class Sweeper {
    var runs: Runs
    const keepLast: nat
    const retention: nat
    const allowlisted: bool

    constructor (runs: Runs, keepLast: nat, retention: nat, allowlisted: bool)
      ensures this.runs == runs && this.keepLast == keepLast && this.retention == retention
          && this.allowlisted == allowlisted
    {
      this.runs, this.keepLast, this.retention, this.allowlisted := runs, keepLast, retention, allowlisted;
    }

    /** One pass over what List returned, or nothing when listing failed; deletes may fail one by one. */
    method Sweep(now: int, list: Option<seq<Entry>>, deleteFails: string -> bool, lingers: string -> bool)
      requires list.Some? ==> Lists(list.value, runs)
      modifies this`runs
      ensures !allowlisted || list.None? ==> runs == old(runs)
      ensures allowlisted && list.Some? ==>
        runs == Swept(old(runs), Hits(old(runs), now, deleteFails), lingers)
    {
      if !allowlisted || list.None? {
        return;
      }
      var listed := list.value;
      var kept := KeptByFamily(listed, keepLast, runs);
      ghost var was := runs;
      ghost var hit: set<string> := {};
      hide Swept, Kept, Lists;
      assert ListedOnce(listed, was) by { ListedOnceHolds(listed, was); }
      SweptNone(was, lingers);
      for i := 0 to |listed|
        invariant runs == Swept(was, hit, lingers)
        invariant forall n :: n in hit <==> exists j ::
            0 <= j < i && listed[j].name == n && Hit(was, n, now, deleteFails)
      {
        var run := listed[i].run;
        assert listed[i].name in was && was[listed[i].name] == run;
        SweptNext(was, hit, listed[i].name, lingers);
        if !run.terminal || run.parked || run.archiveID == "" || run.archivePending
            || run.terminalAt.None? { continue; }
        if listed[i].name in kept { continue; }
        if now - run.terminalAt.value < retention { continue; }
        if run.deleting { continue; }
        if deleteFails(listed[i].name) { continue; }
        runs := if lingers(listed[i].name) then runs[listed[i].name := run.(deleting := true)]
          else runs - {listed[i].name};
        hit := hit + {listed[i].name};
      }
      assert hit == Hits(was, now, deleteFails) by {
        forall n | n in was && Hit(was, n, now, deleteFails) ensures n in hit
        {
          var j :| 0 <= j < |listed| && listed[j].name == n;
        }
      }
    }

    ghost function Hits(was: Runs, now: int, deleteFails: string -> bool): set<string> {
      set n | n in was && Hit(was, n, now, deleteFails)
    }

    ghost predicate Hit(was: Runs, n: string, now: int, deleteFails: string -> bool) {
      Candidate(was, n, keepLast, retention, now) && !was[n].deleting && !deleteFails(n)
    }
  }

  ghost predicate ListedOnce(listed: seq<Entry>, runs: Runs) {
    && (forall i, j :: 0 <= i < j < |listed| ==> listed[i].name != listed[j].name)
    && (forall i :: 0 <= i < |listed| ==> listed[i].name in runs && runs[listed[i].name] == listed[i].run)
    && (forall n :: n in runs ==> exists j :: 0 <= j < |listed| && listed[j].name == n)
  }

  lemma ListedOnceHolds(listed: seq<Entry>, runs: Runs)
    requires Lists(listed, runs)
    ensures ListedOnce(listed, runs)
  {
    forall i | 0 <= i < |listed| ensures listed[i].name in runs
        && runs[listed[i].name] == listed[i].run { assert listed[i] in listed; }
    forall n | n in runs ensures exists j :: 0 <= j < |listed| && listed[j].name == n
    {
      assert At(runs, n) in listed;
      var j :| 0 <= j < |listed| && listed[j] == At(runs, n);
    }
  }

  lemma SweptNext(runs: Runs, hit: set<string>, n: string, lingers: string -> bool)
    requires n in runs && n !in hit
    ensures Swept(runs, hit + {n}, lingers)
         == if lingers(n) then Swept(runs, hit, lingers)[n := runs[n].(deleting := true)]
           else Swept(runs, hit, lingers) - {n}
  {
  }

  lemma SweptNone(runs: Runs, lingers: string -> bool)
    ensures Swept(runs, {}, lingers) == runs
  {
  }

  // ---------------------------------------------------------------- sweeps over time

  /** pending holds every snapshot entry some sweep decided to delete; used holds every name ever given. */
  datatype World = World(runs: Runs, pending: set<Entry>, used: set<string>)

  datatype Event =
    | Birth(name: string, run: Run)
    | Update(name: string, run: Run)
    | List(now: int)
    | Delete(name: string, lingers: bool)
    | Vanish(name: string)

  /** What other writers may do to a run: a terminal run stays terminal, and a terminal time is written once. */
  predicate Legal(r: Run, r': Run) {
    && r'.ticket == r.ticket && r'.created == r.created && r'.deleting == r.deleting
    && (r.terminal ==> r'.terminal)
    && (r.terminalAt.Some? ==> r'.terminalAt == r.terminalAt)
    && (r'.terminalAt.Some? ==> r'.terminalAt.value > 0)
  }

  /** The terminal clock: the observed terminal time, else the recorded end, else now; written once. */
  function StampTerminalAt(r: Run, observed: Option<nat>, ended: Option<nat>, now: nat): Run {
    if !r.terminal || r.terminalAt.Some? then r
    else if observed.Some? && observed.value > 0 then r.(terminalAt := observed)
    else if ended.Some? && ended.value > 0 then r.(terminalAt := ended)
    else r.(terminalAt := Some(now))
  }

  lemma StampIsLegal(r: Run, observed: Option<nat>, ended: Option<nat>, now: nat, again: Option<nat>, later: nat)
    requires now > 0 && Legal(r, r)
    ensures Legal(r, StampTerminalAt(r, observed, ended, now))
    ensures r.terminal ==> StampTerminalAt(r, observed, ended, now).terminalAt.Some?
    ensures StampTerminalAt(StampTerminalAt(r, observed, ended, now), again, again, later)
        == StampTerminalAt(r, observed, ended, now)
    ensures r.terminal && r.terminalAt.None? && observed.Some? && observed.value > 0 ==>
        StampTerminalAt(r, observed, ended, now).terminalAt == observed
    ensures r.terminal && r.terminalAt.None? && !(observed.Some? && observed.value > 0) ==>
        var at := StampTerminalAt(r, observed, ended, now).terminalAt;
        if ended.Some? && ended.value > 0 then at == ended else at == Some(now)
  {
  }

  ghost function Step(w: World, e: Event, keepLast: nat, retention: nat): World {
    match e
    case Birth(n, r) =>
      if n in w.used || r.deleting || !Legal(r, r) then w else w.(runs := w.runs[n := r], used := w.used + {n})
    case Update(n, r) =>
      if n in w.runs && Legal(w.runs[n], r) then w.(runs := w.runs[n := r]) else w
    case List(now) =>
      w.(pending := w.pending + set n | n in w.runs && Candidate(w.runs, n, keepLast, retention, now) :: At(w.runs, n))
    case Delete(n, lingers) =>
      if n in w.runs && exists e :: e in w.pending && e.name == n then
        w.(runs := if lingers then w.runs[n := w.runs[n].(deleting := true)] else w.runs - {n})
      else w
    case Vanish(n) =>
      if n in w.runs && w.runs[n].deleting then w.(runs := w.runs - {n}) else w
  }

  ghost function Exec(w: World, events: seq<Event>, keepLast: nat, retention: nat): World {
    if events == [] then w
    else Step(Exec(w, events[..|events| - 1], keepLast, retention), events[|events| - 1], keepLast, retention)
  }

  ghost predicate Initial(w: World) {
    w.pending == {} && w.runs.Keys <= w.used && forall n :: n in w.runs ==>
      !w.runs[n].deleting && Legal(w.runs[n], w.runs[n])
  }

  /** Terminal runs of the family above e that nobody is deleting. */
  ghost function Survivors(runs: Runs, e: Entry): set<string> {
    set n | n in Outrankers(runs, e) && !runs[n].deleting
  }

  ghost predicate Protected(runs: Runs, e: Entry, keepLast: nat) {
    |Survivors(runs, e)| >= keepLast
  }

  /** The same place in the order. */
  predicate SameRank(r: Run, r': Run) {
    r.ticket == r'.ticket && r.created == r'.created && r.terminalAt == r'.terminalAt
  }

  ghost predicate Inv(w: World, keepLast: nat) {
    && w.runs.Keys <= w.used
    && (forall n :: n in w.runs ==> Legal(w.runs[n], w.runs[n]))
    && (forall n :: n in w.runs && w.runs[n].deleting ==> exists e :: e in w.pending && e.name == n)
    && (forall e :: e in w.pending ==> Owed(w, e, keepLast))
  }

  ghost predicate Owed(w: World, e: Entry, keepLast: nat) {
    && e.name in w.used && e.run.terminal && e.run.terminalAt.Some? && e.run.terminalAt.value > 0
    && (e.name in w.runs ==> w.runs[e.name].terminal && SameRank(w.runs[e.name], e.run))
    && Protected(w.runs, e, keepLast)
  }

  /** Protection is passed up: whoever stands above a protected run protects those below it. */
  lemma ProtectionPassesDown(before: Runs, after: Runs, x: Entry, e: Entry, keepLast: nat)
    requires x.run.ticket == e.run.ticket && Outranks(x, e) && Protected(before, x, keepLast)
    requires forall n :: n in Survivors(before, x) ==> n in Survivors(after, x)
    ensures Protected(after, e, keepLast)
  {
    forall n | n in Survivors(before, x) ensures n in Survivors(after, e)
    {
      OutranksTransitive(At(after, n), x, e);
    }
    SubsetSize(Survivors(before, x), Survivors(after, e));
  }

  lemma MoreSurvivors(before: Runs, after: Runs, e: Entry, keepLast: nat)
    requires Protected(before, e, keepLast) && Survivors(before, e) <= Survivors(after, e)
    ensures Protected(after, e, keepLast)
  {
    SubsetSize(Survivors(before, e), Survivors(after, e));
  }

  /** A run outside the window is protected, counting out those already being deleted. */
  lemma OutsideWindowIsProtected(w: World, n: string, keepLast: nat)
    requires Inv(w, keepLast) && n in w.runs && w.runs[n].terminal && !Kept(w.runs, n, keepLast)
    ensures Protected(w.runs, At(w.runs, n), keepLast)
  {
    var e := At(w.runs, n);
    if d :| d in Outrankers(w.runs, e) && w.runs[d].deleting {
      var x :| x in w.pending && x.name == d;
      assert Owed(w, x, keepLast);
      ProtectionPassesDown(w.runs, w.runs, x, e, keepLast);
    } else {
      assert Survivors(w.runs, e) == Outrankers(w.runs, e);
    }
  }

  lemma BirthKeepsInv(w: World, n: string, r: Run, keepLast: nat)
    requires Inv(w, keepLast) && n !in w.used && !r.deleting && Legal(r, r)
    ensures Inv(w.(runs := w.runs[n := r], used := w.used + {n}), keepLast)
  {
    var after := w.(runs := w.runs[n := r], used := w.used + {n});
    forall e | e in after.pending ensures Owed(after, e, keepLast)
    {
      assert Owed(w, e, keepLast);
      MoreSurvivors(w.runs, after.runs, e, keepLast);
    }
  }

  lemma UpdateKeepsInv(w: World, n: string, r: Run, keepLast: nat)
    requires Inv(w, keepLast) && n in w.runs && Legal(w.runs[n], r)
    ensures Inv(w.(runs := w.runs[n := r]), keepLast)
  {
    var after := w.(runs := w.runs[n := r]);
    forall e | e in after.pending ensures Owed(after, e, keepLast)
    {
      assert Owed(w, e, keepLast);
      MoreSurvivors(w.runs, after.runs, e, keepLast);
    }
  }

  lemma ListKeepsInv(w: World, now: int, keepLast: nat, retention: nat)
    requires Inv(w, keepLast)
    ensures Inv(Step(w, List(now), keepLast, retention), keepLast)
  {
    var after := Step(w, List(now), keepLast, retention);
    forall e | e in after.pending ensures Owed(after, e, keepLast)
    {
      if e in w.pending {
        assert Owed(w, e, keepLast);
      } else {
        OutsideWindowIsProtected(w, e.name, keepLast);
      }
    }
  }

  lemma DeleteKeepsOwed(w: World, n: string, x: Entry, after: Runs, e: Entry, keepLast: nat)
    requires Inv(w, keepLast) && n in w.runs && x in w.pending && x.name == n && e in w.pending
    requires forall m :: m != n ==> (m in after <==> m in w.runs) && (m in after ==> after[m] == w.runs[m])
    requires n in after ==> after[n] == w.runs[n].(deleting := true)
    ensures Protected(after, e, keepLast)
  {
    assert Owed(w, x, keepLast) && Owed(w, e, keepLast);
    if n in Survivors(w.runs, e) {
      OutranksIsStrict();
      assert n !in Survivors(w.runs, x) by { assert !Outranks(At(w.runs, n), x); }
      ProtectionPassesDown(w.runs, after, x, e, keepLast);
    } else {
      MoreSurvivors(w.runs, after, e, keepLast);
    }
  }

  lemma DeleteKeepsInv(w: World, n: string, lingers: bool, keepLast: nat, retention: nat)
    requires Inv(w, keepLast)
    ensures Inv(Step(w, Delete(n, lingers), keepLast, retention), keepLast)
  {
    if n in w.runs && exists e :: e in w.pending && e.name == n {
      var x :| x in w.pending && x.name == n;
      var after := Step(w, Delete(n, lingers), keepLast, retention);
      forall e | e in after.pending ensures Owed(after, e, keepLast)
      {
        assert Owed(w, e, keepLast);
        hide Protected;
        DeleteKeepsOwed(w, n, x, after.runs, e, keepLast);
      }
      hide Owed, Legal, Protected;
    }
  }

  lemma VanishKeepsInv(w: World, n: string, keepLast: nat)
    requires Inv(w, keepLast) && n in w.runs && w.runs[n].deleting
    ensures Inv(w.(runs := w.runs - {n}), keepLast)
  {
    var after := w.(runs := w.runs - {n});
    forall e | e in after.pending ensures Owed(after, e, keepLast)
    {
      assert Owed(w, e, keepLast);
      MoreSurvivors(w.runs, after.runs, e, keepLast);
    }
  }

  lemma StepKeepsInv(w: World, e: Event, keepLast: nat, retention: nat)
    requires Inv(w, keepLast)
    ensures Inv(Step(w, e, keepLast, retention), keepLast)
  {
    hide Inv, Owed, Protected, Candidate, Legal;
    match e
    case Birth(n, r) => if n !in w.used && !r.deleting && Legal(r, r) { BirthKeepsInv(w, n, r, keepLast); }
    case Update(n, r) => if n in w.runs && Legal(w.runs[n], r) { UpdateKeepsInv(w, n, r, keepLast); }
    case List(now) => ListKeepsInv(w, now, keepLast, retention);
    case Delete(n, lingers) => DeleteKeepsInv(w, n, lingers, keepLast, retention);
    case Vanish(n) => if n in w.runs && w.runs[n].deleting { VanishKeepsInv(w, n, keepLast); }
  }

  /** However sweeps, births and updates interleave, every run a sweep chose has keepLast live family members above
      it, for good. */
  lemma {:induction false} SweepsKeepTheNewest(w: World, events: seq<Event>, keepLast: nat, retention: nat)
    requires Initial(w)
    ensures var end := Exec(w, events, keepLast, retention);
            Inv(end, keepLast) && forall e :: e in end.pending ==> Protected(end.runs, e, keepLast)
    decreases |events|
  {
    if events != [] {
      SweepsKeepTheNewest(w, events[..|events| - 1], keepLast, retention);
      StepKeepsInv(Exec(w, events[..|events| - 1], keepLast, retention), events[|events| - 1], keepLast, retention);
    }
    var end := Exec(w, events, keepLast, retention);
    assert forall e :: e in end.pending ==> Owed(end, e, keepLast);
  }

  /** Every decision to delete was made on a listing in which the run was a candidate. */
  lemma {:induction false} PendingWasCandidate(w: World, events: seq<Event>, e: Entry, keepLast: nat, retention: nat)
      returns (k: nat, now: int)
    requires Initial(w) && e in Exec(w, events, keepLast, retention).pending
    ensures k < |events| && events[k] == List(now)
    ensures var seen := Exec(w, events[..k], keepLast, retention).runs;
            Candidate(seen, e.name, keepLast, retention, now) && e == At(seen, e.name)
    ensures e.run.terminal && !e.run.parked && e.run.archiveID != "" && !e.run.archivePending
    ensures e.run.terminalAt.Some? && now >= e.run.terminalAt.value + retention
    decreases |events|
  {
    var last := |events| - 1;
    if e in Exec(w, events[..last], keepLast, retention).pending {
      k, now := PendingWasCandidate(w, events[..last], e, keepLast, retention);
      assert events[..last][..k] == events[..k];
    } else {
      k, now := last, events[last].now;
    }
  }

  /** A run that once existed is still there untouched, or some sweep chose it: parked, unarchived, unstamped and
      young runs stay. */
  lemma {:induction false} OnlyCandidatesGo(w: World, events: seq<Event>, j: nat, n: string, keepLast: nat,
      retention: nat)
    requires Initial(w) && j <= |events| && n in Exec(w, events[..j], keepLast, retention).runs
    ensures var end := Exec(w, events, keepLast, retention);
            (n in end.runs && !end.runs[n].deleting) || exists e :: e in end.pending && e.name == n
    decreases |events|
  {
    SweepsKeepTheNewest(w, events, keepLast, retention);
    hide Protected, Candidate, Legal, Owed;
    if j == |events| {
      assert events[..j] == events;
    } else {
      var last := |events| - 1;
      assert events[..last][..j] == events[..j];
      OnlyCandidatesGo(w, events[..last], j, n, keepLast, retention);
      SweepsKeepTheNewest(w, events[..last], keepLast, retention);
      PendingGrows(Exec(w, events[..last], keepLast, retention), events[last], keepLast, retention);
    }
  }

  lemma PendingGrows(w: World, e: Event, keepLast: nat, retention: nat)
    ensures w.pending <= Step(w, e, keepLast, retention).pending
    ensures forall n :: n in w.runs && n !in Step(w, e, keepLast, retention).runs ==>
              w.runs[n].deleting || exists x :: x in w.pending && x.name == n
    ensures Inv(w, keepLast) ==> forall n :: n in w.runs ==> n in w.used
  {
  }

  /** An unstamped run holds a place in the window only when every stamped member of its family does. */
  lemma UnstampedNeverDisplaces(runs: Runs, u: string, n: string, keepLast: nat)
    requires u in runs && Kept(runs, u, keepLast) && runs[u].terminalAt.None?
    requires n in runs && runs[n].terminal && runs[n].ticket == runs[u].ticket && runs[n].terminalAt.Some?
        && runs[n].terminalAt.value > 0
    ensures Kept(runs, n, keepLast)
  {
    forall m | m in Outrankers(runs, At(runs, n)) ensures m in Outrankers(runs, At(runs, u))
    {
      OutranksTransitive(At(runs, m), At(runs, n), At(runs, u));
    }
    SubsetSize(Outrankers(runs, At(runs, n)), Outrankers(runs, At(runs, u)));
  }

  /** The window is a window of the newest: whoever ended later than a kept run, or at the same time was created later,
      or then has the smaller name, is kept with it. */
  lemma NewerThanKeptIsKept(runs: Runs, n: string, m: string, keepLast: nat)
    requires n in runs && Kept(runs, n, keepLast)
    requires m in runs && runs[m].terminal && runs[m].ticket == runs[n].ticket
    requires
      || (runs[m].terminalAt.Some? && runs[n].terminalAt.Some? && runs[m].terminalAt.value > runs[n].terminalAt.value)
      || (runs[m].terminalAt == runs[n].terminalAt && runs[m].created > runs[n].created)
      || (runs[m].terminalAt == runs[n].terminalAt && runs[m].created == runs[n].created && Less(m, n))
    ensures Kept(runs, m, keepLast)
  {
    forall x | x in Outrankers(runs, At(runs, m)) ensures x in Outrankers(runs, At(runs, n))
    {
      OutranksTransitive(At(runs, x), At(runs, m), At(runs, n));
    }
    SubsetSize(Outrankers(runs, At(runs, m)), Outrankers(runs, At(runs, n)));
  }

  ghost function Family(runs: Runs, ticket: string): set<string> {
    set n | n in runs && runs[n].terminal && runs[n].ticket == ticket
  }

  /** The entries of some terminal runs in rank order. */
  lemma {:induction false} Ranked(runs: Runs, names: set<string>) returns (s: seq<Entry>)
    requires names <= runs.Keys
    ensures Sorted(s, Outranks) && |s| == |names| && forall e :: e in s <==> e.name in names && e == At(runs, e.name)
    decreases |names|
  {
    s := [];
    if names != {} {
      var n :| n in names;
      var rest := Ranked(runs, names - {n});
      var k := 0;
      OutranksIsStrict();
      while k < |rest| && Outranks(rest[k], At(runs, n))
        invariant k <= |rest| && forall i :: 0 <= i < k ==> Outranks(rest[i], At(runs, n))
      {
        k := k + 1;
      }
      if k < |rest| {
        assert rest[k] in rest;
        LessTotal(n, rest[k].name);
      }
      s := rest[..k] + [At(runs, n)] + rest[k..];
      InsertedIsSorted(rest, k, At(runs, n));
    }
  }

  lemma InsertedIsSorted(s: seq<Entry>, k: nat, e: Entry)
    requires Sorted(s, Outranks) && k <= |s| && forall i :: 0 <= i < k ==> Outranks(s[i], e)
    requires k < |s| ==> Outranks(e, s[k])
    ensures var r := s[..k] + [e] + s[k..];
            Sorted(r, Outranks) && |r| == |s| + 1 && forall x :: x in r <==> x in s || x == e
  {
    forall i | k < i < |s| ensures Outranks(e, s[i]) { OutranksTransitive(e, s[k], s[i]); }
    hide Outranks;
    assert forall x :: x in s <==> x in s[..k] || x in s[k..];
  }

  /** And it is full: a family keeps keepLast of its terminal runs, or all of them. */
  lemma WindowIsFull(runs: Runs, ticket: string, keepLast: nat)
    ensures var kept := set n | n in Family(runs, ticket) && Kept(runs, n, keepLast);
            |kept| == if |Family(runs, ticket)| < keepLast then |Family(runs, ticket)| else keepLast
  {
    var s := Ranked(runs, Family(runs, ticket));
    var size := if |s| < keepLast then |s| else keepLast;
    SortedNamesDiffer(s);
    NamesCount(s, size);
    forall k | 0 <= k < |s| ensures s[k].name in runs && (Kept(runs, s[k].name, keepLast) <==> k < keepLast)
    {
      assert s[k] in s;
      PositionIsRank(runs, s, ticket, k);
    }
    var kept := set n | n in Family(runs, ticket) && Kept(runs, n, keepLast);
    forall n ensures n in kept <==> n in FirstNames(s, size)
    {
      if n in kept {
        assert At(runs, n) in s;
        var k :| 0 <= k < |s| && s[k] == At(runs, n);
      }
      if n in FirstNames(s, size) {
        var k :| 0 <= k < size && s[k].name == n;
        assert s[k] in s;
      }
    }
    assert kept == FirstNames(s, size);
  }

  /** Every run a sweep ever chose has left keepLast others of its family alive that ended no earlier than it did. */
  lemma SweptRunsLeaveNewer(w: World, events: seq<Event>, e: Entry, keepLast: nat, retention: nat)
      returns (newer: set<string>)
    requires Initial(w) && e in Exec(w, events, keepLast, retention).pending
    ensures |newer| >= keepLast && e.name !in newer && e.run.terminalAt.Some?
    ensures var runs := Exec(w, events, keepLast, retention).runs;
            forall n :: n in newer ==>
              && n in runs && runs[n].terminal && !runs[n].deleting && runs[n].ticket == e.run.ticket
              && runs[n].terminalAt.Some? && runs[n].terminalAt.value >= e.run.terminalAt.value
              && (runs[n].terminalAt == e.run.terminalAt ==> runs[n].created >= e.run.created)
  {
    SweepsKeepTheNewest(w, events, keepLast, retention);
    var end := Exec(w, events, keepLast, retention);
    assert Owed(end, e, keepLast);
    newer := Survivors(end.runs, e);
    OutranksIsStrict();
    if e.name in newer {
      LessIrreflexive(e.name);
    }
  }

  // ---------------------------------------------------------------- one pass is a listing and its deletions

  function Deletions(order: seq<string>, lingers: string -> bool): seq<Event> {
    seq(|order|, i requires 0 <= i < |order| => Delete(order[i], lingers(order[i])))
  }

  lemma ExecStep(w: World, events: seq<Event>, e: Event, keepLast: nat, retention: nat)
    ensures Exec(w, [], keepLast, retention) == w
    ensures Exec(w, events + [e], keepLast, retention)
        == Step(Exec(w, events, keepLast, retention), e, keepLast, retention)
  {
    assert (events + [e])[..|events|] == events;
  }

  lemma DeleteNext(w: World, now: int, hit: set<string>, n: string, lingers: string -> bool, keepLast: nat,
      retention: nat)
    requires n !in hit && n in w.runs && Candidate(w.runs, n, keepLast, retention, now)
    ensures var listed := Step(w, List(now), keepLast, retention);
            Step(listed.(runs := Swept(w.runs, hit, lingers)), Delete(n, lingers(n)), keepLast, retention)
              == listed.(runs := Swept(w.runs, hit + {n}, lingers))
  {
    var listed := Step(w, List(now), keepLast, retention);
    assert At(w.runs, n) in listed.pending && At(w.runs, n).name == n;
    SweptNext(w.runs, hit, n, lingers);
  }

  lemma {:induction false} SweepIsARun(w: World, now: int, order: seq<string>, lingers: string -> bool, keepLast: nat,
      retention: nat)
    requires NoDup(order) && forall n :: n in order ==> n in w.runs && Candidate(w.runs, n, keepLast, retention, now)
    ensures Exec(w, [List(now)] + Deletions(order, lingers), keepLast, retention)
         == Step(w, List(now), keepLast, retention).(runs := Swept(w.runs, (set n | n in order), lingers))
    decreases |order|
  {
    hide Exec, Step, Swept, Candidate;
    if order == [] {
      ExecStep(w, [], List(now), keepLast, retention);
      SweptNone(w.runs, lingers);
      ListKeepsRuns(w, now, keepLast, retention);
      assert [List(now)] + Deletions(order, lingers) == [] + [List(now)];
      assert (set n | n in order) == {};
    } else {
      var fewer, n := order[..|order| - 1], order[|order| - 1];
      assert forall m :: m in fewer ==> m in order;
      assert order == fewer + [n] && n !in fewer;
      SweepIsARun(w, now, fewer, lingers, keepLast, retention);
      ExecStep(w, [List(now)] + Deletions(fewer, lingers), Delete(n, lingers(n)), keepLast, retention);
      DeleteNext(w, now, (set m | m in fewer), n, lingers, keepLast, retention);
      assert [List(now)] + Deletions(order, lingers)
          == [List(now)] + Deletions(fewer, lingers) + [Delete(n, lingers(n))];
      assert (set m | m in order) == (set m | m in fewer) + {n};
    }
  }

  lemma ListKeepsRuns(w: World, now: int, keepLast: nat, retention: nat)
    ensures Step(w, List(now), keepLast, retention).runs == w.runs
  {
  }
}
