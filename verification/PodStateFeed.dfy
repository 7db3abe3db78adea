/** The transition-only pod-state feed and its dedupe cache. */
module PodStateFeeds {
  import opened Common

  datatype Report = Report(adapterType: string, scopeName: string, scopeID: string, phase: string, reason: string)
  {
    function ScopeKey(): string {
      adapterType + "/" + scopeName + "/" + scopeID
    }

    function Signal(): string {
      phase + "|" + reason
    }

    predicate Joinable() {
      scopeID != ""
    }

    /** The consumer's join keys and a phase it knows. */
    predicate Validates() {
      adapterType != "" && scopeID != "" && phase in {"Pending", "Running", "Succeeded", "Failed", "Unknown"}
    }
  }

  function Key(run: string, r: Report): string {
    run + "/" + r.ScopeKey()
  }

  /** Two reports castle would accept send one signal exactly when phase and reason agree. */
  lemma SignalIsPhaseAndReason(a: Report, b: Report)
    requires a.Validates() && b.Validates()
    ensures a.Signal() == b.Signal() <==> a.phase == b.phase && a.reason == b.reason
  {
    if a.Signal() == b.Signal() {
      assert '|' !in a.phase && '|' !in b.phase;
      SplitAt(a.phase, b.phase, '|', a.reason, b.reason);
    }
  }

  /** Without a slash in run, type and scope name a key means one scope of one run. */
  lemma KeyIsRunAndScope(run: string, a: Report, run': string, b: Report)
    requires forall s :: s in {run, run', a.adapterType, b.adapterType, a.scopeName, b.scopeName} ==> '/' !in s
    ensures Key(run, a) == Key(run', b) <==>
      run == run' && a.adapterType == b.adapterType && a.scopeName == b.scopeName && a.scopeID == b.scopeID
  {
    var all := {run, run', a.adapterType, b.adapterType, a.scopeName, b.scopeName};
    assert run in all && run' in all && a.adapterType in all && b.adapterType in all && a.scopeName in all
      && b.scopeName in all;
    if Key(run, a) == Key(run', b) {
      SplitAt(run, run', '/', a.ScopeKey(), b.ScopeKey());
      var x, y := a.scopeName + "/" + a.scopeID, b.scopeName + "/" + b.scopeID;
      assert a.ScopeKey() == a.adapterType + "/" + x && b.ScopeKey() == b.adapterType + "/" + y;
      SplitAt(a.adapterType, b.adapterType, '/', x, y);
      SplitAt(a.scopeName, b.scopeName, '/', a.scopeID, b.scopeID);
    }
  }

  datatype Cached = Cached(signal: string, at: int)

  /** How often a scope-less report was skipped, and when that was last noted; None before the first note. */
  datatype Skip = Skip(count: nat, logged: Option<int>)

  /** What happened to a key: a signal accepted for it, or its cache entry aged out. */
  datatype Entry = Accept(key: string, signal: string) | Prune(keys: set<string>)

  // ---------------------------------------------------------------- the log and the cache

  /** The signal last accepted for a key and not aged out since. */
  function LastFor(log: seq<Entry>, key: string): Option<string> {
    if log == [] then None
    else
      match log[|log| - 1]
      case Accept(k, s) => if k == key then Some(s) else LastFor(log[..|log| - 1], key)
      case Prune(keys) => if key in keys then None else LastFor(log[..|log| - 1], key)
  }

  /** The cache holds exactly the last accepted signal of every key. */
  ghost predicate Agrees(last: map<string, Cached>, log: seq<Entry>) {
    forall k :: LastFor(log, k) == if k in last then Some(last[k].signal) else None
  }

  /** No key is told the same thing twice in a row, except across a prune. */
  ghost predicate NoRepeats(log: seq<Entry>) {
    forall i :: 0 <= i < |log| && log[i].Accept? ==> LastFor(log[..i], log[i].key) != Some(log[i].signal)
  }

  lemma LastForStep(log: seq<Entry>, e: Entry, key: string)
    ensures e.Accept? ==> LastFor(log + [e], key) == if e.key == key then Some(e.signal) else LastFor(log, key)
    ensures e.Prune? ==> LastFor(log + [e], key) == if key in e.keys then None else LastFor(log, key)
  {
    assert (log + [e])[..|log|] == log;
  }

  lemma NoRepeatsStep(log: seq<Entry>, e: Entry)
    ensures NoRepeats(log + [e]) <==> NoRepeats(log) && (e.Accept? ==> LastFor(log, e.key) != Some(e.signal))
  {
    var next := log + [e];
    assert next[|log|] == e && next[..|log|] == log;
    forall i | 0 <= i < |log| ensures next[i] == log[i] && next[..i] == log[..i] {}
  }

  // ---------------------------------------------------------------- one call

  function Fresh(last: map<string, Cached>, now: int, ttl: int): map<string, Cached> {
    map k | k in last && now - last[k].at <= ttl :: last[k]
  }

  function FreshSkips(skips: map<string, Skip>, now: int, ttl: int): map<string, Skip> {
    map k | k in skips && skips[k].logged.Some? && now - skips[k].logged.value <= ttl :: skips[k]
  }

  predicate IsChanged(last: map<string, Cached>, run: string, r: Report) {
    r.Joinable() && (Key(run, r) !in last || last[Key(run, r)].signal != r.Signal())
  }

  /** The reports whose signal differs from the cached one, in order. */
  function Changed(last: map<string, Cached>, run: string, reports: seq<Report>): (p: seq<Report>)
    ensures forall r :: r in p <==> r in reports && IsChanged(last, run, r)
  {
    if reports == [] then []
    else
      var r := reports[|reports| - 1];
      assert reports == reports[..|reports| - 1] + [r];
      Changed(last, run, reports[..|reports| - 1]) + if IsChanged(last, run, r) then [r] else []
  }

  /** Counts one scope-less report, noting it when the last note is old enough. */
  function Skipped(skips: map<string, Skip>, key: string, now: int, noteEvery: int): map<string, Skip> {
    var s := if key in skips then skips[key] else Skip(0, None);
    skips[key := Skip(s.count + 1, if s.logged.None? || now - s.logged.value >= noteEvery then Some(now) else s.logged)]
  }

  function SkipAll(skips: map<string, Skip>, run: string, reports: seq<Report>, now: int,
      noteEvery: int): map<string, Skip> {
    if reports == [] then skips
    else
      var r, before := reports[|reports| - 1], SkipAll(skips, run, reports[..|reports| - 1], now, noteEvery);
      if r.Joinable() then before else Skipped(before, Key(run, r), now, noteEvery)
  }

  /** The scope-less reports of a batch under one key. */
  function Scopeless(run: string, reports: seq<Report>, key: string): nat {
    if reports == [] then 0
    else
      var r := reports[|reports| - 1];
      Scopeless(run, reports[..|reports| - 1], key) + if !r.Joinable() && Key(run, r) == key then 1 else 0
  }

  function CountOf(skips: map<string, Skip>, key: string): nat {
    if key in skips then skips[key].count else 0
  }

  /** The skip counter only counts up, noted or not: no note resets it. */
  lemma {:induction false} SkipsCountOn(
      skips: map<string, Skip>, run: string, reports: seq<Report>, now: int, noteEvery: int, key: string)
    ensures CountOf(SkipAll(skips, run, reports, now, noteEvery), key)
        == CountOf(skips, key) + Scopeless(run, reports, key)
    decreases |reports|
  {
    if reports != [] { SkipsCountOn(skips, run, reports[..|reports| - 1], now, noteEvery, key); }
  }

  /** When a key was last noted; None for a key nobody skipped. */
  function NotedOf(skips: map<string, Skip>, key: string): Option<int> {
    if key in skips then skips[key].logged else None
  }

  /** A batch with scope-less reports of a key notes it at most once: now, unless the last note is younger than the
      interval. */
  lemma {:induction false} NotesAreRateLimited(
      skips: map<string, Skip>, run: string, reports: seq<Report>, now: int, noteEvery: int, key: string)
    ensures var before, after := NotedOf(skips, key), NotedOf(SkipAll(skips, run, reports, now, noteEvery), key);
            if Scopeless(run, reports, key) == 0 then after == before
            else if before.Some? && now - before.value < noteEvery then after == before
            else after == Some(now)
    decreases |reports|
  {
    if reports != [] { NotesAreRateLimited(skips, run, reports[..|reports| - 1], now, noteEvery, key); }
  }

  datatype Answer = Acked | Refused | Cancelled

  /** An attempt is acknowledged before the budget runs out or the context ends; an invalid report never is. */
  predicate Submitted(r: Report, answers: nat -> Answer, budget: nat) {
    r.Validates() && exists j: nat :: j < budget && answers(j) == Acked && forall k: nat :: k < j ==>
      answers(k) == Refused
  }

  /** Whether the i-th pending report is acknowledged. */
  ghost function Oks(pending: seq<Report>, answers: nat -> (nat -> Answer), budget: nat): nat -> bool {
    (i: nat) => i < |pending| && Submitted(pending[i], answers(i), budget)
  }

  /** The accepted part of the pending reports, as log entries. */
  ghost function Accepted(run: string, pending: seq<Report>, ok: nat -> bool): seq<Entry> {
    if pending == [] then []
    else
      var i := |pending| - 1;
      Accepted(run, pending[..i], ok) + if ok(i) then [Accept(Key(run, pending[i]), pending[i].Signal())] else []
  }

  ghost function CacheAfter(last: map<string, Cached>, run: string, pending: seq<Report>, ok: nat -> bool,
      at: nat -> int): map<string, Cached> {
    if pending == [] then last
    else
      var i := |pending| - 1;
      var before := CacheAfter(last, run, pending[..i], ok, at);
      if ok(i) then before[Key(run, pending[i]) := Cached(pending[i].Signal(), at(i))] else before
  }

  class PodStateFeed {
    var last: map<string, Cached>
    var skips: map<string, Skip>
    ghost var log: seq<Entry>
    const ttl: int
    const noteEvery: int
    const maxAttempts: nat

    constructor (ttl: int, noteEvery: int, maxAttempts: nat)
      ensures last == map[] && log == [] && Agrees(last, log) && NoRepeats(log)
      ensures this.ttl == ttl && this.noteEvery == noteEvery && this.maxAttempts == maxAttempts
    {
      last, skips, log := map[], map[], [];
      this.ttl, this.noteEvery, this.maxAttempts := ttl, noteEvery, maxAttempts;
    }

    method PruneStale(now: int)
      modifies this
      ensures last == Fresh(old(last), now, ttl) && skips == FreshSkips(old(skips), now, ttl)
      ensures log == old(log) + [Prune(old(last).Keys - last.Keys)]
    {
      var todo, was := last.Keys, last;
      while todo != {}
        invariant todo <= was.Keys && skips == old(skips) && log == old(log)
        invariant last == map k | k in was && (k in todo || now - was[k].at <= ttl) :: was[k]
        decreases todo
      {
        var k :| k in todo;
        todo := todo - {k};
        if now - was[k].at > ttl {
          last := last - {k};
        }
      }
      var left, ledger := skips.Keys, skips;
      while left != {}
        invariant left <= ledger.Keys && last == Fresh(was, now, ttl) && log == old(log)
        invariant skips == map k | k in ledger
            && (k in left || (ledger[k].logged.Some? && now - ledger[k].logged.value <= ttl)) :: ledger[k]
        decreases left
      {
        var k :| k in left;
        left := left - {k};
        if ledger[k].logged.None? || now - ledger[k].logged.value > ttl {
          skips := skips - {k};
        }
      }
      log := log + [Prune(was.Keys - last.Keys)];
    }

    method Submit(r: Report, answers: nat -> Answer) returns (ok: bool)
      ensures ok <==> Submitted(r, answers, maxAttempts)
    {
      for i := 0 to maxAttempts
        invariant forall k: nat :: k < i ==> r.Validates() ==> answers(k) == Refused
      {
        if r.Validates() {
          if answers(i) == Acked {
            return true;
          }
          if answers(i) == Cancelled {
            return false;
          }
        }
      }
      return false;
    }

    /** answers(i) answers the attempts for the i-th pending report; at(i) is the clock when it was accepted. */
    method Emit(run: string, reports: seq<Report>, now: int, answers: nat -> (nat -> Answer), at: nat -> int)
      requires Agrees(last, log)
      modifies this
      ensures Agrees(last, log)
      ensures run == "" ==> last == old(last) && skips == old(skips) && log == old(log)
      ensures run != "" ==>
        var kept := Fresh(old(last), now, ttl);
        var pending := Changed(kept, run, reports);
        var ok := Oks(pending, answers, maxAttempts);
        && last == CacheAfter(kept, run, pending, ok, at)
        && log == old(log) + [Prune(old(last).Keys - kept.Keys)] + Accepted(run, pending, ok)
        && skips == SkipAll(FreshSkips(old(skips), now, ttl), run, reports, now, noteEvery)
      ensures NoRepeats(old(log)) && DistinctSignals(run, Changed(Fresh(old(last), now, ttl), run, reports)) ==>
                NoRepeats(log)
    {
      if run == "" {
        return;
      }
      PruneStale(now);
      PruneAgrees(old(last), old(log), now, ttl);
      hide Agrees, NoRepeats, DistinctSignals, Fresh, FreshSkips, Submitted, Skipped;
      ghost var kept, logged := last, log;
      var pending := Choose(run, reports, now);
      SubmitAll(run, pending, answers, at);
      ghost var ok := Oks(pending, answers, maxAttempts);
      BatchAgrees(kept, logged, run, pending, ok, at);
      if NoRepeats(logged) && DistinctSignals(run, pending) {
        ChangedIsPending(kept, run, reports);
        OnlyValidAccepted(run, pending, answers, maxAttempts);
        BatchNeverRepeats(kept, logged, run, pending, ok, at);
      }
    }

    /** Counts the scope-less reports and picks the changed ones. */
    method Choose(run: string, reports: seq<Report>, now: int) returns (pending: seq<Report>)
      modifies this`skips
      ensures pending == Changed(last, run, reports)
      ensures skips == SkipAll(old(skips), run, reports, now, noteEvery)
    {
      hide Skipped;
      pending := [];
      for i := 0 to |reports|
        invariant pending == Changed(last, run, reports[..i])
        invariant skips == SkipAll(old(skips), run, reports[..i], now, noteEvery)
      {
        assert reports[..i + 1][..i] == reports[..i];
        var r := reports[i];
        if !r.Joinable() {
          skips := Skipped(skips, Key(run, r), now, noteEvery);
          continue;
        }
        if Key(run, r) in last && last[Key(run, r)].signal == r.Signal() {
          continue;
        }
        pending := pending + [r];
      }
      assert reports[..|reports|] == reports;
    }

    /** A failed submit advances nothing, so the report is pending again next time. */
    method SubmitAll(run: string, pending: seq<Report>, answers: nat -> (nat -> Answer), at: nat -> int)
      modifies this`last, this`log
      ensures last == CacheAfter(old(last), run, pending, Oks(pending, answers, maxAttempts), at)
      ensures log == old(log) + Accepted(run, pending, Oks(pending, answers, maxAttempts))
    {
      hide Submitted;
      ghost var ok := Oks(pending, answers, maxAttempts);
      for i := 0 to |pending|
        invariant last == CacheAfter(old(last), run, pending[..i], ok, at)
        invariant log == old(log) + Accepted(run, pending[..i], ok)
      {
        assert pending[..i + 1][..i] == pending[..i];
        var r := pending[i];
        var accepted := Submit(r, answers(i));
        if !accepted {
          continue;
        }
        last := last[Key(run, r) := Cached(r.Signal(), at(i))];
        log := log + [Accept(Key(run, r), r.Signal())];
      }
      assert pending[..|pending|] == pending;
    }
  }

  /** No two reports castle would accept carry the same key and the same signal. */
  ghost predicate DistinctSignals(run: string, reports: seq<Report>) {
    forall i, j :: 0 <= i < j < |reports| && reports[i].Validates() && reports[j].Validates() ==>
      Key(run, reports[i]) != Key(run, reports[j]) || reports[i].Signal() != reports[j].Signal()
  }

  /** No two accepted reports do. */
  ghost predicate Apart(run: string, pending: seq<Report>, ok: nat -> bool) {
    forall i: nat, j: nat :: i < j < |pending| && ok(i) && ok(j) ==>
      Key(run, pending[i]) != Key(run, pending[j]) || pending[i].Signal() != pending[j].Signal()
  }

  lemma OnlyValidAccepted(run: string, pending: seq<Report>, answers: nat -> (nat -> Answer), budget: nat)
    requires DistinctSignals(run, pending)
    ensures Apart(run, pending, Oks(pending, answers, budget))
  {
    var ok := Oks(pending, answers, budget);
    forall i: nat | i < |pending| && ok(i) ensures pending[i].Validates()
    {
      assert Submitted(pending[i], answers(i), budget);
    }
  }

  lemma PruneAgrees(last: map<string, Cached>, log: seq<Entry>, now: int, ttl: int)
    requires Agrees(last, log)
    ensures var kept := Fresh(last, now, ttl); var log' := log + [Prune(last.Keys - kept.Keys)];
            Agrees(kept, log') && (NoRepeats(log') <==> NoRepeats(log))
  {
    var kept := Fresh(last, now, ttl);
    var e := Prune(last.Keys - kept.Keys);
    NoRepeatsStep(log, e);
    forall k ensures LastFor(log + [e], k) == if k in kept then Some(kept[k].signal) else None
    {
      LastForStep(log, e, k);
    }
  }

  /** A batch without such pairs has none among its changed reports. */
  lemma {:induction false} ChangedStaysDistinct(last: map<string, Cached>, run: string, reports: seq<Report>)
    requires DistinctSignals(run, reports)
    ensures DistinctSignals(run, Changed(last, run, reports))
  {
    if reports != [] {
      var before, r := reports[..|reports| - 1], reports[|reports| - 1];
      ChangedStaysDistinct(last, run, before);
      forall x | x in Changed(last, run, before) && x.Validates() && r.Validates()
        ensures Key(run, x) != Key(run, r) || x.Signal() != r.Signal()
      {
        var i :| 0 <= i < |before| && before[i] == x;
        assert reports[i] == x;
      }
    }
  }

  /** What the cache says of a key after some accepts: what it said before, or the signal of one of them. */
  lemma {:induction false} CacheOrigin(last: map<string, Cached>, run: string, pending: seq<Report>, ok: nat -> bool,
      at: nat -> int, key: string)
    ensures var c := CacheAfter(last, run, pending, ok, at);
            key !in c || (key in last && c[key] == last[key])
            || exists j ::
                 0 <= j < |pending| && ok(j) && Key(run, pending[j]) == key && pending[j].Signal() == c[key].signal
  {
    if pending != [] {
      CacheOrigin(last, run, pending[..|pending| - 1], ok, at, key);
    }
  }

  /** Every report of the list differs from the cache. */
  ghost predicate Pending(last: map<string, Cached>, run: string, pending: seq<Report>) {
    forall i :: 0 <= i < |pending| ==> IsChanged(last, run, pending[i])
  }

  lemma ChangedIsPending(last: map<string, Cached>, run: string, reports: seq<Report>)
    ensures Pending(last, run, Changed(last, run, reports))
  {
    var p := Changed(last, run, reports);
    forall i | 0 <= i < |p| ensures IsChanged(last, run, p[i]) { assert p[i] in p; }
  }

  lemma NextIsNew(last: map<string, Cached>, run: string, pending: seq<Report>, ok: nat -> bool, at: nat -> int)
    requires Pending(last, run, pending) && Apart(run, pending, ok) && pending != []
    ensures var i := |pending| - 1; var c := CacheAfter(last, run, pending[..i], ok, at);
            && Pending(last, run, pending[..i]) && Apart(run, pending[..i], ok)
            && (ok(i) && Key(run, pending[i]) in c ==> c[Key(run, pending[i])].signal != pending[i].Signal())
  {
    var i := |pending| - 1;
    var before := pending[..i];
    assert forall j :: 0 <= j < i ==> before[j] == pending[j];
    assert IsChanged(last, run, pending[i]);
    CacheOrigin(last, run, before, ok, at, Key(run, pending[i]));
  }

  lemma AcceptAgrees(last: map<string, Cached>, log: seq<Entry>, key: string, signal: string, at: int)
    requires Agrees(last, log)
    ensures Agrees(last[key := Cached(signal, at)], log + [Accept(key, signal)])
    ensures NoRepeats(log + [Accept(key, signal)]) <==> NoRepeats(log) && !(key in last && last[key].signal == signal)
  {
    NoRepeatsStep(log, Accept(key, signal));
    forall k ensures LastFor(log + [Accept(key, signal)], k) == if k == key then Some(signal) else LastFor(log, k)
    {
      LastForStep(log, Accept(key, signal), k);
    }
  }

  lemma AcceptedNext(log: seq<Entry>, run: string, pending: seq<Report>, ok: nat -> bool)
    requires pending != []
    ensures var i := |pending| - 1; var was := log + Accepted(run, pending[..i], ok);
            log + Accepted(run, pending, ok)
            == if ok(i) then was + [Accept(Key(run, pending[i]), pending[i].Signal())] else was
  {
  }

  /** Whatever part of a batch is accepted, and whatever it repeats, the cache keeps agreeing with the history. */
  lemma {:induction false} BatchAgrees(
      last: map<string, Cached>, log: seq<Entry>, run: string, pending: seq<Report>, ok: nat -> bool, at: nat -> int)
    requires Agrees(last, log)
    ensures Agrees(CacheAfter(last, run, pending, ok, at), log + Accepted(run, pending, ok))
  {
    hide Agrees, Key;
    if pending == [] {
      assert log + [] == log;
    } else {
      var i := |pending| - 1;
      BatchAgrees(last, log, run, pending[..i], ok, at);
      var was := log + Accepted(run, pending[..i], ok);
      AcceptedNext(log, run, pending, ok);
      AcceptAgrees(CacheAfter(last, run, pending[..i], ok, at), was, Key(run, pending[i]), pending[i].Signal(), at(i));
    }
  }

  /** While no two accepted reports share key and signal, nothing is told twice in a row. */
  lemma {:induction false} BatchNeverRepeats(
      last: map<string, Cached>, log: seq<Entry>, run: string, pending: seq<Report>, ok: nat -> bool, at: nat -> int)
    requires Agrees(last, log) && NoRepeats(log) && Pending(last, run, pending) && Apart(run, pending, ok)
    ensures NoRepeats(log + Accepted(run, pending, ok))
  {
    if pending == [] {
      assert log + [] == log;
    } else {
      var i := |pending| - 1;
      hide Agrees, NoRepeats, Pending, Apart, Key;
      NextIsNew(last, run, pending, ok, at);
      BatchNeverRepeats(last, log, run, pending[..i], ok, at);
      BatchAgrees(last, log, run, pending[..i], ok, at);
      var was := log + Accepted(run, pending[..i], ok);
      AcceptedNext(log, run, pending, ok);
      AcceptAgrees(CacheAfter(last, run, pending[..i], ok, at), was, Key(run, pending[i]), pending[i].Signal(), at(i));
    }
  }

  // ---------------------------------------------------------------- when a batch can repeat a signal

  /** Two pending reports with one key and one signal repeat when only they get through. */
  lemma DuplicatesRepeat(log: seq<Entry>, run: string, pending: seq<Report>, ok: nat -> bool, i: nat, j: nat)
    requires i < j < |pending| && forall k: nat :: k < |pending| ==> (ok(k) <==> k == i || k == j)
    requires Key(run, pending[i]) == Key(run, pending[j]) && pending[i].Signal() == pending[j].Signal()
    ensures !NoRepeats(log + Accepted(run, pending, ok))
  {
    var e := Accept(Key(run, pending[i]), pending[i].Signal());
    OnlyTwoAccepted(run, pending, ok, i, j, |pending|);
    assert pending[..|pending|] == pending;
    assert log + ([e] + [e]) == log + [e] + [e];
    LastForStep(log, e, e.key);
    NoRepeatsStep(log + [e], e);
  }

  lemma {:induction false} OnlyTwoAccepted(
      run: string, pending: seq<Report>, ok: nat -> bool, i: nat, j: nat, n: nat)
    requires i < j < |pending| && n <= |pending|
    requires forall k: nat :: k < |pending| ==> (ok(k) <==> k == i || k == j)
    ensures var a := Accept(Key(run, pending[i]), pending[i].Signal());
            var b := Accept(Key(run, pending[j]), pending[j].Signal());
            Accepted(run, pending[..n], ok) == (if i < n then [a] else []) + (if j < n then [b] else [])
  {
    if n > 0 {
      assert pending[..n][..n - 1] == pending[..n - 1];
      OnlyTwoAccepted(run, pending, ok, i, j, n - 1);
    }
  }

  /** Castle acknowledges these two submits at once and refuses every other. */
  function OnlyThese(i: nat, j: nat): nat -> (nat -> Answer) {
    (k: nat) => (attempt: nat) => if k == i || k == j then Acked else Refused
  }

  lemma OnlyTheseAccepted(pending: seq<Report>, i: nat, j: nat, budget: nat)
    requires i < j < |pending| && pending[i].Validates() && pending[j].Validates() && budget > 0
    ensures forall k: nat :: k < |pending| ==> (Oks(pending, OnlyThese(i, j), budget)(k) <==> k == i || k == j)
  {
    forall k: nat | k < |pending| ensures Oks(pending, OnlyThese(i, j), budget)(k) <==> k == i || k == j
    {
      AnsweredAlike(pending[k], OnlyThese(i, j)(k), if k == i || k == j then Acked else Refused, budget);
    }
  }

  lemma AnsweredAlike(r: Report, answers: nat -> Answer, answer: Answer, budget: nat)
    requires budget > 0 && forall attempt: nat :: answers(attempt) == answer
    ensures Submitted(r, answers, budget) <==> r.Validates() && answer == Acked
  {
    assert answers(0) == answer;
  }

  /** No answers of castle make a batch tell a key the same thing twice in a row, exactly when no two of its changed
      reports that castle would accept carry the same key and the same signal. */
  lemma NeverRepeatsIff(last: map<string, Cached>, log: seq<Entry>, run: string, reports: seq<Report>, budget: nat)
    requires Agrees(last, log) && NoRepeats(log) && budget > 0
    ensures var pending := Changed(last, run, reports);
            (forall answers: nat -> (nat -> Answer) ::
               NoRepeats(log + Accepted(run, pending, Oks(pending, answers, budget))))
            <==> DistinctSignals(run, pending)
  {
    var pending := Changed(last, run, reports);
    hide Agrees, NoRepeats, Changed, Oks, Accepted;
    if DistinctSignals(run, pending) {
      ChangedIsPending(last, run, reports);
      forall answers: nat -> (nat -> Answer)
        ensures NoRepeats(log + Accepted(run, pending, Oks(pending, answers, budget)))
      {
        OnlyValidAccepted(run, pending, answers, budget);
        BatchNeverRepeats(last, log, run, pending, Oks(pending, answers, budget), k => 0);
      }
    } else {
      var i, j :| 0 <= i < j < |pending| && pending[i].Validates() && pending[j].Validates()
                  && Key(run, pending[i]) == Key(run, pending[j]) && pending[i].Signal() == pending[j].Signal();
      OnlyTheseAccepted(pending, i, j, budget);
      DuplicatesRepeat(log, run, pending, Oks(pending, OnlyThese(i, j), budget), i, j);
    }
  }

  /** Two members of one adapter type in one scope instance report alike: a fresh feed tells their key twice. */
  method TwoMembersRepeat() returns (feed: PodStateFeed)
    ensures fresh(feed) && Agrees(feed.last, feed.log) && !NoRepeats(feed.log)
  {
    feed := new PodStateFeed(3600, 3600, 1);
    var r := Report("shell", "build", "s1", "Running", "");
    hide Agrees, NoRepeats;
    ghost var kept, pruned := Fresh(feed.last, 0, 3600), feed.log;
    feed.Emit("run", [r, r], 0, OnlyThese(0, 1), (k: nat) => 0);
    TwoPending(kept, r);
    OnlyTheseAccepted([r, r], 0, 1, 1);
    DuplicatesRepeat(pruned + [Prune({})], "run", [r, r], Oks([r, r], OnlyThese(0, 1), 1), 0, 1);
  }

  lemma TwoPending(kept: map<string, Cached>, r: Report)
    requires kept == map[] && r.Joinable()
    ensures Changed(kept, "run", [r, r]) == [r, r]
  {
    assert [r, r][..1] == [r] && [r][..0] == [];
    assert Changed(kept, "run", [r]) == [r];
  }

  /** When every submit is acknowledged the cache agrees with every joinable report, one report per scope. */
  lemma {:induction false} AllAcceptedAgrees(last: map<string, Cached>, run: string, reports: seq<Report>,
      ok: nat -> bool, at: nat -> int, r: Report)
    requires forall i, j :: 0 <= i < j < |reports| && reports[i].Joinable() && reports[j].Joinable() ==>
        Key(run, reports[i]) != Key(run, reports[j])
    requires forall i: nat :: i < |Changed(last, run, reports)| ==> ok(i)
    requires r in reports && r.Joinable()
    ensures var c := CacheAfter(last, run, Changed(last, run, reports), ok, at);
            Key(run, r) in c && c[Key(run, r)].signal == r.Signal()
  {
    var before, x := reports[..|reports| - 1], reports[|reports| - 1];
    var earlier := Changed(last, run, before);
    assert Changed(last, run, reports) == earlier + if IsChanged(last, run, x) then [x] else [];
    assert IsChanged(last, run, x) ==>
        x.Joinable() && Changed(last, run, reports)[..|earlier|] == earlier && ok(|earlier|);
    CacheNext(last, run, earlier, x, ok, at);
    hide IsChanged, Key, CacheAfter, Changed;
    if r in before {
      AllAcceptedAgrees(last, run, before, ok, at, r);
      var i :| 0 <= i < |before| && before[i] == r;
      assert reports[i] == r;
    } else {
      assert r == x;
      if !IsChanged(last, run, x) {
        NoneAcceptedFor(last, run, before, ok, at, x, reports);
      }
    }
  }

  lemma CacheNext(last: map<string, Cached>, run: string, pending: seq<Report>, x: Report, ok: nat -> bool,
      at: nat -> int)
    ensures CacheAfter(last, run, pending + [x], ok, at) ==
      if ok(|pending|) then CacheAfter(last, run, pending, ok, at)[Key(run, x) := Cached(x.Signal(), at(|pending|))]
          else CacheAfter(last, run, pending, ok, at)
    ensures pending + [] == pending
  {
    assert (pending + [x])[..|pending|] == pending;
  }

  /** A report that is not pending agrees with the cache, and later accepts of other scopes leave it so. */
  lemma NoneAcceptedFor(last: map<string, Cached>, run: string, before: seq<Report>, ok: nat -> bool, at: nat -> int,
      x: Report, reports: seq<Report>)
    requires reports == before + [x] && x.Joinable() && !IsChanged(last, run, x)
    requires forall i, j :: 0 <= i < j < |reports| && reports[i].Joinable() && reports[j].Joinable() ==>
        Key(run, reports[i]) != Key(run, reports[j])
    ensures var c := CacheAfter(last, run, Changed(last, run, before), ok, at);
            Key(run, x) in c && c[Key(run, x)].signal == x.Signal()
  {
    var earlier := Changed(last, run, before);
    CacheOrigin(last, run, earlier, ok, at, Key(run, x));
    CacheKeeps(last, run, earlier, ok, at, Key(run, x));
    forall j | 0 <= j < |earlier| ensures Key(run, earlier[j]) != Key(run, x)
    {
      assert earlier[j] in before;
      var i :| 0 <= i < |before| && before[i] == earlier[j];
      assert reports[i] == earlier[j] && reports[|before|] == x;
    }
  }

  lemma {:induction false} CacheKeeps(last: map<string, Cached>, run: string, pending: seq<Report>, ok: nat -> bool,
      at: nat -> int, key: string)
    requires key in last
    ensures key in CacheAfter(last, run, pending, ok, at)
  {
    if pending != [] { CacheKeeps(last, run, pending[..|pending| - 1], ok, at, key); }
  }

  /** Scope-less and malformed reports never reach the log. */
  lemma {:induction false} OnlyJoinableAccepted(last: map<string, Cached>, run: string, reports: seq<Report>,
      ok: nat -> bool, e: Entry)
    requires e in Accepted(run, Changed(last, run, reports), ok)
    ensures exists r :: r in reports && r.Joinable() && e == Accept(Key(run, r), r.Signal())
  {
    AcceptedFrom(run, Changed(last, run, reports), ok, e);
  }

  /** Whatever castle answers, nothing reaches the log but a report of the batch with both join keys and a phase castle
      knows. */
  lemma OnlyKnownStatesAccepted(last: map<string, Cached>, run: string, reports: seq<Report>,
      answers: nat -> (nat -> Answer), budget: nat, e: Entry)
    requires e in Accepted(run, Changed(last, run, reports), Oks(Changed(last, run, reports), answers, budget))
    ensures exists r ::
      && r in reports && r.adapterType != "" && r.scopeID != ""
      && r.phase in {"Pending", "Running", "Succeeded", "Failed", "Unknown"}
      && e == Accept(Key(run, r), r.Signal())
  {
    var pending := Changed(last, run, reports);
    AcceptedAt(run, pending, Oks(pending, answers, budget), e);
    var i: nat :| i < |pending| && Oks(pending, answers, budget)(i)
      && e == Accept(Key(run, pending[i]), pending[i].Signal());
    assert Submitted(pending[i], answers(i), budget) && pending[i] in pending;
  }

  lemma {:induction false} AcceptedAt(run: string, pending: seq<Report>, ok: nat -> bool, e: Entry)
    requires e in Accepted(run, pending, ok)
    ensures exists i: nat :: i < |pending| && ok(i) && e == Accept(Key(run, pending[i]), pending[i].Signal())
  {
    var i := |pending| - 1;
    if e in Accepted(run, pending[..i], ok) {
      AcceptedAt(run, pending[..i], ok, e);
      var j: nat :| j < i && ok(j) && e == Accept(Key(run, pending[..i][j]), pending[..i][j].Signal());
      assert pending[..i][j] == pending[j];
    }
  }

  lemma {:induction false} AcceptedFrom(run: string, pending: seq<Report>, ok: nat -> bool, e: Entry)
    requires e in Accepted(run, pending, ok)
    ensures exists r :: r in pending && e == Accept(Key(run, r), r.Signal())
  {
    var i := |pending| - 1;
    if e in Accepted(run, pending[..i], ok) {
      AcceptedFrom(run, pending[..i], ok, e);
      var r :| r in pending[..i] && e == Accept(Key(run, r), r.Signal());
      assert r in pending;
    } else {
      assert pending[i] in pending;
    }
  }
}
