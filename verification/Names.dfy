/** Pod names that keep their hash suffixes inside one DNS label. */
module Names {
  import opened Characters

  const LIMIT := 63
  const PREFIX_MAX := 24
  const HASH := 12

  predicate Alnum(c: char) {
    'a' <= c <= 'z' || '0' <= c <= '9'
  }

  predicate Dns(c: char) {
    Alnum(c) || c == '-'
  }

  ghost predicate AllDns(s: string) {
    forall i :: 0 <= i < |s| ==> Dns(s[i])
  }

  lemma AlnumIsLetterOrDigit(c: char)
    ensures Alnum(c) <==> c in LOWER || c in DIGITS
    ensures Dns(c) <==> c in LOWER || c in DIGITS || c == '-'
  {
    CharacterRanges(c);
  }

  /** A host-name label (RFC 1123 section 2.1, RFC 1035 section 2.3.4). */
  ghost predicate IsLabel(s: string) {
    1 <= |s| <= LIMIT && AllDns(s) && Alnum(s[0]) && Alnum(s[|s| - 1])
  }

  ghost predicate IsHash(h: string) {
    |h| == HASH && forall i :: 0 <= i < HASH ==> '0' <= h[i] <= '9' || 'a' <= h[i] <= 'f'
  }

  /** The suffix scheme: a fixed-length lowercase hexadecimal digest of any string. */
  ghost predicate Hashing(hash: string -> string) {
    forall s :: IsHash(hash(s))
  }

  /** Lower-casing moves no character that is already fit for a label. */
  ghost predicate Lowering(lower: char -> char) {
    forall c :: Dns(c) ==> lower(c) == c
  }

  // ---------------------------------------------------------------- trimming

  function TrimLeft(s: string): (r: string)
    ensures |r| <= |s| && r == s[|s| - |r|..]
    ensures r != "" ==> r[0] != '-'
    ensures forall i :: 0 <= i < |s| - |r| ==> s[i] == '-'
  {
    if s != "" && s[0] == '-' then TrimLeft(s[1..]) else s
  }

  function TrimRight(s: string): (r: string)
    ensures r <= s
    ensures r != "" ==> r[|r| - 1] != '-'
    ensures forall i :: |r| <= i < |s| ==> s[i] == '-'
  {
    if s != "" && s[|s| - 1] == '-' then TrimRight(s[..|s| - 1]) else s
  }

  function Trim(s: string): string {
    TrimLeft(TrimRight(s))
  }

  function OrUnknown(s: string): string {
    if s == "" then "unknown" else s
  }

  method TrimHyphens(s: string) returns (r: string)
    ensures r == OrUnknown(Trim(s))
  {
    r := s;
    while |r| > 0 && r[|r| - 1] == '-'
      invariant TrimRight(r) == TrimRight(s)
    {
      r := r[..|r| - 1];
    }
    while |r| > 0 && r[0] == '-'
      invariant TrimLeft(r) == Trim(s)
    {
      r := r[1..];
    }
    if r == "" {
      return "unknown";
    }
  }

  // ---------------------------------------------------------------- sanitising

  /** Every maximal run of unfit characters becomes one hyphen. */
  function Collapse(s: string, inRun: bool): (r: string)
    ensures AllDns(r)
  {
    if s == "" then ""
    else if Dns(s[0]) then [s[0]] + Collapse(s[1..], false)
    else (if inRun then "" else "-") + Collapse(s[1..], true)
  }

  /** One hyphen stands for each run of unfit characters, and nothing else is changed. */
  lemma {:induction false} CollapseRuns(a: string, run: string, b: string)
    requires a == "" || Dns(a[|a| - 1])
    requires run != "" && forall i :: 0 <= i < |run| ==> !Dns(run[i])
    requires b == "" || Dns(b[0])
    ensures Collapse(a + run + b, false) == Collapse(a, false) + "-" + Collapse(b, false)
  {
    CollapsePrefix(a, run + b, false);
    assert a + run + b == a + (run + b);
    CollapseRun(run, b, false);
  }

  lemma {:induction false} CollapsePrefix(a: string, rest: string, inRun: bool)
    requires a != "" ==> Dns(a[|a| - 1])
    ensures Collapse(a + rest, inRun) == Collapse(a, inRun) + Collapse(rest, if a == "" then inRun else false)
  {
    if a == "" {
      assert a + rest == rest;
    } else {
      assert (a + rest)[1..] == a[1..] + rest;
      CollapsePrefix(a[1..], rest, !Dns(a[0]));
    }
  }

  lemma {:induction false} CollapseRun(run: string, b: string, inRun: bool)
    requires (forall i :: 0 <= i < |run| ==> !Dns(run[i])) && (b == "" || Dns(b[0]))
    ensures Collapse(run + b, inRun) == (if run == "" || inRun then "" else "-") + Collapse(b, false)
  {
    if run == "" {
      assert run + b == b;
    } else {
      assert (run + b)[1..] == run[1..] + b;
      CollapseRun(run[1..], b, true);
    }
  }

  function Lowered(s: string, lower: char -> char): (r: string)
    ensures |r| == |s| && forall i :: 0 <= i < |s| ==> r[i] == lower(s[i])
  {
    seq(|s|, i requires 0 <= i < |s| => lower(s[i]))
  }

  function Capped(s: string, n: nat): (r: string)
    ensures r <= s && |r| <= n
  {
    if |s| > n then s[..n] else s
  }

  function SafeObjectName(s: string, lower: char -> char): string {
    OrUnknown(Trim(Capped(Trim(Collapse(Lowered(s, lower), false)), LIMIT)))
  }

  lemma TrimKeepsDns(s: string)
    requires AllDns(s)
    ensures AllDns(Trim(s)) && |Trim(s)| <= |s|
    ensures Trim(s) != "" ==> Alnum(Trim(s)[0]) && Alnum(Trim(s)[|Trim(s)| - 1])
  {
    var r := TrimRight(s);
    var t := TrimLeft(r);
    RightEnd(s);
    LeftEnd(r);
    hide TrimRight, TrimLeft, AllDns;
    assert t != "" ==> t[|t| - 1] == r[|r| - 1];
  }

  lemma RightEnd(s: string)
    requires AllDns(s)
    ensures var r := TrimRight(s); AllDns(r) && |r| <= |s| && (r != "" ==> Alnum(r[|r| - 1]))
  {
    var r := TrimRight(s);
    assert forall i :: 0 <= i < |r| ==> r[i] == s[i];
  }

  lemma {:induction false} LeftEnd(s: string)
    requires AllDns(s)
    ensures var r := TrimLeft(s); AllDns(r) && |r| <= |s| && (r != "" ==> Alnum(r[0]) && r[|r| - 1] == s[|s| - 1])
  {
    if s != "" && s[0] == '-' {
      var rest := s[1..];
      assert forall i :: 0 <= i < |rest| ==> rest[i] == s[i + 1];
      LeftEnd(rest);
    }
  }

  lemma SafeNameIsLabel(s: string, lower: char -> char)
    ensures IsLabel(SafeObjectName(s, lower))
  {
    hide Trim, Collapse, Lowered;
    var whole := Collapse(Lowered(s, lower), false);
    assert AllDns(whole) by { CollapseIsDns(Lowered(s, lower)); }
    TrimKeepsDns(whole);
    TrimKeepsDns(Capped(Trim(whole), LIMIT));
  }

  lemma CollapseIsDns(s: string)
    ensures AllDns(Collapse(s, false))
  {
  }

  lemma {:induction false} CollapseKeepsDns(s: string, inRun: bool)
    requires AllDns(s)
    ensures Collapse(s, inRun) == s
  {
    if s != "" {
      assert s == [s[0]] + s[1..];
      CollapseKeepsDns(s[1..], false);
    }
  }

  /** A name that is already a label is left alone, so sanitising twice is sanitising once. */
  lemma LabelIsFixed(s: string, lower: char -> char)
    requires IsLabel(s) && Lowering(lower)
    ensures SafeObjectName(s, lower) == s
  {
    assert forall i :: 0 <= i < |s| ==> lower(s[i]) == s[i];
    assert Lowered(s, lower) == s;
    CollapseKeepsDns(s, false);
    assert TrimRight(s) == s && TrimLeft(s) == s;
    hide TrimRight, TrimLeft, Collapse, Lowered, AllDns;
  }

  // ---------------------------------------------------------------- assembling

  /** The sanitised job name, cut to 24 bytes only when the assembled name would not fit. */
  function JobPrefix(job: string, reserve: nat, lower: char -> char): string {
    var safe := SafeObjectName(job, lower);
    if |safe| + reserve <= LIMIT then safe else TrimRight(Capped(safe, PREFIX_MAX))
  }

  /** Overflow is cut from the left, never from the hashes. */
  function KeepSuffix(base: string): string {
    if |base| <= LIMIT then base else OrUnknown(Trim(base[|base| - LIMIT..]))
  }

  const PEER_SEGMENT := "-peer-"
  const PEER_RESERVE := 31

  function PeerSuffix(scopeID: string, environment: string, hash: string -> string): string {
    PEER_SEGMENT + hash(scopeID) + "-" + hash(environment)
  }

  function PeerPodName(job: string, scopeID: string, environment: string, hash: string -> string,
      lower: char -> char): string {
    KeepSuffix(JobPrefix(job, PEER_RESERVE, lower) + PeerSuffix(scopeID, environment, hash))
  }

  function AdapterSuffix(safeKind: string, scopeID: string, hash: string -> string): string {
    "-adp-" + safeKind + "-" + hash(scopeID)
  }

  function AdapterPodName(job: string, kind: string, scopeID: string, hash: string -> string,
      lower: char -> char): string {
    var safeKind := SafeObjectName(kind, lower);
    KeepSuffix(JobPrefix(job, 5 + |safeKind| + 1 + HASH, lower) + AdapterSuffix(safeKind, scopeID, hash))
  }

  predicate EndsWith(s: string, suffix: string) {
    |suffix| <= |s| && s[|s| - |suffix|..] == suffix
  }

  lemma HeadIsLabel(s: string)
    requires IsLabel(s)
    ensures IsLabel(TrimRight(Capped(s, PREFIX_MAX))) && |TrimRight(Capped(s, PREFIX_MAX))| <= PREFIX_MAX
  {
    var capped := Capped(s, PREFIX_MAX);
    var r := TrimRight(capped);
    assert capped[0] == s[0];
    assert forall i :: 0 <= i < |r| ==> r[i] == s[i];
  }

  lemma PrefixIsLabel(job: string, reserve: nat, lower: char -> char)
    ensures var p := JobPrefix(job, reserve, lower); IsLabel(p) && (|p| + reserve <= LIMIT || |p| <= PREFIX_MAX)
  {
    hide SafeObjectName, IsLabel, TrimRight, Capped;
    SafeNameIsLabel(job, lower);
    HeadIsLabel(SafeObjectName(job, lower));
  }

  lemma JoinedIsLabel(a: string, b: string)
    requires IsLabel(a) && b != "" && AllDns(b) && Alnum(b[|b| - 1]) && |a| + |b| <= LIMIT
    ensures IsLabel(a + b)
  {
    assert (a + b)[0] == a[0] && (a + b)[|a + b| - 1] == b[|b| - 1];
  }

  lemma PeerSuffixIsDns(scopeID: string, environment: string, hash: string -> string)
    requires Hashing(hash)
    ensures var s := PeerSuffix(scopeID, environment, hash);
            |s| == PEER_RESERVE && AllDns(s) && Alnum(s[|s| - 1]) && s[6..18] == hash(scopeID)
              && s[19..] == hash(environment)
  {
    var a, b := hash(scopeID), hash(environment);
    assert IsHash(a) && IsHash(b);
    var s := PeerSuffix(scopeID, environment, hash);
    assert s == ['-', 'p', 'e', 'e', 'r', '-'] + a + ['-'] + b;
  }

  /** A peer name is a label that ends in both full hashes. */
  lemma PeerNameKeepsHashes(job: string, scopeID: string, environment: string, hash: string -> string,
      lower: char -> char)
    requires Hashing(hash)
    ensures IsLabel(PeerPodName(job, scopeID, environment, hash, lower))
    ensures EndsWith(PeerPodName(job, scopeID, environment, hash, lower), PeerSuffix(scopeID, environment, hash))
  {
    hide JobPrefix, IsLabel;
    PrefixIsLabel(job, PEER_RESERVE, lower);
    var p, s := JobPrefix(job, PEER_RESERVE, lower), PeerSuffix(scopeID, environment, hash);
    PeerSuffixIsDns(scopeID, environment, hash);
    JoinedIsLabel(p, s);
    assert (p + s)[|p|..] == s;
  }

  lemma KindSuffix(safeKind: string, scopeID: string, hash: string -> string)
    requires Hashing(hash) && IsLabel(safeKind)
    ensures var s := AdapterSuffix(safeKind, scopeID, hash);
            |s| == 18 + |safeKind| && AllDns(s) && Alnum(s[|s| - 1]) && Alnum(s[|s| - 14])
            && s[|s| - 13..] == "-" + hash(scopeID)
  {
    var h := hash(scopeID);
    assert IsHash(h);
    assert AdapterSuffix(safeKind, scopeID, hash) == ['-', 'a', 'd', 'p', '-'] + safeKind + ['-'] + h;
  }

  /** However long the kind, a fallback adapter name is a label that ends in the full scope hash. */
  lemma AdapterNameKeepsHash(job: string, kind: string, scopeID: string, hash: string -> string, lower: char -> char)
    requires Hashing(hash)
    ensures IsLabel(AdapterPodName(job, kind, scopeID, hash, lower))
    ensures EndsWith(AdapterPodName(job, kind, scopeID, hash, lower), "-" + hash(scopeID))
  {
    hide JobPrefix, IsLabel, KeepSuffix, AllDns, AdapterSuffix;
    SafeNameIsLabel(kind, lower);
    var k := SafeObjectName(kind, lower);
    PrefixIsLabel(job, 18 + |k|, lower);
    KindSuffix(k, scopeID, hash);
    var p, s := JobPrefix(job, 18 + |k|, lower), AdapterSuffix(k, scopeID, hash);
    KeptTail(p, s);
  }

  lemma KeptTail(p: string, s: string)
    requires IsLabel(p) && |s| >= 14 && AllDns(s) && Alnum(s[|s| - 1]) && Alnum(s[|s| - 14])
    ensures IsLabel(KeepSuffix(p + s)) && EndsWith(KeepSuffix(p + s), s[|s| - 13..])
  {
    var base := p + s;
    assert base[|base| - 13..] == s[|s| - 13..] && base[|base| - 14] == s[|s| - 14] && base[|base| - 1] == s[|s| - 1];
    if |base| <= LIMIT {
      JoinedIsLabel(p, s);
    } else {
      CutKeepsTail(base);
    }
  }

  lemma {:induction false} LeftStops(s: string, i: nat)
    requires i < |s| && s[i] != '-'
    ensures |TrimLeft(s)| >= |s| - i
  {
    if s[0] == '-' { LeftStops(s[1..], i - 1); }
  }

  lemma WindowTail(w: string)
    requires |w| == LIMIT && AllDns(w) && Alnum(w[LIMIT - 1]) && Alnum(w[LIMIT - 14])
    ensures var r := OrUnknown(Trim(w)); IsLabel(r) && |r| >= 13 && r[|r| - 13..] == w[LIMIT - 13..]
  {
    assert TrimRight(w) == w;
    LeftStops(w, LIMIT - 14);
    TrimKeepsDns(w);
  }

  lemma CutKeepsTail(base: string)
    requires |base| > LIMIT && AllDns(base) && Alnum(base[|base| - 1]) && Alnum(base[|base| - 14])
    ensures IsLabel(KeepSuffix(base)) && EndsWith(KeepSuffix(base), base[|base| - 13..])
  {
    hide Trim, IsLabel;
    var window := base[|base| - LIMIT..];
    assert forall i :: 0 <= i < LIMIT ==> window[i] == base[|base| - LIMIT + i];
    WindowTail(window);
    assert window[LIMIT - 13..] == base[|base| - 13..];
  }

  /** Equal peer names force equal hashes, within one run and across runs. */
  lemma PeerNamesDiscriminate(
      job: string, job': string, scopeID: string, scopeID': string, environment: string, environment': string,
      hash: string -> string, lower: char -> char)
    requires Hashing(hash)
    ensures var a := PeerPodName(job, scopeID, environment, hash, lower);
            var b := PeerPodName(job', scopeID', environment', hash, lower);
            a == b ==> hash(scopeID) == hash(scopeID') && hash(environment) == hash(environment')
  {
    hide PeerPodName, IsLabel, PeerSuffix;
    PeerSuffixIsDns(scopeID, environment, hash);
    PeerSuffixIsDns(scopeID', environment', hash);
    PeerNameKeepsHashes(job, scopeID, environment, hash, lower);
    PeerNameKeepsHashes(job', scopeID', environment', hash, lower);
    var s, s' := PeerSuffix(scopeID, environment, hash), PeerSuffix(scopeID', environment', hash);
    var a := PeerPodName(job, scopeID, environment, hash, lower);
    var b := PeerPodName(job', scopeID', environment', hash, lower);
    assert a == b ==> s == s';
  }

  lemma AdapterNamesDiscriminate(
      job: string, job': string, kind: string, kind': string, scopeID: string, scopeID': string,
      hash: string -> string, lower: char -> char)
    requires Hashing(hash)
    ensures AdapterPodName(job, kind, scopeID, hash, lower) == AdapterPodName(job', kind', scopeID', hash, lower) ==>
              hash(scopeID) == hash(scopeID')
  {
    hide AdapterPodName, IsLabel;
    assert IsHash(hash(scopeID)) && IsHash(hash(scopeID'));
    AdapterNameKeepsHash(job, kind, scopeID, hash, lower);
    AdapterNameKeepsHash(job', kind', scopeID', hash, lower);
    var s, s' := "-" + hash(scopeID), "-" + hash(scopeID');
    assert AdapterPodName(job, kind, scopeID, hash, lower) == AdapterPodName(job', kind', scopeID', hash, lower) ==>
        s == s';
    assert s[1..] == hash(scopeID) && s'[1..] == hash(scopeID');
  }

  /** A sanitised job name that fits is printed whole; one that is already a label is not even sanitised. */
  lemma UncappedNamesAreExact(
      job: string, kind: string, scopeID: string, environment: string, hash: string -> string, lower: char -> char)
    requires Hashing(hash) && Lowering(lower)
    ensures var safe, safeKind := SafeObjectName(job, lower), SafeObjectName(kind, lower);
      && (IsLabel(job) ==> safe == job) && (IsLabel(kind) ==> safeKind == kind)
      && (|safe| <= 32 ==>
            PeerPodName(job, scopeID, environment, hash, lower) == safe + PeerSuffix(scopeID, environment, hash))
      && (|safe| + |safeKind| <= 45 ==>
            AdapterPodName(job, kind, scopeID, hash, lower) == safe + AdapterSuffix(safeKind, scopeID, hash))
  {
    hide SafeObjectName, Capped, TrimRight, PeerPodName, AdapterPodName, IsLabel;
    if IsLabel(job) { LabelIsFixed(job, lower); }
    if IsLabel(kind) { LabelIsFixed(kind, lower); }
    UncappedPeer(job, scopeID, environment, hash, lower);
    UncappedAdapter(job, kind, scopeID, hash, lower);
  }

  lemma UncappedPeer(job: string, scopeID: string, environment: string, hash: string -> string, lower: char -> char)
    requires Hashing(hash)
    ensures var safe := SafeObjectName(job, lower);
            |safe| <= 32 ==>
              PeerPodName(job, scopeID, environment, hash, lower) == safe + PeerSuffix(scopeID, environment, hash)
  {
    hide SafeObjectName, TrimRight, Trim;
    assert IsHash(hash(scopeID)) && IsHash(hash(environment));
  }

  lemma UncappedAdapter(job: string, kind: string, scopeID: string, hash: string -> string, lower: char -> char)
    requires Hashing(hash)
    ensures var safe, safeKind := SafeObjectName(job, lower), SafeObjectName(kind, lower);
            |safe| + |safeKind| <= 45 ==>
              AdapterPodName(job, kind, scopeID, hash, lower) == safe + AdapterSuffix(safeKind, scopeID, hash)
  {
    hide SafeObjectName, TrimRight, Trim;
    assert IsHash(hash(scopeID));
  }
}
