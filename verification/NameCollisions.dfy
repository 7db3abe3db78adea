/** When a peer pod and a fallback pod of one run can share a name. */
module NameCollisions {
  import opened Names

  const GLUE := "-adp-"
  /** What follows the kind's own bytes in a kind that spells a peer segment. */
  const SEGMENT := 18

  // ---------------------------------------------------------------- the condition on the kind

  function Last(s: string, n: nat): (r: string)
    ensures |r| == if |s| <= n then |s| else n
  {
    if |s| <= n then s else s[|s| - n..]
  }

  /** The last n bytes of d written over and over. */
  function Repeated(d: string, n: nat): (r: string)
    requires d != ""
    ensures |r| == n
  {
    if n <= |d| then d[|d| - n..] else Repeated(d, n - |d|) + d
  }

  /** What a job name cut to 24 bytes keeps of "-adp-" + y when 27 - |y| - lead bytes stand before it. */
  function Kept(y: string, lead: nat): string
    requires |y| >= 3
  {
    TrimRight(Capped(GLUE + y, |y| + lead - 3))
  }

  /** The cut name runs into itself: its last 27 - |y| bytes repeat what it keeps, after lead hyphens. */
  predicate Recurs(y: string, lead: nat)
    requires 5 <= |y| <= 26
  {
    var d := Kept(y, lead);
    d != "" && lead < |d| && lead < 27 - |y| && |TrimLeft(Repeated(d, 27 - |y|))| == 27 - |y| - lead
  }

  /** A sanitised kind of at least 19 bytes that ends in a peer segment with hash h, in a shape that survives the
      cuts. */
  predicate SpellsPeer(k: string, h: string) {
    var n := |k| - SEGMENT;
    && n >= 1 && k[n..] == PEER_SEGMENT + h && Alnum(k[n - 1])
    && (n <= 4 || n >= 27 || exists lead: nat :: lead < 27 - n && Recurs(k[..n], lead))
  }

  // ---------------------------------------------------------------- strings

  lemma TrimLeftIs(s: string, i: nat)
    requires i < |s| && s[i] != '-' && forall j :: 0 <= j < i ==> s[j] == '-'
    ensures TrimLeft(s) == s[i..]
  {
    LeftStops(s, i);
    var r := TrimLeft(s);
    assert r[0] == s[|s| - |r|];
  }

  lemma TrimLeftAppend(a: string, b: string)
    requires TrimLeft(a) != ""
    ensures TrimLeft(a + b) == TrimLeft(a) + b
  {
    hide TrimLeft;
    var i := |a| - |TrimLeft(a)|;
    assert TrimLeft(a) == a[i..] && a[i] == TrimLeft(a)[0];
    Prefixed(a, b, i);
    TrimLeftIs(a + b, i);
  }

  lemma Prefixed(a: string, b: string, i: nat)
    requires i < |a|
    ensures (a + b)[i] == a[i] && (a + b)[i..] == a[i..] + b && forall j :: 0 <= j < i ==> (a + b)[j] == a[j]
  {
  }

  lemma {:induction false} TrimRightAppend(a: string, b: string)
    requires TrimRight(b) != ""
    ensures TrimRight(a + b) == a + TrimRight(b)
    decreases |b|
  {
    if b[|b| - 1] == '-' {
      assert (a + b)[..|a + b| - 1] == a + b[..|b| - 1];
      TrimRightAppend(a, b[..|b| - 1]);
    }
  }

  lemma EndStops(s: string)
    requires s != "" && s[|s| - 1] != '-'
    ensures TrimRight(s) == s && TrimLeft(s) != ""
  {
    LeftStops(s, |s| - 1);
  }

  lemma LastAppend(a: string, b: string, n: nat)
    requires |b| <= n
    ensures Last(a + b, n) == Last(a, n - |b|) + b
  {
  }

  lemma LastCovers(a: string, b: string, n: nat)
    requires |b| >= n
    ensures Last(a + b, n) == Last(b, n)
  {
  }

  /** A string that starts with one of its own tails repeats what follows it. */
  lemma {:induction false} TailRepeats(head: string, d: string, n: nat)
    requires d != "" && n <= |head| + |d| && head == Last(head + d, |head|)
    ensures Last(head + d, n) == Repeated(d, n)
    decreases n
  {
    var q := head + d;
    if n > |d| {
      RepeatedStep(d, n);
      hide Repeated;
      TailRepeats(head, d, n - |d|);
      LastAppend(head, d, n);
      LastOfLast(q, |head|, n - |d|);
    }
  }

  lemma LastOfLast(s: string, n: nat, m: nat)
    requires m <= n
    ensures Last(Last(s, n), m) == Last(s, m)
  {
  }

  lemma {:induction false} TailOfRepeated(d: string, n: nat, m: nat)
    requires d != "" && m <= n
    ensures Last(Repeated(d, n), m) == Repeated(d, m)
    decreases n
  {
    if n > |d| {
      RepeatedStep(d, n);
      if m > |d| {
        RepeatedStep(d, m);
        hide Repeated, Last;
        TailOfRepeated(d, n - |d|, m - |d|);
        LastAppend(Repeated(d, n - |d|), d, m);
      } else {
        LastCovers(Repeated(d, n - |d|), d, m);
      }
    }
  }

  lemma RepeatedStep(d: string, n: nat)
    requires d != "" && n > |d|
    ensures Repeated(d, n) == Repeated(d, n - |d|) + d
  {
  }

  // ---------------------------------------------------------------- what the cut leaves

  function Cut(job: string): string {
    TrimRight(Capped(job, PREFIX_MAX))
  }

  function PeerPrefix(job: string): string {
    if |job| <= 32 then job else Cut(job)
  }

  function AdapterPrefix(job: string, k: string): string {
    if |job| + SEGMENT + |k| <= LIMIT then job else Cut(job)
  }

  lemma CutShortens(job: string)
    ensures |Cut(job)| <= |job|
  {
  }

  lemma CutIsIdle(job: string)
    requires IsLabel(job)
    ensures Cut(Cut(job)) == Cut(job) && (|job| <= PREFIX_MAX ==> Cut(job) == job)
  {
    HeadIsLabel(job);
    EndStops(Cut(job));
    EndStops(job);
  }

  /** The fallback name up to the scope hash. */
  function Body(q: string, k: string): string {
    if |q| + SEGMENT + |k| <= LIMIT then q + (GLUE + k) else TrimLeft(Last(q + (GLUE + k), 50))
  }

  lemma KeptBody(q: string, k: string, h: string)
    requires IsLabel(q) && IsLabel(k) && IsHash(h)
    ensures KeepSuffix(q + ("-adp-" + k + "-" + h)) == Body(q, k) + ("-" + h)
  {
    var front, back := q + (GLUE + k), "-" + h;
    assert q + ("-adp-" + k + "-" + h) == front + back;
    assert front[|front| - 1] == k[|k| - 1];
    assert Alnum(back[|back| - 1]);
    hide IsLabel, IsHash, TrimLeft, TrimRight;
    KeptTailOf(front, back);
  }

  lemma KeptTailOf(front: string, back: string)
    requires front != "" && front[|front| - 1] != '-' && |back| == 13 && back[12] != '-'
    ensures KeepSuffix(front + back)
            == (if |front| + 13 <= LIMIT then front else TrimLeft(Last(front, 50))) + back
  {
    if |front + back| > LIMIT {
      hide KeepSuffix, TrimLeft;
      var w := Last(front, 50);
      LastAppend(front, back, LIMIT);
      CutFromLeft(front + back);
      assert w[|w| - 1] == front[|front| - 1];
      EndStops(w);
      TrimLeftAppend(w, back);
    }
  }

  lemma CutFromLeft(base: string)
    requires |base| > LIMIT && base[|base| - 1] != '-'
    ensures KeepSuffix(base) == TrimLeft(Last(base, LIMIT))
  {
    hide TrimLeft, TrimRight;
    var w := base[|base| - LIMIT..];
    assert w[LIMIT - 1] == base[|base| - 1];
    EndStops(w);
    assert Trim(w) == TrimLeft(w);
  }

  lemma SameEnds(a: string, b: string, he: string, ho: string)
    requires |he| == |ho|
    ensures a + ("-" + he) == b + ("-" + ho) <==> he == ho && a == b
  {
    var l, r := a + ("-" + he), b + ("-" + ho);
    assert l[|l| - |he|..] == he && r[|r| - |ho|..] == ho;
    assert l[..|l| - |he| - 1] == a && r[..|r| - |ho| - 1] == b;
  }

  lemma PeerWhole(p: string, hs: string, he: string)
    requires |p| <= 32 && |hs| == |he| == HASH
    ensures KeepSuffix(p + ("-peer-" + hs + "-" + he)) == p + (PEER_SEGMENT + hs) + ("-" + he)
  {
    hide Trim;
    assert p + ("-peer-" + hs + "-" + he) == p + (PEER_SEGMENT + hs) + ("-" + he);
  }

  // ---------------------------------------------------------------- names that meet spell a peer segment

  ghost predicate PeerLetters(a: string, p: string, h: string) {
    && |a| == |p| + SEGMENT && a[..|p|] == p && a[|p|] == '-' && a[|p| + 1] == 'p' && a[|p| + 5] == '-'
    && forall i :: |p| + 6 <= i < |a| ==> a[i] != '-'
  }

  ghost predicate GlueLetters(b: string, q: string, k: string) {
    && |b| == |q| + 5 + |k| && b[..|q|] == q && b[|q| + 5..] == k
    && b[|q|] == '-' && b[|q| + 1] == 'a' && b[|q| + 2] == 'd' && b[|q| + 3] == 'p' && b[|q| + 4] == '-'
  }

  lemma Spelled(p: string, q: string, k: string, h: string)
    requires IsHash(h)
    ensures PeerLetters(p + (PEER_SEGMENT + h), p, h) && GlueLetters(q + (GLUE + k), q, k)
  {
    var seg, glued := PEER_SEGMENT + h, GLUE + k;
    assert seg[0] == '-' && seg[1] == 'p' && seg[5] == '-' && seg[6..] == h;
    assert glued[0] == '-' && glued[1] == 'a' && glued[2] == 'd' && glued[3] == 'p' && glued[4] == '-'
        && glued[5..] == k;
    assert forall i :: |p| <= i < |p| + SEGMENT ==> (p + seg)[i] == seg[i - |p|];
  }

  /** With the job name printed whole in both names, or whole only in the fallback name, they differ. */
  lemma WholeNamesDiffer(a: string, b: string, job: string, p: string, k: string, h: string)
    requires PeerLetters(a, p, h) && GlueLetters(b, job, k) && |k| >= 1
    requires p == job || (|job| > 32 && |p| <= PREFIX_MAX)
    ensures a != b
  {
    assert b[|job|] == '-' && b[|job| + 1] == 'a';
    assert |job| < |a| && p != job ==> a[|job|] != '-';
  }

  lemma GapHoldsGlue(a: string, job: string, q: string, k: string, h: string)
    requires PREFIX_MAX < |job| <= 32 && |q| <= PREFIX_MAX && q < job && |k| >= 1
    requires job[|job| - 1] != '-' && forall i :: |q| <= i < PREFIX_MAX ==> job[i] == '-'
    requires |q| + SEGMENT + |k| <= LIMIT < |job| + SEGMENT + |k|
    requires PeerLetters(a, job, h) && GlueLetters(a, q, k)
    ensures |q| >= 23 && |q| + 6 <= |job| && |k| == |job| - |q| + 13
  {
    assert forall i :: 0 <= i < |job| ==> a[i] == job[i];
    assert a[|q| + 1] == 'a' && |q| >= 23;
    assert a[|job| - 1] == job[|job| - 1];
  }

  /** A name cut only in the fallback name shows where the glue stood in it. */
  lemma CutShowsGlue(a: string, job: string, q: string, k: string, h: string)
    requires IsLabel(job) && IsLabel(k) && q < job && q == Cut(job) && |q| + SEGMENT + |k| <= LIMIT
    requires |job| <= 32 && |job| + SEGMENT + |k| > LIMIT
    requires PeerLetters(a, job, h) && GlueLetters(a, q, k)
    ensures SEGMENT < |k| <= SEGMENT + 4 && k[|k| - SEGMENT..] == a[|job|..] && Alnum(k[|k| - SEGMENT - 1])
  {
    CutIsIdle(job);
    CutTrims(job, q);
    assert job[|job| - 1] != '-';
    hide TrimRight, Cut;
    GapHoldsGlue(a, job, q, k, h);
    assert a[|job| - 1] == job[|job| - 1];
    assert k == a[|q| + 5..];
  }

  lemma CutTrims(job: string, q: string)
    requires q == Cut(job) && |job| > PREFIX_MAX
    ensures |q| <= PREFIX_MAX && forall i :: |q| <= i < PREFIX_MAX ==> job[i] == '-'
  {
  }

  lemma UncutMeets(job: string, k: string, h: string)
    requires IsLabel(job) && IsLabel(k) && IsHash(h)
    requires var q := AdapterPrefix(job, k);
             |q| + SEGMENT + |k| <= LIMIT && PeerPrefix(job) + (PEER_SEGMENT + h) == q + (GLUE + k)
    ensures SpellsPeer(k, h)
  {
    var p, q := PeerPrefix(job), AdapterPrefix(job, k);
    var a := p + (PEER_SEGMENT + h);
    Spelled(p, q, k, h);
    HeadIsLabel(job);
    if |k| >= 1 && (p == q || (q == job && |job| > 32)) {
      WholeNamesDiffer(a, q + (GLUE + k), q, p, k, h);
    }
    hide PeerLetters, GlueLetters;
    CutShowsGlue(a, job, q, k, h);
    assert a[|job|..] == PEER_SEGMENT + h;
  }

  /** In a name cut from the left only the last 32 bytes before the peer segment count. */
  lemma CutSpells(p: string, front: string, k: string, seg: string)
    requires p != "" && |seg| == SEGMENT && |k| >= SEGMENT && |front| + |k| >= 50
    requires p + seg == TrimLeft(Last(front + k, 50))
    ensures k[|k| - SEGMENT..] == seg
    ensures p == TrimLeft(Last(front + k[..|k| - SEGMENT], 32))
  {
    hide TrimLeft, TrimRight;
    var y, end := k[..|k| - SEGMENT], k[|k| - SEGMENT..];
    var v := Last(front + y, 32);
    assert front + k == front + y + end by { assert k == y + end; }
    LastAppend(front + y, end, 50);
    assert TrimLeft(v + end) == p + seg;
    SomethingStays(v, end);
    TrimLeftAppend(v, end);
    SameTail(p, seg, TrimLeft(v), end);
  }

  lemma SomethingStays(v: string, end: string)
    requires |TrimLeft(v + end)| > |end|
    ensures TrimLeft(v) != ""
  {
    var r := TrimLeft(v + end);
    var i := |v| + |end| - |r|;
    assert r[0] == (v + end)[i] == v[i];
    LeftStops(v, i);
  }

  lemma SameTail(a: string, s: string, b: string, t: string)
    requires a + s == b + t && |s| == |t|
    ensures a == b && s == t
  {
    assert a == (a + s)[..|a|] && b == (b + t)[..|b|];
    assert s == (a + s)[|a|..] && t == (b + t)[|b|..];
  }

  /** What the cut keeps of a name that is a trimmed tail, the glue and y. */
  lemma CutOfTail(tail: string, y: string, lead: nat)
    requires 5 <= |y| <= 26 && lead + |tail| == 27 - |y| && tail != "" && y[0] != '-'
    ensures Kept(y, lead) != "" && Cut(tail + (GLUE + y)) == tail + Kept(y, lead)
  {
    var rest := Capped(GLUE + y, |y| + lead - 3);
    assert rest[1] == 'a';
    assert Capped(tail + (GLUE + y), PREFIX_MAX) == tail + rest;
    KeepsOne(rest, 1);
    TrimRightAppend(tail, rest);
  }

  lemma {:induction false} KeepsOne(s: string, i: nat)
    requires i < |s| && s[i] != '-'
    ensures |TrimRight(s)| > i
    decreases |s|
  {
    if s[|s| - 1] == '-' { KeepsOne(s[..|s| - 1], i); }
  }

  lemma TailThen(q: string, m: nat, glued: string)
    requires IsLabel(q) && 0 < m <= |q|
    ensures TrimLeft(Last(q, m)) != ""
    ensures TrimLeft(Last(q + glued, m + |glued|)) == TrimLeft(Last(q, m)) + glued
  {
    hide *;
    LabelTail(q, m);
    LastAppend(q, glued, m + |glued|);
    TrimLeftAppend(Last(q, m), glued);
  }

  lemma LabelTail(q: string, m: nat)
    requires IsLabel(q) && 0 < m <= |q|
    ensures TrimLeft(Last(q, m)) != ""
  {
    var t := Last(q, m);
    assert t[m - 1] == q[|q| - 1];
    LeftStops(t, m - 1);
  }

  lemma SelfTail(q: string, m: nat, tail: string, d: string)
    requires d != "" && m <= |q| && q == tail + d && tail == TrimLeft(Last(q, m))
    ensures Last(q, m) == Repeated(d, m)
  {
    assert tail == Last(q, |tail|);
    hide TrimLeft;
    TailRepeats(tail, d, m);
  }

  /** Between the short and the long kinds, a cut name that meets a peer name runs into itself. */
  lemma MeetingRecurs(p: string, q: string, y: string)
    requires IsLabel(q) && 5 <= |y| <= 26 && y[0] != '-' && q == Cut(p) && |q| > 27 - |y|
    requires p == TrimLeft(Last(q + (GLUE + y), 32))
    ensures exists lead: nat :: lead < 27 - |y| && Recurs(y, lead)
  {
    hide TrimLeft, Kept, Cut, Repeated, IsLabel, Last;
    var m := 27 - |y|;
    var tail := TrimLeft(Last(q, m));
    var lead := m - |tail|;
    GluedTail(q, y);
    CutOfTail(tail, y, lead);
    SelfTail(q, m, tail, Kept(y, lead));
    assert Recurs(y, lead);
  }

  lemma GluedTail(q: string, y: string)
    requires IsLabel(q) && 5 <= |y| <= 26 && |q| >= 27 - |y|
    ensures TrimLeft(Last(q, 27 - |y|)) != ""
    ensures TrimLeft(Last(q + (GLUE + y), 32)) == TrimLeft(Last(q, 27 - |y|)) + (GLUE + y)
  {
    hide TrimLeft, TrimRight, IsLabel, Last;
    TailThen(q, 27 - |y|, GLUE + y);
  }

  lemma CutMeets(p: string, q: string, k: string, h: string)
    requires IsLabel(p) && IsLabel(q) && IsLabel(k) && IsHash(h) && q == Cut(p) && |q| <= PREFIX_MAX
    requires |q| + SEGMENT + |k| > LIMIT && p + (PEER_SEGMENT + h) == Body(q, k)
    ensures SpellsPeer(k, h)
  {
    hide TrimLeft, TrimRight, Recurs, Body, Last, Cut, AllDns;
    assert Alnum(p[|p| - 1]) && Alnum(k[0]);
    var n := |k| - SEGMENT;
    CutEnds(p, q, k, PEER_SEGMENT + h);
    var y := k[..n];
    LastIsEnd(p, q, y);
    assert y[0] == k[0] && y[n - 1] == k[n - 1];
    if 5 <= n <= 26 {
      MeetingRecurs(p, q, y);
    }
  }

  lemma CutEnds(p: string, q: string, k: string, seg: string)
    requires p != "" && |q| + SEGMENT + |k| > LIMIT && |q| <= PREFIX_MAX && |seg| == SEGMENT && p + seg == Body(q, k)
    ensures |k| >= 22 && k[|k| - SEGMENT..] == seg
    ensures p == TrimLeft(Last(q + (GLUE + k[..|k| - SEGMENT]), 32))
  {
    hide TrimLeft, TrimRight;
    assert q + (GLUE + k) == q + GLUE + k;
    assert q + GLUE + k[..|k| - SEGMENT] == q + (GLUE + k[..|k| - SEGMENT]);
    CutSpells(p, q + GLUE, k, seg);
  }

  lemma LastIsEnd(p: string, q: string, y: string)
    requires y != "" && p == TrimLeft(Last(q + (GLUE + y), 32)) && p != "" && Alnum(p[|p| - 1])
    ensures Alnum(y[|y| - 1])
  {
  }

  /** Names that meet spell a peer segment. */
  lemma MeetingSpells(job: string, k: string, h: string)
    requires IsLabel(job) && IsLabel(k) && IsHash(h)
    requires PeerPrefix(job) + (PEER_SEGMENT + h) == Body(AdapterPrefix(job, k), k)
    ensures SpellsPeer(k, h)
  {
    var p, q := PeerPrefix(job), AdapterPrefix(job, k);
    HeadIsLabel(job);
    if |q| + SEGMENT + |k| <= LIMIT {
      hide SpellsPeer, IsLabel, IsHash;
      UncutMeets(job, k, h);
    } else {
      CutIsIdle(job);
      hide SpellsPeer, IsLabel, IsHash, Body, Cut;
      CutMeets(p, q, k, h);
    }
  }

  // ---------------------------------------------------------------- kinds that spell a peer segment meet a name

  /** The job name that makes a spelling kind collide. */
  function Meeting(y: string, lead: nat): string
    requires y != ""
  {
    if |y| <= 4 then seq(23, i => 'a') + (GLUE + y)
    else if |y| >= 27 then TrimLeft(Last(GLUE + y, 32))
    else if Kept(y, lead) == "" then "a"
    else TrimLeft(Repeated(Kept(y, lead), 27 - |y|)) + (GLUE + y)
  }

  lemma ShortMeets(y: string, k: string, seg: string)
    requires 1 <= |y| <= 4 && AllDns(y) && Alnum(y[|y| - 1]) && k == y + seg && |seg| == SEGMENT
    ensures var job := Meeting(y, 0); IsLabel(job) && PeerPrefix(job) + seg == Body(AdapterPrefix(job, k), k)
  {
    var head := seq(23, i => 'a');
    var job := head + (GLUE + y);
    assert job[0] == 'a' && job[|job| - 1] == y[|y| - 1];
    assert Capped(job, PREFIX_MAX) == head + "-";
    assert (head + "-")[..23] == head;
    EndStops(head);
    assert Cut(job) == head;
    assert job + seg == head + (GLUE + k);
  }

  lemma BodyOfCut(q: string, y: string, k: string, seg: string)
    requires k == y + seg && |seg| == SEGMENT && |q| + SEGMENT + |k| > LIMIT
    requires TrimLeft(Last(q + (GLUE + y), 32)) != ""
    ensures Body(q, k) == TrimLeft(Last(q + (GLUE + y), 32)) + seg
  {
    hide TrimLeft;
    var front := q + (GLUE + y);
    assert q + (GLUE + k) == front + seg;
    LastAppend(front, seg, 50);
    TrimLeftAppend(Last(front, 32), seg);
  }

  lemma LongMeets(y: string, k: string, seg: string)
    requires 27 <= |y| <= 45 && AllDns(y) && Alnum(y[|y| - 1]) && k == y + seg && |seg| == SEGMENT
    ensures var job := Meeting(y, 0); IsLabel(job) && PeerPrefix(job) + seg == Body(AdapterPrefix(job, k), k)
  {
    hide TrimLeft, TrimRight, IsLabel, AllDns, Body;
    var job := TrimLeft(Last(GLUE + y, 32));
    LongTail(y);
    var q := AdapterPrefix(job, k);
    PrefixesAreLabels(job, k);
    LastCovers(q, GLUE + y, 32);
    BodyOfCut(q, y, k, seg);
  }

  lemma LongTail(y: string)
    requires 27 <= |y| && AllDns(y) && Alnum(y[|y| - 1])
    ensures IsLabel(TrimLeft(Last(GLUE + y, 32))) && |TrimLeft(Last(GLUE + y, 32))| <= 32
  {
    var v := Last(GLUE + y, 32);
    assert AllDns(v) && v[31] == y[|y| - 1];
    EndStops(v);
    LeftEnd(v);
  }

  lemma RecurringMeets(y: string, lead: nat, k: string, seg: string)
    requires 5 <= |y| <= 26 && lead < 27 - |y| && Recurs(y, lead)
    requires AllDns(y) && y[0] != '-' && Alnum(y[|y| - 1]) && k == y + seg && |seg| == SEGMENT
    ensures var job := Meeting(y, lead); IsLabel(job) && PeerPrefix(job) + seg == Body(AdapterPrefix(job, k), k)
  {
    hide TrimLeft, TrimRight, IsLabel, Kept, Repeated, Cut, AllDns, Last;
    var n, d := 27 - |y|, Kept(y, lead);
    var tail := TrimLeft(Repeated(d, n));
    var job := tail + (GLUE + y);
    RecurringIsLabel(y, lead);
    CutOfTail(tail, y, lead);
    var q := tail + d;
    RepeatedTail(d, n, tail);
    RecurringTail(q, y, Repeated(d, n));
    CutShortens(job);
    assert AdapterPrefix(job, k) == q;
    BodyOfCut(q, y, k, seg);
  }

  lemma RecurringTail(q: string, y: string, r: string)
    requires 5 <= |y| <= 26 && |r| == 27 - |y| <= |q| && Last(q, 27 - |y|) == r && TrimLeft(r) != ""
    ensures TrimLeft(Last(q + (GLUE + y), 32)) == TrimLeft(r) + (GLUE + y)
  {
    hide TrimLeft;
    LastAppend(q, GLUE + y, 32);
    TrimLeftAppend(r, GLUE + y);
  }

  lemma RepeatedTail(d: string, n: nat, tail: string)
    requires d != "" && tail == TrimLeft(Repeated(d, n)) && n <= |tail| + |d|
    ensures Last(tail + d, n) == Repeated(d, n)
  {
    assert tail == Last(Repeated(d, n), |tail|);
    hide TrimLeft;
    TailOfRepeated(d, n, |tail|);
    assert tail + d == Repeated(d, |tail| + |d|);
    TailOfRepeated(d, |tail| + |d|, n);
  }

  lemma RecurringIsLabel(y: string, lead: nat)
    requires 5 <= |y| <= 26 && lead < 27 - |y| && Recurs(y, lead) && AllDns(y) && Alnum(y[|y| - 1])
    ensures IsLabel(TrimLeft(Repeated(Kept(y, lead), 27 - |y|)) + (GLUE + y))
  {
    var d := Kept(y, lead);
    KeptIsDns(y, lead);
    hide Kept, TrimRight;
    RepeatedIsDns(d, 27 - |y|);
    LeftEnd(Repeated(d, 27 - |y|));
    hide TrimLeft, Repeated;
    GluedIsLabel(TrimLeft(Repeated(d, 27 - |y|)), y);
  }

  lemma KeptIsDns(y: string, lead: nat)
    requires |y| >= 3 && AllDns(y)
    ensures AllDns(Kept(y, lead))
  {
    assert forall i :: 0 <= i < |Kept(y, lead)| ==> Kept(y, lead)[i] == (GLUE + y)[i];
  }

  lemma GluedIsLabel(tail: string, y: string)
    requires tail != "" && AllDns(tail) && tail[0] != '-' && AllDns(y) && y != "" && Alnum(y[|y| - 1])
    requires |tail| + 5 + |y| <= 63
    ensures IsLabel(tail + (GLUE + y))
  {
    var job := tail + (GLUE + y);
    assert job[|job| - 1] == y[|y| - 1] && job[0] == tail[0];
  }

  lemma {:induction false} RepeatedIsDns(d: string, n: nat)
    requires d != "" && AllDns(d)
    ensures AllDns(Repeated(d, n))
    decreases n
  {
    if n > |d| { RepeatedIsDns(d, n - |d|); }
  }

  lemma SplitKind(k: string, seg: string)
    requires IsLabel(k) && |seg| == SEGMENT < |k| && k[|k| - SEGMENT..] == seg && Alnum(k[|k| - SEGMENT - 1])
    ensures var y := k[..|k| - SEGMENT]; k == y + seg && AllDns(y) && y[0] != '-' && Alnum(y[|y| - 1])
  {
  }

  /** A kind that spells a peer segment meets a peer name. */
  lemma SpellingMeets(k: string, h: string) returns (job: string)
    requires IsLabel(k) && IsHash(h) && SpellsPeer(k, h)
    ensures IsLabel(job) && PeerPrefix(job) + (PEER_SEGMENT + h) == Body(AdapterPrefix(job, k), k)
  {
    var n, seg := |k| - SEGMENT, PEER_SEGMENT + h;
    var y := k[..n];
    SplitKind(k, seg);
    hide IsLabel, AllDns, Recurs, TrimLeft, TrimRight, Body, PeerPrefix, AdapterPrefix, Meeting;
    if n <= 4 {
      ShortMeets(y, k, seg);
      return Meeting(y, 0);
    }
    if n >= 27 {
      LongMeets(y, k, seg);
      return Meeting(y, 0);
    }
    var lead: nat :| lead < 27 - n && Recurs(y, lead);
    RecurringMeets(y, lead, k, seg);
    return Meeting(y, lead);
  }

  // ---------------------------------------------------------------- the two families of one run

  /** A run whose two names agree exists exactly for the kinds that spell a peer segment of that scope, and only
      when the fallback pod's scope hashes like the peer pod's environment. */
  lemma FamiliesMeetIff(
      kind: string, scopeID: string, environment: string, other: string, hash: string -> string, lower: char -> char)
    requires Hashing(hash) && Lowering(lower)
    ensures (exists job ::
               PeerPodName(job, scopeID, environment, hash, lower) == AdapterPodName(job, kind, other, hash, lower))
            <==> hash(other) == hash(environment) && SpellsPeer(SafeObjectName(kind, lower), hash(scopeID))
  {
    hide PeerPodName, AdapterPodName, SpellsPeer, SafeObjectName;
    var k := SafeObjectName(kind, lower);
    if job :| PeerPodName(job, scopeID, environment, hash, lower) == AdapterPodName(job, kind, other, hash, lower) {
      OneRunMeets(job, kind, scopeID, environment, other, hash, lower);
    }
    if hash(other) == hash(environment) && SpellsPeer(k, hash(scopeID)) {
      SafeNameIsLabel(kind, lower);
      assert IsHash(hash(scopeID));
      var job := SpellingMeets(k, hash(scopeID));
      LabelIsFixed(job, lower);
      NamesOfRun(job, kind, scopeID, environment, other, hash, lower);
    }
  }

  /** One run's names agree exactly when the hashes do and its cut names spell the same bytes before them. */
  lemma NamesOfRun(
      job: string, kind: string, scopeID: string, environment: string, other: string,
      hash: string -> string, lower: char -> char)
    requires Hashing(hash)
    ensures var safe, k := SafeObjectName(job, lower), SafeObjectName(kind, lower);
            PeerPodName(job, scopeID, environment, hash, lower) == AdapterPodName(job, kind, other, hash, lower)
            <==> hash(other) == hash(environment)
                 && PeerPrefix(safe) + (PEER_SEGMENT + hash(scopeID)) == Body(AdapterPrefix(safe, k), k)
  {
    hide SafeObjectName, KeepSuffix, Body, TrimRight, Capped, PeerPodName;
    hide AdapterPodName, IsLabel, PeerPrefix, AdapterPrefix;
    var safe, k := SafeObjectName(job, lower), SafeObjectName(kind, lower);
    var hs, he, ho := hash(scopeID), hash(environment), hash(other);
    assert IsHash(hs) && IsHash(he) && IsHash(ho);
    SafeNameIsLabel(job, lower);
    SafeNameIsLabel(kind, lower);
    PrefixesAreLabels(safe, k);
    PeerOfRun(job, scopeID, environment, hash, lower);
    AdapterOfRun(job, kind, other, hash, lower);
    PeerWhole(PeerPrefix(safe), hs, he);
    KeptBody(AdapterPrefix(safe, k), k, ho);
    SameEnds(PeerPrefix(safe) + (PEER_SEGMENT + hs), Body(AdapterPrefix(safe, k), k), he, ho);
  }

  lemma PrefixesAreLabels(job: string, k: string)
    requires IsLabel(job)
    ensures IsLabel(PeerPrefix(job)) && |PeerPrefix(job)| <= 32 && IsLabel(AdapterPrefix(job, k))
  {
    HeadIsLabel(job);
  }

  lemma PeerOfRun(job: string, scopeID: string, environment: string, hash: string -> string, lower: char -> char)
    ensures PeerPodName(job, scopeID, environment, hash, lower)
            == KeepSuffix(PeerPrefix(SafeObjectName(job, lower)) + ("-peer-" + hash(scopeID) + "-" + hash(environment)))
    ensures IsLabel(SafeObjectName(job, lower)) ==> |PeerPrefix(SafeObjectName(job, lower))| <= 32
  {
    hide SafeObjectName, KeepSuffix, IsLabel;
  }

  lemma AdapterOfRun(job: string, kind: string, other: string, hash: string -> string, lower: char -> char)
    ensures var k := SafeObjectName(kind, lower);
            AdapterPodName(job, kind, other, hash, lower)
            == KeepSuffix(AdapterPrefix(SafeObjectName(job, lower), k) + ("-adp-" + k + "-" + hash(other)))
  {
    hide SafeObjectName, KeepSuffix, TrimRight;
  }

  /** Whatever the job, names that are equal spell a peer segment. */
  lemma OneRunMeets(
      job: string, kind: string, scopeID: string, environment: string, other: string,
      hash: string -> string, lower: char -> char)
    requires Hashing(hash)
    ensures PeerPodName(job, scopeID, environment, hash, lower) == AdapterPodName(job, kind, other, hash, lower) ==>
              hash(other) == hash(environment) && SpellsPeer(SafeObjectName(kind, lower), hash(scopeID))
  {
    hide PeerPodName, AdapterPodName, SafeObjectName, SpellsPeer, Body, PeerPrefix, AdapterPrefix;
    if PeerPodName(job, scopeID, environment, hash, lower) == AdapterPodName(job, kind, other, hash, lower) {
      NamesOfRun(job, kind, scopeID, environment, other, hash, lower);
      SafeNameIsLabel(job, lower);
      SafeNameIsLabel(kind, lower);
      assert IsHash(hash(scopeID));
      MeetingSpells(SafeObjectName(job, lower), SafeObjectName(kind, lower), hash(scopeID));
    }
  }

  /** A kind of at most 18 bytes never does, whatever the job. */
  lemma ShortKindsAreDisjoint(
      job: string, kind: string, scopeID: string, environment: string, other: string,
      hash: string -> string, lower: char -> char)
    requires Hashing(hash)
    ensures |SafeObjectName(kind, lower)| <= SEGMENT ==>
              PeerPodName(job, scopeID, environment, hash, lower) != AdapterPodName(job, kind, other, hash, lower)
  {
    hide PeerPodName, AdapterPodName, SafeObjectName;
    if PeerPodName(job, scopeID, environment, hash, lower) == AdapterPodName(job, kind, other, hash, lower) {
      OneRunMeets(job, kind, scopeID, environment, other, hash, lower);
    }
  }

  /** A kind of 19 bytes can, for every hash, scope and environment: it spells the peer segment itself. */
  lemma LongKindCanCollide(scopeID: string, environment: string, hash: string -> string, lower: char -> char)
      returns (job: string, kind: string)
    requires Hashing(hash) && Lowering(lower)
    ensures kind == "a-peer-" + hash(scopeID) && job == seq(23, i => 'a') + "-adp-a"
    ensures PeerPodName(job, scopeID, environment, hash, lower) == AdapterPodName(job, kind, environment, hash, lower)
  {
    hide PeerPodName, AdapterPodName, SafeObjectName, Body, PeerPrefix, AdapterPrefix;
    var seg := PEER_SEGMENT + hash(scopeID);
    assert IsHash(hash(scopeID));
    kind, job := "a" + seg, Meeting("a", 0);
    ShortMeets("a", kind, seg);
    KindIsLabel(hash(scopeID));
    LabelIsFixed(job, lower);
    LabelIsFixed(kind, lower);
    NamesOfRun(job, kind, scopeID, environment, environment, hash, lower);
    assert GLUE + "a" == "-adp-a" && "a" + seg == "a-peer-" + hash(scopeID);
  }

  lemma KindIsLabel(h: string)
    requires IsHash(h)
    ensures IsLabel("a" + (PEER_SEGMENT + h))
  {
    var kind := "a" + (PEER_SEGMENT + h);
    assert kind == "a-peer-" + h && kind[|kind| - 1] == h[HASH - 1];
  }

  lemma RepeatsFrom(d: string, n: nat)
    requires |d| == 4 && 0 < n <= 4
    ensures Repeated(d, n + 16)[0] == d[4 - n]
  {
    var a, b, c := Repeated(d, n), Repeated(d, n + 4), Repeated(d, n + 8);
    assert a == d[4 - n..] && b == a + d && c == b + d;
    assert Repeated(d, n + 12) == c + d;
  }

  /** The middle shapes occur: eight bytes before the peer segment always run into themselves. */
  lemma EightBytesRecur(y: string)
    requires |y| == 8
    ensures Recurs(y, 0)
  {
    var glue, d := GLUE, "-adp";
    assert Capped(GLUE + y, 5) == glue;
    assert glue[..4] == d && d[3] == 'p';
    assert Kept(y, 0) == TrimRight(glue) == TrimRight(d) == d;
    var r := Repeated(d, 19);
    assert Repeated(d, 3) == d[1..];
    RepeatsFrom(d, 3);
    assert TrimLeft(r) == r;
  }
}
