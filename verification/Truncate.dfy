/** Byte-capped truncation of archive fields that never splits a character. */
module Truncate {
  type Byte = b: int | 0 <= b < 256

  // ---------------------------------------------------------------- well-formed UTF-8

  /** A byte that may start a character: anything but a tail (RFC 3629 section 3). */
  predicate RuneStart(b: Byte) {
    !Tail(b)
  }

  predicate Tail(b: Byte) {
    0x80 <= b <= 0xBF
  }

  predicate TailAt(s: seq<Byte>, i: nat) {
    i < |s| && Tail(s[i])
  }

  /** Bounds on the second byte, by the first (RFC 3629 section 4). */
  predicate Second(b: Byte, s: seq<Byte>) {
    && TailAt(s, 1)
    && (b == 0xE0 ==> s[1] >= 0xA0) && (b == 0xED ==> s[1] <= 0x9F)
    && (b == 0xF0 ==> s[1] >= 0x90) && (b == 0xF4 ==> s[1] <= 0x8F)
  }

  /** Length of the character at the front of s, or 0 when there is none (RFC 3629 section 4). */
  function RuneLength(s: seq<Byte>): (n: nat)
    ensures n <= |s| && n <= 4
    ensures n > 0 ==> RuneStart(s[0]) && forall i :: 1 <= i < n ==> Tail(s[i])
  {
    if s == [] then 0
    else if s[0] <= 0x7F then 1
    else if 0xC2 <= s[0] <= 0xDF then if TailAt(s, 1) then 2 else 0
    else if 0xE0 <= s[0] <= 0xEF then if Second(s[0], s) && TailAt(s, 2) then 3 else 0
    else if 0xF0 <= s[0] <= 0xF4 then if Second(s[0], s) && TailAt(s, 2) && TailAt(s, 3) then 4 else 0
    else 0
  }

  predicate WellFormed(s: seq<Byte>) {
    s == [] || (RuneLength(s) > 0 && WellFormed(s[RuneLength(s)..]))
  }

  /** The code points UTF-8 may carry: all but the surrogates (RFC 3629 section 3). */
  predicate Scalar(cp: nat) {
    cp <= 0xD7FF || 0xE000 <= cp <= 0x10FFFF
  }

  /** The octets of a code point (RFC 3629 section 3). */
  function Encode(cp: nat): (s: seq<Byte>)
    requires Scalar(cp)
    ensures 1 <= |s| <= 4
  {
    if cp <= 0x7F then [cp]
    else if cp <= 0x7FF then [0xC0 + cp / 64, 0x80 + cp % 64]
    else if cp <= 0xFFFF then [0xE0 + cp / 4096, 0x80 + cp / 64 % 64, 0x80 + cp % 64]
    else [0xF0 + cp / 262144, 0x80 + cp / 4096 % 64, 0x80 + cp / 64 % 64, 0x80 + cp % 64]
  }

  /** What is encoded is read back as one character, whatever follows. */
  lemma EncodedIsRune(cp: nat, rest: seq<Byte>)
    requires Scalar(cp)
    ensures RuneLength(Encode(cp) + rest) == |Encode(cp)|
  {
    EncodedAlone(cp);
    hide Encode, RuneLength;
    RuneLengthIsLocal(Encode(cp), rest);
  }

  lemma EncodedAlone(cp: nat)
    requires Scalar(cp)
    ensures RuneLength(Encode(cp)) == |Encode(cp)|
  {
    var s := Encode(cp);
    if cp <= 0x7FF {
      assert cp > 0x7F ==> 0xC2 <= s[0] <= 0xDF;
    } else if cp <= 0xFFFF {
      assert 0xE0 <= s[0] <= 0xEF && Tail(s[1]) && Tail(s[2]);
    } else {
      assert 0xF0 <= s[0] <= 0xF4 && Tail(s[1]) && Tail(s[2]) && Tail(s[3]);
    }
  }

  lemma SixBitDigits(a: nat, b: nat, c: nat, d: nat)
    requires b < 64 && c < 64 && d < 64
    ensures var cp := a * 262144 + b * 4096 + c * 64 + d;
            cp / 262144 == a && cp / 4096 % 64 == b && cp / 64 % 64 == c && cp % 64 == d
    ensures a == 0 ==> (b * 4096 + c * 64 + d) / 4096 == b
    ensures a == b == 0 ==> (c * 64 + d) / 64 == c
  {
    var cp := a * 262144 + b * 4096 + c * 64 + d;
    assert cp / 64 == a * 4096 + b * 64 + c;
    assert cp / 4096 == a * 64 + b;
  }

  /** And nothing else is: every character read is the encoding of a code point. */
  lemma RuneIsEncoded(s: seq<Byte>) returns (cp: nat)
    requires RuneLength(s) > 0
    ensures Scalar(cp) && s[..RuneLength(s)] == Encode(cp)
  {
    var n := RuneLength(s);
    var a: int := s[0];
    if n == 1 {
      cp := a;
    } else if n == 2 {
      cp := TwoOctets(s);
    } else if n == 3 {
      cp := ThreeOctets(s);
    } else {
      cp := FourOctets(s);
    }
  }

  lemma TwoOctets(s: seq<Byte>) returns (cp: nat)
    requires RuneLength(s) == 2
    ensures Scalar(cp) && s[..2] == Encode(cp)
  {
    var a: int, b: int := s[0], s[1];
    SixBitDigits(0, 0, a - 0xC0, b - 0x80);
    cp := (a - 0xC0) * 64 + (b - 0x80);
  }

  lemma ThreeOctets(s: seq<Byte>) returns (cp: nat)
    requires RuneLength(s) == 3
    ensures Scalar(cp) && s[..3] == Encode(cp)
  {
    var a: int, b: int, c: int := s[0], s[1], s[2];
    SixBitDigits(0, a - 0xE0, b - 0x80, c - 0x80);
    cp := (a - 0xE0) * 4096 + (b - 0x80) * 64 + (c - 0x80);
  }

  lemma FourOctets(s: seq<Byte>) returns (cp: nat)
    requires RuneLength(s) == 4
    ensures Scalar(cp) && s[..4] == Encode(cp)
  {
    var a: int, b: int, c: int, d: int := s[0], s[1], s[2], s[3];
    SixBitDigits(a - 0xF0, b - 0x80, c - 0x80, d - 0x80);
    cp := (a - 0xF0) * 262144 + (b - 0x80) * 4096 + (c - 0x80) * 64 + (d - 0x80);
  }

  function EncodeAll(cps: seq<nat>): seq<Byte>
    requires forall i :: 0 <= i < |cps| ==> Scalar(cps[i])
  {
    if cps == [] then [] else Encode(cps[0]) + EncodeAll(cps[1..])
  }

  /** Well-formed text is exactly what encodes some code points. */
  lemma {:induction false} EncodedIsWellFormed(cps: seq<nat>)
    requires forall i :: 0 <= i < |cps| ==> Scalar(cps[i])
    ensures WellFormed(EncodeAll(cps))
  {
    if cps != [] {
      EncodedIsRune(cps[0], EncodeAll(cps[1..]));
      EncodedIsWellFormed(cps[1..]);
      assert EncodeAll(cps)[|Encode(cps[0])|..] == EncodeAll(cps[1..]);
    }
  }

  lemma {:induction false} WellFormedIsEncoded(s: seq<Byte>) returns (cps: seq<nat>)
    requires WellFormed(s)
    ensures (forall i :: 0 <= i < |cps| ==> Scalar(cps[i])) && s == EncodeAll(cps)
  {
    cps := [];
    if s != [] {
      var cp := RuneIsEncoded(s);
      var rest := WellFormedIsEncoded(s[RuneLength(s)..]);
      cps := [cp] + rest;
      assert cps[1..] == rest;
    }
  }

  lemma RuneLengthIsLocal(a: seq<Byte>, b: seq<Byte>)
    requires RuneLength(a) > 0
    ensures RuneLength(a + b) == RuneLength(a)
  {
    assert forall i :: 0 <= i < |a| ==> (a + b)[i] == a[i];
  }

  lemma {:induction false} WellFormedConcat(a: seq<Byte>, b: seq<Byte>)
    requires WellFormed(a) && WellFormed(b)
    ensures WellFormed(a + b)
  {
    if a == [] {
      assert a + b == b;
    } else {
      RuneLengthIsLocal(a, b);
      assert (a + b)[RuneLength(a)..] == a[RuneLength(a)..] + b;
      WellFormedConcat(a[RuneLength(a)..], b);
    }
  }

  predicate Boundary(s: seq<Byte>, k: nat)
    requires k <= |s|
  {
    k == 0 || k == |s| || RuneStart(s[k])
  }

  /** Inside well-formed text the prefixes that are well-formed are those that end at a boundary. */
  lemma {:induction false} CutsWellFormed(s: seq<Byte>, k: nat)
    requires WellFormed(s) && k <= |s|
    ensures WellFormed(s[..k]) <==> Boundary(s, k)
  {
    if 0 < k {
      var n := RuneLength(s);
      if k < n {
        assert Tail(s[k]);
        ShortPrefixIsIllFormed(s, k);
      } else {
        var rest := s[n..];
        CutsWellFormed(rest, k - n);
        assert s == s[..n] + rest && s[..k] == s[..n] + rest[..k - n];
        RuneAlone(s);
        RuneLengthIsLocal(s[..n], rest[..k - n]);
        assert s[..k][n..] == rest[..k - n];
        if k == n { FirstStarts(rest); }
      }
    }
  }

  lemma FirstStarts(s: seq<Byte>)
    requires WellFormed(s)
    ensures s != [] ==> RuneStart(s[0])
  {
  }

  lemma RuneAlone(s: seq<Byte>)
    requires RuneLength(s) > 0
    ensures RuneLength(s[..RuneLength(s)]) == RuneLength(s)
  {
    var n := RuneLength(s);
    assert forall i :: 0 <= i < n ==> s[..n][i] == s[i];
  }

  lemma ShortPrefixIsIllFormed(s: seq<Byte>, k: nat)
    requires 0 < k < RuneLength(s)
    ensures !WellFormed(s[..k])
  {
    var p := s[..k];
    assert forall i :: 0 <= i < k ==> p[i] == s[i];
    assert RuneLength(p) == 0;
  }

  /** A boundary is never more than three bytes back. */
  lemma {:induction false} BoundaryIsNear(s: seq<Byte>, k: nat) returns (j: nat)
    requires WellFormed(s) && k <= |s|
    ensures j <= k <= j + 3 && Boundary(s, j)
  {
    var n := RuneLength(s);
    if k == 0 || k < n {
      j := 0;
    } else {
      j := BoundaryIsNear(s[n..], k - n);
      j := j + n;
      FirstStarts(s[n..]);
    }
  }

  // ---------------------------------------------------------------- the cut

  const MARK: seq<Byte> := [0xE2, 0x80, 0xA6]

  /** The last boundary at or before a position inside s. */
  ghost predicate CutAt(s: seq<Byte>, from: nat, cut: nat)
    requires from < |s|
  {
    cut <= from && Boundary(s, cut) && forall j :: cut < j <= from ==> !Boundary(s, j)
  }

  method CutRuneSafe(s: seq<Byte>, from: nat) returns (cut: nat)
    requires from < |s|
    ensures CutAt(s, from, cut)
  {
    cut := from;
    while cut > 0 && !RuneStart(s[cut])
      invariant cut <= from && forall j :: cut < j <= from ==> !Boundary(s, j)
    {
      cut := cut - 1;
    }
  }

  /** The cut that leaves room for the marker. */
  ghost predicate MarkedCut(s: seq<Byte>, max: nat, cut: nat)
    requires max < |s|
  {
    0 < cut && |MARK| < max && CutAt(s, max - |MARK|, cut)
  }

  /** Short input is kept; long input becomes its longest marked prefix, or a bare one when no marked prefix fits. */
  ghost predicate Truncated(s: seq<Byte>, max: int, r: seq<Byte>) {
    if max <= 0 || |s| <= max then r == s
    else if exists cut: nat :: MarkedCut(s, max, cut) then
        exists cut: nat :: MarkedCut(s, max, cut) && r == s[..cut] + MARK
    else exists cut: nat :: CutAt(s, max, cut) && r == s[..cut]
  }

  method TruncateBytes(s: seq<Byte>, max: int) returns (r: seq<Byte>)
    ensures Truncated(s, max, r)
  {
    if max <= 0 || |s| <= max {
      return s;
    }
    if max <= |MARK| {
      var bare := CutRuneSafe(s, max);
      return s[..bare];
    }
    var cut := CutRuneSafe(s, max - |MARK|);
    assert 0 < cut <==> MarkedCut(s, max, cut);
    if cut <= 0 {
      var bare := CutRuneSafe(s, max);
      return s[..bare];
    }
    return s[..cut] + MARK;
  }

  /** A positive cap is a cap, whatever the bytes; and truncating again changes nothing. */
  lemma TruncationFits(s: seq<Byte>, max: int, r: seq<Byte>, again: seq<Byte>)
    requires Truncated(s, max, r) && Truncated(r, max, again)
    ensures max > 0 ==> |r| <= max
    ensures again == r
    ensures r == s || (exists cut :: 0 <= cut <= |s| && (r == s[..cut] || r == s[..cut] + MARK))
  {
    if 0 < max < |s| {
      if exists cut: nat :: MarkedCut(s, max, cut) {
        var cut: nat :| MarkedCut(s, max, cut) && r == s[..cut] + MARK;
      } else {
        var cut: nat :| CutAt(s, max, cut) && r == s[..cut];
      }
    }
  }

  lemma MarkIsWellFormed()
    ensures WellFormed(MARK)
  {
    assert MARK[3..] == [];
    assert RuneLength(MARK) == 3;
  }

  /** Well-formed text stays well-formed. */
  lemma TruncationIsWellFormed(s: seq<Byte>, max: int, r: seq<Byte>)
    requires WellFormed(s) && Truncated(s, max, r)
    ensures WellFormed(r)
  {
    if 0 < max < |s| {
      if exists cut: nat :: MarkedCut(s, max, cut) {
        var cut: nat :| MarkedCut(s, max, cut) && r == s[..cut] + MARK;
        CutsWellFormed(s, cut);
        MarkIsWellFormed();
        WellFormedConcat(s[..cut], MARK);
      } else {
        var cut: nat :| CutAt(s, max, cut) && r == s[..cut];
        CutsWellFormed(s, cut);
      }
    }
  }

  /** No longer well-formed prefix fits beside the marker, so at most six bytes of the cap go unused. */
  lemma TruncationIsGreedy(s: seq<Byte>, max: int, r: seq<Byte>, k: nat)
    requires WellFormed(s) && Truncated(s, max, r) && 6 < max < |s|
    requires k <= max - |MARK| && WellFormed(s[..k])
    ensures exists cut :: k <= cut <= |s| && max - 6 <= cut && r == s[..cut] + MARK
  {
    var from := max - |MARK|;
    var j := BoundaryIsNear(s, from);
    CutsWellFormed(s, k);
    LastBoundary(s, from, j);
    var last: nat :| j <= last && CutAt(s, from, last);
    assert MarkedCut(s, max, last);
    var cut: nat :| MarkedCut(s, max, cut) && r == s[..cut] + MARK;
    assert k <= cut && j <= cut;
  }

  lemma {:induction false} LastBoundary(s: seq<Byte>, from: nat, j: nat)
    requires j <= from < |s| && Boundary(s, j)
    ensures exists cut: nat :: j <= cut && CutAt(s, from, cut)
    decreases from
  {
    if Boundary(s, from) {
      assert CutAt(s, from, from);
    } else {
      LastBoundary(s, from - 1, j);
      var cut: nat :| j <= cut && CutAt(s, from - 1, cut);
      assert CutAt(s, from, cut);
    }
  }
}
