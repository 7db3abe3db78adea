/** Digest-addressed pull references: built, validated, and split again by the staging script. */
module DigestRefs {
  import opened Common
  import opened Events
  import opened Characters

  /** The last position of c in s, or -1. */
  function LastIndex(s: string, c: char): (i: int)
    ensures -1 <= i < |s|
    ensures 0 <= i ==> s[i] == c
    ensures forall j :: i < j < |s| ==> s[j] != c
  {
    if s == "" then -1
    else if s[|s| - 1] == c then |s| - 1
    else LastIndex(s[..|s| - 1], c)
  }

  // ---------------------------------------------------------------- validation

  const ALGO := "sha256:"

  predicate HasDigestPrefix(s: string) {
    |s| > 7 && s[..7] == ALGO
  }

  predicate LowerHex(c: char) {
    '0' <= c <= '9' || 'a' <= c <= 'f'
  }

  /** The algorithm tag and exactly 64 lowercase hex digits. */
  ghost predicate IsDigest(d: string) {
    |d| == 71 && d[..7] == ALGO && forall i :: 7 <= i < 71 ==> LowerHex(d[i])
  }

  method ValidArtifactDigest(digest: string) returns (ok: bool)
    ensures ok <==> IsDigest(digest)
  {
    if !HasDigestPrefix(digest) || |digest| != |ALGO| + 64 {
      return false;
    }
    for i := |ALGO| to |digest|
      invariant forall j :: 7 <= j < i ==> LowerHex(digest[j])
    {
      var c := digest[i];
      if c < '0' || c > 'f' || (c > '9' && c < 'a') {
        return false;
      }
    }
    return true;
  }

  predicate Alphanumeric(c: char) {
    'a' <= c <= 'z' || 'A' <= c <= 'Z' || '0' <= c <= '9' || c == '_'
  }

  ghost predicate IsToken(s: string, extra: string) {
    forall i :: 0 <= i < |s| ==> Alphanumeric(s[i]) || s[i] in extra
  }

  /** The characters a shell word may hold unquoted. */
  predicate InWord(c: char) {
    c in LOWER || c in UPPER || c in DIGITS || c == '_'
  }

  method SafeShellToken(s: string, extra: string) returns (ok: bool)
    ensures ok <==> IsToken(s, extra)
    ensures ok <==> forall i :: 0 <= i < |s| ==> InWord(s[i]) || s[i] in extra
  {
    forall c ensures Alphanumeric(c) <==> InWord(c) { CharacterRanges(c); }
    hide Alphanumeric, InWord;
    for i := 0 to |s|
      invariant IsToken(s[..i], extra)
    {
      assert forall j :: 0 <= j < i ==> s[..i][j] == s[j];
      if !Alphanumeric(s[i]) && s[i] !in extra {
        return false;
      }
    }
    assert s[..|s|] == s;
    return true;
  }

  /** Registry-qualified, at most 300 bytes, and within the reference grammar's characters. */
  ghost predicate IsRepo(repo: string) {
    0 < |repo| <= 300 && '/' in repo && IsToken(repo, ":/._-")
  }

  ghost predicate IsStagedKind(kind: string) {
    0 < |kind| <= 64 && IsToken(kind, ".-")
  }

  // ---------------------------------------------------------------- the pull reference

  /** Drops one pin suffix after the last slash: a digest if there is one, else a tag. */
  function PullRepo(ref: string): string {
    var lastSlash := LastIndex(ref, '/');
    var at := LastIndex(ref, '@');
    var colon := LastIndex(ref, ':');
    if at > lastSlash then ref[..at]
    else if colon > lastSlash then ref[..colon]
    else ref
  }

  function Qualified(digest: string): string {
    if HasDigestPrefix(digest) then digest else ALGO + digest
  }

  ghost predicate Pullable(member: LifecycleEvent) {
    && member.digest != "" && member.imageReference != ""
    && IsDigest(Qualified(member.digest))
    && IsRepo(PullRepo(member.imageReference))
  }

  ghost function PullRef(member: LifecycleEvent): Option<string> {
    if Pullable(member) then Some(PullRepo(member.imageReference) + "@" + Qualified(member.digest)) else None
  }

  method DigestPullRef(member: LifecycleEvent) returns (r: Option<string>)
    ensures r == PullRef(member)
  {
    if member.digest == "" || member.imageReference == "" {
      return None;
    }
    var digest := Qualified(member.digest);
    var valid := ValidArtifactDigest(digest);
    if !valid {
      return None;
    }
    var repo := PullRepo(member.imageReference);
    var token := SafeShellToken(repo, ":/._-");
    if |repo| == 0 || |repo| > 300 || '/' !in repo || !token {
      return None;
    }
    return Some(repo + "@" + digest);
  }

  // ---------------------------------------------------------------- read back by the script

  /** Splits at the first '@', as the staging script reads a reference; None when there is none. */
  function SplitAtFirst(s: string): Option<(string, string)> {
    var at := Find(s, '@');
    if at < |s| then Some((s[..at], s[at + 1..])) else None
  }

  /** What was printed is what is read, so the script's fallback guard never fires on a built reference. */
  lemma SplitReturnsWhatWasValidated(member: LifecycleEvent)
    requires PullRef(member).Some?
    ensures SplitAtFirst(PullRef(member).value) == Some((PullRepo(member.imageReference), Qualified(member.digest)))
    ensures IsDigest(SplitAtFirst(PullRef(member).value).value.1)
  {
    var repo := PullRepo(member.imageReference);
    var digest := Qualified(member.digest);
    var ref := repo + "@" + digest;
    assert forall i :: 0 <= i < |repo| ==> ref[i] == repo[i] && repo[i] != '@';
    FindAt(ref, '@', |repo|);
    assert ref[..|repo|] == repo && ref[|repo| + 1..] == digest;
  }

  /** Quotes a token for the shell, dropping every single quote inside it. */
  function ShellQuote(s: string): string {
    "'" + Unquoted(s) + "'"
  }

  function Unquoted(s: string): string {
    if s == "" then "" else (if s[0] == '\'' then "" else [s[0]]) + Unquoted(s[1..])
  }

  /** What a shell reads from a single-quoted word: everything up to the closing quote, which must end it. */
  function ShellReads(word: string): Option<string> {
    if |word| < 2 || word[0] != '\'' || Find(word[1..], '\'') != |word| - 2 then None
    else Some(word[1..|word| - 1])
  }

  lemma {:induction false} QuoteKeepsQuoteless(s: string)
    requires Quoteless(s)
    ensures Unquoted(s) == s
    ensures ShellReads(ShellQuote(s)) == Some(s)
  {
    if s != "" {
      assert s == [s[0]] + s[1..];
      QuoteKeepsQuoteless(s[1..]);
    }
    var word := ShellQuote(s);
    assert word[1..] == s + "'" && word[1..|word| - 1] == s;
    FindAt(s + "'", '\'', |s|);
  }

  /** A shell never reads back more than was quoted, and reads exactly that unless a quote was dropped. */
  lemma {:induction false} QuoteLosesOnlyQuotes(s: string)
    ensures ShellReads(ShellQuote(s)) == Some(Unquoted(s))
    ensures Unquoted(s) == s <==> Quoteless(s)
  {
    UnquotedHasNoQuote(s);
    QuoteKeepsQuoteless(Unquoted(s));
    if Quoteless(s) { QuoteKeepsQuoteless(s); }
  }

  lemma {:induction false} UnquotedHasNoQuote(s: string)
    ensures Quoteless(Unquoted(s))
  {
    if s != "" { UnquotedHasNoQuote(s[1..]); }
  }

  const STAGE_DIR := "/usr/local/share/criteria-peer-adapters"
  const IMAGE_BIN := "/usr/local/bin/criteria-adapter-"
  const PULL_HOME := "/tmp/criteria-adapter-stage-cache"

  function BinaryPath(kind: string): string {
    STAGE_DIR + "/criteria-adapter-" + kind
  }

  function MarkerPath(kind: string): string {
    STAGE_DIR + "/." + kind + ".staged-digest"
  }

  /** Every value the digest-lane script interpolates, in the order of its assignments. */
  function ScriptValues(kind: string, ref: string, runnerHome: string): seq<string> {
    var digest := match SplitAtFirst(ref) case Some(parts) => parts.1 case None => "";
    [kind, digest, ref, STAGE_DIR, BinaryPath(kind), MarkerPath(kind),
     IMAGE_BIN + kind, runnerHome, PULL_HOME, PULL_HOME]
  }

  ghost predicate Quoteless(s: string) {
    forall i :: 0 <= i < |s| ==> s[i] != '\''
  }

  lemma TokenIsQuoteless(s: string, extra: string)
    requires IsToken(s, extra) && Quoteless(extra)
    ensures Quoteless(s)
  {
  }

  lemma PullRefIsQuoteless(member: LifecycleEvent)
    requires PullRef(member).Some?
    ensures Quoteless(PullRef(member).value) && Quoteless(Qualified(member.digest))
  {
    var digest, repo := Qualified(member.digest), PullRepo(member.imageReference);
    assert digest == ALGO + digest[7..];
    TokenIsQuoteless(repo, ":/._-");
  }

  lemma PathsAreQuoteless(kind: string)
    requires Quoteless(kind)
    ensures Quoteless(STAGE_DIR) && Quoteless(PULL_HOME) && Quoteless(IMAGE_BIN + kind)
    ensures Quoteless(BinaryPath(kind)) && Quoteless(MarkerPath(kind))
  {
    assert Quoteless(STAGE_DIR) && Quoteless("/criteria-adapter-") && Quoteless("/.") && Quoteless(".staged-digest")
        && Quoteless(IMAGE_BIN);
    assert Quoteless(STAGE_DIR + "/criteria-adapter-") && Quoteless(STAGE_DIR + "/." + kind);
  }

  lemma ScriptReadsValue(member: LifecycleEvent, kind: string, runnerHome: string, i: nat)
    requires PullRef(member).Some? && IsStagedKind(kind) && IsToken(runnerHome, "/.-")
    requires i < |ScriptValues(kind, PullRef(member).value, runnerHome)|
    ensures var v := ScriptValues(kind, PullRef(member).value, runnerHome)[i]; ShellReads(ShellQuote(v)) == Some(v)
  {
    hide *;
    PartsAreQuoteless(member, kind, runnerHome);
    ValuesAreQuoteless(member, kind, runnerHome, i);
    QuoteKeepsQuoteless(ScriptValues(kind, PullRef(member).value, runnerHome)[i]);
  }

  predicate ReadBack(word: string) {
    ShellReads(ShellQuote(word)) == Some(word)
  }

  /** No digest-lane script loses a character to quoting; job names reach the home path as Kubernetes names. */
  lemma ScriptReadsEveryValue(member: LifecycleEvent, kind: string, runnerHome: string)
    ensures PullRef(member).Some? && IsStagedKind(kind) && IsToken(runnerHome, "/.-") ==>
              forall v :: v in ScriptValues(kind, PullRef(member).value, runnerHome) ==> ReadBack(v)
  {
    hide ScriptValues, PullRef, IsStagedKind, IsToken, ShellReads, ShellQuote;
    if PullRef(member).Some? && IsStagedKind(kind) && IsToken(runnerHome, "/.-") {
      forall v | v in ScriptValues(kind, PullRef(member).value, runnerHome) ensures ReadBack(v)
      {
        var i :| 0 <= i < |ScriptValues(kind, PullRef(member).value, runnerHome)|
            && ScriptValues(kind, PullRef(member).value, runnerHome)[i] == v;
        ScriptReadsValue(member, kind, runnerHome, i);
      }
    }
  }

  lemma PartsAreQuoteless(member: LifecycleEvent, kind: string, runnerHome: string)
    requires PullRef(member).Some? && IsStagedKind(kind) && IsToken(runnerHome, "/.-")
    ensures Quoteless(PullRef(member).value) && Quoteless(Qualified(member.digest)) && Quoteless(kind)
        && Quoteless(runnerHome)
    ensures SplitAtFirst(PullRef(member).value) == Some((PullRepo(member.imageReference), Qualified(member.digest)))
    ensures Quoteless(STAGE_DIR) && Quoteless(PULL_HOME) && Quoteless(IMAGE_BIN + kind)
    ensures Quoteless(BinaryPath(kind)) && Quoteless(MarkerPath(kind))
  {
    hide PullRef, SplitAtFirst, PullRepo, Qualified, BinaryPath, MarkerPath, STAGE_DIR, PULL_HOME, IMAGE_BIN;
    SplitReturnsWhatWasValidated(member);
    PullRefIsQuoteless(member);
    TokenIsQuoteless(kind, ".-");
    TokenIsQuoteless(runnerHome, "/.-");
    PathsAreQuoteless(kind);
  }

  lemma ValuesAreQuoteless(member: LifecycleEvent, kind: string, runnerHome: string, i: nat)
    requires PullRef(member).Some? && Quoteless(PullRef(member).value) && Quoteless(Qualified(member.digest))
    requires SplitAtFirst(PullRef(member).value) == Some((PullRepo(member.imageReference), Qualified(member.digest)))
    requires Quoteless(kind) && Quoteless(runnerHome)
    requires Quoteless(STAGE_DIR) && Quoteless(PULL_HOME) && Quoteless(IMAGE_BIN + kind)
    requires Quoteless(BinaryPath(kind)) && Quoteless(MarkerPath(kind))
    requires i < |ScriptValues(kind, PullRef(member).value, runnerHome)|
    ensures Quoteless(ScriptValues(kind, PullRef(member).value, runnerHome)[i])
  {
    hide Quoteless, BinaryPath, MarkerPath, SplitAtFirst, PullRef, PullRepo, Qualified, STAGE_DIR, PULL_HOME, IMAGE_BIN;
  }

  // ---------------------------------------------------------------- one pin is stripped, not two

  predicate Pin(c: char) {
    c == '@' || c == ':'
  }

  /** No pin is left on the last path component. */
  ghost predicate Bare(repo: string) {
    forall i :: LastIndex(repo, '/') < i < |repo| ==> !Pin(repo[i])
  }

  /** A reference pinned twice: a pin sits before the digest, or a tag before the tag. */
  ghost predicate PinnedTwice(ref: string) {
    var slash := LastIndex(ref, '/');
    var cut := if LastIndex(ref, '@') > slash then LastIndex(ref, '@') else LastIndex(ref, ':');
    exists i :: slash < i < cut && Pin(ref[i])
  }

  lemma {:induction false} LastIndexAt(s: string, c: char, i: int)
    requires -1 <= i < |s| && (0 <= i ==> s[i] == c) && forall j :: i < j < |s| ==> s[j] != c
    ensures LastIndex(s, c) == i
  {
    var k := LastIndex(s, c);
    assert (0 <= i ==> s[i] == c) && (0 <= k ==> s[k] == c);
  }

  /** The pull is addressed by digest alone exactly when the reference carried at most one pin. */
  lemma BareUnlessPinnedTwice(ref: string)
    ensures Bare(PullRepo(ref)) <==> !PinnedTwice(ref)
  {
    var slash, at, colon := LastIndex(ref, '/'), LastIndex(ref, '@'), LastIndex(ref, ':');
    var repo := PullRepo(ref);
    LastIndexAt(repo, '/', slash);
    assert forall i :: 0 <= i < |repo| ==> repo[i] == ref[i];
  }

  /** A reference pinned by tag and digest keeps its tag in the pull reference. */
  lemma TagSurvives()
    ensures exists m: LifecycleEvent :: PullRef(m).Some? && !Bare(PullRepo(m.imageReference))
  {
    var hex := seq(64, i => '0');
    var m := LifecycleEvent(ProvisionWanted, "", "", "", "", hex, "g/r:t@" + hex, "", "", "", "");
    DoublyPinned(hex);
    ZeroesQualify(hex);
    assert m.imageReference != "";
    hide PullRepo, Bare, IsDigest, IsRepo, Qualified;
    assert Pullable(m);
  }

  lemma DoublyPinned(hex: string)
    requires forall i :: 0 <= i < |hex| ==> hex[i] == '0'
    ensures IsRepo(PullRepo("g/r:t@" + hex)) && !Bare(PullRepo("g/r:t@" + hex))
  {
    var ref := "g/r:t@" + hex;
    assert ref == ['g', '/', 'r', ':', 't', '@'] + hex;
    assert forall i :: 6 <= i < |ref| ==> ref[i] == hex[i - 6];
    LastIndexAt(ref, '/', 1);
    LastIndexAt(ref, '@', 5);
    var repo := PullRepo(ref);
    assert repo == ['g', '/', 'r', ':', 't'];
    LastIndexAt(repo, '/', 1);
  }

  lemma ZeroesQualify(hex: string)
    requires |hex| == 64 && forall i :: 0 <= i < 64 ==> hex[i] == '0'
    ensures IsDigest(Qualified(hex))
  {
    assert hex[0] == hex[..7][0] && ALGO[0] == 's';
    assert (ALGO + hex)[..7] == ALGO;
  }
}
