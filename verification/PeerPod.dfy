/** Composition of the one peer pod of an environment, and why no iteration order shows in it. */
module PeerPods {
  import opened Common
  import opened Ordering
  import opened Sorting
  import opened Events
  import opened DigestRefs

  // ---------------------------------------------------------------- the member order

  /** Scope key, then adapter kind, then adapter node name. */
  predicate Before(a: LifecycleEvent, b: LifecycleEvent) {
    if a.ScopeKey() != b.ScopeKey() then Less(a.ScopeKey(), b.ScopeKey())
    else if a.Kind() != b.Kind() then Less(a.Kind(), b.Kind())
    else Less(a.adapterName, b.adapterName)
  }

  /** Two members the comparator cannot tell apart. */
  predicate Tied(a: LifecycleEvent, b: LifecycleEvent) {
    a.ScopeKey() == b.ScopeKey() && a.Kind() == b.Kind() && a.adapterName == b.adapterName
  }

  lemma TiedOrOrdered(a: LifecycleEvent, b: LifecycleEvent)
    ensures !(Before(a, b) && Before(b, a))
    ensures Before(a, b) || Before(b, a) <==> !Tied(a, b)
  {
    LessTotal(a.ScopeKey(), b.ScopeKey());
    LessTotal(a.Kind(), b.Kind());
    LessTotal(a.adapterName, b.adapterName);
    LessIrreflexive(a.adapterName);
  }

  lemma BeforeTransitive(a: LifecycleEvent, b: LifecycleEvent, c: LifecycleEvent)
    requires Before(a, b) && Before(b, c)
    ensures Before(a, c)
  {
    LessTotal(a.ScopeKey(), b.ScopeKey());
    LessTotal(a.Kind(), b.Kind());
    if a.ScopeKey() != b.ScopeKey() && b.ScopeKey() != c.ScopeKey() {
      LessTransitive(a.ScopeKey(), b.ScopeKey(), c.ScopeKey());
    } else if a.ScopeKey() == b.ScopeKey() == c.ScopeKey() {
      if a.Kind() != b.Kind() && b.Kind() != c.Kind() {
        LessTransitive(a.Kind(), b.Kind(), c.Kind());
      } else if a.Kind() == b.Kind() == c.Kind() {
        LessTransitive(a.adapterName, b.adapterName, c.adapterName);
      }
    }
  }

  lemma BeforeIsStrict()
    ensures Strict(Before)
  {
    forall a, b ensures !(Before(a, b) && Before(b, a)) { TiedOrOrdered(a, b); }
    forall a, b, c | Before(a, b) && Before(b, c) ensures Before(a, c) { BeforeTransitive(a, b, c); }
  }

  lemma LessIsStrict()
    ensures Strict(Less)
  {
    forall a, b ensures !(Less(a, b) && Less(b, a)) { LessTotal(a, b); }
    forall a, b, c | Less(a, b) && Less(b, c) ensures Less(a, c) { LessTransitive(a, b, c); }
  }

  // ---------------------------------------------------------------- the compiled graph

  /** One compiled adapter binding; environment is the graph's "type.name". */
  datatype GraphDef = GraphDef(defType: string, name: string, environment: string, source: string, pinnedDigest: string)
  {
    function Definition(): string {
      defType + "." + name
    }

    predicate Bound() {
      defType != "" && name != "" && environment != ""
    }

    function Synthetic(): LifecycleEvent {
      LifecycleEvent(ProvisionWanted, "", "", name, defType, pinnedDigest, source, "", "", "",
                     EnvironmentIdentity(defType, TrimPrefix(environment, defType + ".")))
    }
  }

  function TrimPrefix(s: string, prefix: string): string {
    if prefix <= s then s[|prefix|..] else s
  }

  /** Everything before the first dot, and everything after it. */
  function Cut(s: string): (string, string) {
    if s == "" then ("", "")
    else if s[0] == '.' then ("", s[1..])
    else var (a, b) := Cut(s[1..]); ([s[0]] + a, b)
  }

  function GraphEnvironment(def: GraphDef): string {
    var (t, n) := Cut(def.environment);
    t + "/" + n
  }

  /** What the merge remembers: the identity of a definition and the environment it is bound to. */
  function GraphKey(def: GraphDef): string {
    def.Definition() + "@" + GraphEnvironment(def)
  }

  ghost predicate KeySeen(defs: seq<GraphDef>, key: string) {
    exists d :: d in defs && d.Bound() && GraphKey(d) == key
  }

  /** The definitions per environment, the first of each key winning. */
  ghost function Merge(defs: seq<GraphDef>): (out: map<string, seq<GraphDef>>)
    ensures forall e, d :: e in out && d in out[e] ==> d.Bound() && GraphEnvironment(d) == e && d in defs
  {
    if defs == [] then map[]
    else
      var earlier, def := defs[..|defs| - 1], defs[|defs| - 1];
      assert defs == earlier + [def];
      var m := Merge(earlier);
      if !def.Bound() || KeySeen(earlier, GraphKey(def)) then m
      else
        var e := GraphEnvironment(def);
        m[e := (if e in m then m[e] else []) + [def]]
  }

  function Flatten(layers: seq<seq<GraphDef>>): seq<GraphDef> {
    if layers == [] then [] else Flatten(layers[..|layers| - 1]) + layers[|layers| - 1]
  }

  lemma NothingSeen()
    ensures Merge([]) == map[]
    ensures forall k :: !KeySeen([], k)
  {
  }

  lemma SeenStep(defs: seq<GraphDef>, ad: GraphDef)
    ensures forall k :: KeySeen(defs + [ad], k) <==> KeySeen(defs, k) || (ad.Bound() && GraphKey(ad) == k)
  {
    assert ad in defs + [ad];
  }

  lemma MergeStep(defs: seq<GraphDef>, ad: GraphDef)
    ensures var e, m := GraphEnvironment(ad), Merge(defs);
            Merge(defs + [ad]) == if !ad.Bound() || KeySeen(defs, GraphKey(ad)) then m
              else m[e := (if e in m then m[e] else []) + [ad]]
  {
    assert (defs + [ad])[..|defs|] == defs;
  }

  method EnvGraphDefs(layers: seq<seq<GraphDef>>) returns (out: map<string, seq<GraphDef>>)
    ensures out == Merge(Flatten(layers))
  {
    hide Merge, KeySeen;
    assert Merge([]) == map[] && forall k :: !KeySeen([], k) by { NothingSeen(); }
    out := map[];
    var seen: set<string> := {};
    for i := 0 to |layers|
      invariant out == Merge(Flatten(layers[..i]))
      invariant forall k :: k in seen <==> KeySeen(Flatten(layers[..i]), k)
    {
      out, seen := MergeLayer(out, seen, layers[i], Flatten(layers[..i]));
      assert layers[..i + 1][..i] == layers[..i];
    }
    assert layers[..|layers|] == layers;
  }

  method MergeLayer(defs: map<string, seq<GraphDef>>, keys: set<string>, layer: seq<GraphDef>,
      ghost before: seq<GraphDef>)
    returns (out: map<string, seq<GraphDef>>, seen: set<string>)
    requires defs == Merge(before) && forall k :: k in keys <==> KeySeen(before, k)
    ensures out == Merge(before + layer) && forall k :: k in seen <==> KeySeen(before + layer, k)
  {
    hide Merge, KeySeen, GraphKey, GraphEnvironment;
    out, seen := defs, keys;
    assert before + layer[..0] == before;
    for j := 0 to |layer|
      invariant out == Merge(before + layer[..j])
      invariant forall k :: k in seen <==> KeySeen(before + layer[..j], k)
    {
      var ad := layer[j];
      MergeStep(before + layer[..j], ad);
      SeenStep(before + layer[..j], ad);
      assert before + layer[..j + 1] == before + layer[..j] + [ad];
      if ad.Bound() {
        var key := GraphKey(ad);
        if key !in seen {
          seen := seen + {key};
          var e := GraphEnvironment(ad);
          out := out[e := (if e in out then out[e] else []) + [ad]];
        }
      }
    }
    assert layer[..|layer|] == layer;
  }

  ghost predicate DistinctDefinitions(defs: seq<GraphDef>) {
    forall i, j :: 0 <= i < j < |defs| ==> defs[i].Definition() != defs[j].Definition()
  }

  lemma NewDefinition(earlier: seq<GraphDef>, kept: seq<GraphDef>, def: GraphDef)
    requires forall d :: d in kept ==> d.Bound() && GraphEnvironment(d) == GraphEnvironment(def) && d in earlier
    requires !KeySeen(earlier, GraphKey(def)) && DistinctDefinitions(kept)
    ensures DistinctDefinitions(kept + [def])
  {
    forall i | 0 <= i < |kept| ensures kept[i].Definition() != def.Definition()
    {
      assert kept[i] in kept && GraphKey(kept[i]) != GraphKey(def);
    }
  }

  lemma {:induction false} MergeKeepsDefinitionsDistinct(defs: seq<GraphDef>, e: string)
    requires e in Merge(defs)
    ensures DistinctDefinitions(Merge(defs)[e])
    decreases |defs|
  {
    hide DistinctDefinitions, KeySeen, GraphKey;
    assert DistinctDefinitions([]) by { NoDefinitions(); }
    if defs != [] {
      var earlier, def := defs[..|defs| - 1], defs[|defs| - 1];
      if e in Merge(earlier) {
        MergeKeepsDefinitionsDistinct(earlier, e);
      }
      if def.Bound() && !KeySeen(earlier, GraphKey(def)) && GraphEnvironment(def) == e {
        NewDefinition(earlier, if e in Merge(earlier) then Merge(earlier)[e] else [], def);
      }
    }
  }

  lemma NoDefinitions()
    ensures DistinctDefinitions([])
  {
  }

  /** Nothing a layer binds is lost, except to an earlier definition printed as the same key. */
  lemma {:induction false} MergeCoversEveryKey(defs: seq<GraphDef>, d: GraphDef) returns (e: string, kept: GraphDef)
    requires d in defs && d.defType != "" && d.name != "" && d.environment != ""
    ensures e in Merge(defs) && kept in Merge(defs)[e] && GraphKey(kept) == GraphKey(d)
    decreases |defs|
  {
    var earlier, def := defs[..|defs| - 1], defs[|defs| - 1];
    assert defs == earlier + [def];
    if KeySeen(earlier, GraphKey(d)) {
      var d' :| d' in earlier && d'.Bound() && GraphKey(d') == GraphKey(d);
      e, kept := MergeCoversEveryKey(earlier, d');
    } else {
      assert d == def;
      e, kept := GraphEnvironment(def), def;
    }
  }

  /** And nothing else is kept: a binding lacking its kind, its name or its environment never is. */
  lemma MergeKeepsOnlyBindings(defs: seq<GraphDef>, e: string, d: GraphDef)
    requires e in Merge(defs) && d in Merge(defs)[e]
    ensures d in defs && d.defType != "" && d.name != "" && d.environment != ""
  {
    assert d.Bound();
  }

  /** A binding to "type.name" is filed under the identity "type/name" that provisions of that environment carry. */
  lemma {:induction false} GraphEnvironmentJoins(d: GraphDef, envType: string, envName: string)
    requires '.' !in envType
    ensures d.environment == envType + "." + envName ==> GraphEnvironment(d) == envType + "/" + envName
    ensures d.environment == envType + "." + envName && envName != "" ==>
      GraphEnvironment(d) == EnvironmentIdentity(envType, envName)
    ensures d.environment == envType ==> GraphEnvironment(d) == envType + "/"
  {
    CutAtFirstDot(envType, envName);
  }

  lemma {:induction false} CutAtFirstDot(a: string, b: string)
    requires '.' !in a
    ensures Cut(a + "." + b) == (a, b) && Cut(a) == (a, "")
  {
    if a == "" {
      assert ("." + b)[1..] == b && a + "." + b == "." + b;
    } else {
      assert (a + "." + b)[1..] == a[1..] + "." + b && a == [a[0]] + a[1..];
      CutAtFirstDot(a[1..], b);
    }
  }

  /** A member made up for a definition carries the definition, its digest and its source, and no dial identity; its
      environment is named after the definition's kind, whatever environment it is bound to. */
  lemma SyntheticCarriesItsDefinition(d: GraphDef, envName: string)
    ensures var m := d.Synthetic();
      && m.event == ProvisionWanted && m.adapterType == d.defType && m.adapterName == d.name
      && m.digest == d.pinnedDigest && m.imageReference == d.source
      && m.scopeID == m.scopeTag == m.tokenFile == m.acceptToken == m.shimAddress == ""
      && (d.environment == d.defType + "." + envName && d.defType != "" ==> m.environment == d.defType + "/" + envName)
      && (!(d.defType + "." <= d.environment) && d.defType != "" ==> m.environment == d.defType + "/" + d.environment)
  {
    assert (d.defType + "." + envName)[|d.defType + "."|..] == envName;
  }

  /** Without an '@' in the names the key is the pair it prints. */
  lemma GraphKeyIsInjective(a: GraphDef, b: GraphDef)
    requires '@' !in a.Definition() && '@' !in b.Definition() && GraphKey(a) == GraphKey(b)
    ensures a.Definition() == b.Definition() && GraphEnvironment(a) == GraphEnvironment(b)
  {
    SplitAt(a.Definition(), b.Definition(), '@', GraphEnvironment(a), GraphEnvironment(b));
  }

  // ---------------------------------------------------------------- the group of an environment

  /** The definition names the member's kind and node, and a source for it. */
  predicate Supplies(d: GraphDef, m: LifecycleEvent) {
    d.source != "" && d.defType == m.Kind() && d.name == m.adapterName
  }

  /** r is m with the reference the graph supplies: the source of the first definition that names one, and only for a
      member with a digest and no reference of its own. */
  ghost predicate Referenced(r: LifecycleEvent, m: LifecycleEvent, defs: seq<GraphDef>) {
    && (m.digest == "" || m.imageReference != "" ==> r == m)
    && ((forall d :: d in defs ==> !Supplies(d, m)) ==> r == m)
    && (m.digest != "" && m.imageReference == "" ==>
          forall i :: 0 <= i < |defs| && Supplies(defs[i], m) && (forall j :: 0 <= j < i ==> !Supplies(defs[j], m)) ==>
            r == m.(imageReference := defs[i].source))
  }

  /** A member with a digest but no reference takes the first matching definition's source. */
  function Fill(m: LifecycleEvent, defs: seq<GraphDef>): (r: LifecycleEvent)
    ensures r.ScopeKey() == m.ScopeKey() && r.Kind() == m.Kind() && r.adapterName == m.adapterName
    ensures r.(imageReference := m.imageReference) == m
  {
    if m.digest == "" || m.imageReference != "" || defs == [] then m
    else if defs[0].source != "" && defs[0].defType == m.Kind() && defs[0].name == m.adapterName then
        m.(imageReference := defs[0].source)
    else Fill(m, defs[1..])
  }

  lemma {:induction false} FillTakesTheFirstSource(m: LifecycleEvent, defs: seq<GraphDef>)
    ensures Referenced(Fill(m, defs), m, defs)
  {
    hide LifecycleEvent.Kind;
    if m.digest != "" && m.imageReference == "" && defs != [] {
      if Supplies(defs[0], m) {
        assert defs[0] in defs;
      } else {
        var rest := defs[1..];
        FillTakesTheFirstSource(m, rest);
        assert forall d :: d in rest ==> d in defs;
        forall i | 0 <= i < |defs| && Supplies(defs[i], m) && (forall j :: 0 <= j < i ==> !Supplies(defs[j], m))
          ensures Fill(m, defs) == m.(imageReference := defs[i].source)
        {
          assert rest[i - 1] == defs[i] && forall j :: 0 <= j < i - 1 ==> rest[j] == defs[j + 1];
        }
      }
    }
  }

  function Definition(m: LifecycleEvent): string {
    m.Kind() + "." + m.adapterName
  }

  /** Provisions of one environment carry pairwise different scope keys. */
  ghost predicate DistinctScopes(members: seq<LifecycleEvent>) {
    forall i, j :: 0 <= i < j < |members| ==> members[i].ScopeKey() != members[j].ScopeKey()
  }

  ghost predicate Unhosted(d: GraphDef, provisions: seq<LifecycleEvent>) {
    forall p :: p in provisions ==> Definition(p) != d.Definition()
  }

  /** A member is a provision with its reference filled in, or a definition nobody provisioned. */
  ghost predicate InGroup(m: LifecycleEvent, provisions: seq<LifecycleEvent>, defs: seq<GraphDef>) {
    IsFilled(m, provisions, defs) || exists d :: d in defs && m == d.Synthetic() && Unhosted(d, provisions)
  }

  ghost predicate IsGroup(members: seq<LifecycleEvent>, provisions: seq<LifecycleEvent>, defs: seq<GraphDef>) {
    forall m :: m in members <==> InGroup(m, provisions, defs)
  }

  method CompleteGroup(provisions: seq<LifecycleEvent>, defs: seq<GraphDef>) returns (members: seq<LifecycleEvent>)
    requires DistinctScopes(provisions) && DistinctDefinitions(defs)
    requires forall d :: d in defs ==> d.Bound()
    ensures Separated(members, Before)
    ensures IsGroup(members, provisions, defs)
    ensures forall p :: p in provisions ==> exists m :: m in members && Referenced(m, p, defs)
  {
    hide Before, Fill, Definition, AddedBy, Separated, IsFilled, Referenced;
    NothingAdded(defs);
    var existing;
    members, existing := FillReferences(provisions, defs);
    ghost var filled, taken := members, existing;
    for i := 0 to |defs|
      invariant forall x :: x in existing <==> x in taken || exists k :: 0 <= k < i && defs[k].Definition() == x
      invariant forall m :: m in members ==> Definition(m) in existing
      invariant forall m :: m in members <==> m in filled || AddedBy(m, defs[..i], taken)
      invariant Separated(members, Before)
    {
      AddedStep(defs, i, taken);
      var def := defs[i];
      if def.Definition() !in existing {
        assert def in defs;
        SyntheticDefinition(def);
        NewDefinitionIsSeparate(members, def.Synthetic());
        members := members + [def.Synthetic()];
        existing := existing + {def.Definition()};
      }
    }
    assert defs[..|defs|] == defs;
    GroupIsComplete(provisions, defs, filled, taken, members);
    GroupIsReferenced(provisions, defs, members);
  }

  lemma GroupIsReferenced(provisions: seq<LifecycleEvent>, defs: seq<GraphDef>, members: seq<LifecycleEvent>)
    requires IsGroup(members, provisions, defs)
    ensures forall p :: p in provisions ==> exists m :: m in members && Referenced(m, p, defs)
  {
    hide Fill, Referenced;
    forall p | p in provisions ensures Fill(p, defs) in members && Referenced(Fill(p, defs), p, defs)
    {
      FillTakesTheFirstSource(p, defs);
      assert IsFilled(Fill(p, defs), provisions, defs) && InGroup(Fill(p, defs), provisions, defs);
    }
  }

  /** A synthetic member of a definition not taken by a provision. */
  ghost predicate AddedBy(m: LifecycleEvent, defs: seq<GraphDef>, taken: set<string>) {
    exists d :: d in defs && m == d.Synthetic() && d.Definition() !in taken
  }

  lemma NothingAdded(defs: seq<GraphDef>)
    ensures forall m, taken :: !AddedBy(m, defs[..0], taken)
  {
  }

  lemma AddedStep(defs: seq<GraphDef>, i: nat, taken: set<string>)
    requires i < |defs|
    ensures forall m ::
              AddedBy(m, defs[..i + 1], taken)
              <==> AddedBy(m, defs[..i], taken) || (m == defs[i].Synthetic() && defs[i].Definition() !in taken)
  {
    assert defs[..i + 1] == defs[..i] + [defs[i]];
    assert defs[i] in defs[..i + 1];
    forall m
      ensures AddedBy(m, defs[..i + 1], taken)
              <==> AddedBy(m, defs[..i], taken) || (m == defs[i].Synthetic() && defs[i].Definition() !in taken)
    {
      if AddedBy(m, defs[..i], taken) {
        var d :| d in defs[..i] && m == d.Synthetic() && d.Definition() !in taken;
        assert d in defs[..i + 1];
      }
    }
  }

  ghost predicate IsFilled(m: LifecycleEvent, provisions: seq<LifecycleEvent>, defs: seq<GraphDef>) {
    exists p :: p in provisions && m == Fill(p, defs)
  }

  method FillReferences(provisions: seq<LifecycleEvent>, defs: seq<GraphDef>)
      returns (members: seq<LifecycleEvent>, existing: set<string>)
    requires DistinctScopes(provisions)
    ensures forall m :: m in members <==> IsFilled(m, provisions, defs)
    ensures forall m :: m in members ==> Definition(m) in existing
    ensures forall x :: x in existing <==> exists p :: p in provisions && Definition(p) == x
    ensures Separated(members, Before)
  {
    hide Before;
    members, existing := [], {};
    for i := 0 to |provisions|
      invariant |members| == i && forall k :: 0 <= k < i ==> members[k] == Fill(provisions[k], defs)
      invariant existing == set k | 0 <= k < i :: Definition(provisions[k])
    {
      existing := existing + {Definition(provisions[i])};
      members := members + [Fill(provisions[i], defs)];
    }
    FilledAreSeparated(provisions, defs, members);
    forall p | p in provisions ensures Fill(p, defs) in members
    {
      var k :| 0 <= k < |provisions| && provisions[k] == p;
      assert members[k] == Fill(p, defs);
    }
  }

  lemma SyntheticDefinition(d: GraphDef)
    requires d.Bound()
    ensures Definition(d.Synthetic()) == d.Definition()
  {
  }

  lemma GroupIsComplete(provisions: seq<LifecycleEvent>, defs: seq<GraphDef>, filled: seq<LifecycleEvent>,
      taken: set<string>, members: seq<LifecycleEvent>)
    requires forall m :: m in filled <==> IsFilled(m, provisions, defs)
    requires forall x :: x in taken <==> exists p :: p in provisions && Definition(p) == x
    requires forall m :: m in members <==> m in filled || AddedBy(m, defs, taken)
    ensures IsGroup(members, provisions, defs)
  {
    hide Fill, Definition;
    forall d: GraphDef ensures d.Definition() in taken <==> !Unhosted(d, provisions) {}
  }

  lemma FilledAreSeparated(provisions: seq<LifecycleEvent>, defs: seq<GraphDef>, members: seq<LifecycleEvent>)
    requires DistinctScopes(provisions) && |members| == |provisions|
    requires forall k :: 0 <= k < |members| ==> members[k] == Fill(provisions[k], defs)
    ensures Separated(members, Before)
  {
    forall i, j | 0 <= i < j < |members| ensures Before(members[i], members[j]) || Before(members[j], members[i])
    {
      TiedOrOrdered(members[i], members[j]);
    }
  }

  lemma NewDefinitionIsSeparate(members: seq<LifecycleEvent>, s: LifecycleEvent)
    requires Separated(members, Before) && forall m :: m in members ==> Definition(m) != Definition(s)
    ensures Separated(members + [s], Before)
  {
    forall m | m in members ensures Before(m, s) || Before(s, m)
    {
      TiedOrOrdered(m, s);
    }
  }

  // ---------------------------------------------------------------- the pod of a sorted group

  datatype Resource = Cpu | Memory

  /** Requests and limits, in milli-cores and mebibytes. */
  datatype Resources = Resources(requests: map<Resource, nat>, limits: map<Resource, nat>)

  /** How a kind's binary is staged: pulled by digest, or copied from the kind's image when None. */
  datatype Stage = Stage(kind: string, pullRef: Option<string>)

  datatype PeerPod = PeerPod(
    dial: LifecycleEvent, manifest: seq<string>, kinds: seq<string>, pins: seq<(string, string)>,
    stages: seq<Stage>, binaries: seq<(string, string)>, resources: Resources, scopeSet: bool, wire: bool,
      runnerIP: string)

  predicate HasDialIdentity(m: LifecycleEvent) {
    m.tokenFile != "" || m.acceptToken != "" || m.shimAddress != ""
  }

  function KindOf(m: LifecycleEvent): string {
    m.Kind()
  }

  ghost predicate KeyIn(members: seq<LifecycleEvent>, key: LifecycleEvent -> string, k: string) {
    exists m :: m in members && key(m) == k
  }

  /** The first member of every key, in member order. */
  ghost function Firsts(members: seq<LifecycleEvent>, key: LifecycleEvent -> string): (f: seq<LifecycleEvent>)
    ensures forall m :: m in f ==> m in members
  {
    if members == [] then []
    else
      var earlier, m := members[..|members| - 1], members[|members| - 1];
      Firsts(earlier, key) + if KeyIn(earlier, key, key(m)) then [] else [m]
  }

  /** Every key keeps exactly one representative. */
  lemma {:induction false} FirstsRepresent(members: seq<LifecycleEvent>, key: LifecycleEvent -> string)
    ensures forall m :: m in members ==> KeyIn(Firsts(members, key), key, key(m))
    ensures forall i, j :: 0 <= i < j < |Firsts(members, key)| ==>
        key(Firsts(members, key)[i]) != key(Firsts(members, key)[j])
  {
    if members != [] {
      var earlier, last := members[..|members| - 1], members[|members| - 1];
      FirstsRepresent(earlier, key);
      var f := Firsts(earlier, key);
      assert KeyIn(earlier, key, key(last)) ==>
          exists m :: m in earlier && key(m) == key(last) && KeyIn(f, key, key(m));
      forall m | m in members ensures KeyIn(Firsts(members, key), key, key(m))
      {
        if KeyIn(f, key, key(m)) {
          var x :| x in f && key(x) == key(m);
          assert x in Firsts(members, key);
        } else {
          assert m == last && last in Firsts(members, key);
        }
      }
    }
  }

  /** Of two members with one key, the earlier one decides. */
  lemma {:induction false} FirstDecides(members: seq<LifecycleEvent>, key: LifecycleEvent -> string, i: nat)
    requires i < |members| && forall j :: 0 <= j < i ==> key(members[j]) != key(members[i])
    ensures members[i] in Firsts(members, key)
  {
    var earlier := members[..|members| - 1];
    if i < |earlier| {
      FirstDecides(earlier, key, i);
    } else {
      assert !KeyIn(earlier, key, key(members[i]));
    }
  }

  /** Pins of the definitions that carry a digest. */
  ghost function Pins(firsts: seq<LifecycleEvent>): seq<(string, string)> {
    if firsts == [] then []
    else
      var m := firsts[|firsts| - 1];
      Pins(firsts[..|firsts| - 1]) + if m.digest == "" then [] else [(Definition(m), Qualified(m.digest))]
  }

  ghost function Binaries(firsts: seq<LifecycleEvent>, staged: set<string>, multi: bool): seq<(string, string)> {
    if firsts == [] then []
    else
      var m := firsts[|firsts| - 1];
      Binaries(firsts[..|firsts| - 1], staged, multi)
      + [(Definition(m), if m.Kind() in staged || multi then BinaryPath(m.Kind()) else IMAGE_BIN + m.Kind())]
  }

  ghost function Dial(members: seq<LifecycleEvent>): (m: LifecycleEvent)
    requires members != []
    ensures m in members
    ensures (exists x :: x in members && HasDialIdentity(x)) ==> HasDialIdentity(m)
  {
    if HasDialIdentity(members[0]) || forall x :: x in members ==> !HasDialIdentity(x) then members[0]
    else Dial(members[1..])
  }

  function AdapterResources(kind: string): Resources {
    if kind == "copilot" then Resources(map[Memory := 2048, Cpu := 500], map[Memory := 8192, Cpu := 2000])
    else if kind == "shell" then Resources(map[Memory := 512, Cpu := 250], map[Memory := 8192, Cpu := 2000])
    else Resources(map[Memory := 512, Cpu := 250], map[Memory := 2048, Cpu := 1000])
  }

  /** The larger quantity of one resource; absent and zero quantities never win. */
  function ResMax(into: map<Resource, nat>, other: map<Resource, nat>, name: Resource): (r: map<Resource, nat>)
    ensures r - {name} == into - {name}
    ensures name in r <==> name in into || (name in other && other[name] > 0)
    ensures name in r && name in into ==> into[name] <= r[name]
    ensures name in r && name in other ==> other[name] <= r[name]
    ensures name in r ==> (name in into && r[name] == into[name]) || (name in other && r[name] == other[name])
  {
    if name !in other || other[name] == 0 then into
    else if name !in into || other[name] > into[name] then into[name := other[name]]
    else into
  }

  function Quantities(kind: string, limits: bool): map<Resource, nat> {
    if limits then AdapterResources(kind).limits else AdapterResources(kind).requests
  }

  /** Room for the hungriest member, and for no more than that. */
  ghost predicate Fits(q: map<Resource, nat>, members: seq<LifecycleEvent>, limits: bool, name: Resource) {
    && name in q
    && (forall m :: m in members ==>
          name in Quantities(m.Kind(), limits) && Quantities(m.Kind(), limits)[name] <= q[name])
    && (exists m ::
          m in members && name in Quantities(m.Kind(), limits) && Quantities(m.Kind(), limits)[name] == q[name])
  }

  ghost predicate SizedFor(r: Resources, members: seq<LifecycleEvent>) {
    && r.requests.Keys == {Cpu, Memory} == r.limits.Keys
    && Fits(r.requests, members, false, Cpu) && Fits(r.requests, members, false, Memory)
    && Fits(r.limits, members, true, Cpu) && Fits(r.limits, members, true, Memory)
  }

  /** A strictly ordered list of exactly the keys the members carry. */
  ghost predicate ListsKeys(list: seq<string>, members: seq<LifecycleEvent>, key: LifecycleEvent -> string) {
    Sorted(list, Less) && forall k :: k in list <==> KeyIn(members, key, k)
  }

  predicate StageBefore(a: Stage, b: Stage) {
    Less(a.kind, b.kind)
  }

  /** One stage per kind in kind order, decided by the first member of the kind. */
  ghost predicate StagesOf(stages: seq<Stage>, members: seq<LifecycleEvent>) {
    && Sorted(stages, StageBefore)
    && forall t :: t in stages <==> exists m :: m in Firsts(members, KindOf) && t == Stage(m.Kind(), PullRef(m))
  }

  ghost function Staged(stages: seq<Stage>): set<string> {
    set t | t in stages && t.pullRef.Some? :: t.kind
  }

  /** The pod of a group whose members arrive in order s. */
  ghost predicate Composed(pod: PeerPod, s: seq<LifecycleEvent>, ip: string) {
    && s != []
    && pod.dial == Dial(s)
    && ListsKeys(pod.manifest, s, Definition)
    && ListsKeys(pod.kinds, s, KindOf)
    && pod.pins == Pins(Firsts(s, Definition))
    && StagesOf(pod.stages, s)
    && pod.binaries == Binaries(Firsts(s, Definition), Staged(pod.stages), |pod.stages| > 1)
    && SizedFor(pod.resources, s)
    && pod.scopeSet == (|s| > 1)
    && (pod.wire <==> ip != "" && forall m :: m in s ==> m.acceptToken != "")
    && pod.runnerIP == ip
  }

  /** The pod of an unordered group. */
  ghost predicate Built(pod: PeerPod, members: seq<LifecycleEvent>, ip: string) {
    exists s :: Sorted(s, Before) && SameMembers(s, members) && Composed(pod, s, ip)
  }

  // ---------------------------------------------------------------- the loops that build it

  method DialMember(members: seq<LifecycleEvent>) returns (dial: LifecycleEvent)
    requires members != []
    ensures dial == Dial(members)
  {
    dial := members[0];
    for i := 0 to |members|
      invariant dial == members[0] && forall j :: 0 <= j < i ==> !HasDialIdentity(members[j])
    {
      if HasDialIdentity(members[i]) {
        DialAt(members, i);
        return members[i];
      }
    }
  }

  lemma {:induction false} DialAt(members: seq<LifecycleEvent>, i: nat)
    requires i < |members| && HasDialIdentity(members[i]) && forall j :: 0 <= j < i ==> !HasDialIdentity(members[j])
    ensures Dial(members) == members[i]
  {
    if i > 0 { DialAt(members[1..], i - 1); }
  }

  method SortedKeys(members: seq<LifecycleEvent>, key: LifecycleEvent -> string) returns (list: seq<string>)
    ensures ListsKeys(list, members, key)
  {
    var seen: set<string>, found: seq<string> := {}, [];
    for i := 0 to |members|
      invariant forall k :: k in seen <==> KeyIn(members[..i], key, k)
      invariant forall k :: k in found <==> k in seen
      invariant NoDup(found)
    {
      assert members[..i + 1] == members[..i] + [members[i]];
      var k := key(members[i]);
      if k !in seen {
        seen := seen + {k};
        found := found + [k];
      }
    }
    assert members[..|members|] == members;
    LessIsStrict();
    forall i, j | 0 <= i < j < |found|
        ensures Less(found[i], found[j]) || Less(found[j], found[i]) { LessTotal(found[i], found[j]); }
    list := Sort(found, Less);
  }

  method DigestPins(members: seq<LifecycleEvent>) returns (pins: seq<(string, string)>)
    ensures pins == Pins(Firsts(members, Definition))
  {
    hide KeyIn, Firsts, Pins, Definition;
    var seen: set<string> := {};
    pins := [];
    NoneFirst(members, Definition);
    for i := 0 to |members|
      invariant forall k :: k in seen <==> KeyIn(members[..i], Definition, k)
      invariant pins == Pins(Firsts(members[..i], Definition))
    {
      NextFirst(members, Definition, i);
      PinsStep(Firsts(members[..i], Definition), members[i]);
      var def := Definition(members[i]);
      if def !in seen {
        seen := seen + {def};
        if members[i].digest != "" {
          pins := pins + [(def, Qualified(members[i].digest))];
        }
      }
    }
    assert members[..|members|] == members;
  }

  lemma NoneFirst(members: seq<LifecycleEvent>, key: LifecycleEvent -> string)
    ensures forall k :: !KeyIn(members[..0], key, k)
    ensures Firsts(members[..0], key) == [] && Pins([]) == []
    ensures forall staged, multi :: Binaries([], staged, multi) == []
  {
  }

  lemma NextFirst(members: seq<LifecycleEvent>, key: LifecycleEvent -> string, i: nat)
    requires i < |members|
    ensures forall k :: KeyIn(members[..i + 1], key, k) <==> KeyIn(members[..i], key, k) || k == key(members[i])
    ensures Firsts(members[..i + 1], key)
         == Firsts(members[..i], key) + if KeyIn(members[..i], key, key(members[i])) then [] else [members[i]]
  {
    var earlier, next := members[..i], members[..i + 1];
    assert next == earlier + [members[i]] && next[..i] == earlier;
    forall k ensures KeyIn(next, key, k) <==> KeyIn(earlier, key, k) || k == key(members[i])
    {
      assert members[i] in next && forall m :: m in earlier ==> m in next;
    }
  }

  lemma PinsStep(f: seq<LifecycleEvent>, m: LifecycleEvent)
    ensures Pins(f + [m]) == Pins(f) + if m.digest == "" then [] else [(Definition(m), Qualified(m.digest))]
    ensures f + [] == f
  {
    assert (f + [m])[..|f|] == f;
  }

  lemma BinariesStep(f: seq<LifecycleEvent>, m: LifecycleEvent, staged: set<string>, multi: bool)
    ensures Binaries(f + [m], staged, multi)
         == Binaries(f, staged, multi)
           + [(Definition(m), if m.Kind() in staged || multi then BinaryPath(m.Kind()) else IMAGE_BIN + m.Kind())]
    ensures f + [] == f
  {
    assert (f + [m])[..|f|] == f;
  }

  method AdapterStages(members: seq<LifecycleEvent>) returns (stages: seq<Stage>)
    ensures StagesOf(stages, members)
  {
    hide KeyIn, Firsts, PullRef;
    var seen: set<string>, found: seq<Stage> := {}, [];
    NoneFirst(members, KindOf);
    for i := 0 to |members|
      invariant forall k :: k in seen <==> KeyIn(members[..i], KindOf, k)
      invariant StageEach(found, Firsts(members[..i], KindOf))
    {
      NextFirst(members, KindOf, i);
      var kind := members[i].Kind();
      if kind !in seen {
        seen := seen + {kind};
        var ref := DigestPullRef(members[i]);
        found := found + [Stage(kind, ref)];
      }
    }
    assert members[..|members|] == members;
    FirstsRepresent(members, KindOf);
    StagesAreSeparated(found, Firsts(members, KindOf));
    stages := Sort(found, StageBefore);
  }

  ghost predicate StageEach(stages: seq<Stage>, firsts: seq<LifecycleEvent>) {
    |stages| == |firsts| && forall j :: 0 <= j < |stages| ==> stages[j] == Stage(firsts[j].Kind(), PullRef(firsts[j]))
  }

  lemma StagesAreSeparated(stages: seq<Stage>, firsts: seq<LifecycleEvent>)
    requires StageEach(stages, firsts) && forall i, j :: 0 <= i < j < |firsts| ==>
        KindOf(firsts[i]) != KindOf(firsts[j])
    ensures Strict(StageBefore) && Separated(stages, StageBefore)
    ensures forall t :: t in stages <==> exists m :: m in firsts && t == Stage(m.Kind(), PullRef(m))
  {
    LessIsStrict();
    forall i, j | 0 <= i < j < |stages| ensures StageBefore(stages[i], stages[j]) || StageBefore(stages[j], stages[i])
    {
      assert KindOf(firsts[i]) != KindOf(firsts[j]);
      LessTotal(stages[i].kind, stages[j].kind);
    }
    forall m | m in firsts ensures Stage(m.Kind(), PullRef(m)) in stages
    {
      var j :| 0 <= j < |firsts| && firsts[j] == m;
      assert stages[j] in stages;
    }
  }

  method StagedKinds(stages: seq<Stage>) returns (staged: set<string>)
    ensures staged == Staged(stages)
  {
    staged := {};
    for i := 0 to |stages|
      invariant staged == Staged(stages[..i])
    {
      assert stages[..i + 1] == stages[..i] + [stages[i]];
      if stages[i].pullRef.Some? { staged := staged + {stages[i].kind}; }
    }
    assert stages[..|stages|] == stages;
  }

  method BinaryOverrides(members: seq<LifecycleEvent>, stages: seq<Stage>) returns (out: seq<(string, string)>)
    ensures out == Binaries(Firsts(members, Definition), Staged(stages), |stages| > 1)
  {
    hide KeyIn, Firsts, Binaries, Definition, BinaryPath, Staged;
    var staged := StagedKinds(stages);
    var seen: set<string> := {};
    out := [];
    NoneFirst(members, Definition);
    for i := 0 to |members|
      invariant forall k :: k in seen <==> KeyIn(members[..i], Definition, k)
      invariant out == Binaries(Firsts(members[..i], Definition), staged, |stages| > 1)
    {
      NextFirst(members, Definition, i);
      BinariesStep(Firsts(members[..i], Definition), members[i], staged, |stages| > 1);
      var def, kind := Definition(members[i]), members[i].Kind();
      if def !in seen {
        seen := seen + {def};
        out := out + [(def, if kind in staged || |stages| > 1 then BinaryPath(kind) else IMAGE_BIN + kind)];
      }
    }
    assert members[..|members|] == members;
  }

  method ContainerResources(members: seq<LifecycleEvent>) returns (res: Resources)
    requires members != []
    ensures SizedFor(res, members)
  {
    hide Fits, ResMax, AdapterResources;
    res := AdapterResources(members[0].Kind());
    FitsOne(members[0]);
    assert members[..1] == [members[0]];
    for i := 1 to |members|
      invariant SizedFor(res, members[..i])
    {
      assert members[..i + 1] == members[..i] + [members[i]];
      var other := AdapterResources(members[i].Kind());
      FitsStep(res.requests, members[..i], false, members[i]);
      FitsStep(res.limits, members[..i], true, members[i]);
      res := Resources(ResMax(ResMax(res.requests, other.requests, Cpu), other.requests, Memory),
                       ResMax(ResMax(res.limits, other.limits, Cpu), other.limits, Memory));
    }
    assert members[..|members|] == members;
  }

  lemma FitsOne(m: LifecycleEvent)
    ensures SizedFor(AdapterResources(m.Kind()), [m])
  {
    assert m in [m];
  }

  lemma FitsStep(q: map<Resource, nat>, members: seq<LifecycleEvent>, limits: bool, m: LifecycleEvent)
    requires q.Keys == {Cpu, Memory} && Fits(q, members, limits, Cpu) && Fits(q, members, limits, Memory)
    ensures var other := Quantities(m.Kind(), limits);
            var r := ResMax(ResMax(q, other, Cpu), other, Memory);
            r.Keys == {Cpu, Memory} && Fits(r, members + [m], limits, Cpu) && Fits(r, members + [m], limits, Memory)
  {
    var other := Quantities(m.Kind(), limits);
    assert other.Keys == {Cpu, Memory};
    var r := ResMax(ResMax(q, other, Cpu), other, Memory);
    FitsMax(q, members, limits, m, r, Cpu);
    FitsMax(q, members, limits, m, r, Memory);
  }

  lemma FitsMax(q: map<Resource, nat>, members: seq<LifecycleEvent>, limits: bool, m: LifecycleEvent,
      r: map<Resource, nat>, name: Resource)
    requires Fits(q, members, limits, name) && name in r && name in Quantities(m.Kind(), limits)
    requires r[name] == Max(q[name], Quantities(m.Kind(), limits)[name])
    ensures Fits(r, members + [m], limits, name)
  {
    hide Quantities;
    assert m in members + [m] && forall x :: x in members ==> x in members + [m];
  }

  method DistinctScopeCount(members: seq<LifecycleEvent>) returns (n: nat)
    ensures n <= |members|
  {
    var seen: set<string> := {};
    for i := 0 to |members|
      invariant |seen| <= i
    {
      seen := seen + {members[i].scopeTag + "/" + members[i].scopeID};
    }
    return |seen|;
  }

  method WireDelivery(members: seq<LifecycleEvent>, ip: string) returns (wire: bool)
    ensures wire <==> ip != "" && members != [] && forall m :: m in members ==> m.acceptToken != ""
  {
    if ip == "" { return false; }
    for i := 0 to |members|
      invariant forall m :: m in members[..i] ==> m.acceptToken != ""
    {
      if members[i].acceptToken == "" { return false; }
    }
    return |members| > 0;
  }

  /** No pod is built for an empty group. */
  method BuildPerScopePeerPod(group: seq<LifecycleEvent>, ip: string) returns (pod: Option<PeerPod>)
    requires Separated(group, Before)
    ensures pod.None? <==> group == []
    ensures pod.Some? ==> Built(pod.value, group, ip)
  {
    if |group| == 0 {
      return None;
    }
    BeforeIsStrict();
    var members := Sort(group, Before);
    var dial := DialMember(members);
    var manifest := SortedKeys(members, Definition);
    var kinds := SortedKeys(members, KindOf);
    var pins := DigestPins(members);
    var stages := AdapterStages(members);
    var binaries := BinaryOverrides(members, stages);
    var resources := ContainerResources(members);
    var scopes := DistinctScopeCount(members);
    var wire := WireDelivery(members, ip);
    var built := PeerPod(dial, manifest, kinds, pins, stages, binaries, resources, |members| > 1
        || scopes > 1, wire, ip);
    assert Composed(built, members, ip);
    return Some(built);
  }

  // ---------------------------------------------------------------- one group, one pod

  /** Whatever order the members come in, the pod is the same. */
  lemma SameGroupSamePod(a: seq<LifecycleEvent>, b: seq<LifecycleEvent>, pa: PeerPod, pb: PeerPod, ip: string)
    ensures SameMembers(a, b) && Built(pa, a, ip) && Built(pb, b, ip) ==> pa == pb
  {
    hide Before, Composed, Sorted;
    if SameMembers(a, b) && Built(pa, a, ip) && Built(pb, b, ip) {
      var s :| Sorted(s, Before) && SameMembers(s, a) && Composed(pa, s, ip);
      var t :| Sorted(t, Before) && SameMembers(t, b) && Composed(pb, t, ip);
      BeforeIsStrict();
      SortedIsUnique(s, t, Before);
      ComposedIsUnique(pa, pb, s, ip);
    }
  }

  lemma ComposedIsUnique(pa: PeerPod, pb: PeerPod, s: seq<LifecycleEvent>, ip: string)
    ensures Composed(pa, s, ip) && Composed(pb, s, ip) ==> pa == pb
  {
    hide Dial, Pins, Binaries, Firsts, Staged, SizedFor, KeyIn, ListsKeys, StagesOf;
    if Composed(pa, s, ip) && Composed(pb, s, ip) {
      KeysAreUnique(pa.manifest, pb.manifest, s, Definition);
      KeysAreUnique(pa.kinds, pb.kinds, s, KindOf);
      StagesAreUnique(pa.stages, pb.stages, s);
      SizesAreUnique(pa.resources, pb.resources, s);
    }
  }

  lemma KeysAreUnique(a: seq<string>, b: seq<string>, s: seq<LifecycleEvent>, key: LifecycleEvent -> string)
    requires ListsKeys(a, s, key) && ListsKeys(b, s, key)
    ensures a == b
  {
    LessIsStrict();
    SortedIsUnique(a, b, Less);
  }

  lemma StagesAreUnique(a: seq<Stage>, b: seq<Stage>, s: seq<LifecycleEvent>)
    requires StagesOf(a, s) && StagesOf(b, s)
    ensures a == b
  {
    LessIsStrict();
    SortedIsUnique(a, b, StageBefore);
  }

  lemma SizesAreUnique(a: Resources, b: Resources, s: seq<LifecycleEvent>)
    requires SizedFor(a, s) && SizedFor(b, s)
    ensures a == b
  {
    hide Quantities;
    assert a.requests[Cpu] == b.requests[Cpu] && a.requests[Memory] == b.requests[Memory];
    assert a.limits[Cpu] == b.limits[Cpu] && a.limits[Memory] == b.limits[Memory];
    assert a.requests == b.requests && a.limits == b.limits;
  }

  /** The pod of an environment depends on which provisions are active and what the graph binds, on nothing else. */
  lemma PodIgnoresIterationOrder(
      p: seq<LifecycleEvent>, q: seq<LifecycleEvent>, defs: seq<GraphDef>,
      g: seq<LifecycleEvent>, h: seq<LifecycleEvent>, pod: PeerPod, pod': PeerPod, ip: string)
    ensures SameMembers(p, q) && IsGroup(g, p, defs) && IsGroup(h, q, defs)
            && Built(pod, g, ip) && Built(pod', h, ip) ==>
              pod == pod'
  {
    hide Built, Definition, Fill;
    if SameMembers(p, q) && IsGroup(g, p, defs) && IsGroup(h, q, defs) {
      forall m ensures m in g <==> m in h
      {
        assert IsFilled(m, p, defs) <==> IsFilled(m, q, defs);
        forall d: GraphDef ensures Unhosted(d, p) <==> Unhosted(d, q) {}
      }
      SameGroupSamePod(g, h, pod, pod', ip);
    }
  }

  /** The manifest names every definition the environment provisions or binds, and nothing else. */
  lemma ManifestIsComplete(pod: PeerPod, provisions: seq<LifecycleEvent>, defs: seq<GraphDef>,
      group: seq<LifecycleEvent>, ip: string, x: string)
    requires forall d :: d in defs ==> d.Bound()
    ensures Built(pod, group, ip) && IsGroup(group, provisions, defs) ==>
              (x in pod.manifest <==>
                 (exists p :: p in provisions && Definition(p) == x) || (exists d :: d in defs && d.Definition() == x))
  {
    if Built(pod, group, ip) && IsGroup(group, provisions, defs) {
      ManifestListsGroup(pod, group, ip, x);
      GroupDefinitions(group, provisions, defs, x);
    }
  }

  lemma GroupDefinitions(group: seq<LifecycleEvent>, provisions: seq<LifecycleEvent>, defs: seq<GraphDef>, x: string)
    requires IsGroup(group, provisions, defs) && forall d :: d in defs ==> d.Bound()
    ensures KeyIn(group, Definition, x)
        <==> (exists p :: p in provisions && Definition(p) == x) || (exists d :: d in defs && d.Definition() == x)
  {
    forall d | d in defs ensures Definition(d.Synthetic()) == d.Definition() { SyntheticDefinition(d); }
    hide Definition;
    if KeyIn(group, Definition, x) {
      var m :| m in group && Definition(m) == x;
      assert InGroup(m, provisions, defs);
      if IsFilled(m, provisions, defs) {
        var p :| p in provisions && m == Fill(p, defs);
        FillKeepsDefinition(p, defs);
      }
    }
    forall p | p in provisions ensures KeyIn(group, Definition, Definition(p))
    {
      FillKeepsDefinition(p, defs);
      assert IsFilled(Fill(p, defs), provisions, defs) && InGroup(Fill(p, defs), provisions, defs);
    }
    forall d | d in defs && Unhosted(d, provisions) ensures KeyIn(group, Definition, d.Definition())
    {
      assert InGroup(d.Synthetic(), provisions, defs);
    }
  }

  lemma FillKeepsDefinition(p: LifecycleEvent, defs: seq<GraphDef>)
    ensures Definition(Fill(p, defs)) == Definition(p)
  {
  }

  lemma ManifestListsGroup(pod: PeerPod, group: seq<LifecycleEvent>, ip: string, x: string)
    requires Built(pod, group, ip)
    ensures x in pod.manifest <==> KeyIn(group, Definition, x)
  {
    hide Dial, Pins, Binaries, Firsts, Staged, SizedFor, StagesOf, Definition;
    var s :| Sorted(s, Before) && SameMembers(s, group) && Composed(pod, s, ip);
  }

  /** A member made up from the graph never sets the dial address while a provision can. */
  lemma DialsARealProvision(pod: PeerPod, provisions: seq<LifecycleEvent>, defs: seq<GraphDef>,
      group: seq<LifecycleEvent>, ip: string)
    requires exists p :: p in provisions && HasDialIdentity(p)
    ensures Built(pod, group, ip) && IsGroup(group, provisions, defs) ==>
              exists p :: p in provisions && HasDialIdentity(p) && pod.dial == Fill(p, defs)
  {
    hide Pins, Binaries, Firsts, Staged, SizedFor, StagesOf, ListsKeys, Before, Sorted, Definition;
    if Built(pod, group, ip) && IsGroup(group, provisions, defs) {
      var s :| Sorted(s, Before) && SameMembers(s, group) && Composed(pod, s, ip);
      var p :| p in provisions && HasDialIdentity(p);
      assert HasDialIdentity(Fill(p, defs));
      assert IsFilled(Fill(p, defs), provisions, defs) && InGroup(Fill(p, defs), provisions, defs);
      assert HasDialIdentity(pod.dial) && pod.dial in group && InGroup(pod.dial, provisions, defs);
      assert forall d: GraphDef :: !HasDialIdentity(d.Synthetic());
    }
  }

  /** The pod is as large as its hungriest kind needs: copilots cost the most, shells as much at their limits. */
  lemma PodSize(pod: PeerPod, group: seq<LifecycleEvent>, ip: string)
    requires Built(pod, group, ip)
    ensures var copilot := exists m :: m in group && m.Kind() == "copilot";
            var shell := exists m :: m in group && m.Kind() == "shell";
            var r := pod.resources;
      && r.requests.Keys == {Cpu, Memory} == r.limits.Keys
      && r.requests[Memory] == (if copilot then 2048 else 512) && r.requests[Cpu] == (if copilot then 500 else 250)
      && r.limits[Memory] == (if copilot || shell then 8192 else 2048)
      && r.limits[Cpu] == (if copilot || shell then 2000 else 1000)
  {
    var s := SizedSeries(pod, group, ip);
    hide *;
    LargestAre(pod.resources, s);
    LargeIs(s, group);
  }

  lemma LargestAre(r: Resources, s: seq<LifecycleEvent>)
    requires s != [] && SizedFor(r, s)
    ensures var small, large := Large(s, false), Large(s, true);
      && r.requests.Keys == {Cpu, Memory} == r.limits.Keys
      && r.requests[Memory] == (if small then 2048 else 512) && r.requests[Cpu] == (if small then 500 else 250)
      && r.limits[Memory] == (if large then 8192 else 2048) && r.limits[Cpu] == (if large then 2000 else 1000)
  {
    hide Fits, Large;
    LargestIs(r.requests, s, false, Memory);
    LargestIs(r.requests, s, false, Cpu);
    LargestIs(r.limits, s, true, Memory);
    LargestIs(r.limits, s, true, Cpu);
  }

  lemma LargeIs(s: seq<LifecycleEvent>, group: seq<LifecycleEvent>)
    requires SameMembers(s, group)
    ensures Large(s, false) <==> exists m :: m in group && m.Kind() == "copilot"
    ensures Large(s, true) <==>
      (exists m :: m in group && m.Kind() == "copilot") || (exists m :: m in group && m.Kind() == "shell")
  {
    hide LifecycleEvent.Kind;
  }

  lemma SizedSeries(pod: PeerPod, group: seq<LifecycleEvent>, ip: string) returns (s: seq<LifecycleEvent>)
    requires Built(pod, group, ip)
    ensures SameMembers(s, group) && s != [] && SizedFor(pod.resources, s)
  {
    hide Pins, Binaries, Firsts, Staged, StagesOf, ListsKeys, Dial, Before, Sorted, Definition, SizedFor;
    s :| Sorted(s, Before) && SameMembers(s, group) && Composed(pod, s, ip);
  }

  /** Room for some copilot, or at the limits for some shell. */
  ghost predicate Large(s: seq<LifecycleEvent>, limits: bool) {
    exists m :: m in s && (m.Kind() == "copilot" || (limits && m.Kind() == "shell"))
  }

  function Quantity(limits: bool, name: Resource, large: bool): nat {
    match name
    case Cpu => if limits then (if large then 2000 else 1000) else if large then 500 else 250
    case Memory => if limits then (if large then 8192 else 2048) else if large then 2048 else 512
  }

  lemma QuantityOf(kind: string, limits: bool, name: Resource)
    ensures name in Quantities(kind, limits)
    ensures Quantities(kind, limits)[name]
         == Quantity(limits, name, kind == "copilot" || (limits && kind == "shell"))
  {
    assert "copilot"[0] != "shell"[0];
  }

  lemma LargestIs(q: map<Resource, nat>, s: seq<LifecycleEvent>, limits: bool, name: Resource)
    requires s != [] && Fits(q, s, limits, name)
    ensures name in q && q[name] == Quantity(limits, name, Large(s, limits))
  {
    forall m | m in s
      ensures name in Quantities(m.Kind(), limits)
      ensures Quantities(m.Kind(), limits)[name]
           == Quantity(limits, name, m.Kind() == "copilot" || (limits && m.Kind() == "shell"))
    {
      QuantityOf(m.Kind(), limits, name);
    }
    hide Quantities;
    assert s[0] in s;
  }

  /** Of the members that can be dialled the pod dials the one with the smallest key, kind and name. */
  lemma DialsTheFirst(pod: PeerPod, group: seq<LifecycleEvent>, ip: string, o: LifecycleEvent)
    requires Built(pod, group, ip) && o in group && (o.tokenFile != "" || o.acceptToken != "" || o.shimAddress != "")
    ensures var d := pod.dial;
      && d in group && (d.tokenFile != "" || d.acceptToken != "" || d.shimAddress != "")
      && (d == o || Less(d.adapterName + "/" + d.scopeID, o.adapterName + "/" + o.scopeID)
          || (d.adapterName + "/" + d.scopeID == o.adapterName + "/" + o.scopeID
              && (Less(d.Kind(), o.Kind()) || (d.Kind() == o.Kind() && Less(d.adapterName, o.adapterName)))))
  {
    hide Pins, Binaries, Firsts, Staged, StagesOf, ListsKeys, SizedFor, Definition;
    var s: seq<LifecycleEvent> :| Sorted(s, Before) && SameMembers(s, group) && Composed(pod, s, ip);
    assert o in s && HasDialIdentity(o);
    var j :| 0 <= j < |s| && s[j] == o;
    var i := FirstDialled(s, j);
  }

  lemma FirstDialled(s: seq<LifecycleEvent>, j: nat) returns (i: nat)
    requires j < |s| && HasDialIdentity(s[j])
    ensures i <= j && HasDialIdentity(s[i]) && Dial(s) == s[i]
  {
    i := 0;
    while !HasDialIdentity(s[i])
      invariant i <= j && forall k :: 0 <= k < i ==> !HasDialIdentity(s[k])
      decreases j - i
    {
      i := i + 1;
    }
    DialAt(s, i);
  }

  /** The member comes before every other of its kind. */
  ghost predicate Decides(m: LifecycleEvent, group: seq<LifecycleEvent>) {
    forall o :: o in group && o != m && o.Kind() == m.Kind() ==>
      Less(m.ScopeKey(), o.ScopeKey()) || (m.ScopeKey() == o.ScopeKey() && Less(m.adapterName, o.adapterName))
  }

  /** A kind is staged as the member that decides it says. */
  lemma DecidedStage(pod: PeerPod, group: seq<LifecycleEvent>, ip: string, m: LifecycleEvent)
    requires Built(pod, group, ip) && m in group && Decides(m, group)
    ensures Stage(m.Kind(), PullRef(m)) in pod.stages
  {
    hide Pins, Binaries, Firsts, Staged, SizedFor, ListsKeys, Dial, PullRef;
    var s: seq<LifecycleEvent> :| Sorted(s, Before) && SameMembers(s, group) && Composed(pod, s, ip);
    assert m in s;
    var i :| 0 <= i < |s| && s[i] == m;
    forall j | 0 <= j < i ensures KindOf(s[j]) != KindOf(m)
    {
      assert s[j] in s && Before(s[j], m);
      LessTotal(m.ScopeKey(), s[j].ScopeKey());
      LessTotal(m.adapterName, s[j].adapterName);
      BeforeIsStrict();
    }
    FirstDecides(s, KindOf, i);
  }

  /** A provision with a digest but no reference is pulled from where the graph says: when it decides its kind, the
      staging script reads the first supplying definition's repository and the provision's own digest. */
  lemma GraphSuppliesTheLocation(pod: PeerPod, provisions: seq<LifecycleEvent>, defs: seq<GraphDef>,
      group: seq<LifecycleEvent>, ip: string, p: LifecycleEvent, i: nat) returns (t: Stage)
    requires Built(pod, group, ip) && IsGroup(group, provisions, defs) && p in provisions
    requires p.digest != "" && p.imageReference == "" && IsDigest(Qualified(p.digest))
    requires i < |defs| && Supplies(defs[i], p) && forall j :: 0 <= j < i ==> !Supplies(defs[j], p)
    requires IsRepo(PullRepo(defs[i].source)) && Decides(p.(imageReference := defs[i].source), group)
    ensures t in pod.stages && t.kind == p.Kind() && t.pullRef.Some?
    ensures SplitAtFirst(t.pullRef.value) == Some((PullRepo(defs[i].source), Qualified(p.digest)))
  {
    var m := p.(imageReference := defs[i].source);
    hide Built, Decides, IsRepo, IsDigest, PullRepo, Qualified, SplitAtFirst, Supplies;
    FillTakesTheFirstSource(p, defs);
    assert m == Fill(p, defs) && IsFilled(m, provisions, defs) && InGroup(m, provisions, defs);
    DecidedStage(pod, group, ip, m);
    t := Stage(m.Kind(), PullRef(m));
    SplitReturnsWhatWasValidated(m);
  }

  lemma {:induction false} BinariesAt(f: seq<LifecycleEvent>, staged: set<string>, multi: bool)
    ensures var b := Binaries(f, staged, multi);
            |b| == |f| && forall i :: 0 <= i < |f| ==>
              b[i].0 == Definition(f[i]) && (b[i].1 == BinaryPath(f[i].Kind()) || !(f[i].Kind() in staged || multi))
  {
    hide BinaryPath, Definition;
    if f != [] {
      BinariesAt(f[..|f| - 1], staged, multi);
      assert forall i :: 0 <= i < |f| - 1 ==> f[..|f| - 1][i] == f[i];
    }
  }

  lemma {:induction false} PinsAt(f: seq<LifecycleEvent>, d: string, v: string)
    ensures (d, v) in Pins(f) <==> exists m ::
        m in f && m.digest != "" && Definition(m) == d && Qualified(m.digest) == v
  {
    if f != [] {
      assert f == f[..|f| - 1] + [f[|f| - 1]];
      PinsAt(f[..|f| - 1], d, v);
    }
  }

  lemma BuiltSeries(pod: PeerPod, group: seq<LifecycleEvent>, ip: string) returns (s: seq<LifecycleEvent>)
    requires Built(pod, group, ip)
    ensures SameMembers(s, group) && pod.pins == Pins(Firsts(s, Definition)) && ListsKeys(pod.manifest, s, Definition)
    ensures pod.binaries == Binaries(Firsts(s, Definition), Staged(pod.stages), |pod.stages| > 1)
  {
    hide Pins, Binaries, Firsts, Staged, SizedFor, StagesOf, Definition, Before, Dial, Sorted, ListsKeys;
    s :| Sorted(s, Before) && SameMembers(s, group) && Composed(pod, s, ip);
  }

  /** Each hosted definition gets exactly one binary. */
  lemma EveryDefinitionHasOneBinary(pod: PeerPod, group: seq<LifecycleEvent>, ip: string)
    requires Built(pod, group, ip)
    ensures forall i, j :: 0 <= i < j < |pod.binaries| ==> pod.binaries[i].0 != pod.binaries[j].0
    ensures forall x :: x in pod.manifest <==> exists i :: 0 <= i < |pod.binaries| && pod.binaries[i].0 == x
  {
    hide Binaries, Definition, Built, Staged;
    var s := BuiltSeries(pod, group, ip);
    var f := Firsts(s, Definition);
    FirstsRepresent(s, Definition);
    BinariesAt(f, Staged(pod.stages), |pod.stages| > 1);
    forall x | x in pod.manifest ensures exists i :: 0 <= i < |pod.binaries| && pod.binaries[i].0 == x
    {
      var m :| m in s && Definition(m) == x;
      assert KeyIn(f, Definition, Definition(m));
      var i :| 0 <= i < |f| && Definition(f[i]) == x;
      assert pod.binaries[i].0 == x;
    }
    forall i | 0 <= i < |pod.binaries| ensures pod.binaries[i].0 in pod.manifest
    {
      assert f[i] in s && KeyIn(s, Definition, Definition(f[i]));
    }
  }

  /** No definition is pinned to two digests, and every pin is the digest of a member of that definition. */
  lemma PinsAreConsistent(pod: PeerPod, group: seq<LifecycleEvent>, ip: string, d: string, v: string, w: string)
    requires Built(pod, group, ip) && (d, v) in pod.pins && (d, w) in pod.pins
    ensures v == w && exists m :: m in group && Definition(m) == d && m.digest != "" && Qualified(m.digest) == v
  {
    hide Pins, Definition, Built, Qualified, Firsts;
    var s := BuiltSeries(pod, group, ip);
    FirstsRepresent(s, Definition);
    PinsAt(Firsts(s, Definition), d, v);
    PinsAt(Firsts(s, Definition), d, w);
  }
}
