/** Adapter lifecycle events and the fold that says which provisions are still active. */
module Events {
  import opened Common

  datatype EventKind = ProvisionWanted | Released

  datatype LifecycleEvent = LifecycleEvent(
    event: EventKind, scopeID: string, scopeTag: string, adapterName: string, adapterType: string,
    digest: string, imageReference: string, shimAddress: string, tokenFile: string,
    acceptToken: string, environment: string)
  {
    /** The key a provision and its release meet on. */
    function ScopeKey(): string {
      adapterName + "/" + scopeID
    }

    /** The typed kind, or the adapter node name for engines that emit no type. */
    function Kind(): string {
      if adapterType != "" then adapterType else adapterName
    }
  }

  /** The co-location identity; empty only when the event carries neither half. */
  function EnvironmentIdentity(envType: string, envName: string): (id: string)
    ensures id == "" <==> envType == "" && envName == ""
  {
    if envType == "" && envName == "" then "" else envType + "/" + envName
  }

  /** Provisions not yet released by a later event with the same key. */
  function Active(events: seq<LifecycleEvent>): (m: map<string, LifecycleEvent>)
    ensures forall k :: k in m ==> m[k].ScopeKey() == k && m[k].event == ProvisionWanted && m[k] in events
    decreases |events|
  {
    if events == [] then map[]
    else
      var m := Active(events[..|events| - 1]);
      var e := events[|events| - 1];
      match e.event
      case ProvisionWanted => m[e.ScopeKey() := e]
      case Released => m - {e.ScopeKey()}
  }

  method ActiveProvisions(events: seq<LifecycleEvent>) returns (out: seq<LifecycleEvent>)
    ensures NoDup(out) && |out| == |Active(events)|
    ensures forall e :: e in out <==> e in Active(events).Values
  {
    var active: map<string, LifecycleEvent> := map[];
    for i := 0 to |events|
      invariant active == Active(events[..i])
    {
      assert events[..i + 1][..i] == events[..i];
      var key := events[i].ScopeKey();
      match events[i].event
      case ProvisionWanted => active := active[key := events[i]];
      case Released => active := active - {key};
    }
    assert events[..|events|] == events;
    out := [];
    var todo := active.Keys;
    while todo != {}
      invariant todo <= active.Keys
      invariant forall e :: e in out <==> exists k :: k in active && k !in todo && active[k] == e
      invariant NoDup(out) && |out| + |todo| == |active|
      decreases todo
    {
      var k :| k in todo;
      assert active[k] !in out;
      out := out + [active[k]];
      todo := todo - {k};
    }
  }

  // ---------------------------------------------------------------- keys and scopes

  predicate NoSlash(s: string) {
    '/' !in s
  }

  /** The last event of a scope, if any. */
  function LastOf(events: seq<LifecycleEvent>, s: string): (r: Option<LifecycleEvent>)
    ensures r.Some? ==> r.value in events && r.value.scopeID == s
    ensures r.None? <==> forall e :: e in events ==> e.scopeID != s
    decreases |events|
  {
    if events == [] then None
    else if events[|events| - 1].scopeID == s then Some(events[|events| - 1])
    else LastOf(events[..|events| - 1], s)
  }

  lemma {:induction false} LastOfConcat(a: seq<LifecycleEvent>, b: seq<LifecycleEvent>, s: string)
    ensures LastOf(a + b, s) == if LastOf(b, s).Some? then LastOf(b, s) else LastOf(a, s)
    decreases |b|
  {
    if b == [] {
      assert a + b == a;
    } else {
      assert (a + b)[..|a + b| - 1] == a + b[..|b| - 1];
      LastOfConcat(a, b[..|b| - 1], s);
    }
  }
}
