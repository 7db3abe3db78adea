/** The castle observation client: an incremental fold of a run's event stream that may be
    interrupted between pages and replayed from the last stored cursor. */
module Castle {
  import opened Common
  import opened Events

  datatype Terminal = Terminal(success: bool, finalState: string, reason: string, at: Option<int>)

  datatype StepRecord = StepRecord(name: string, outcome: string)

  datatype Payload =
    | RunStarted | StepEntered | StepOutcome(step: StepRecord) | StepTransition | StepLog | StepResumed
    | StepOutputCaptured | VariableSet | WaitEntered | WaitResumed | ApprovalRequested | ApprovalDecision
    | BranchEvaluated | ForEachEntered | StepIterationStarted | StepIterationItem | StepIterationCompleted
    | ScopeIterCursorSet | WatchReady
    | AdapterEvent(kind: string, data: LifecycleEvent)
    | RunCompleted(ok: bool, finalState: string)
    | RunFailed(reason: string)
    | WorkflowGraphs(raw: string)
    | Heartbeat

  /** An envelope with its sequence number and optional wire time. */
  datatype Envelope = Envelope(sequence: nat, ts: Option<int>, payload: Payload)

  const PAGE_SIZE := 200
  const MAX_PAGES := 50
  const MAX_STEPS := 256

  const KIND_PROVISION := "adapter.lifecycle.provision_wanted"
  const KIND_RELEASED := "adapter.lifecycle.released"

  // ---------------------------------------------------------------- reading one envelope

  predicate ActivityKind(kind: string) {
    || kind == "agent.message" || kind == "tool.invocation" || kind == "tool.result"
    || kind == "permission.request" || kind == "limit.reached" || kind == "outcome.finalized"
  }

  predicate IsProgress(p: Payload) {
    match p
    case AdapterEvent(kind, _) => ActivityKind(kind)
    case RunCompleted(_, _) => false
    case RunFailed(_) => false
    case WorkflowGraphs(_) => false
    case Heartbeat => false
    case _ => true
  }

  function LifecycleOf(env: Envelope): Option<LifecycleEvent> {
    match env.payload
    case AdapterEvent(kind, data) =>
      if data.adapterName == "" then None
      else if kind == KIND_PROVISION then Some(data.(event := ProvisionWanted))
      else if kind == KIND_RELEASED then Some(data.(event := Released))
      else None
    case _ => None
  }

  function TerminalOf(env: Envelope): Option<Terminal> {
    match env.payload
    case RunCompleted(ok, fs) => Some(Terminal(ok, fs, "", env.ts))
    case RunFailed(reason) => Some(Terminal(false, "", reason, env.ts))
    case _ => None
  }

  predicate After(t: int, than: Option<int>) {
    than.None? || t > than.value
  }

  function Later(progress: Option<int>, env: Envelope): Option<int> {
    if IsProgress(env.payload) && env.ts.Some? && After(env.ts.value, progress) then env.ts else progress
  }

  /** Scope provisioning bookkeeping and terminal envelopes never count as step progress. */
  lemma BookkeepingIsNoProgress(env: Envelope, progress: Option<int>)
    requires LifecycleOf(env).Some? || TerminalOf(env).Some? || env.payload.Heartbeat?
    ensures Later(progress, env) == progress
  {
    if env.payload.AdapterEvent? {
      assert KIND_PROVISION[1] == 'd' && KIND_RELEASED[1] == 'd';
      assert "agent.message"[1] == 'g' && "tool.invocation"[1] == 'o' && "tool.result"[1] == 'o';
      assert "permission.request"[1] == 'e' && "limit.reached"[1] == 'i' && "outcome.finalized"[1] == 'u';
    }
  }

  // ---------------------------------------------------------------- the per-run fold

  datatype RunState = RunState(
    scopes: map<string, string>, lifecycle: seq<LifecycleEvent>, terminal: Option<Terminal>, steps: seq<StepRecord>)

  const FRESH := RunState(map[], [], None, [])

  /** A release reports the shim's registration name; it is keyed to the scope's provisioned adapter. */
  function ResolveRelease(scopes: map<string, string>, e: LifecycleEvent): LifecycleEvent {
    if e.event == Released && e.scopeID in scopes && scopes[e.scopeID] != "" && scopes[e.scopeID] != e.adapterName
    then e.(adapterName := scopes[e.scopeID]) else e
  }

  function Consume(st: RunState, env: Envelope): RunState {
    var terminal := if TerminalOf(env).Some? then TerminalOf(env) else st.terminal;
    var steps := if env.payload.StepOutcome? && |st.steps| < MAX_STEPS then st.steps + [env.payload.step] else st.steps;
    match LifecycleOf(env)
    case None => st.(terminal := terminal, steps := steps)
    case Some(e) =>
      var e' := ResolveRelease(st.scopes, e);
      RunState(if e'.event == ProvisionWanted then st.scopes[e'.scopeID := e'.adapterName] else st.scopes,
               st.lifecycle + [e'], terminal, steps)
  }

  function ConsumeAll(st: RunState, envs: seq<Envelope>): RunState
    decreases |envs|
  {
    if envs == [] then st else Consume(ConsumeAll(st, envs[..|envs| - 1]), envs[|envs| - 1])
  }

  lemma {:induction false} ConsumeConcat(st: RunState, a: seq<Envelope>, b: seq<Envelope>)
    ensures ConsumeAll(st, a + b) == ConsumeAll(ConsumeAll(st, a), b)
    decreases |b|
  {
    if b == [] {
      assert a + b == a;
    } else {
      assert (a + b)[..|a + b| - 1] == a + b[..|b| - 1];
      ConsumeConcat(st, a, b[..|b| - 1]);
    }
  }

  /** The raw lifecycle events of a stretch of the stream, before any name is resolved. */
  function Raw(envs: seq<Envelope>): seq<LifecycleEvent>
    decreases |envs|
  {
    if envs == [] then []
    else
      var init := Raw(envs[..|envs| - 1]);
      match LifecycleOf(envs[|envs| - 1])
      case None => init
      case Some(e) => init + [e]
  }

  lemma {:induction false} RawConcat(a: seq<Envelope>, b: seq<Envelope>)
    ensures Raw(a + b) == Raw(a) + Raw(b)
    decreases |b|
  {
    if b == [] {
      assert a + b == a;
    } else {
      assert (a + b)[..|a + b| - 1] == a + b[..|b| - 1];
      RawConcat(a, b[..|b| - 1]);
    }
  }

  lemma {:induction false} RawMembers(envs: seq<Envelope>, e: LifecycleEvent)
    ensures e in Raw(envs) <==> exists env :: env in envs && LifecycleOf(env) == Some(e)
    decreases |envs|
  {
    if envs != [] {
      RawMembers(envs[..|envs| - 1], e);
      assert forall env :: env in envs <==> env in envs[..|envs| - 1] || env == envs[|envs| - 1];
    }
  }

  function LastTerminal(envs: seq<Envelope>): Option<Terminal>
    decreases |envs|
  {
    if envs == [] then None
    else if TerminalOf(envs[|envs| - 1]).Some? then TerminalOf(envs[|envs| - 1])
    else LastTerminal(envs[..|envs| - 1])
  }

  lemma {:induction false} LastTerminalConcat(a: seq<Envelope>, b: seq<Envelope>)
    ensures LastTerminal(a + b) == if LastTerminal(b).Some? then LastTerminal(b) else LastTerminal(a)
    decreases |b|
  {
    if b == [] {
      assert a + b == a;
    } else {
      assert (a + b)[..|a + b| - 1] == a + b[..|b| - 1];
      LastTerminalConcat(a, b[..|b| - 1]);
    }
  }

  // ---------------------------------------------------------------- what the payloads themselves say

  predicate Ends(p: Payload) {
    p.RunCompleted? || p.RunFailed?
  }

  /** The ends of a run, graphs, heartbeats and adapter events without activity are no progress; all else is. */
  lemma ProgressIsStepActivity(p: Payload)
    ensures IsProgress(p) <==> !Ends(p) && !p.WorkflowGraphs? && !p.Heartbeat? && (p.AdapterEvent? ==>
      p.kind in {"agent.message", "tool.invocation", "tool.result", "permission.request", "limit.reached",
                 "outcome.finalized"})
  {
    if p.AdapterEvent? && ActivityKind(p.kind) { assert p.kind[1] in {'g', 'o', 'e', 'i', 'u'}; }
  }

  /** The last envelope that ends the run. */
  ghost predicate LastEnd(envs: seq<Envelope>, i: nat) {
    i < |envs| && Ends(envs[i].payload) && forall j :: i < j < |envs| ==> !Ends(envs[j].payload)
  }

  /** t says what the envelope says, field by field: a success exactly for a successful completion. */
  ghost predicate RepeatsEnd(t: Terminal, env: Envelope) {
    var p := env.payload;
    && t.at == env.ts && (t.success <==> p.RunCompleted? && p.ok)
    && t.finalState == (if p.RunCompleted? then p.finalState else "")
    && t.reason == (if p.RunFailed? then p.reason else "")
  }

  /** t repeats the last envelope that ends the run; there is none exactly when t is None. */
  ghost predicate RepeatsLastEnd(t: Option<Terminal>, envs: seq<Envelope>) {
    && (t.Some? <==> exists i :: 0 <= i < |envs| && Ends(envs[i].payload))
    && forall i: nat :: LastEnd(envs, i) ==> t.Some? && RepeatsEnd(t.value, envs[i])
  }

  lemma LastSuch(envs: seq<Envelope>, such: Envelope -> bool) returns (i: nat)
    requires exists j :: 0 <= j < |envs| && such(envs[j])
    ensures i < |envs| && such(envs[i]) && forall j :: i < j < |envs| ==> !such(envs[j])
  {
    var j :| 0 <= j < |envs| && such(envs[j]);
    i := |envs| - 1;
    while !such(envs[i])
      invariant j <= i < |envs| && forall l :: i < l < |envs| ==> !such(envs[l])
      decreases i
    {
      i := i - 1;
    }
  }

  lemma {:induction false} TerminalAtLastEnd(envs: seq<Envelope>, i: nat)
    requires LastEnd(envs, i)
    ensures LastTerminal(envs) == TerminalOf(envs[i]) && LastTerminal(envs).Some?
    ensures RepeatsEnd(LastTerminal(envs).value, envs[i])
    decreases |envs|
  {
    if i < |envs| - 1 { TerminalAtLastEnd(envs[..|envs| - 1], i); }
  }

  lemma {:induction false} NoEndNoTerminal(envs: seq<Envelope>)
    requires forall j :: 0 <= j < |envs| ==> !Ends(envs[j].payload)
    ensures LastTerminal(envs).None?
    decreases |envs|
  {
    if envs != [] { NoEndNoTerminal(envs[..|envs| - 1]); }
  }

  lemma LastTerminalRepeats(envs: seq<Envelope>)
    ensures RepeatsLastEnd(LastTerminal(envs), envs)
  {
    forall i: nat | LastEnd(envs, i)
      ensures LastTerminal(envs).Some? && RepeatsEnd(LastTerminal(envs).value, envs[i])
    {
      TerminalAtLastEnd(envs, i);
    }
    hide LastTerminal, RepeatsEnd, Ends;
    if exists j :: 0 <= j < |envs| && Ends(envs[j].payload) {
      var i := LastSuch(envs, (env: Envelope) => Ends(env.payload));
      assert LastEnd(envs, i);
    } else {
      NoEndNoTerminal(envs);
    }
  }

  /** An adapter event that names an adapter and provisions or releases this scope. */
  predicate Concerns(env: Envelope, scope: string) {
    && env.payload.AdapterEvent? && env.payload.kind in {KIND_PROVISION, KIND_RELEASED}
    && env.payload.data.adapterName != "" && env.payload.data.scopeID == scope
  }

  /** The last envelope that concerns the scope. */
  ghost predicate LastWord(envs: seq<Envelope>, i: nat, scope: string) {
    i < |envs| && Concerns(envs[i], scope) && forall j :: i < j < |envs| ==> !Concerns(envs[j], scope)
  }

  lemma ConcernsIsRaw(env: Envelope, scope: string)
    ensures Concerns(env, scope) <==> LifecycleOf(env).Some? && LifecycleOf(env).value.scopeID == scope
    ensures Concerns(env, scope) ==>
      env.payload.AdapterEvent? && LifecycleOf(env).value == env.payload.data.(
        event := if env.payload.kind == KIND_PROVISION then ProvisionWanted else Released)
  {
  }

  lemma {:induction false} RawAtLastWord(envs: seq<Envelope>, i: nat, scope: string)
    requires LastWord(envs, i, scope)
    ensures LastOf(Raw(envs), scope) == LifecycleOf(envs[i])
    decreases |envs|
  {
    var init, last := envs[..|envs| - 1], envs[|envs| - 1];
    ConcernsIsRaw(last, scope);
    hide Concerns, LifecycleOf;
    if LifecycleOf(last).Some? { LastStep(Raw(init), LifecycleOf(last).value); }
    if i < |init| { RawAtLastWord(init, i, scope); }
  }

  predicate Provisions(env: Envelope) {
    env.payload.AdapterEvent? && env.payload.kind == KIND_PROVISION
  }

  /** The event is the last word on its scope, and that is a provision. */
  ghost predicate ProvisionedBy(e: LifecycleEvent, envs: seq<Envelope>) {
    exists i: nat ::
      LastWord(envs, i, e.scopeID) && Provisions(envs[i]) && e == envs[i].payload.data.(event := ProvisionWanted)
  }

  /** An active set that agrees with the raw events: its scopes are those whose last envelope provisions them, each
      with the data that envelope carries. */
  ghost predicate ActiveAsTold(active: map<string, LifecycleEvent>, envs: seq<Envelope>) {
    && (forall k :: k in active ==> ProvisionedBy(active[k], envs))
    && (forall i: nat, scope :: LastWord(envs, i, scope) && Provisions(envs[i]) ==>
          exists k :: k in active && active[k].scopeID == scope)
  }

  lemma FaithfulIsAsTold(active: map<string, LifecycleEvent>, envs: seq<Envelope>)
    requires Faithful(active, Raw(envs)) && forall k :: k in active ==> active[k].event == ProvisionWanted
    ensures ActiveAsTold(active, envs)
  {
    hide Raw, LastOf, LifecycleEvent.ScopeKey, LifecycleOf, Concerns;
    forall k | k in active ensures ProvisionedBy(active[k], envs)
    {
      var scope := active[k].scopeID;
      RawMembers(envs, active[k]);
      var env :| env in envs && LifecycleOf(env) == Some(active[k]);
      ConcernsIsRaw(env, scope);
      var i := LastSuch(envs, (env: Envelope) => Concerns(env, scope));
      ConcernsIsRaw(envs[i], scope);
      RawAtLastWord(envs, i, scope);
      assert LastWord(envs, i, scope);
    }
    forall i: nat, scope | LastWord(envs, i, scope) && Provisions(envs[i])
      ensures exists k :: k in active && active[k].scopeID == scope
    {
      ConcernsIsRaw(envs[i], scope);
      RawAtLastWord(envs, i, scope);
    }
  }

  /** The newest step-progress time of a stretch, starting from an earlier one. */
  function Progress(start: Option<int>, envs: seq<Envelope>): Option<int>
    decreases |envs|
  {
    if envs == [] then start else Later(Progress(start, envs[..|envs| - 1]), envs[|envs| - 1])
  }

  lemma {:induction false} ProgressConcat(start: Option<int>, a: seq<Envelope>, b: seq<Envelope>)
    ensures Progress(start, a + b) == Progress(Progress(start, a), b)
    decreases |b|
  {
    if b == [] {
      assert a + b == a;
    } else {
      assert (a + b)[..|a + b| - 1] == a + b[..|b| - 1];
      ProgressConcat(start, a, b[..|b| - 1]);
    }
  }

  /** Progress is the maximum over the progress envelopes, attained by one of them. */
  lemma {:induction false} ProgressIsMaximum(envs: seq<Envelope>)
    ensures forall e :: e in envs && IsProgress(e.payload) && e.ts.Some? ==>
        Progress(None, envs).Some? && e.ts.value <= Progress(None, envs).value
    ensures Progress(None, envs).Some? ==>
        exists e :: e in envs && IsProgress(e.payload) && e.ts == Progress(None, envs)
    decreases |envs|
  {
    if envs != [] {
      ProgressIsMaximum(envs[..|envs| - 1]);
      assert forall e :: e in envs ==> e in envs[..|envs| - 1] || e == envs[|envs| - 1];
    }
  }

  // ---------------------------------------------------------------- what the fold means

  /** Each scope instance is provisioned by one adapter, under a name. */
  ghost predicate OneAdapterPerScope(raw: seq<LifecycleEvent>) {
    && (forall a, b :: a in raw && b in raw && a.event == b.event == ProvisionWanted && a.scopeID == b.scopeID ==>
          a.adapterName == b.adapterName)
    && (forall e :: e in raw ==> e.adapterName != "")
  }

  /** The active set holds exactly the scopes whose last raw event is a provision. */
  ghost predicate Faithful(active: map<string, LifecycleEvent>, raw: seq<LifecycleEvent>) {
    && (forall k :: k in active ==> LastOf(raw, active[k].scopeID) == Some(active[k]))
    && (forall s :: LastOf(raw, s).Some? && LastOf(raw, s).value.event == ProvisionWanted ==>
          LastOf(raw, s).value.ScopeKey() in active
          && active[LastOf(raw, s).value.ScopeKey()] == LastOf(raw, s).value)
  }

  ghost predicate ScopesOf(scopes: map<string, string>, raw: seq<LifecycleEvent>) {
    && (forall e :: e in raw && e.event == ProvisionWanted ==>
          e.scopeID in scopes && scopes[e.scopeID] == e.adapterName)
    && (forall s :: s in scopes ==> exists e :: e in raw && e.event == ProvisionWanted && e.scopeID == s)
  }

  /** The key the event acts on is not held by another scope's active provision. */
  ghost predicate Undisturbed(st: RunState, e: LifecycleEvent) {
    var active, k := Active(st.lifecycle), ResolveRelease(st.scopes, e).ScopeKey();
    k in active ==> active[k].scopeID == e.scopeID
  }

  /** A release acts on the key of its own scope's provision, and so does a later provision. */
  lemma ScopeKeepsItsKey(st: RunState, raw: seq<LifecycleEvent>, e: LifecycleEvent, p: LifecycleEvent)
    requires OneAdapterPerScope(raw + [e]) && ScopesOf(st.scopes, raw)
    requires p in raw && p.event == ProvisionWanted && p.scopeID == e.scopeID
    ensures ResolveRelease(st.scopes, e).ScopeKey() == p.ScopeKey()
  {
    assert p in raw + [e] && e in raw + [e];
  }

  lemma ActiveStep(history: seq<LifecycleEvent>, e: LifecycleEvent)
    ensures Active(history + [e]) ==
      if e.event == ProvisionWanted then Active(history)[e.ScopeKey() := e] else Active(history) - {e.ScopeKey()}
  {
    assert (history + [e])[..|history|] == history;
  }

  lemma LastStep(raw: seq<LifecycleEvent>, e: LifecycleEvent)
    ensures forall s :: LastOf(raw + [e], s) == if e.scopeID == s then Some(e) else LastOf(raw, s)
  {
    assert (raw + [e])[..|raw|] == raw;
  }

  lemma ResolveKeeps(scopes: map<string, string>, e: LifecycleEvent)
    ensures var e' := ResolveRelease(scopes, e);
            e'.event == e.event && e'.scopeID == e.scopeID && (e.event == ProvisionWanted ==> e' == e)
  {
  }

  /** An event keeps the active set faithful exactly when its key is not another scope's. */
  lemma FaithfulStepIff(st: RunState, raw: seq<LifecycleEvent>, e: LifecycleEvent)
    requires OneAdapterPerScope(raw + [e])
    requires ScopesOf(st.scopes, raw) && Faithful(Active(st.lifecycle), raw)
    ensures Faithful(Active(st.lifecycle + [ResolveRelease(st.scopes, e)]), raw + [e]) <==> Undisturbed(st, e)
  {
    hide OneAdapterPerScope, ScopesOf, LifecycleEvent.ScopeKey, Active, LastOf, ResolveRelease;
    var e' := ResolveRelease(st.scopes, e);
    ResolveKeeps(st.scopes, e);
    ActiveStep(st.lifecycle, e');
    LastStep(raw, e);
    var before, active, raw' := Active(st.lifecycle), Active(st.lifecycle + [e']), raw + [e];
    if Undisturbed(st, e) {
      forall k | k in active && k != e'.ScopeKey() ensures LastOf(raw', active[k].scopeID) == Some(active[k])
      {
        if before[k].scopeID == e.scopeID { ScopeKeepsItsKey(st, raw, e, before[k]); }
      }
    } else {
      var p := before[e'.ScopeKey()];
      assert LastOf(raw', p.scopeID) == Some(p);
    }
  }

  lemma ScopesStep(st: RunState, raw: seq<LifecycleEvent>, env: Envelope)
    requires ScopesOf(st.scopes, raw)
    requires LifecycleOf(env).Some? ==> OneAdapterPerScope(raw + [LifecycleOf(env).value])
    ensures ScopesOf(Consume(st, env).scopes, if LifecycleOf(env).Some? then raw + [LifecycleOf(env).value] else raw)
  {
    hide LifecycleOf, TerminalOf, LifecycleEvent.ScopeKey;
    if LifecycleOf(env).Some? {
      var e := LifecycleOf(env).value;
      var raw' := raw + [e];
      assert e in raw' && forall x :: x in raw ==> x in raw';
      var scopes' := Consume(st, env).scopes;
      forall s | s in scopes' ensures exists x :: x in raw' && x.event == ProvisionWanted && x.scopeID == s
      {
        if s in st.scopes {
          var x :| x in raw && x.event == ProvisionWanted && x.scopeID == s;
          assert x in raw';
        } else {
          assert e.scopeID == s;
        }
      }
    }
  }

  ghost predicate FaithfulAt(envs: seq<Envelope>, i: nat)
    requires i <= |envs|
  {
    Faithful(Active(ConsumeAll(FRESH, envs[..i]).lifecycle), Raw(envs[..i]))
  }

  ghost predicate UndisturbedAt(envs: seq<Envelope>, i: nat)
    requires i < |envs|
  {
    LifecycleOf(envs[i]).Some? ==> Undisturbed(ConsumeAll(FRESH, envs[..i]), LifecycleOf(envs[i]).value)
  }

  /** No event of the sequence acts on a key that another scope's active provision holds. */
  ghost predicate NoClash(envs: seq<Envelope>) {
    forall i :: 0 <= i < |envs| ==> UndisturbedAt(envs, i)
  }

  lemma {:induction false} ScopesAreRecorded(envs: seq<Envelope>)
    requires OneAdapterPerScope(Raw(envs))
    ensures ScopesOf(ConsumeAll(FRESH, envs).scopes, Raw(envs))
    decreases |envs|
  {
    if envs != [] {
      var init := envs[..|envs| - 1];
      assert forall e :: e in Raw(init) ==> e in Raw(envs);
      ScopesAreRecorded(init);
      ScopesStep(ConsumeAll(FRESH, init), Raw(init), envs[|envs| - 1]);
    }
  }

  lemma FaithfulStepAt(envs: seq<Envelope>, i: nat)
    requires i < |envs| && OneAdapterPerScope(Raw(envs[..i + 1])) && FaithfulAt(envs, i)
    ensures FaithfulAt(envs, i + 1) <==> UndisturbedAt(envs, i)
  {
    hide Faithful, Undisturbed, Active, LifecycleOf, TerminalOf, ScopesOf;
    var init, next := envs[..i], envs[..i + 1];
    assert next[..i] == init && next[i] == envs[i];
    assert forall e :: e in Raw(init) ==> e in Raw(next);
    ScopesAreRecorded(init);
    if LifecycleOf(envs[i]).Some? {
      FaithfulStepIff(ConsumeAll(FRESH, init), Raw(init), LifecycleOf(envs[i]).value);
    }
  }

  /** For any consumed sequence, replays included, in which each scope has one adapter: at every point the active set
      of the resolved history is the scopes whose last consumed event is a provision, exactly when no event acts on a
      key held by another scope's active provision. */
  lemma {:induction false} HistoryIsFaithfulIff(envs: seq<Envelope>)
    requires OneAdapterPerScope(Raw(envs))
    ensures (forall i :: 0 <= i <= |envs| ==> FaithfulAt(envs, i)) <==> NoClash(envs)
    decreases |envs|
  {
    hide Faithful, Undisturbed, Active, LifecycleOf, ConsumeAll;
    if envs == [] {
      assert FaithfulAt(envs, 0) by { EmptyIsFaithful(); }
    } else {
      var n := |envs| - 1;
      var init := envs[..n];
      RawGrows(init, envs[n]);
      assert init + [envs[n]] == envs;
      HistoryIsFaithfulIff(init);
      forall i | 0 <= i <= n ensures FaithfulAt(init, i) <==> FaithfulAt(envs, i) { assert init[..i] == envs[..i]; }
      forall i | 0 <= i < n ensures UndisturbedAt(init, i)
          <==> UndisturbedAt(envs, i) { assert init[..i] == envs[..i]; }
      assert envs[..n + 1] == envs;
      if FaithfulAt(envs, n) { FaithfulStepAt(envs, n); }
    }
  }

  lemma EmptyIsFaithful()
    ensures Faithful(Active(ConsumeAll(FRESH, []).lifecycle), Raw([]))
  {
  }

  lemma RawGrows(init: seq<Envelope>, env: Envelope)
    ensures OneAdapterPerScope(Raw(init + [env])) ==> OneAdapterPerScope(Raw(init))
  {
    assert (init + [env])[..|init|] == init;
    assert forall e :: e in Raw(init) ==> e in Raw(init + [env]);
  }

  // ---------------------------------------------------------------- keys that cannot clash

  /** No event reports a key under which another scope is provisioned. */
  ghost predicate KeysApart(raw: seq<LifecycleEvent>) {
    forall q, p :: q in raw && p in raw && p.event == ProvisionWanted && q.ScopeKey() == p.ScopeKey() ==>
      q.scopeID == p.scopeID
  }

  /** Adapter names without a slash are enough. */
  lemma SlashFreeKeysApart(raw: seq<LifecycleEvent>)
    requires forall e :: e in raw ==> NoSlash(e.adapterName)
    ensures KeysApart(raw)
  {
    forall q, p | q in raw && p in raw && p.event == ProvisionWanted && q.ScopeKey() == p.ScopeKey()
      ensures q.scopeID == p.scopeID
    {
      SplitAt(q.adapterName, p.adapterName, '/', q.scopeID, p.scopeID);
    }
  }

  /** Keys that are apart in the stream are never in each other's way, however it is replayed. */
  lemma KeysApartNeverClash(envs: seq<Envelope>, raw: seq<LifecycleEvent>)
    requires OneAdapterPerScope(Raw(envs)) && KeysApart(raw) && forall e :: e in Raw(envs) ==> e in raw
    ensures NoClash(envs)
  {
    hide OneAdapterPerScope;
    forall i | 0 <= i < |envs| && LifecycleOf(envs[i]).Some?
      ensures Undisturbed(ConsumeAll(FRESH, envs[..i]), LifecycleOf(envs[i]).value)
    {
      var e := LifecycleOf(envs[i]).value;
      PrefixRaw(envs, i, e);
      ScopesAreRecorded(envs[..i]);
      hide ConsumeAll, LifecycleOf, Raw;
      ApartIsUndisturbed(ConsumeAll(FRESH, envs[..i]), Raw(envs[..i]), raw, e);
    }
  }

  lemma PrefixRaw(envs: seq<Envelope>, i: nat, e: LifecycleEvent)
    requires i < |envs| && LifecycleOf(envs[i]) == Some(e) && OneAdapterPerScope(Raw(envs))
    ensures OneAdapterPerScope(Raw(envs[..i])) && e in Raw(envs)
    ensures forall x :: x in Raw(envs[..i]) ==> x in Raw(envs)
    ensures forall x :: x in ConsumeAll(FRESH, envs[..i]).lifecycle && x.event == ProvisionWanted ==>
        x in Raw(envs[..i])
  {
    hide OneAdapterPerScope, Raw, LifecycleOf, ConsumeAll;
    assert envs == envs[..i] + envs[i..];
    RawConcat(envs[..i], envs[i..]);
    assert envs[i] in envs;
    RawMembers(envs, e);
    HistoryComesFromRaw(envs[..i]);
    FewerKeepOneAdapter(Raw(envs[..i]), Raw(envs));
  }

  lemma FewerKeepOneAdapter(some: seq<LifecycleEvent>, raw: seq<LifecycleEvent>)
    requires OneAdapterPerScope(raw) && forall e :: e in some ==> e in raw
    ensures OneAdapterPerScope(some)
  {
  }

  lemma {:induction false} HistoryComesFromRaw(envs: seq<Envelope>)
    ensures forall x :: x in ConsumeAll(FRESH, envs).lifecycle && x.event == ProvisionWanted ==> x in Raw(envs)
    decreases |envs|
  {
    if envs != [] { HistoryComesFromRaw(envs[..|envs| - 1]); }
  }

  lemma ApartIsUndisturbed(st: RunState, earlier: seq<LifecycleEvent>, raw: seq<LifecycleEvent>, e: LifecycleEvent)
    requires ScopesOf(st.scopes, earlier) && KeysApart(raw)
    requires e in raw && forall x :: x in earlier ==> x in raw
    requires forall x :: x in st.lifecycle && x.event == ProvisionWanted ==> x in earlier
    ensures Undisturbed(st, e)
  {
    var e' := ResolveRelease(st.scopes, e);
    if e' != e {
      var q :| q in earlier && q.event == ProvisionWanted && q.scopeID == e.scopeID;
      assert q.ScopeKey() == e'.ScopeKey();
    }
  }

  /** A provision and the release of a scope never provisioned, folded by the client. */
  lemma SlashedFold(p: LifecycleEvent, r: LifecycleEvent, first: Envelope, second: Envelope)
    requires LifecycleOf(first) == Some(p) && LifecycleOf(second) == Some(r)
    requires p.event == ProvisionWanted && r.event == Released && p.scopeID != r.scopeID && p.ScopeKey() == r.ScopeKey()
    ensures var before := ConsumeAll(FRESH, [first, second][..1]);
            before.scopes == map[p.scopeID := p.adapterName] && before.lifecycle == [p]
    ensures Active(ConsumeAll(FRESH, [first, second]).lifecycle) == map[]
    ensures Raw([first, second]) == [p, r] && Active([p]) == map[p.ScopeKey() := p]
  {
    assert Active([]) == map[];
    hide LifecycleOf, LifecycleEvent.ScopeKey, Active, ConsumeAll, Raw;
    assert [first, second][..1] == [first];
    FoldTwo(first, second);
    ActiveStep([], p);
    ActiveStep([p], r);
    assert [] + [p] == [p] && [p] + [r] == [p, r];
  }

  lemma FoldTwo(a: Envelope, b: Envelope)
    ensures ConsumeAll(FRESH, [a]) == Consume(FRESH, a) && ConsumeAll(FRESH, [a, b]) == Consume(Consume(FRESH, a), b)
    ensures LifecycleOf(a).Some? && LifecycleOf(b).Some? ==> Raw([a, b]) == [LifecycleOf(a).value, LifecycleOf(b).value]
  {
    hide Consume, LifecycleOf;
    assert [a][..0] == [] && [a, b][..1] == [a];
    assert Raw([a]) == if LifecycleOf(a).Some? then [LifecycleOf(a).value] else [];
  }

  lemma ClashAtRelease(p: LifecycleEvent, r: LifecycleEvent, envs: seq<Envelope>)
    requires |envs| == 2 && LifecycleOf(envs[1]) == Some(r) && p.scopeID != r.scopeID && p.ScopeKey() == r.ScopeKey()
    requires var before := ConsumeAll(FRESH, envs[..1]);
             before.scopes == map[p.scopeID := p.adapterName] && before.lifecycle == [p]
    requires Active([p]) == map[p.ScopeKey() := p]
    ensures !NoClash(envs)
  {
    hide LifecycleOf, ConsumeAll, Active, LifecycleEvent.ScopeKey;
    assert !UndisturbedAt(envs, 1);
  }

  lemma SlashedEvents() returns (p: LifecycleEvent, r: LifecycleEvent, first: Envelope, second: Envelope)
    ensures LifecycleOf(first) == Some(p) && LifecycleOf(second) == Some(r)
    ensures p.event == ProvisionWanted && r.event == Released && p.scopeID == "c" && p.scopeID != r.scopeID
    ensures p.adapterName != "" && r.adapterName != "" && p.ScopeKey() == r.ScopeKey()
  {
    p := LifecycleEvent(ProvisionWanted, "c", "", "a/b", "", "", "", "", "", "", "");
    r := p.(event := Released, scopeID := "b/c", adapterName := "a");
    first := Envelope(1, None, AdapterEvent(KIND_PROVISION, p));
    second := Envelope(2, None, AdapterEvent(KIND_RELEASED, r));
    assert KIND_PROVISION != KIND_RELEASED by { assert |KIND_PROVISION| != |KIND_RELEASED|; }
    assert r.scopeID != p.scopeID by { assert |r.scopeID| != |p.scopeID|; }
    assert p.ScopeKey() == r.ScopeKey() == "a/b/c";
  }

  /** Keys are glued with a slash: a provision whose adapter name contains one can be ended by the release of another
      scope, although no event of its own scope follows. */
  lemma SlashedNameReleasesAnotherScope() returns (envs: seq<Envelope>)
    ensures OneAdapterPerScope(Raw(envs)) && !NoClash(envs)
    ensures LastOf(Raw(envs), "c").Some? && LastOf(Raw(envs), "c").value.event == ProvisionWanted
    ensures Active(ConsumeAll(FRESH, envs).lifecycle) == map[]
  {
    hide LifecycleOf, ConsumeAll, Raw, LifecycleEvent.ScopeKey, Active, LastOf, NoClash;
    var p, r, first, second := SlashedEvents();
    envs := [first, second];
    SlashedFold(p, r, first, second);
    ClashAtRelease(p, r, envs);
    LastStep([p], r);
    LastStep([], p);
    assert [] + [p] == [p] && [p] + [r] == [p, r];
  }

  /** The terminal and the steps of any consumed sequence. */
  lemma {:induction false} TerminalAndSteps(envs: seq<Envelope>)
    ensures ConsumeAll(FRESH, envs).terminal == LastTerminal(envs)
    ensures ConsumeAll(FRESH, envs).steps == Capped(Outcomes(envs))
    decreases |envs|
  {
    if envs != [] {
      TerminalAndSteps(envs[..|envs| - 1]);
    }
  }

  function Outcomes(envs: seq<Envelope>): seq<StepRecord>
    decreases |envs|
  {
    if envs == [] then []
    else Outcomes(envs[..|envs| - 1]) + if envs[|envs| - 1].payload.StepOutcome? then [envs[|envs| - 1].payload.step]
        else []
  }

  lemma {:induction false} OutcomesConcat(a: seq<Envelope>, b: seq<Envelope>)
    ensures Outcomes(a + b) == Outcomes(a) + Outcomes(b)
    decreases |b|
  {
    if b == [] {
      assert a + b == a;
    } else {
      assert (a + b)[..|a + b| - 1] == a + b[..|b| - 1];
      OutcomesConcat(a, b[..|b| - 1]);
    }
  }

  function Capped(steps: seq<StepRecord>): seq<StepRecord> {
    if |steps| <= MAX_STEPS then steps else steps[..MAX_STEPS]
  }
}