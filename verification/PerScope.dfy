/** One pass that converges a run's adapter pods to its active provisions. */
module PerScope {
  import opened Common
  import opened Sorting
  import opened Events
  import opened PeerPods
  import NameCollisions
  import Names

  /** What a pod was built from: a group of co-located members, or one member without an environment. */
  datatype Content = Peer(pod: PeerPod) | Fallback(member: LifecycleEvent, runnerIP: string)

  datatype Pod = Pod(content: Content, terminating: bool)

  /** Outcome of looking up the runner pod: an error, or an address, empty while no pod carries one. */
  datatype Lookup = LookupFailed | Address(ip: string)

  /** A deleted pod may stay listed while it terminates. */
  datatype DeleteAnswer = DeleteFailed | NotFound | Deleted(lingers: bool)

  datatype CreateAnswer = CreateFailed | AlreadyExists | Created

  /** What the API answers during one pass; each pod name is deleted or created at most once in it. */
  datatype Answers = Answers(listFails: bool, onDelete: string -> DeleteAnswer, onCreate: string -> CreateAnswer)

  datatype PassResult = PassFailed | Deferred(active: nat) | Converged(active: nat)

  datatype Step = Pass(history: seq<LifecycleEvent>) | Cluster

  /** Some active provision has a token to deliver or belongs to an environment. */
  ghost predicate AnyNeedsRunner(history: seq<LifecycleEvent>) {
    exists e :: e in Active(history).Values && (e.acceptToken != "" || e.environment != "")
  }

  /** The members of one environment, in the order the active provisions arrive. */
  ghost function OfEnvironment(active: seq<LifecycleEvent>, env: string): (r: seq<LifecycleEvent>)
    ensures forall e :: e in r <==> e in active && e.environment == env
  {
    if active == [] then []
    else
      var last := active[|active| - 1];
      assert active == active[..|active| - 1] + [last];
      OfEnvironment(active[..|active| - 1], env) + if last.environment == env then [last] else []
  }

  function DefsOf(graphs: map<string, seq<GraphDef>>, env: string): seq<GraphDef> {
    if env in graphs then graphs[env] else []
  }

  ghost predicate WellGraphed(graphs: map<string, seq<GraphDef>>) {
    forall e :: e in graphs ==> DistinctDefinitions(graphs[e]) && forall d :: d in graphs[e] ==> d.Bound()
  }

  /** The address the pods of this pass dial; none when no active provision needs one. */
  ghost function DialAddress(history: seq<LifecycleEvent>, lookup: Lookup): string {
    if AnyNeedsRunner(history) && lookup.Address? then lookup.ip else ""
  }

  /** The cluster's adapter pods of one run, by name. */
  class AdapterPods {
    var pods: map<string, Pod>
    const peerName: string -> string
    const fallbackName: (string, string) -> string

    constructor (peerName: string -> string, fallbackName: (string, string) -> string)
      ensures pods == map[] && this.peerName == peerName && this.fallbackName == fallbackName
    {
      pods := map[];
      this.peerName, this.fallbackName := peerName, fallbackName;
    }

    function NameOf(e: LifecycleEvent): string {
      if e.environment == "" then fallbackName(e.Kind(), e.scopeID) else peerName(e.environment)
    }

    /** The names a history asks for. */
    ghost function Desired(history: seq<LifecycleEvent>): set<string> {
      set e | e in Active(history).Values :: NameOf(e)
    }

    /** A pod that an active provision with this name accounts for. */
    ghost predicate Accounts(name: string, content: Content, active: seq<LifecycleEvent>,
        graphs: map<string, seq<GraphDef>>, ip: string) {
      exists e :: e in active && NameOf(e) == name && Hosts(e, content, active, graphs, ip)
    }

    /** Accounted for by the provisions active after a history, in whatever order they are visited. */
    ghost predicate Accounted(name: string, content: Content, history: seq<LifecycleEvent>,
        layers: Option<seq<seq<GraphDef>>>, ip: string) {
      exists active :: FromHistory(active, history) && Accounts(name, content, active, GraphMap(layers), ip)
    }

    ghost predicate Hosts(e: LifecycleEvent, content: Content, active: seq<LifecycleEvent>,
        graphs: map<string, seq<GraphDef>>, ip: string) {
      if e.environment == "" then content == Fallback(e, ip)
      else content.Peer? && exists group ::
          IsGroup(group, OfEnvironment(active, e.environment), DefsOf(graphs, e.environment))
          && Built(content.pod, group, ip)
    }

    // -------------------------------------------------------------- building the desired pods

    ghost predicate Fallbacks(desired: map<string, Content>, active: seq<LifecycleEvent>, ip: string) {
      && (forall e :: e in active && e.environment == "" ==> NameOf(e) in desired)
      && (forall name :: name in desired ==>
        exists e :: e in active && e.environment == "" && NameOf(e) == name && desired[name] == Fallback(e, ip))
    }

    method GroupByEnvironment(active: seq<LifecycleEvent>, ip: string)
      returns (groups: map<string, seq<LifecycleEvent>>, desired: map<string, Content>)
      ensures Grouped(groups, active)
      ensures Fallbacks(desired, active, ip)
    {
      groups, desired := map[], map[];
      for i := 0 to |active|
        invariant Grouped(groups, active[..i])
        invariant Fallbacks(desired, active[..i], ip)
      {
        var e := active[i];
        assert active[..i + 1] == active[..i] + [e];
        GroupedStep(groups, active[..i], e);
        FallbacksStep(desired, active[..i], e, ip);
        if e.environment == "" {
          desired := desired[fallbackName(e.Kind(), e.scopeID) := Fallback(e, ip)];
        } else {
          var members := if e.environment in groups then groups[e.environment] else [];
          groups := groups[e.environment := members + [e]];
        }
      }
      assert active[..|active|] == active;
    }

    lemma FallbacksStep(desired: map<string, Content>, active: seq<LifecycleEvent>, e: LifecycleEvent, ip: string)
      requires Fallbacks(desired, active, ip)
      ensures var next := if e.environment == "" then desired[NameOf(e) := Fallback(e, ip)] else desired;
              Fallbacks(next, active + [e], ip)
    {
      assert e in active + [e] && forall x :: x in active ==> x in active + [e];
    }

    /** The desired pods: every name asked for, each accounted for by an active provision. */
    ghost predicate Wanted(desired: map<string, Content>, active: seq<LifecycleEvent>,
        graphs: map<string, seq<GraphDef>>, ip: string) {
      && (forall e :: e in active ==> NameOf(e) in desired)
      && (forall name :: name in desired ==> Accounts(name, desired[name], active, graphs, ip))
    }

    method AddPeerPods(groups: map<string, seq<LifecycleEvent>>, fallbacks: map<string, Content>,
        ghost active: seq<LifecycleEvent>, ghost graphs: map<string, seq<GraphDef>>, ip: string)
      returns (desired: map<string, Content>)
      requires Fallbacks(fallbacks, active, ip)
      requires Completed(groups, active, graphs)
      ensures Wanted(desired, active, graphs, ip)
    {
      hide IsGroup, Built;
      desired := fallbacks;
      FallbacksAccount(fallbacks, active, graphs, ip);
      var todo := groups.Keys;
      while todo != {}
        invariant todo <= groups.Keys
        invariant forall e :: e in active && (e.environment == "" || e.environment !in todo) ==> NameOf(e) in desired
        invariant forall name :: name in desired ==> Accounts(name, desired[name], active, graphs, ip)
        decreases todo
      {
        var env :| env in todo;
        var pod := BuildPerScopePeerPod(groups[env], ip);
        ghost var e :| e in active && e.environment == env;
        assert Hosts(e, Peer(pod.value), active, graphs, ip);
        assert Accounts(peerName(env), Peer(pod.value), active, graphs, ip);
        desired := desired[peerName(env) := Peer(pod.value)];
        todo := todo - {env};
      }
    }

    lemma FallbacksAccount(desired: map<string, Content>, active: seq<LifecycleEvent>,
        graphs: map<string, seq<GraphDef>>, ip: string)
      requires Fallbacks(desired, active, ip)
      ensures forall name :: name in desired ==> Accounts(name, desired[name], active, graphs, ip)
    {
      forall name | name in desired ensures Accounts(name, desired[name], active, graphs, ip)
      {
        var e :| e in active && e.environment == "" && NameOf(e) == name && desired[name] == Fallback(e, ip);
        assert Hosts(e, desired[name], active, graphs, ip);
      }
    }

    // -------------------------------------------------------------- the pass

    /** What one pass may do to the pods: keep every desired one, mark or remove the others, create what is missing. */
    ghost predicate PassKeeps(before: map<string, Pod>, after: map<string, Pod>, desired: set<string>) {
      && (forall name :: name in before && name in desired ==> name in after && after[name] == before[name])
      && (forall name :: name in after && name !in before ==> name in desired && !after[name].terminating)
      && (forall name :: name in after && name in before && name !in desired ==>
        after[name].content == before[name].content)
    }

    /** What an error-free pass leaves: every desired name exists, and nothing else except pods on their way out. */
    ghost predicate Settled(after: map<string, Pod>, desired: set<string>, answers: Answers) {
      && (forall name :: name in desired ==> name in after || answers.onCreate(name) == AlreadyExists)
      && (forall name :: name in after && name !in desired ==> after[name].terminating)
    }

    /** Every call the pass makes is answered: the listing, the deletes of what is not desired, the creates of what is
        missing. */
    ghost predicate Answered(listed: set<string>, desired: set<string>, answers: Answers) {
      !answers.listFails && AllDeleted(listed - desired, answers) && AllCreated(desired - listed, answers)
    }

    ghost predicate AllDeleted(names: set<string>, answers: Answers) {
      forall name :: name in names ==> answers.onDelete(name) != DeleteFailed
    }

    ghost predicate AllCreated(names: set<string>, answers: Answers) {
      forall name :: name in names ==> answers.onCreate(name) != CreateFailed
    }

    /** Which names there are after such a pass. */
    ghost predicate Leaves(before: set<string>, after: set<string>, desired: set<string>, answers: Answers) {
      forall name :: name in after <==>
        || (name in before && (name in desired || answers.onDelete(name) == Deleted(true)))
        || (name in desired && name !in before && answers.onCreate(name) == Created)
    }

    lemma NothingIsKept(before: map<string, Pod>, desired: set<string>)
      ensures PassKeeps(before, before, desired)
    {
    }

    method Reconcile(history: seq<LifecycleEvent>, layers: Option<seq<seq<GraphDef>>>, lookup: Lookup, answers: Answers)
      returns (result: PassResult)
      modifies this`pods
      ensures PassKeeps(old(pods), pods, Desired(history))
      ensures AnyNeedsRunner(history) && lookup == LookupFailed ==> result == PassFailed && pods == old(pods)
      ensures result.Deferred? <==> AnyNeedsRunner(history) && lookup == Address("")
      ensures result.Deferred? ==> result.active == |Active(history)| && pods == old(pods)
      ensures result.Converged? ==> result.active == |Active(history)| && Settled(pods, Desired(history), answers)
      ensures result.Converged? <==>
          && (AnyNeedsRunner(history) ==> lookup.Address? && lookup.ip != "")
          && Answered(old(pods).Keys, Desired(history), answers)
      ensures result.Converged? ==> Leaves(old(pods).Keys, pods.Keys, Desired(history), answers)
      ensures forall name :: name in pods && name !in old(pods) ==>
          Accounted(name, pods[name].content, history, layers, DialAddress(history, lookup))
    {
      hide Accounted, PassKeeps, Settled, Desired, Active, Answered, Leaves;
      assert PassKeeps(pods, pods, Desired(history)) by { NothingIsKept(pods, Desired(history)); }
      var active := ActiveProvisions(history);
      var needs := AnyMemberNeedsRunner(active);
      assert needs <==> AnyNeedsRunner(history);
      var runnerIP := "";
      if needs {
        if lookup.LookupFailed? {
          return PassFailed;
        }
        runnerIP := lookup.ip;
        if runnerIP == "" {
          return Deferred(|active|);
        }
      }
      var desired := DesiredPods(active, history, layers, runnerIP);
      var ok := Converge(desired, answers);
      return if ok then Converged(|active|) else PassFailed;
    }

    method Converge(desired: map<string, Content>, answers: Answers) returns (ok: bool)
      modifies this`pods
      ensures PassKeeps(old(pods), pods, desired.Keys)
      ensures ok ==> Settled(pods, desired.Keys, answers)
      ensures forall name :: name in pods && name !in old(pods) ==>
          name in desired && pods[name].content == desired[name]
      ensures ok <==> Answered(old(pods).Keys, desired.Keys, answers)
      ensures ok ==> Leaves(old(pods).Keys, pods.Keys, desired.Keys, answers)
    {
      if answers.listFails {
        return false;
      }
      var listed := pods.Keys;
      var deleted := DeleteUndesired(desired.Keys, answers);
      if deleted.None? {
        return false;
      }
      ok := CreateMissing(listed - deleted.value, desired, answers);
    }

    method DesiredPods(active: seq<LifecycleEvent>, ghost history: seq<LifecycleEvent>,
        layers: Option<seq<seq<GraphDef>>>, ip: string)
      returns (desired: map<string, Content>)
      requires FromHistory(active, history)
      ensures desired.Keys == Desired(history)
      ensures forall name :: name in desired ==> Accounted(name, desired[name], history, layers, ip)
    {
      ActiveScopesAreDistinct(active, history);
      hide IsGroup, Built, Hosts, Fallbacks, Grouped, Completed, DistinctScopes, GraphMap;
      var graphs := GraphsOf(layers);
      var groups, fallbacks := GroupByEnvironment(active, ip);
      groups := CompleteGroups(groups, graphs, active);
      desired := AddPeerPods(groups, fallbacks, active, graphs, ip);
      WantedIsAccounted(desired, active, history, layers, ip);
    }

    lemma WantedIsAccounted(desired: map<string, Content>, active: seq<LifecycleEvent>, history: seq<LifecycleEvent>,
        layers: Option<seq<seq<GraphDef>>>, ip: string)
      requires FromHistory(active, history) && Wanted(desired, active, GraphMap(layers), ip)
      ensures desired.Keys == Desired(history)
      ensures forall name :: name in desired ==> Accounted(name, desired[name], history, layers, ip)
    {
      hide Hosts, GraphMap, NameOf;
      forall name ensures name in desired <==> name in Desired(history)
      {
        if name in desired { assert Accounts(name, desired[name], active, GraphMap(layers), ip); }
      }
    }

    method DeleteUndesired(desired: set<string>, answers: Answers) returns (deleted: Option<set<string>>)
      modifies this`pods
      ensures forall name :: name in old(pods) && name in desired ==> name in pods && pods[name] == old(pods)[name]
      ensures forall name :: name in pods ==> name in old(pods) && pods[name].content == old(pods)[name].content
      ensures deleted.Some? ==>
                && deleted.value == old(pods).Keys - desired
                && forall name :: name in pods && name !in desired ==> pods[name].terminating
      ensures deleted.Some? <==> AllDeleted(old(pods).Keys - desired, answers)
      ensures deleted.Some? ==> forall name :: name in old(pods) && name !in desired ==>
                (name in pods <==> answers.onDelete(name) == Deleted(true))
    {
      var listed := pods.Keys;
      var todo, gone := listed, {};
      while todo != {}
        invariant todo <= listed && gone == (listed - todo) - desired
        invariant pods.Keys <= listed
        invariant forall name :: name in old(pods) && (name in todo || name in desired) ==>
            name in pods && pods[name] == old(pods)[name]
        invariant forall name :: name in pods ==> pods[name].content == old(pods)[name].content
        invariant forall name :: name in pods && name in gone ==> pods[name].terminating
        invariant forall name :: name in gone ==> answers.onDelete(name) != DeleteFailed
        invariant forall name :: name in gone ==> (name in pods <==> answers.onDelete(name) == Deleted(true))
        decreases todo
      {
        var name :| name in todo;
        todo := todo - {name};
        if name !in desired {
          match answers.onDelete(name) {
            case DeleteFailed => return None;
            case NotFound => pods := pods - {name};
            case Deleted(lingers) => pods := if lingers then pods[name := pods[name].(terminating := true)]
              else pods - {name};
          }
          gone := gone + {name};
        }
      }
      return Some(gone);
    }

    method CreateMissing(existing: set<string>, desired: map<string, Content>, answers: Answers) returns (ok: bool)
      requires forall name :: name in desired ==> (name in existing <==> name in pods)
      modifies this`pods
      ensures forall name :: name in old(pods) ==> name in pods && pods[name] == old(pods)[name]
      ensures forall name :: name in pods && name !in old(pods) ==>
          name in desired && pods[name] == Pod(desired[name], false)
      ensures ok ==> forall name :: name in desired ==> name in pods || answers.onCreate(name) == AlreadyExists
      ensures ok <==> AllCreated(desired.Keys - existing, answers)
      ensures ok ==> forall name :: name in desired && name !in existing ==>
                (name in pods <==> answers.onCreate(name) == Created)
    {
      var todo := desired.Keys;
      while todo != {}
        invariant todo <= desired.Keys
        invariant forall name :: name in old(pods) ==> name in pods && pods[name] == old(pods)[name]
        invariant forall name :: name in pods && name !in old(pods) ==>
            name in desired && name !in todo && pods[name] == Pod(desired[name], false)
        invariant forall name :: name in desired && name !in todo ==>
            name in pods || answers.onCreate(name) == AlreadyExists
        invariant forall name :: name in desired && name !in existing && name !in todo ==>
            answers.onCreate(name) != CreateFailed
        invariant forall name :: name in desired && name !in existing && name !in todo ==>
            (name in pods <==> answers.onCreate(name) == Created)
        decreases todo
      {
        var name :| name in todo;
        todo := todo - {name};
        if name !in existing {
          match answers.onCreate(name)
          case CreateFailed => return false;
          case AlreadyExists =>
          case Created => pods := pods[name := Pod(desired[name], false)];
        }
      }
      return true;
    }

    // -------------------------------------------------------------- sequences of passes

    /** One change to the pods: a pass over some history, or terminating pods going away. */
    ghost predicate StepOk(before: map<string, Pod>, after: map<string, Pod>, step: Step) {
      match step
      case Pass(history) => PassKeeps(before, after, Desired(history))
      case Cluster => Drained(before, after)
    }

    ghost predicate Drained(before: map<string, Pod>, after: map<string, Pod>) {
      && (forall name :: name in after ==> name in before && after[name] == before[name])
      && (forall name :: name in before && !before[name].terminating ==> name in after)
    }

    lemma {:induction false} DesiredPodSurvives(states: seq<map<string, Pod>>, steps: seq<Step>, name: string, i: nat)
      requires |states| == |steps| + 1 && forall k :: 0 <= k < |steps| ==> StepOk(states[k], states[k + 1], steps[k])
      requires name in states[0] && !states[0][name].terminating
      requires forall k :: 0 <= k < |steps| && steps[k].Pass? ==> name in Desired(steps[k].history)
      requires i < |states|
      ensures name in states[i] && states[i][name] == states[0][name]
    {
      if i > 0 {
        DesiredPodSurvives(states, steps, name, i - 1);
        assert StepOk(states[i - 1], states[i], steps[i - 1]);
      }
    }

    /** A peer pod is never replaced while its environment keeps an active provision, whatever else joins or leaves. */
    lemma PeerPodNeverChurns(states: seq<map<string, Pod>>, steps: seq<Step>, env: string, i: nat)
      requires env != ""
      requires |states| == |steps| + 1 && forall k :: 0 <= k < |steps| ==> StepOk(states[k], states[k + 1], steps[k])
      requires peerName(env) in states[0] && !states[0][peerName(env)].terminating
      requires forall k :: 0 <= k < |steps| && steps[k].Pass? ==>
          exists e :: e in Active(steps[k].history).Values && e.environment == env
      requires i < |states|
      ensures peerName(env) in states[i] && states[i][peerName(env)] == states[0][peerName(env)]
    {
      forall k | 0 <= k < |steps| && steps[k].Pass? ensures peerName(env) in Desired(steps[k].history)
      {
        var e :| e in Active(steps[k].history).Values && e.environment == env;
        assert NameOf(e) == peerName(env);
      }
      DesiredPodSurvives(states, steps, peerName(env), i);
    }

    /** Once a converged pass has drained, the names are the desired ones and a further pass over the same history is
        idle. */
    lemma ConvergedPassesAreIdle(
        before: map<string, Pod>, passed: map<string, Pod>, drained: map<string, Pod>, again: map<string, Pod>,
        history: seq<LifecycleEvent>, answers: Answers)
      requires PassKeeps(before, passed, Desired(history)) && Settled(passed, Desired(history), answers)
      requires forall name :: name in Desired(history) ==> answers.onCreate(name) != AlreadyExists
      requires forall name :: name in before && name in Desired(history) ==> !before[name].terminating
      requires Drained(passed, drained) && forall name :: name in drained ==> !drained[name].terminating
      requires PassKeeps(drained, again, Desired(history))
      ensures drained.Keys == Desired(history)
      ensures again == drained
    {
      assert forall name :: name in Desired(history) ==> name in passed && !passed[name].terminating;
      assert forall name :: name in again ==> name in drained;
    }

    /** While distinct hosts have distinct names, a created pod is decided by history, graphs and address. */
    lemma ContentIsDetermined(name: string, c: Content, d: Content, history: seq<LifecycleEvent>,
        layers: Option<seq<seq<GraphDef>>>, ip: string)
      requires forall e, f :: e in Active(history).Values && f in Active(history).Values && NameOf(e) == NameOf(f) ==>
                 e.environment == f.environment && (e.environment == "" ==> e == f)
      ensures Accounted(name, c, history, layers, ip) && Accounted(name, d, history, layers, ip) ==> c == d
    {
      hide Hosts, NameOf, GraphMap, Active, Accounted;
      if Accounted(name, c, history, layers, ip) && Accounted(name, d, history, layers, ip) {
        var a, e := AccountedBy(name, c, history, layers, ip);
        var b, f := AccountedBy(name, d, history, layers, ip);
        assert e.environment == f.environment && (e.environment == "" ==> e == f);
        assert SameMembers(a, b);
        HostsOnce(e, f, c, d, a, b, GraphMap(layers), ip);
      }
    }

    /** Pods are named as the job builder names them. */
    ghost predicate NamedBy(job: string, hash: string -> string, lower: char -> char) {
      && (forall env :: peerName(env) == Names.PeerPodName(job, "", env, hash, lower))
      && (forall kind, s :: fallbackName(kind, s) == Names.AdapterPodName(job, kind, s, hash, lower))
    }

    /** A fallback pod of e and the peer pod of f's environment have one name in some run. */
    ghost predicate MeetSomewhere(e: LifecycleEvent, f: LifecycleEvent, hash: string -> string, lower: char -> char) {
      && e.environment == "" && f.environment != "" && hash(e.scopeID) == hash(f.environment)
      && NameCollisions.SpellsPeer(Names.SafeObjectName(e.Kind(), lower), hash(""))
    }

    /** Under the real names, two active provisions share a pod name only as members of one environment: hashes of the
        scopes and environments in use differ, a scope has one adapter, and no fallback kind spells a peer segment. */
    lemma HostsHaveOwnNames(
        history: seq<LifecycleEvent>, job: string, hash: string -> string, lower: char -> char,
        e: LifecycleEvent, f: LifecycleEvent)
      requires Names.Hashing(hash) && e in Active(history).Values && f in Active(history).Values
      requires hash(e.scopeID) == hash(f.scopeID) ==> e.scopeID == f.scopeID
      requires hash(e.environment) == hash(f.environment) ==> e.environment == f.environment
      requires e.scopeID == f.scopeID ==> e.adapterName == f.adapterName
      requires !MeetSomewhere(e, f, hash, lower) && !MeetSomewhere(f, e, hash, lower)
      ensures NamedBy(job, hash, lower) && NameOf(e) == NameOf(f) ==>
                e.environment == f.environment && (e.environment == "" ==> e == f)
    {
      hide Names.PeerPodName, Names.AdapterPodName, Names.SafeObjectName, NameCollisions.SpellsPeer;
      if !NamedBy(job, hash, lower) || NameOf(e) != NameOf(f) {
        return;
      }
      if e.environment != "" && f.environment != "" {
        Names.PeerNamesDiscriminate(job, job, "", "", e.environment, f.environment, hash, lower);
      } else if e.environment == f.environment {
        Names.AdapterNamesDiscriminate(job, job, e.Kind(), f.Kind(), e.scopeID, f.scopeID, hash, lower);
        assert e.ScopeKey() == f.ScopeKey();
      } else if e.environment != "" {
        NameCollisions.OneRunMeets(job, f.Kind(), "", e.environment, f.scopeID, hash, lower);
      } else {
        NameCollisions.OneRunMeets(job, e.Kind(), "", f.environment, e.scopeID, hash, lower);
      }
    }

    lemma AccountedBy(name: string, c: Content, history: seq<LifecycleEvent>, layers: Option<seq<seq<GraphDef>>>,
        ip: string)
      returns (active: seq<LifecycleEvent>, e: LifecycleEvent)
      requires Accounted(name, c, history, layers, ip)
      ensures FromHistory(active, history) && e in Active(history).Values && NameOf(e) == name
      ensures Hosts(e, c, active, GraphMap(layers), ip)
    {
      hide Hosts, NameOf, GraphMap, Active;
      active :| FromHistory(active, history) && Accounts(name, c, active, GraphMap(layers), ip);
      e :| e in active && NameOf(e) == name && Hosts(e, c, active, GraphMap(layers), ip);
    }

    lemma HostsOnce(e: LifecycleEvent, f: LifecycleEvent, c: Content, d: Content, a: seq<LifecycleEvent>,
        b: seq<LifecycleEvent>, graphs: map<string, seq<GraphDef>>, ip: string)
      requires SameMembers(a, b) && e.environment == f.environment && (e.environment == "" ==> e == f)
      ensures Hosts(e, c, a, graphs, ip) && Hosts(f, d, b, graphs, ip) ==> c == d
    {
      hide IsGroup, Built, OfEnvironment;
      if e.environment != "" && Hosts(e, c, a, graphs, ip) && Hosts(f, d, b, graphs, ip) {
        var env, defs := e.environment, DefsOf(graphs, e.environment);
        var p, q := OfEnvironment(a, env), OfEnvironment(b, env);
        var g :| IsGroup(g, p, defs) && Built(c.pod, g, ip);
        var h :| IsGroup(h, q, defs) && Built(d.pod, h, ip);
        PodIgnoresIterationOrder(p, q, defs, g, h, c.pod, d.pod, ip);
      }
    }
  }

  /** Every environment that occurs, with its members in arrival order. */
  ghost predicate Grouped(groups: map<string, seq<LifecycleEvent>>, active: seq<LifecycleEvent>) {
    && (forall e :: e in active && e.environment != "" ==> e.environment in groups)
    && (forall env :: env in groups ==> env != "" && groups[env] == OfEnvironment(active, env) != [])
  }

  lemma NextOfEnvironment(active: seq<LifecycleEvent>, e: LifecycleEvent, env: string)
    ensures OfEnvironment(active + [e], env) == OfEnvironment(active, env) + if e.environment == env then [e] else []
    ensures (forall x :: x in active ==> x.environment != env) ==> OfEnvironment(active, env) == []
  {
    assert (active + [e])[..|active|] == active;
    var r := OfEnvironment(active, env);
    assert r != [] ==> r[0] in r && r[0] in active && r[0].environment == env;
  }

  lemma GroupedStep(groups: map<string, seq<LifecycleEvent>>, active: seq<LifecycleEvent>, e: LifecycleEvent)
    requires Grouped(groups, active)
    ensures var members := if e.environment in groups then groups[e.environment] else [];
            Grouped(if e.environment == "" then groups else groups[e.environment := members + [e]], active + [e])
  {
    hide OfEnvironment;
    NextOfEnvironment(active, e, e.environment);
    forall env | env in groups && env != e.environment
        ensures OfEnvironment(active + [e], env) == OfEnvironment(active, env)
    {
      NextOfEnvironment(active, e, env);
    }
  }

  /** Each environment's group with its references and its unprovisioned definitions filled in. */
  ghost predicate Completed(groups: map<string, seq<LifecycleEvent>>, active: seq<LifecycleEvent>,
      graphs: map<string, seq<GraphDef>>) {
    && (forall e :: e in active && e.environment != "" ==> e.environment in groups)
    && (forall env :: env in groups ==> CompletedGroup(groups[env], env, active, graphs))
  }

  ghost predicate CompletedGroup(group: seq<LifecycleEvent>, env: string, active: seq<LifecycleEvent>,
      graphs: map<string, seq<GraphDef>>) {
    && env != "" && group != [] && Separated(group, Before)
    && (exists e :: e in active && e.environment == env)
    && IsGroup(group, OfEnvironment(active, env), DefsOf(graphs, env))
  }

  lemma {:induction false} EnvironmentKeepsScopesDistinct(active: seq<LifecycleEvent>, env: string)
    requires DistinctScopes(active)
    ensures DistinctScopes(OfEnvironment(active, env))
  {
    if active != [] {
      var earlier, last := active[..|active| - 1], active[|active| - 1];
      EnvironmentKeepsScopesDistinct(earlier, env);
      forall e | e in OfEnvironment(earlier, env) ensures e.ScopeKey() != last.ScopeKey()
      {
        var i :| 0 <= i < |earlier| && earlier[i] == e;
        assert active[i] == e;
      }
    }
  }

  lemma UncompletedGroup(provisions: seq<LifecycleEvent>)
    requires DistinctScopes(provisions)
    ensures Separated(provisions, Before) && IsGroup(provisions, provisions, [])
  {
    FilledAreSeparated(provisions, [], provisions);
    forall m ensures m in provisions <==> InGroup(m, provisions, [])
    {
      assert Fill(m, []) == m;
    }
  }

  /** Without a usable graph the provisions stand alone. */
  method CompleteGroups(groups: map<string, seq<LifecycleEvent>>, graphs: map<string, seq<GraphDef>>,
      ghost active: seq<LifecycleEvent>)
    returns (done: map<string, seq<LifecycleEvent>>)
    requires Grouped(groups, active) && WellGraphed(graphs) && DistinctScopes(active)
    ensures Completed(done, active, graphs)
  {
    hide IsGroup, DistinctScopes, DistinctDefinitions, Before, OfEnvironment, DefsOf, WellGraphed;
    done := groups;
    if |graphs| > 0 {
      var todo := groups.Keys;
      while todo != {}
        invariant todo <= groups.Keys == done.Keys
        invariant forall env :: env in todo ==> done[env] == groups[env]
        invariant forall env :: env in groups && env !in todo ==> CompletedGroup(done[env], env, active, graphs)
        decreases todo
      {
        var env :| env in todo;
        EnvironmentKeepsScopesDistinct(active, env);
        DefsAreDistinct(graphs, env);
        var group := CompleteGroup(groups[env], DefsOf(graphs, env));
        SomeMember(group, active, env, DefsOf(graphs, env));
        done := done[env := group];
        todo := todo - {env};
      }
    } else {
      forall env | env in groups ensures CompletedGroup(groups[env], env, active, graphs)
      {
        EnvironmentKeepsScopesDistinct(active, env);
        UncompletedGroup(groups[env]);
        NoDefinitions(graphs, env);
        SomeMember(groups[env], active, env, []);
      }
    }
  }

  lemma DefsAreDistinct(graphs: map<string, seq<GraphDef>>, env: string)
    requires WellGraphed(graphs)
    ensures DistinctDefinitions(DefsOf(graphs, env)) && forall d :: d in DefsOf(graphs, env) ==> d.Bound()
  {
  }

  lemma NoDefinitions(graphs: map<string, seq<GraphDef>>, env: string)
    requires |graphs| == 0
    ensures DefsOf(graphs, env) == []
  {
  }

  lemma SomeMember(group: seq<LifecycleEvent>, active: seq<LifecycleEvent>, env: string, defs: seq<GraphDef>)
    requires IsGroup(group, OfEnvironment(active, env), defs) && OfEnvironment(active, env) != []
    ensures group != [] && exists e :: e in active && e.environment == env
  {
    var p := OfEnvironment(active, env)[0];
    assert p in OfEnvironment(active, env);
    assert IsFilled(Fill(p, defs), OfEnvironment(active, env), defs)
        && InGroup(Fill(p, defs), OfEnvironment(active, env), defs);
  }

  lemma ActiveScopesAreDistinct(active: seq<LifecycleEvent>, history: seq<LifecycleEvent>)
    requires NoDup(active) && forall e :: e in active <==> e in Active(history).Values
    ensures DistinctScopes(active)
  {
    forall i, j | 0 <= i < j < |active| ensures active[i].ScopeKey() != active[j].ScopeKey()
    {
      assert active[i] in Active(history).Values && active[j] in Active(history).Values;
    }
  }

  /** An unusable payload contributes no graph. */
  ghost function GraphMap(layers: Option<seq<seq<GraphDef>>>): map<string, seq<GraphDef>> {
    if layers.Some? then Merge(Flatten(layers.value)) else map[]
  }

  ghost predicate FromHistory(active: seq<LifecycleEvent>, history: seq<LifecycleEvent>) {
    NoDup(active) && forall e :: e in active <==> e in Active(history).Values
  }

  method AnyMemberNeedsRunner(active: seq<LifecycleEvent>) returns (needs: bool)
    ensures needs <==> exists e :: e in active && (e.acceptToken != "" || e.environment != "")
  {
    for i := 0 to |active|
      invariant forall e :: e in active[..i] ==> e.acceptToken == "" && e.environment == ""
    {
      if active[i].acceptToken != "" || active[i].environment != "" {
        return true;
      }
    }
    return false;
  }

  method GraphsOf(layers: Option<seq<seq<GraphDef>>>) returns (graphs: map<string, seq<GraphDef>>)
    ensures graphs == GraphMap(layers)
    ensures WellGraphed(graphs)
  {
    graphs := map[];
    if layers.Some? {
      graphs := EnvGraphDefs(layers.value);
      forall e | e in graphs ensures DistinctDefinitions(graphs[e])
      {
        MergeKeepsDefinitionsDistinct(Flatten(layers.value), e);
      }
    }
  }
}
