/**
 * The coordinator: routes a task type to a list of agents, runs them one after the
 * other (`run_chain`) or concurrently (`run_parallel`), turns timeouts and
 * exceptions into placeholder results, and hands the results to the evaluator.
 *
 * Concurrency is modelled through the event loop's schedule. `asyncio.gather`
 * starts the agents in routing order; each one runs until its model call first
 * suspends (a router call with positive latency) and every agent reads the
 * blackboard before that point. So agent `i` sees the writes of the earlier agents
 * that finished without suspending, and the writes of the suspended ones land after
 * all agents have started.
 */
module Coordinator {
  import opened Wrappers
  import opened SharedState
  import opened Generation
  import opened BaseAgent
  import opened Evaluator
  import ReflectorAgent
  import StrategistAgent
  import CoachAgent
  import PurposeAgent

  /** The agents of `name_map`. */
  datatype Role = Reflector | Strategist | Coach | Purpose

  function RoleName(r: Role): string {
    match r
    case Reflector => ReflectorAgent.Name
    case Strategist => StrategistAgent.Name
    case Coach => CoachAgent.Name
    case Purpose => PurposeAgent.Name
  }

  function Field(r: Role): string {
    match r
    case Reflector => ReflectorAgent.Field
    case Strategist => StrategistAgent.Field
    case Coach => CoachAgent.Field
    case Purpose => PurposeAgent.Field
  }

  function TaskType(r: Role): string {
    match r
    case Reflector => ReflectorAgent.TaskType
    case Strategist => StrategistAgent.TaskType
    case Coach => CoachAgent.TaskType
    case Purpose => PurposeAgent.TaskType
  }

  /** `name_map.get(n)`. */
  function RoleOf(name: string): (r: Option<Role>)
    ensures r.Some? ==> RoleName(r.value) == name
    ensures forall x :: RoleName(x) == name ==> r == Some(x)
  {
    if name == "reflector" then Some(Reflector)
    else if name == "strategist" then Some(Strategist)
    else if name == "coach" then Some(Coach)
    else if name == "purpose" then Some(Purpose)
    else None
  }

  /** The prompt agent `r` builds from the store, or the exception building it raised. */
  function PromptFor(r: Role, query: string, store: Store): Result<string> {
    match r
    case Reflector => ReflectorAgent.PromptFrom(query, store)
    case Strategist => StrategistAgent.PromptFrom(query, store)
    case Coach => CoachAgent.PromptFrom(query, store)
    case Purpose => PurposeAgent.PromptFrom(query, store)
  }

  /** One complete `agent.run(query, session_id, blackboard)` on a store. */
  function AgentStep(r: Role, query: string, router: ModelRouter, timeout: int, store: Store): (RunOutcome, Store) {
    Step(RoleName(r), Field(r), TaskType(r), PromptFor(r, query, store), router, timeout, store)
  }

  /** `_run_agent`'s result: the agent's own dict, or a placeholder naming what went wrong. */
  function ResultOf(r: Role, o: RunOutcome): (res: AgentResult)
    ensures res.role == RoleName(r) || o.Returned?
    ensures o.TimedOut? ==> res.output == RoleName(r) + " timed out."
    ensures o.Failed? ==> res.output == RoleName(r) + " failed: " + o.error
    ensures o.Returned? ==> res == o.result
  {
    match o
    case Returned(res) => res
    case TimedOut => AgentResult(RoleName(r), RoleName(r) + " timed out.")
    case Failed(e) => AgentResult(RoleName(r), RoleName(r) + " failed: " + e)
  }

  // ---------------------------------------------------------------------------
  // Routing

  const DefaultRoute: seq<string> := ["reflector", "strategist"]

  const RoutingTable: map<string, seq<string>> := map[
    "emotional_reflection" := ["reflector", "purpose"],
    "cognitive_reasoning" := ["strategist", "coach", "purpose"],
    "behavioral_coaching" := ["coach", "reflector"],
    "rag_query" := ["reflector", "strategist", "purpose"],
    "general_chat" := ["reflector", "strategist", "coach", "purpose"]
  ]

  /** `routing_table.get(task_type, ["reflector", "strategist"])`. */
  function Route(taskType: string): seq<string> {
    if taskType in RoutingTable then RoutingTable[taskType] else DefaultRoute
  }

  /** The agents a list of names selects, in order, skipping unknown names. */
  function Known(names: seq<string>): seq<Role>
    decreases |names|
  {
    if names == [] then []
    else
      var n := |names| - 1;
      match RoleOf(names[n])
      case None => Known(names[..n])
      case Some(r) => Known(names[..n]) + [r]
  }

  predicate Distinct(names: seq<string>) {
    forall i, j :: 0 <= i < j < |names| ==> names[i] != names[j]
  }

  /** A route whose names are all agents of `name_map`, none of them twice. */
  predicate GoodRoute(names: seq<string>) {
    (forall n :: n in names ==> RoleOf(n).Some?) && Distinct(names)
  }

  lemma TableRoutesGood()
    ensures forall k :: k in RoutingTable ==> GoodRoute(RoutingTable[k])
  {
  }

  /**
   * Every route names known agents only, each at most once, so every routed name
   * becomes a job; an unknown task type gets the reflector and the strategist.
   */
  lemma RoutesAreKnownAndDistinct(taskType: string)
    ensures forall n :: n in Route(taskType) ==> RoleOf(n).Some?
    ensures Distinct(Route(taskType))
    ensures |Known(Route(taskType))| == |Route(taskType)|
    ensures taskType !in RoutingTable ==> Known(Route(taskType)) == [Reflector, Strategist]
  {
    TableRoutesGood();
    var rt := Route(taskType);
    assert GoodRoute(rt);
    KnownOfKnown(rt);
  }

  lemma {:induction false} KnownOfKnown(names: seq<string>)
    ensures (forall n :: n in names ==> RoleOf(n).Some?) ==> |Known(names)| == |names|
    decreases |names|
  {
    if names != [] {
      var n := |names| - 1;
      assert forall x :: x in names[..n] ==> x in names;
      KnownOfKnown(names[..n]);
    }
  }

  // ---------------------------------------------------------------------------
  // Chain execution

  /** `run_chain`'s loop: the results and the store after running `names` in order. */
  function ChainRun(names: seq<string>, query: string, router: ModelRouter, timeout: int, store: Store): (seq<AgentResult>, Store)
    decreases |names|
  {
    if names == [] then ([], store)
    else
      var n := |names| - 1;
      ChainNext(ChainRun(names[..n], query, router, timeout, store), names[n], query, router, timeout)
  }

  /** One round of `run_chain`'s loop: nothing for a name `name_map` lacks, else that agent's run. */
  function ChainNext(prev: (seq<AgentResult>, Store), name: string, query: string, router: ModelRouter, timeout: int): (seq<AgentResult>, Store) {
    match RoleOf(name)
    case None => prev
    case Some(r) =>
      var (o, s) := AgentStep(r, query, router, timeout, prev.1);
      (prev.0 + [ResultOf(r, o)], s)
  }

  lemma {:induction false} StepRole(r: Role, query: string, router: ModelRouter, timeout: int, store: Store)
    ensures ResultOf(r, AgentStep(r, query, router, timeout, store).0).role == RoleName(r)
  {
    StepWritesOwnKey(RoleName(r), Field(r), TaskType(r), PromptFor(r, query, store), router, timeout, store);
  }

  /** `run_chain` returns one result per known name, in chain order, under that agent's role. */
  lemma {:induction false} ChainResultsFollowChain(names: seq<string>, query: string, router: ModelRouter, timeout: int, store: Store)
    ensures var results := ChainRun(names, query, router, timeout, store).0;
      && |results| == |Known(names)|
      && forall i :: 0 <= i < |results| ==> results[i].role == RoleName(Known(names)[i])
    decreases |names|
  {
    if names != [] {
      var n := |names| - 1;
      ChainResultsFollowChain(names[..n], query, router, timeout, store);
      var prev := ChainRun(names[..n], query, router, timeout, store);
      ChainNextRoles(prev, names[n], query, router, timeout);
      KnownStep(names);
      RolesStep(prev.0, ChainRun(names, query, router, timeout, store).0, Known(names[..n]), Known(names));
    }
  }

  /** The agents selected by a non-empty list: those of its prefix, then its last name's agent if it has one. */
  lemma {:induction false} KnownStep(names: seq<string>)
    requires names != []
    ensures var n := |names| - 1;
      Known(names) == Known(names[..n]) + (if RoleOf(names[n]).Some? then [RoleOf(names[n]).value] else [])
  {
  }

  /** A chain round keeps the earlier results and adds one under the agent's role when the name is known. */
  lemma {:induction false} ChainNextRoles(prev: (seq<AgentResult>, Store), name: string, query: string, router: ModelRouter, timeout: int)
    ensures var next := ChainNext(prev, name, query, router, timeout).0;
      && next[..|prev.0|] == prev.0
      && |next| == |prev.0| + (if RoleOf(name).Some? then 1 else 0)
      && (RoleOf(name).Some? ==> next[|prev.0|].role == RoleName(RoleOf(name).value))
  {
    if RoleOf(name).Some? {
      StepRole(RoleOf(name).value, query, router, timeout, prev.1);
    }
  }

  /**
   * Extending results that follow `roles` by one result per added role, under that
   * role's name, gives results that follow the extended roles.
   */
  lemma {:induction false} RolesStep(results: seq<AgentResult>, results': seq<AgentResult>, roles: seq<Role>, roles': seq<Role>)
    requires |results| == |roles| && forall i :: 0 <= i < |results| ==> results[i].role == RoleName(roles[i])
    requires |results| <= |results'| && results'[..|results|] == results
    requires |results'| - |results| == |roles'| - |roles| && roles'[..|roles|] == roles
    requires forall i :: |results| <= i < |results'| ==> results'[i].role == RoleName(roles'[i])
    ensures |results'| == |roles'| && forall i :: 0 <= i < |results'| ==> results'[i].role == RoleName(roles'[i])
  {
    forall i | 0 <= i < |results'| ensures results'[i].role == RoleName(roles'[i]) {
      if i < |results| {
        assert results'[i] == results'[..|results|][i];
        assert roles'[i] == roles'[..|roles|][i];
      }
    }
  }

  /** Agents write only under their own names: keys no known chain name maps to keep their values. */
  lemma {:induction false} ChainFrame(names: seq<string>, query: string, router: ModelRouter, timeout: int, store: Store, k: string)
    ensures (forall r :: r in Known(names) ==> RoleName(r) != k) ==>
      Get(ChainRun(names, query, router, timeout, store).1, k, EmptyDict) == Get(store, k, EmptyDict)
    decreases |names|
  {
    if names != [] {
      var n := |names| - 1;
      ChainFrame(names[..n], query, router, timeout, store, k);
      var s := ChainRun(names[..n], query, router, timeout, store).1;
      if RoleOf(names[n]).Some? {
        var r := RoleOf(names[n]).value;
        StepWritesOwnKey(RoleName(r), Field(r), TaskType(r), PromptFor(r, query, s), router, timeout, s);
      }
    }
  }

  /** A returned run leaves exactly its output merged under its own name; any other run leaves the store alone. */
  lemma StepStoresOutput(r: Role, query: string, router: ModelRouter, timeout: int, store: Store)
    ensures var (o, s) := AgentStep(r, query, router, timeout, store);
      && (o.Returned? ==> s == AfterUpdate(store, RoleName(r), map[Field(r) := Str(o.result.output)]))
      && (!o.Returned? ==> s == store)
  {
    StepWritesOwnKey(RoleName(r), Field(r), TaskType(r), PromptFor(r, query, store), router, timeout, store);
  }

  /** The insight just merged under "reflector" is the strategist's seed. */
  lemma SeedAfterInsight(store: Store, text: string)
    ensures StrategistAgent.Seed(AfterUpdate(store, "reflector", map["insight" := Str(text)])) == Ok(text)
  {
    MergedEntries(store, "reflector", map["insight" := Str(text)]);
  }

  /** The plan just merged under "strategist" is the coach's plan. */
  lemma PlanAfterPlan(store: Store, text: string)
    ensures CoachAgent.Plan(AfterUpdate(store, "strategist", map["plan" := Str(text)])) == Ok(text)
  {
    MergedEntries(store, "strategist", map["plan" := Str(text)]);
  }

  /**
   * The data flow the chain relies on: once the reflector has returned an insight,
   * the strategist's seed is that insight; once the strategist has returned a plan,
   * the coach refines that plan.
   */
  lemma ChainPassesOutputsOn(query: string, router: ModelRouter, timeout: int, store: Store)
    ensures var (o, s) := AgentStep(Reflector, query, router, timeout, store);
      o.Returned? ==> StrategistAgent.Seed(s) == Ok(o.result.output)
    ensures var (o, s) := AgentStep(Strategist, query, router, timeout, store);
      o.Returned? ==> CoachAgent.Plan(s) == Ok(o.result.output)
  {
    StepStoresOutput(Reflector, query, router, timeout, store);
    var (o1, _) := AgentStep(Reflector, query, router, timeout, store);
    if o1.Returned? {
      SeedAfterInsight(store, o1.result.output);
    }
    StepStoresOutput(Strategist, query, router, timeout, store);
    var (o2, _) := AgentStep(Strategist, query, router, timeout, store);
    if o2.Returned? {
      PlanAfterPlan(store, o2.result.output);
    }
  }

  /**
   * Once the reflector's insight and then the strategist's plan are merged (what a
   * returned reflector and strategist leave, by `StepStoresOutput`), the purpose
   * agent's prompt carries both.
   */
  lemma PurposeSeesBoth(query: string, store: Store, insight: string, plan: string)
    ensures var s1 := AfterUpdate(store, "reflector", map["insight" := Str(insight)]);
      var s2 := AfterUpdate(s1, "strategist", map["plan" := Str(plan)]);
      PromptFor(Purpose, query, s2) == Ok(PurposeAgent.Prompt(insight, plan, query))
  {
    var s1 := AfterUpdate(store, "reflector", map["insight" := Str(insight)]);
    var s2 := AfterUpdate(s1, "strategist", map["plan" := Str(plan)]);
    MergedEntries(store, "reflector", map["insight" := Str(insight)]);
    MergedEntries(s1, "strategist", map["plan" := Str(plan)]);
    UpdateDictFrame(s1, "strategist", map["plan" := Str(plan)], "reflector");
  }

  // ---------------------------------------------------------------------------
  // Parallel execution

  /** A merge into the blackboard that a suspended agent performs when it resumes. */
  datatype Write = Write(key: string, values: map<string, Scalar>)

  /** The state once every job has started: the results, what the agents saw, the pending merges. */
  datatype Launched = Launched(results: seq<AgentResult>, view: Store, pending: seq<Write>)

  /**
   * Starting the jobs of `run_parallel` in order. An agent whose model call suspends
   * reads the current view and merges its reply later; any other agent runs to the
   * end at once and its merge is visible to the agents started after it.
   */
  function Launch(names: seq<string>, query: string, router: ModelRouter, timeout: int, store: Store): Launched
    decreases |names|
  {
    if names == [] then Launched([], store, [])
    else
      var n := |names| - 1;
      LaunchStep(Launch(names[..n], query, router, timeout, store), names[n], query, router, timeout)
  }

  /** Starting the job for one routed name (nothing, for a name `name_map` lacks). */
  function LaunchStep(prev: Launched, name: string, query: string, router: ModelRouter, timeout: int): Launched {
    match RoleOf(name)
    case None => prev
    case Some(r) =>
      var (o, s) := AgentStep(r, query, router, timeout, prev.view);
      var p := PromptFor(r, query, prev.view);
      if p.Ok? && Suspends(p.value, TaskType(r), router) then
        var w := if o.Returned? then [Write(RoleName(r), map[Field(r) := Str(o.result.output)])] else [];
        Launched(prev.results + [ResultOf(r, o)], prev.view, prev.pending + w)
      else
        Launched(prev.results + [ResultOf(r, o)], s, prev.pending)
  }

  /** The pending merges, applied in order. */
  function Apply(store: Store, ws: seq<Write>): Store
    decreases |ws|
  {
    if ws == [] then store
    else
      var n := |ws| - 1;
      AfterUpdate(Apply(store, ws[..n]), ws[n].key, ws[n].values)
  }

  /** What `run_parallel` leaves: the gathered results and the final store. */
  function ParallelRun(names: seq<string>, query: string, router: ModelRouter, timeout: int, store: Store): (seq<AgentResult>, Store) {
    var l := Launch(names, query, router, timeout, store);
    (l.results, Apply(l.view, l.pending))
  }

  /** Pending merges under pairwise different keys, one per suspended agent. */
  predicate DistinctWrites(ws: seq<Write>) {
    forall i, j :: 0 <= i < j < |ws| ==> ws[i].key != ws[j].key
  }

  /** Merges under other keys leave a key's presence and value alone. */
  lemma {:induction false} ApplyUntouched(store: Store, ws: seq<Write>, k: string)
    requires forall i :: 0 <= i < |ws| ==> ws[i].key != k
    ensures (k in Apply(store, ws)) == (k in store)
    ensures k in store ==> Apply(store, ws)[k] == store[k]
    decreases |ws|
  {
    if ws != [] {
      ApplyUntouched(store, ws[..|ws| - 1], k);
    }
  }

  /** With distinct keys, each written key ends as the starting entry merged with its own write. */
  lemma {:induction false} ApplyWritten(store: Store, ws: seq<Write>, i: int)
    requires DistinctWrites(ws)
    requires 0 <= i < |ws|
    ensures ws[i].key in Apply(store, ws)
    ensures Apply(store, ws)[ws[i].key] == Dict(Merged(store, ws[i].key, ws[i].values))
    decreases |ws|
  {
    var n := |ws| - 1;
    var k := ws[i].key;
    if i == n {
      ApplyUntouched(store, ws[..n], k);
      assert Get(Apply(store, ws[..n]), k, EmptyDict) == Get(store, k, EmptyDict);
    } else {
      ApplyWritten(store, ws[..n], i);
    }
  }

  /** A write occurs at most once in a sequence of writes with distinct keys. */
  lemma {:induction false} SingleCopy(ws: seq<Write>, w: Write)
    requires DistinctWrites(ws)
    ensures multiset(ws)[w] <= 1
    decreases |ws|
  {
    if ws != [] {
      var n := |ws| - 1;
      assert ws == ws[..n] + [ws[n]];
      SingleCopy(ws[..n], w);
      if w == ws[n] {
        assert forall i :: 0 <= i < n ==> ws[..n][i].key != w.key;
        assert w !in ws[..n];
      }
    }
  }

  /** Two equal elements at different positions make two copies. */
  lemma TwoCopies(ws: seq<Write>, i: int, j: int)
    requires 0 <= i < j < |ws|
    ensures ws[i] == ws[j] ==> multiset(ws)[ws[i]] >= 2
  {
    assert ws == ws[..j] + ws[j..];
    assert ws[i] == ws[..j][i] && ws[j] == ws[j..][0];
  }

  /** Any reordering of writes with distinct keys still has distinct keys. */
  lemma {:induction false} ReorderKeepsDistinct(ws: seq<Write>, vs: seq<Write>)
    requires DistinctWrites(ws)
    requires multiset(vs) == multiset(ws)
    ensures DistinctWrites(vs)
  {
    forall i, j | 0 <= i < j < |vs|
      ensures vs[i].key != vs[j].key
    {
      TwoCopies(vs, i, j);
      SingleCopy(ws, vs[i]);
      assert vs[i] in multiset(ws) && vs[j] in multiset(ws);
      var p :| 0 <= p < |ws| && ws[p] == vs[i];
      var q :| 0 <= q < |ws| && ws[q] == vs[j];
      assert p != q ==> ws[p].key != ws[q].key;
    }
  }

  /**
   * The suspended agents may resume in any order: applying their pending merges, all
   * under different keys, in any reordering gives the same final store.
   */
  lemma {:induction false} ResumptionOrderIrrelevant(store: Store, ws: seq<Write>, vs: seq<Write>)
    requires DistinctWrites(ws)
    requires multiset(vs) == multiset(ws)
    ensures Apply(store, vs) == Apply(store, ws)
  {
    ReorderKeepsDistinct(ws, vs);
    var a, b := Apply(store, vs), Apply(store, ws);
    forall k
      ensures (k in a) == (k in b)
      ensures k in a ==> a[k] == b[k]
    {
      if i :| 0 <= i < |ws| && ws[i].key == k {
        ApplyWritten(store, ws, i);
        assert ws[i] in multiset(vs);
        var j :| 0 <= j < |vs| && vs[j] == ws[i];
        ApplyWritten(store, vs, j);
      } else {
        ApplyUntouched(store, ws, k);
        forall j | 0 <= j < |vs|
          ensures vs[j].key != k
        {
          assert vs[j] in multiset(ws);
          var p :| 0 <= p < |ws| && ws[p] == vs[j];
        }
        ApplyUntouched(store, vs, k);
      }
    }
    assert a == b;
  }

  /** Starting a job queues at most one merge, under the agent's own name. */
  lemma {:induction false} LaunchStepPending(prev: Launched, name: string, query: string, router: ModelRouter, timeout: int)
    ensures var next := LaunchStep(prev, name, query, router, timeout).pending;
      next == prev.pending || (|next| == |prev.pending| + 1 && next[..|prev.pending|] == prev.pending && next[|prev.pending|].key == name)
  {
  }

  /**
   * On a route that names no agent twice, every pending merge is under a routed name and
   * no two are under the same key, so `ResumptionOrderIrrelevant` applies to them.
   */
  lemma {:induction false} PendingDistinct(names: seq<string>, query: string, router: ModelRouter, timeout: int, store: Store)
    requires Distinct(names)
    ensures var pending := Launch(names, query, router, timeout, store).pending;
      && DistinctWrites(pending)
      && forall i :: 0 <= i < |pending| ==> pending[i].key in names
    decreases |names|
  {
    if names != [] {
      var n := |names| - 1;
      assert Distinct(names[..n]);
      PendingDistinct(names[..n], query, router, timeout, store);
      var prev := Launch(names[..n], query, router, timeout, store);
      LaunchStepPending(prev, names[n], query, router, timeout);
      PendingAppend(prev.pending, Launch(names, query, router, timeout, store).pending, names, n);
    }
  }

  /**
   * `run_parallel` on a route naming no agent twice ends with the same blackboard
   * whatever order the suspended agents resume in.
   */
  lemma {:induction false} ParallelStoreIgnoresResumptionOrder(names: seq<string>, query: string, router: ModelRouter,
                                                               timeout: int, store: Store, resumed: seq<Write>)
    requires Distinct(names)
    requires multiset(resumed) == multiset(Launch(names, query, router, timeout, store).pending)
    ensures Apply(Launch(names, query, router, timeout, store).view, resumed) == ParallelRun(names, query, router, timeout, store).1
  {
    var l := Launch(names, query, router, timeout, store);
    PendingDistinct(names, query, router, timeout, store);
    ResumptionOrderIrrelevant(l.view, l.pending, resumed);
  }

  /** Appending a merge under a name not yet routed keeps the pending merges distinct. */
  lemma {:induction false} PendingAppend(pending: seq<Write>, next: seq<Write>, names: seq<string>, n: int)
    requires 0 <= n < |names| && Distinct(names)
    requires DistinctWrites(pending)
    requires forall i :: 0 <= i < |pending| ==> pending[i].key in names[..n]
    requires next == pending || (|next| == |pending| + 1 && next[..|pending|] == pending && next[|pending|].key == names[n])
    ensures DistinctWrites(next)
    ensures forall i :: 0 <= i < |next| ==> next[i].key in names[..n + 1]
  {
    assert names[..n + 1] == names[..n] + [names[n]];
    if next != pending {
      assert names[n] !in names[..n];
      forall i | 0 <= i < |next|
        ensures next[i].key in names[..n + 1]
      {
        if i < |pending| {
          assert next[i] == pending[i];
        }
      }
      forall i, j | 0 <= i < j < |next|
        ensures next[i].key != next[j].key
      {
        if j < |pending| {
          assert next[i] == pending[i] && next[j] == pending[j];
        } else {
          assert next[i] == pending[i];
        }
      }
    }
  }

  /** Without a router nothing suspends, so running "in parallel" is running the chain. */
  lemma {:induction false} ParallelWithoutRouterIsChain(names: seq<string>, query: string, timeout: int, store: Store)
    ensures Launch(names, query, NoRouter, timeout, store).pending == []
    ensures Launch(names, query, NoRouter, timeout, store).view == ChainRun(names, query, NoRouter, timeout, store).1
    ensures ParallelRun(names, query, NoRouter, timeout, store) == ChainRun(names, query, NoRouter, timeout, store)
    decreases |names|
  {
    if names != [] {
      var n := |names| - 1;
      ParallelWithoutRouterIsChain(names[..n], query, timeout, store);
    }
  }

  /** Every call of this router suspends the event loop. */
  ghost predicate AlwaysSuspends(router: ModelRouter) {
    router.Router? && forall p, t :: router.call(p, t).latency > 0
  }

  /**
   * When every model call suspends, every agent sees the blackboard as it was before
   * the run: in parallel mode the strategist does not get this run's insight, and
   * each result is what that agent would produce alone on the starting store.
   */
  lemma {:induction false} ParallelAgentsSeeStartingStore(names: seq<string>, query: string, router: ModelRouter, timeout: int, store: Store)
    ensures AlwaysSuspends(router) ==>
      var l := Launch(names, query, router, timeout, store);
      && l.view == store
      && |l.results| == |Known(names)|
      && forall i :: 0 <= i < |l.results| ==>
           l.results[i] == ResultOf(Known(names)[i], AgentStep(Known(names)[i], query, router, timeout, store).0)
    decreases |names|
  {
    if names != [] && AlwaysSuspends(router) {
      var n := |names| - 1;
      ParallelAgentsSeeStartingStore(names[..n], query, router, timeout, store);
      var prev := Launch(names[..n], query, router, timeout, store);
      LaunchStepSuspended(prev, names[n], query, router, timeout);
      KnownStep(names);
      AloneStep(prev.results, Known(names[..n]), RoleOf(names[n]), query, router, timeout, store);
    }
  }

  /** With a router that always suspends, starting a job changes no view and adds the agent's own result. */
  lemma {:induction false} LaunchStepSuspended(prev: Launched, name: string, query: string, router: ModelRouter, timeout: int)
    requires AlwaysSuspends(router)
    ensures var next := LaunchStep(prev, name, query, router, timeout);
      && next.view == prev.view
      && next.results == prev.results +
           (if RoleOf(name).Some? then [ResultOf(RoleOf(name).value, AgentStep(RoleOf(name).value, query, router, timeout, prev.view).0)]
            else [])
  {
    if RoleOf(name).Some? {
      var r := RoleOf(name).value;
      var p := PromptFor(r, query, prev.view);
      if p.Ok? {
        assert router.call(p.value, TaskType(r)).latency > 0;
      }
    }
  }

  /** Results that are each agent's run on `store`, extended by at most one more such result, stay so. */
  lemma {:induction false} AloneStep(results: seq<AgentResult>, roles: seq<Role>, r: Option<Role>,
                                     query: string, router: ModelRouter, timeout: int, store: Store)
    requires |results| == |roles|
    requires forall i :: 0 <= i < |results| ==> results[i] == ResultOf(roles[i], AgentStep(roles[i], query, router, timeout, store).0)
    ensures var results' := results + (if r.Some? then [ResultOf(r.value, AgentStep(r.value, query, router, timeout, store).0)] else []);
      var roles' := roles + (if r.Some? then [r.value] else []);
      && |results'| == |roles'|
      && forall i :: 0 <= i < |results'| ==> results'[i] == ResultOf(roles'[i], AgentStep(roles'[i], query, router, timeout, store).0)
  {
    if r.Some? {
      var x := ResultOf(r.value, AgentStep(r.value, query, router, timeout, store).0);
      var results' := results + [x];
      var roles' := roles + [r.value];
      forall i | 0 <= i < |results'|
        ensures results'[i] == ResultOf(roles'[i], AgentStep(roles'[i], query, router, timeout, store).0)
      {
        if i < |results| {
          assert results'[i] == results[i] && roles'[i] == roles[i];
        }
      }
    } else {
      assert results + [] == results && roles + [] == roles;
    }
  }

  /** `run_parallel` returns one result per routed agent, in routing order, under that agent's role. */
  lemma {:induction false} ParallelResultsFollowRoute(names: seq<string>, query: string, router: ModelRouter, timeout: int, store: Store)
    ensures var results := Launch(names, query, router, timeout, store).results;
      && |results| == |Known(names)|
      && forall i :: 0 <= i < |results| ==> results[i].role == RoleName(Known(names)[i])
    decreases |names|
  {
    if names != [] {
      var n := |names| - 1;
      ParallelResultsFollowRoute(names[..n], query, router, timeout, store);
      var prev := Launch(names[..n], query, router, timeout, store);
      LaunchStepRoles(prev, names[n], query, router, timeout);
      KnownStep(names);
      RolesStep(prev.results, Launch(names, query, router, timeout, store).results, Known(names[..n]), Known(names));
    }
  }

  /** Starting a job keeps the earlier results and adds one under the agent's role when the name is known. */
  lemma {:induction false} LaunchStepRoles(prev: Launched, name: string, query: string, router: ModelRouter, timeout: int)
    ensures var next := LaunchStep(prev, name, query, router, timeout).results;
      && next[..|prev.results|] == prev.results
      && |next| == |prev.results| + (if RoleOf(name).Some? then 1 else 0)
      && (RoleOf(name).Some? ==> next[|prev.results|].role == RoleName(RoleOf(name).value))
  {
    if RoleOf(name).Some? {
      StepRole(RoleOf(name).value, query, router, timeout, prev.view);
    }
  }

  // ---------------------------------------------------------------------------
  // The coordinator object

  /** What both runs return: `{"results": ..., "eval": ..., "snapshot": ...}`. */
  datatype Report = Report(results: seq<AgentResult>, eval: Evaluation, snapshot: Store)

  /** The constructor's default `timeout`, in seconds. */
  const DefaultTimeout: int := 20

  class CoordinatorAgent {
    const blackboard: Blackboard
    const router: ModelRouter
    const timeout: int

    /** `CoordinatorAgent(model_router=router, timeout=timeout)` with a fresh, empty blackboard. */
    constructor (router: ModelRouter, timeout: int)
      ensures fresh(blackboard) && blackboard.store == map[]
      ensures this.router == router && this.timeout == timeout
    {
      blackboard := new Blackboard();
      this.router := router;
      this.timeout := timeout;
    }

    /** `_run_agent`: run one agent under the timeout and turn failures into placeholders. */
    method RunAgent(r: Role, query: string) returns (res: AgentResult)
      modifies blackboard
      ensures (res, blackboard.store) ==
        (ResultOf(r, AgentStep(r, query, router, timeout, old(blackboard.store)).0),
         AgentStep(r, query, router, timeout, old(blackboard.store)).1)
    {
      var o: RunOutcome;
      match r {
        case Reflector => o := ReflectorAgent.Run(query, blackboard, router, timeout);
        case Strategist => o := StrategistAgent.Run(query, blackboard, router, timeout);
        case Coach => o := CoachAgent.Run(query, blackboard, router, timeout);
        case Purpose => o := PurposeAgent.Run(query, blackboard, router, timeout);
      }
      res := ResultOf(r, o);
    }

    /** `run_chain(query, chain)`: the agents one after the other, then the evaluation and a snapshot. */
    method RunChain(query: string, chain: seq<string>) returns (rep: Report)
      modifies blackboard
      ensures (rep.results, blackboard.store) == ChainRun(chain, query, router, timeout, old(blackboard.store))
      ensures rep.eval == EvaluationOf(query, rep.results)
      ensures rep.snapshot == blackboard.store
    {
      var results: seq<AgentResult> := [];
      var i := 0;
      while i < |chain|
        invariant 0 <= i <= |chain|
        invariant (results, blackboard.store) == ChainRun(chain[..i], query, router, timeout, old(blackboard.store))
      {
        assert chain[..i + 1][..i] == chain[..i];
        results := ChainStep(chain[i], query, results);
        i := i + 1;
      }
      assert chain[..i] == chain;
      var eval := Evaluate(query, results);
      var snapshot := blackboard.Dump();
      rep := Report(results, eval, snapshot);
    }

    /** One round of `run_chain`'s loop: run the named agent, if `name_map` knows it. */
    method ChainStep(name: string, query: string, results: seq<AgentResult>) returns (results': seq<AgentResult>)
      modifies blackboard
      ensures (results', blackboard.store) == ChainNext((results, old(blackboard.store)), name, query, router, timeout)
    {
      results' := results;
      var agent := RoleOf(name);
      if agent.Some? {
        var res := RunAgent(agent.value, query);
        results' := results + [res];
      }
    }

    /**
     * One job of `asyncio.gather`, run up to its first suspension: an agent whose model
     * call suspends only reads the blackboard and leaves its merge pending; any other
     * agent runs to the end.
     */
    method StartJob(name: string, query: string, results: seq<AgentResult>, pending: seq<Write>)
      returns (results': seq<AgentResult>, pending': seq<Write>)
      modifies blackboard
      ensures Launched(results', blackboard.store, pending') ==
        LaunchStep(Launched(results, old(blackboard.store), pending), name, query, router, timeout)
    {
      results', pending' := results, pending;
      var agent := RoleOf(name);
      if agent.Some? {
        var r := agent.value;
        var prompt := PromptFor(r, query, blackboard.store);
        if prompt.Ok? && Suspends(prompt.value, TaskType(r), router) {
          var (o, _) := AgentStep(r, query, router, timeout, blackboard.store);
          results' := results + [ResultOf(r, o)];
          if o.Returned? {
            pending' := pending + [Write(RoleName(r), map[Field(r) := Str(o.result.output)])];
          }
        } else {
          var res := RunAgent(r, query);
          results' := results + [res];
        }
      }
    }

    /**
     * `run_parallel(query, task_type)`: start the routed agents in order (an agent
     * whose model call suspends leaves its merge pending), let the suspended ones
     * finish, then evaluate and take a snapshot.
     */
    method RunParallel(query: string, taskType: string) returns (rep: Report)
      modifies blackboard
      ensures (rep.results, blackboard.store) == ParallelRun(Route(taskType), query, router, timeout, old(blackboard.store))
      ensures rep.eval == EvaluationOf(query, rep.results)
      ensures rep.snapshot == blackboard.store
    {
      var results, pending := LaunchAll(Route(taskType), query);
      ApplyPending(pending);
      var eval := Evaluate(query, results);
      var snapshot := blackboard.Dump();
      rep := Report(results, eval, snapshot);
    }

    /** `asyncio.gather` up to the point where every job has started. */
    method LaunchAll(names: seq<string>, query: string) returns (results: seq<AgentResult>, pending: seq<Write>)
      modifies blackboard
      ensures Launched(results, blackboard.store, pending) == Launch(names, query, router, timeout, old(blackboard.store))
    {
      results, pending := [], [];
      var i := 0;
      while i < |names|
        invariant 0 <= i <= |names|
        invariant Launch(names[..i], query, router, timeout, old(blackboard.store)) == Launched(results, blackboard.store, pending)
      {
        assert names[..i + 1][..i] == names[..i];
        results, pending := StartJob(names[i], query, results, pending);
        i := i + 1;
      }
      assert names[..i] == names;
    }

    /** The suspended agents resume and merge their replies, in order. */
    method ApplyPending(pending: seq<Write>)
      modifies blackboard
      ensures blackboard.store == Apply(old(blackboard.store), pending)
    {
      var j := 0;
      while j < |pending|
        invariant 0 <= j <= |pending|
        invariant blackboard.store == Apply(old(blackboard.store), pending[..j])
      {
        assert pending[..j + 1][..j] == pending[..j];
        blackboard.UpdateDict(pending[j].key, pending[j].values);
        j := j + 1;
      }
      assert pending[..j] == pending;
    }
  }
}
