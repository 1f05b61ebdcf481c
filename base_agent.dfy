/**
 * What every agent shares: the router-or-fallback model call `_call_model`, the
 * result record `{role, output}`, the abstract `run`, and the common tail of each
 * agent's `run` (call the model, merge one field into the agent's own blackboard key).
 */
module BaseAgent {
  import opened Wrappers
  import opened PyString
  import opened SharedState
  import opened Generation

  /** The agents' model router: absent, or a call taking the prompt and the task type. */
  datatype ModelRouter = NoRouter | Router(call: (string, string) -> Outcome)

  /** The dict an agent's `run` returns, `{"role": ..., "output": ...}`. */
  datatype AgentResult = AgentResult(role: string, output: string)

  /**
   * How one `run` ends inside the coordinator's `asyncio.wait_for`: it returns its
   * result, it is cancelled at the model call because the timeout expired, or it
   * raises an exception with the given message.
   */
  datatype RunOutcome = Returned(result: AgentResult) | TimedOut | Failed(error: string)

  /** What `_call_model` hands back under an enclosing timeout. */
  datatype Completion = Completed(text: string) | Cancelled

  const FallbackLength: nat := 300

  function FallbackPrefix(name: string): string {
    "(local fallback by " + name + ") "
  }

  /** The local fallback text `f"(local fallback by {name}) {prompt[:300]}"`. */
  function Fallback(name: string, prompt: string): (r: string)
    ensures StartsWith(r, FallbackPrefix(name))
    ensures |r| == |FallbackPrefix(name)| + (if |prompt| < FallbackLength then |prompt| else FallbackLength)
    ensures r[|FallbackPrefix(name)|..] <= prompt
  {
    var r := FallbackPrefix(name) + Take(prompt, FallbackLength);
    assert r[..|FallbackPrefix(name)|] == FallbackPrefix(name);
    assert r[|FallbackPrefix(name)|..] == Take(prompt, FallbackLength);
    r
  }

  /**
   * `_call_model(prompt, task_type)` for agent `name`, run under a timeout: without a
   * router the fallback text; with one, its reply, or the fallback when it raises; and
   * cancelled when the router call outlasts the timeout.
   */
  function CallModel(name: string, prompt: string, taskType: string, router: ModelRouter, timeout: int): (c: Completion)
    ensures router.NoRouter? ==> c == Completed(Fallback(name, prompt))
    ensures router.Router? ==>
      var o := router.call(prompt, taskType);
      && (ExceedsTimeout(o, timeout) ==> c == Cancelled)
      && (!ExceedsTimeout(o, timeout) && o.reply.Text? ==> c == Completed(o.reply.text))
      && (!ExceedsTimeout(o, timeout) && o.reply.Raised? ==> c == Completed(Fallback(name, prompt)))
  {
    match router
    case NoRouter => Completed(Fallback(name, prompt))
    case Router(call) =>
      var o := call(prompt, taskType);
      if ExceedsTimeout(o, timeout) then Cancelled
      else match o.reply
        case Text(t) => Completed(t)
        case Raised(_) => Completed(Fallback(name, prompt))
  }

  /** A generation failure never escapes `_call_model`: only the timeout can stop it. */
  lemma CallModelNeverRaises(name: string, prompt: string, taskType: string, router: ModelRouter, timeout: int)
    ensures CallModel(name, prompt, taskType, router, timeout).Cancelled? <==>
              router.Router? && ExceedsTimeout(router.call(prompt, taskType), timeout)
  {
  }

  /** The call suspends the event loop (a router call with positive latency). */
  predicate Suspends(prompt: string, taskType: string, router: ModelRouter) {
    router.Router? && router.call(prompt, taskType).latency > 0
  }

  /** The abstract `BaseAgent.run`: it always raises `NotImplementedError()`, whose message is empty. */
  function BaseRun(query: string): (o: RunOutcome)
    ensures !o.Returned? && !o.TimedOut? && o.error == ""
  {
    Failed("")
  }

  /**
   * `d.get(field, default)` on the value an agent read with `read(key, {})`: a dict
   * answers, anything else raises `AttributeError`.
   */
  function GetField(v: Value, field: string, default: Scalar): (r: Result<Scalar>)
    ensures v.Dict? <==> r.Ok?
    ensures v.Dict? && field in v.entries ==> r == Ok(v.entries[field])
    ensures v.Dict? && field !in v.entries ==> r == Ok(default)
  {
    if v.Dict? then Ok(if field in v.entries then v.entries[field] else default)
    else Err("'" + TypeName(v) + "' object has no attribute 'get'")
  }

  /**
   * One agent's `run` as a transition of the blackboard store: the prompt it built
   * from the store (or the exception building it raised), then the model call, then
   * `update_dict(name, {field: reply})`.
   */
  function Step(name: string, field: string, taskType: string, prompt: Result<string>,
                router: ModelRouter, timeout: int, store: Store): (RunOutcome, Store)
  {
    match prompt
    case Err(e) => (Failed(e), store)
    case Ok(p) =>
      match CallModel(name, p, taskType, router, timeout)
      case Cancelled => (TimedOut, store)
      case Completed(t) => (Returned(AgentResult(name, t)), AfterUpdate(store, name, map[field := Str(t)]))
  }

  /**
   * Each `run` changes at most its own key: the store afterwards is the old one, or
   * the old one with exactly `field` merged into the dict at `name`, holding the
   * output the agent returned under its own role.
   */
  lemma StepWritesOwnKey(name: string, field: string, taskType: string, prompt: Result<string>,
                         router: ModelRouter, timeout: int, store: Store)
    ensures var (o, s) := Step(name, field, taskType, prompt, router, timeout, store);
      && (o.Returned? ==>
            && o.result.role == name
            && s == AfterUpdate(store, name, map[field := Str(o.result.output)])
            && s[name].entries[field] == Str(o.result.output))
      && (!o.Returned? ==> s == store)
      && (forall k :: k != name ==> Get(s, k, EmptyDict) == Get(store, k, EmptyDict))
  {
  }

  /**
   * The common tail of every agent's `run`: call the model and, unless cancelled,
   * merge `{field: reply}` into the blackboard under the agent's own name.
   */
  method Finish(name: string, field: string, taskType: string, prompt: string,
                board: Blackboard, router: ModelRouter, timeout: int) returns (o: RunOutcome)
    modifies board
    ensures (o, board.store) == Step(name, field, taskType, Ok(prompt), router, timeout, old(board.store))
  {
    var c := CallModel(name, prompt, taskType, router, timeout);
    match c {
      case Cancelled =>
        o := TimedOut;
      case Completed(reply) =>
        board.UpdateDict(name, map[field := Str(reply)]);
        o := Returned(AgentResult(name, reply));
    }
  }
}
