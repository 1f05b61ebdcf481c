/**
 * The MCP engine: a second orchestrator that builds one prompt per role from the
 * retrieved context (or the session memory), calls the model router with retries,
 * collects the outputs in a snapshot, and fuses them into one reply.
 *
 * Python dicts that keep insertion order (`results`, `snapshot`) are association
 * lists whose keys are distinct: `Put` replaces a key's value in place or appends
 * a new key at the end.
 */
module McpEngine {
  import opened Wrappers
  import opened PyString
  import opened Generation

  // ---------------------------------------------------------------------------
  // Insertion-ordered dicts

  type Dict<V> = seq<(string, V)>

  predicate DistinctKeys<V>(d: Dict<V>) {
    forall i, j :: 0 <= i < j < |d| ==> d[i].0 != d[j].0
  }

  function Keys<V>(d: Dict<V>): seq<string> {
    seq(|d|, i requires 0 <= i < |d| => d[i].0)
  }

  /** `d.get(k)`. */
  function Lookup<V>(d: Dict<V>, k: string): Option<V>
    decreases |d|
  {
    if d == [] then None
    else if d[0].0 == k then Some(d[0].1)
    else Lookup(d[1..], k)
  }

  /** `d[k] = v`: an existing key keeps its position, a new key goes last. */
  function Put<V>(d: Dict<V>, k: string, v: V): (r: Dict<V>)
    ensures Lookup(r, k) == Some(v)
    ensures forall k' :: k' != k ==> Lookup(r, k') == Lookup(d, k')
    ensures Lookup(d, k).None? ==> r == d + [(k, v)]
    ensures Lookup(d, k).Some? ==> |r| == |d| && Keys(r) == Keys(d)
    decreases |d|
  {
    if d == [] then [(k, v)]
    else if d[0].0 == k then [(k, v)] + d[1..]
    else
      var rest := Put(d[1..], k, v);
      assert Keys([d[0]] + rest) == [d[0].0] + Keys(rest);
      assert Keys(d) == [d[0].0] + Keys(d[1..]);
      [d[0]] + rest
  }

  lemma {:induction false} LookupIn<V>(d: Dict<V>, k: string)
    ensures Lookup(d, k).Some? <==> k in Keys(d)
    decreases |d|
  {
    if d != [] {
      LookupIn(d[1..], k);
      assert Keys(d) == [d[0].0] + Keys(d[1..]);
    }
  }

  // ---------------------------------------------------------------------------
  // Prompts

  const AgentProfiles: map<string, string> := map[
    "reflector" :=
      "Reflection Agent: empathetic, " + "asks reflective questions, surfaces " + "emotions and "
      + "internal drivers. Helps the " + "user observe without judgement.",
    "strategist" :=
      "Strategist Agent: structured " + "reasoning, breaks goals into " + "steps and weekly plans. "
      + "Produces clear, actionable milestones.",
    "coach" :=
      "Consistency Coach: behavior-focused, " + "creates micro-habits, nudges " + "and accountability "
      + "structures to sustain actions.",
    "purpose" :=
      "Purpose Agent: connects tasks " + "and actions to deeper values, " + "purpose and long-term "
      + "alignment. Produces short mission " + "statements and motivation framing."
  ]

  const NoContext: string := "No context available."
  const Closing: string :=
    "Please respond concisely and " + "include helpful next steps or " + "reflective questions where relevant."

  /** `AGENT_PROFILES.get(role, f"{role} agent")`. */
  function Profile(role: string): string {
    if role in AgentProfiles then AgentProfiles[role] else role + " agent"
  }

  /** The `[<ROLE> AGENT]` header; the role is upper-cased with ASCII case mapping. */
  function Header(role: string): string {
    "[" + Upper(role) + " AGENT]"
  }

  /** The section listing earlier outputs; empty when the snapshot is missing or empty. */
  function SnapshotText(snapshot: Dict<string>): string {
    if snapshot == [] then ""
    else
      "\n\nPrevious agent snapshots:\n"
      + Join("\n", seq(|snapshot|, i requires 0 <= i < |snapshot| => "[" + snapshot[i].0 + "] " + snapshot[i].1))
  }

  function ContextText(context: string): string {
    if context == [] then NoContext else context
  }

  /** Everything before the snapshot section. */
  function PromptHead(role: string, context: string, query: string): string {
    Header(role) + "\nRole description:\n" + Profile(role) + "\n\nContext:\n" + ContextText(context)
    + "\n\nUser query:\n" + query + "\n\n"
  }

  /** `_build_agent_prompt(role, context, query, snapshot)`; a `None` snapshot is `[]`. */
  function BuildAgentPrompt(role: string, context: string, query: string, snapshot: Dict<string>): string {
    PromptHead(role, context, query) + (SnapshotText(snapshot) + "\n\n" + Closing)
  }

  /**
   * The prompt opens with the upper-cased role header, describes the role (a role
   * without a profile is described as "<role> agent"), carries the context or
   * "No context available." and the query.
   */
  lemma PromptShape(role: string, context: string, query: string, snapshot: Dict<string>)
    ensures var p := BuildAgentPrompt(role, context, query, snapshot);
      && StartsWith(p, Header(role))
      && Occurs(p, Profile(role))
      && Occurs(p, query)
      && Occurs(p, ContextText(context))
      && (context == [] ==> Occurs(p, NoContext))
      && (role !in AgentProfiles ==> Occurs(p, role + " agent"))
  {
    var head := PromptHead(role, context, query);
    var tail := SnapshotText(snapshot) + "\n\n" + Closing;
    HeadShape(role, context, query);
    OccursExtend(head, tail, Profile(role));
    OccursExtend(head, tail, query);
    OccursExtend(head, tail, ContextText(context));
    PrefixOfTemplate(Header(role), head, tail);
  }

  /** The same facts about the part of the prompt before the snapshot section. */
  lemma HeadShape(role: string, context: string, query: string)
    ensures var head := PromptHead(role, context, query);
      && StartsWith(head, Header(role))
      && Occurs(head, Profile(role))
      && Occurs(head, query)
      && Occurs(head, ContextText(context))
  {
    var h := Header(role);
    var a := h + "\nRole description:\n";
    OccursInTemplate3(a, Profile(role), "\n\nContext:\n", ContextText(context), "\n\nUser query:\n", query, "\n\n");
    PrefixOfTemplate(h, h, "\nRole description:\n");
    PrefixOfTemplate(h, a, Profile(role));
    PrefixOfTemplate(h, a + Profile(role), "\n\nContext:\n");
    PrefixOfTemplate(h, a + Profile(role) + "\n\nContext:\n", ContextText(context));
    PrefixOfTemplate(h, a + Profile(role) + "\n\nContext:\n" + ContextText(context), "\n\nUser query:\n");
    PrefixOfTemplate(h, a + Profile(role) + "\n\nContext:\n" + ContextText(context) + "\n\nUser query:\n", query);
    PrefixOfTemplate(h, a + Profile(role) + "\n\nContext:\n" + ContextText(context) + "\n\nUser query:\n" + query, "\n\n");
  }

  lemma PrefixOfTemplate(a: string, head: string, tail: string)
    requires StartsWith(head, a)
    ensures StartsWith(head + tail, a)
  {
    assert (head + tail)[..|a|] == head[..|a|];
  }

  /** The snapshot section is present exactly when the snapshot is non-empty. */
  lemma SnapshotSectionIffNonEmpty(snapshot: Dict<string>)
    ensures SnapshotText(snapshot) == [] <==> snapshot == []
  {
  }

  // ---------------------------------------------------------------------------
  // Fusing the snapshot into one reply

  const FusionFallback: string := "I'm here with you. " + "How are you feeling right now?"

  /** The phrase that introduces each known role's output. */
  const Connectives: map<string, string> := map[
    "reflector" := "It sounds like you're reflecting " + "deeply. ",
    "strategist" := "Here's a practical step forward: ",
    "coach" := "To keep it consistent, ",
    "purpose" := "And don't forget why this matters — "
  ]

  /** The phrase that introduces a role's output; unknown roles get none. */
  function Connective(role: string): string {
    if role in Connectives then Connectives[role] else ""
  }

  /** The `parts` list: one entry per non-empty output, in snapshot order. */
  function Parts(snapshot: Dict<string>): seq<string>
    decreases |snapshot|
  {
    if snapshot == [] then []
    else
      var n := |snapshot| - 1;
      var (role, text) := snapshot[n];
      Parts(snapshot[..n]) + (if text == [] then [] else [Connective(role) + Strip(text)])
  }

  /** Join with single spaces, turn newlines into spaces, one pass over double spaces, strip. */
  function Flatten(parts: seq<string>): string {
    Strip(Replace(Replace(Join(" ", parts), "\n", " "), "  ", " "))
  }

  /** What `_fuse_dialogue(snapshot)` returns. */
  function Fused(snapshot: Dict<string>): string {
    var parts := Parts(snapshot);
    if parts == [] then FusionFallback else Flatten(parts)
  }

  /** `_fuse_dialogue`: the loop that collects `parts`, then the flattening. */
  method FuseDialogue(snapshot: Dict<string>) returns (r: string)
    ensures r == Fused(snapshot)
  {
    var parts: seq<string> := [];
    var i := 0;
    while i < |snapshot|
      invariant 0 <= i <= |snapshot|
      invariant parts == Parts(snapshot[..i])
    {
      assert snapshot[..i + 1][..i] == snapshot[..i];
      var (role, text) := snapshot[i];
      if text != [] {
        parts := parts + [Connective(role) + Strip(text)];
      }
      i := i + 1;
    }
    assert snapshot[..i] == snapshot;
    if parts == [] {
      r := FusionFallback;
    } else {
      r := Flatten(parts);
    }
  }

  /** The fixed reply is used exactly when every output in the snapshot is empty. */
  lemma {:induction false} FallbackWhenAllEmpty(snapshot: Dict<string>)
    ensures Parts(snapshot) == [] <==> forall i :: 0 <= i < |snapshot| ==> snapshot[i].1 == []
    ensures (forall i :: 0 <= i < |snapshot| ==> snapshot[i].1 == []) ==> Fused(snapshot) == FusionFallback
  {
    NoPartsIffAllEmpty(snapshot);
  }

  /** `parts` stays empty exactly when every output is empty. */
  lemma {:induction false} NoPartsIffAllEmpty(snapshot: Dict<string>)
    ensures Parts(snapshot) == [] <==> forall i :: 0 <= i < |snapshot| ==> snapshot[i].1 == []
    decreases |snapshot|
  {
    if snapshot != [] {
      var n := |snapshot| - 1;
      NoPartsIffAllEmpty(snapshot[..n]);
      assert forall i :: 0 <= i < n ==> snapshot[..n][i] == snapshot[i];
    }
  }

  /** Each non-empty output contributes its role's phrase followed by the stripped output. */
  lemma {:induction false} PartsOfOutputs(snapshot: Dict<string>, i: nat)
    requires i < |snapshot| && snapshot[i].1 != []
    ensures Connective(snapshot[i].0) + Strip(snapshot[i].1) in Parts(snapshot)
    decreases |snapshot|
  {
    var n := |snapshot| - 1;
    var part := Connective(snapshot[i].0) + Strip(snapshot[i].1);
    PartsStep(snapshot, part);
    if i < n {
      assert snapshot[..n][i] == snapshot[i];
      PartsOfOutputs(snapshot[..n], i);
    }
  }

  /** The parts of a snapshot extend the parts of its prefix by the last output's part, if any. */
  lemma {:induction false} PartsStep(snapshot: Dict<string>, part: string)
    requires snapshot != []
    ensures var n := |snapshot| - 1;
      && (part in Parts(snapshot[..n]) ==> part in Parts(snapshot))
      && (snapshot[n].1 != [] && part == Connective(snapshot[n].0) + Strip(snapshot[n].1) ==> part in Parts(snapshot))
  {
  }

  /** A flattened reply holds no newline and starts and ends with a non-space character. */
  lemma FlattenIsOneClean(parts: seq<string>)
    ensures !Occurs(Flatten(parts), "\n")
    ensures var r := Flatten(parts); r == [] || (!IsSpace(r[0]) && !IsSpace(r[|r| - 1]))
  {
    var j := Join(" ", parts);
    var a := Replace(j, "\n", " ");
    ReplaceAvoids(j, "\n", " ", "\n");
    var b := Replace(a, "  ", " ");
    ReplaceAvoids(a, "  ", " ", "\n");
    StripShape(b);
    var i, k :| 0 <= i <= k <= |b| && Strip(b) == b[i..k];
    OccursInSlice(b, "\n", i, k);
  }

  /** The fixed reply holds no newline and has no whitespace at either end. */
  lemma FallbackIsOneLine()
    ensures !Occurs(FusionFallback, "\n")
    ensures !IsSpace(FusionFallback[0]) && !IsSpace(FusionFallback[|FusionFallback| - 1])
  {
    MissingCharNoOccurrence(FusionFallback, "\n", '\n');
  }

  /** So the fused reply, fallback included, holds no newline and has no whitespace at either end. */
  lemma FusedIsOneLine(snapshot: Dict<string>)
    ensures !Occurs(Fused(snapshot), "\n")
    ensures var r := Fused(snapshot); r == [] || (!IsSpace(r[0]) && !IsSpace(r[|r| - 1]))
  {
    FlattenIsOneClean(Parts(snapshot));
    FallbackIsOneLine();
  }

  /** `"a   b".replace("  ", " ")` is `"a  b"`: the scan replaces the first pair and moves past it. */
  lemma ThreeSpacesBecomeTwo()
    ensures Replace("a   b", "  ", " ") == "a  b"
  {
    var t := "a   b";
    assert t[..2] == "a " && t[..2][0] != "  "[0];
    assert t[1..] == "   b" && t[1..][..2] == "  ";
    assert "   b"[2..] == " b" && " b"[..2] == " b" && " b"[..2][1] != "  "[1];
    assert Replace("b", "  ", " ") == "b";
    assert Replace(" b", "  ", " ") == " b";
    assert Replace("   b", "  ", " ") == " " + " b";
  }

  /** An unknown role's output is kept as it is, without a connective. */
  lemma UnknownRolePart(role: string, t: string)
    requires role !in AgentProfiles && t != []
    ensures Parts([(role, t)]) == [Strip(t)]
  {
    assert [(role, t)][..0] == [];
    assert Connective(role) == [];
    assert Connective(role) + Strip(t) == Strip(t);
  }

  /**
   * One pass of `replace("  ", " ")` does not remove every double space: three
   * spaces in an output become two.
   */
  lemma DoubleSpaceSurvives()
    ensures Fused([("note", "a   b")]) == "a  b"
  {
    var t := "a   b";
    StripUnchanged(t);
    UnknownRolePart("note", t);
    assert Join(" ", [t]) == t;
    MissingCharNoOccurrence(t, "\n", '\n');
    ReplaceAbsent(t, "\n", " ");
    ThreeSpacesBecomeTwo();
    StripUnchanged("a  b");
  }

  // ---------------------------------------------------------------------------
  // One agent call with retries

  /** The engine's router call `model_router.run(prompt)`, numbered by attempt. */
  type EngineRouter = (string, nat) -> Outcome

  /** `_call_agent`'s result dict; `error` is present only when every attempt failed. */
  datatype CallResult = CallResult(role: string, success: bool, error: Option<string>, output: string)

  function GiveUpMessage(role: string): string {
    "(local fallback by " + role + ") The " + role + " agent could not produce a response " + "right now."
  }

  /**
   * One attempt under `asyncio.wait_for(..., timeout)`: the reply text, or the
   * `str()` of the exception (empty for `asyncio.TimeoutError`).
   */
  function Attempt(o: Outcome, timeout: int): Result<string> {
    if ExceedsTimeout(o, timeout) then Err("")
    else match o.reply
      case Text(t) => Ok(t)
      case Raised(e) => Err(e)
  }

  predicate Fails(router: EngineRouter, prompt: string, timeout: int, a: nat) {
    Attempt(router(prompt, a), timeout).Err?
  }

  /**
   * The attempts from number `attempt` on, with `last` the message of the latest
   * failure: the result and the sleeps taken, in units of 0.5 seconds.
   */
  function Attempts(role: string, prompt: string, router: EngineRouter, timeout: int, retries: int,
                    attempt: nat, last: string): (CallResult, seq<nat>)
    decreases if attempt <= retries then retries + 1 - attempt else 0
  {
    if attempt > retries then (CallResult(role, false, Some(last), GiveUpMessage(role)), [])
    else match Attempt(router(prompt, attempt), timeout)
      case Ok(t) => (CallResult(role, true, None, t), [])
      case Err(e) =>
        var (r, sleeps) := Attempts(role, prompt, router, timeout, retries, attempt + 1, e);
        (r, [attempt + 1] + sleeps)
  }

  /** `_call_agent(role, prompt)`; before any attempt `last_exc` is `None`, whose `str()` is "None". */
  function CallSpec(role: string, prompt: string, router: EngineRouter, timeout: int, retries: int): (CallResult, seq<nat>) {
    Attempts(role, prompt, router, timeout, retries, 0, "None")
  }

  /**
   * If attempt `k` is the first to succeed, its reply is returned with success and
   * the failures before it each slept `0.5 * attempt` seconds.
   */
  lemma {:induction false} FirstSuccessWins(role: string, prompt: string, router: EngineRouter, timeout: int,
                                            retries: int, attempt: nat, last: string, k: nat)
    requires attempt <= k <= retries
    requires forall i :: attempt <= i < k ==> Fails(router, prompt, timeout, i)
    requires !Fails(router, prompt, timeout, k)
    ensures Attempts(role, prompt, router, timeout, retries, attempt, last) ==
      (CallResult(role, true, None, Attempt(router(prompt, k), timeout).value),
       seq(k - attempt, i requires 0 <= i < k - attempt => attempt + i + 1))
    decreases k - attempt
  {
    if attempt < k {
      assert Fails(router, prompt, timeout, attempt);
      var e := Attempt(router(prompt, attempt), timeout).error;
      FirstSuccessWins(role, prompt, router, timeout, retries, attempt + 1, e, k);
      assert [attempt + 1] + seq(k - (attempt + 1), i requires 0 <= i < k - (attempt + 1) => attempt + 1 + i + 1)
          == seq(k - attempt, i requires 0 <= i < k - attempt => attempt + i + 1);
    } else {
      assert seq(k - attempt, i requires 0 <= i < k - attempt => attempt + i + 1) == [];
    }
  }

  /**
   * If every attempt fails, the call gives up after `retries + 1` attempts with the
   * last attempt's error and the fixed fallback output, having slept after every
   * failure, the last one included.
   */
  lemma {:induction false} AllAttemptsFail(role: string, prompt: string, router: EngineRouter, timeout: int,
                                           retries: int, attempt: nat, last: string)
    requires attempt <= retries
    requires forall i :: attempt <= i <= retries ==> Fails(router, prompt, timeout, i)
    ensures Fails(router, prompt, timeout, retries) && Attempts(role, prompt, router, timeout, retries, attempt, last) ==
      (CallResult(role, false, Some(Attempt(router(prompt, retries), timeout).error), GiveUpMessage(role)),
       seq(retries + 1 - attempt, i requires 0 <= i < retries + 1 - attempt => attempt + i + 1))
    decreases retries - attempt
  {
    assert Fails(router, prompt, timeout, attempt);
    var e := Attempt(router(prompt, attempt), timeout).error;
    assert Fails(router, prompt, timeout, retries);
    assert Attempts(role, prompt, router, timeout, retries, attempt, last) ==
      (Attempts(role, prompt, router, timeout, retries, attempt + 1, e).0,
       [attempt + 1] + Attempts(role, prompt, router, timeout, retries, attempt + 1, e).1);
    if attempt < retries {
      AllAttemptsFail(role, prompt, router, timeout, retries, attempt + 1, e);
      assert [attempt + 1] + seq(retries + 1 - (attempt + 1), i requires 0 <= i < retries + 1 - (attempt + 1) => attempt + 1 + i + 1)
          == seq(retries + 1 - attempt, i requires 0 <= i < retries + 1 - attempt => attempt + i + 1);
    } else {
      assert Attempts(role, prompt, router, timeout, retries, attempt + 1, e) == (CallResult(role, false, Some(e), GiveUpMessage(role)), []);
      var one: seq<nat> := [attempt + 1];
      assert one + [] == one;
      assert seq(retries + 1 - attempt, i requires 0 <= i < retries + 1 - attempt => attempt + i + 1) == one;
    }
  }

  /**
   * At most `retries + 1` attempts are made (one sleep per failed attempt), and
   * the call succeeds exactly when it returns a model reply.
   */
  lemma {:induction false} AttemptsBounded(role: string, prompt: string, router: EngineRouter, timeout: int,
                                           retries: int, attempt: nat, last: string)
    ensures var (r, sleeps) := Attempts(role, prompt, router, timeout, retries, attempt, last);
      && |sleeps| <= (if attempt <= retries then retries + 1 - attempt else 0)
      && (r.success ==> |sleeps| <= retries - attempt && r.error.None?)
      && (!r.success ==> r.output == GiveUpMessage(role) && r.error.Some?)
      && r.role == role
    decreases if attempt <= retries then retries + 1 - attempt else 0
  {
    if attempt <= retries && Fails(router, prompt, timeout, attempt) {
      var e := Attempt(router(prompt, attempt), timeout).error;
      AttemptsBounded(role, prompt, router, timeout, retries, attempt + 1, e);
    }
  }

  /** The call's result carries the role it was made for. */
  lemma CallKeepsRole(role: string, prompt: string, router: EngineRouter, timeout: int, retries: int)
    ensures CallSpec(role, prompt, router, timeout, retries).0.role == role
  {
    AttemptsBounded(role, prompt, router, timeout, retries, 0, "None");
  }

  /** With a negative retry count no attempt is made and the error is "None". */
  lemma NoAttemptWithNegativeRetries(role: string, prompt: string, router: EngineRouter, timeout: int, retries: int)
    requires retries < 0
    ensures CallSpec(role, prompt, router, timeout, retries) == (CallResult(role, false, Some("None"), GiveUpMessage(role)), [])
  {
  }

  // ---------------------------------------------------------------------------
  // A whole run

  const DefaultRoles: seq<string> := ["reflector", "strategist", "coach", "purpose"]

  /** `roles or [...]`. */
  function RolesOrDefault(roles: Option<seq<string>>): (r: seq<string>)
    ensures r != []
    ensures roles.Some? && roles.value != [] ==> r == roles.value
  {
    if roles.None? || roles.value == [] then DefaultRoles else roles.value
  }

  /** One entry of the persisted session history, its role and content as rendered text. */
  datatype Turn = Turn(role: string, content: string)

  /** `"\n".join(f"{role}: {content}" for the last 10 turns)`, or "" with no history. */
  function MemoryText(persisted: seq<Turn>): string {
    if persisted == [] then ""
    else
      var recent := if |persisted| <= 10 then persisted else persisted[|persisted| - 10..];
      Join("\n", seq(|recent|, i requires 0 <= i < |recent| => recent[i].role + ": " + recent[i].content))
  }

  /**
   * `context or memory_text`: the retrieved context (`""` when the retriever
   * raised, given here as `None`), else the memory text (no history when loading it
   * raised).
   */
  function ContextFor(retrieved: Option<string>, persisted: Option<seq<Turn>>): string {
    var context := retrieved.GetOr("");
    if context != [] then context else MemoryText(persisted.GetOr([]))
  }

  type Results = Dict<CallResult>

  /** Chain mode: each role's prompt carries the snapshot of the roles before it. */
  function ChainSpec(roles: seq<string>, query: string, context: string, router: EngineRouter,
                     timeout: int, retries: int): (Results, Dict<string>)
    decreases |roles|
  {
    if roles == [] then ([], [])
    else
      var n := |roles| - 1;
      var prev := ChainSpec(roles[..n], query, context, router, timeout, retries);
      Record(prev, roles[n], CallSpec(roles[n], BuildAgentPrompt(roles[n], context, query, prev.1), router, timeout, retries).0)
  }

  /** Parallel mode: every prompt is built without a snapshot; outputs are collected in role order. */
  function ParallelSpec(roles: seq<string>, query: string, context: string, router: EngineRouter,
                        timeout: int, retries: int): (Results, Dict<string>)
    decreases |roles|
  {
    if roles == [] then ([], [])
    else
      var n := |roles| - 1;
      var prev := ParallelSpec(roles[..n], query, context, router, timeout, retries);
      Record(prev, roles[n], CallSpec(roles[n], BuildAgentPrompt(roles[n], context, query, []), router, timeout, retries).0)
  }

  /** `results[role] = res; snapshot[role] = res["output"]`. */
  function Record(prev: (Results, Dict<string>), role: string, res: CallResult): (Results, Dict<string>) {
    (Put(prev.0, role, res), Put(prev.1, role, res.output))
  }

  /** `asyncio.gather` over the parallel tasks: every role's call on its snapshot-free prompt, in role order. */
  function SoloOutputs(roles: seq<string>, query: string, context: string, router: EngineRouter,
                       timeout: int, retries: int): seq<CallResult>
    decreases |roles|
  {
    if roles == [] then []
    else
      var n := |roles| - 1;
      SoloOutputs(roles[..n], query, context, router, timeout, retries)
      + [CallSpec(roles[n], BuildAgentPrompt(roles[n], context, query, []), router, timeout, retries).0]
  }

  /** The loop over the gathered results: each one is recorded under its own `role` field. */
  function RecordAll(outputs: seq<CallResult>): (Results, Dict<string>)
    decreases |outputs|
  {
    if outputs == [] then ([], [])
    else
      var n := |outputs| - 1;
      Record(RecordAll(outputs[..n]), outputs[n].role, outputs[n])
  }

  /** Results and snapshot agree on `role`: both hold it or neither does, with the snapshot holding its output. */
  predicate Collected(d: (Results, Dict<string>), role: string) {
    && (Lookup(d.0, role).Some? <==> Lookup(d.1, role).Some?)
    && (Lookup(d.1, role).Some? ==> Lookup(d.1, role).value == Lookup(d.0, role).value.output
                                    && Lookup(d.0, role).value.role == role)
  }

  /** Recording a result under its own role keeps the two dicts in agreement and adds exactly that role. */
  lemma CollectStep(prev: (Results, Dict<string>), role: string, res: CallResult, r: string)
    requires res.role == role && Collected(prev, r)
    ensures Collected(Record(prev, role, res), r)
    ensures Lookup(Record(prev, role, res).0, r).Some? <==> Lookup(prev.0, r).Some? || r == role
  {
  }

  predicate Succeeded(results: Results, role: string) {
    Lookup(results, role).Some? && Lookup(results, role).value.success
  }

  /** The first role, in request order, whose result succeeded. */
  function FirstSuccess(roles: seq<string>, results: Results): Option<string>
    decreases |roles|
  {
    if roles == [] then None
    else if Succeeded(results, roles[0]) then Some(roles[0])
    else FirstSuccess(roles[1..], results)
  }

  /** `FirstSuccess` finds a succeeded role with no succeeded role before it, or reports that none succeeded. */
  lemma {:induction false} FirstSuccessIsFirst(roles: seq<string>, results: Results)
    ensures var r := FirstSuccess(roles, results);
      && (r.Some? ==> exists i :: 0 <= i < |roles| && roles[i] == r.value && Succeeded(results, r.value)
                                 && forall j :: 0 <= j < i ==> !Succeeded(results, roles[j]))
      && (r.None? ==> forall j :: 0 <= j < |roles| ==> !Succeeded(results, roles[j]))
    decreases |roles|
  {
    if roles != [] && !Succeeded(results, roles[0]) {
      FirstSuccessIsFirst(roles[1..], results);
      var r := FirstSuccess(roles[1..], results);
      if r.Some? {
        var i :| 0 <= i < |roles[1..]| && roles[1..][i] == r.value && Succeeded(results, r.value)
                 && forall j :: 0 <= j < i ==> !Succeeded(results, roles[1..][j]);
        assert roles[i + 1] == r.value;
        forall j | 0 <= j < i + 1 ensures !Succeeded(results, roles[j]) {
          if j > 0 {
            assert roles[j] == roles[1..][j - 1];
          }
        }
      } else {
        forall j | 0 <= j < |roles| ensures !Succeeded(results, roles[j]) {
          if j > 0 {
            assert roles[j] == roles[1..][j - 1];
          }
        }
      }
    }
  }

  /** `next((r for r in roles if results.get(r, {}).get("success")), roles[0])`. */
  function BestRole(roles: seq<string>, results: Results): string
    requires roles != []
  {
    FirstSuccess(roles, results).GetOr(roles[0])
  }

  /** What `run` returns. */
  datatype McpReport = McpReport(mode: string, bestRole: string, snapshot: Dict<string>, combined: string, results: Results)

  function RunSpec(query: string, mode: string, roles: seq<string>, context: string, router: EngineRouter,
                   timeout: int, retries: int): McpReport
    requires roles != []
  {
    var parallel := mode == "parallel";
    var (results, snapshot) :=
      if parallel then ParallelSpec(roles, query, context, router, timeout, retries)
      else ChainSpec(roles, query, context, router, timeout, retries);
    McpReport(if parallel then "parallel" else "chain", BestRole(roles, results), snapshot, Fused(snapshot), results)
  }

  lemma InPrefixOrLast(xs: seq<string>, x: string)
    requires xs != []
    ensures x in xs <==> x in xs[..|xs| - 1] || x == xs[|xs| - 1]
  {
    assert xs == xs[..|xs| - 1] + [xs[|xs| - 1]];
  }

  /**
   * Both modes call every requested role once and key results and snapshot by role:
   * the snapshot holds each role's output, and a role is reported as succeeded
   * exactly when its output is a model reply rather than the give-up text.
   */
  lemma {:induction false} ChainCollectsEveryRole(roles: seq<string>, query: string, context: string,
                                                 router: EngineRouter, timeout: int, retries: int, role: string)
    ensures var d := ChainSpec(roles, query, context, router, timeout, retries);
      Collected(d, role) && (Lookup(d.0, role).Some? <==> role in roles)
    decreases |roles|
  {
    if roles != [] {
      ChainCollectsEveryRole(roles[..|roles| - 1], query, context, router, timeout, retries, role);
      ChainCollectStep(roles, query, context, router, timeout, retries, role);
    }
  }

  lemma ChainCollectStep(roles: seq<string>, query: string, context: string,
                         router: EngineRouter, timeout: int, retries: int, role: string)
    requires roles != []
    requires var d := ChainSpec(roles[..|roles| - 1], query, context, router, timeout, retries);
      Collected(d, role) && (Lookup(d.0, role).Some? <==> role in roles[..|roles| - 1])
    ensures var d := ChainSpec(roles, query, context, router, timeout, retries);
      Collected(d, role) && (Lookup(d.0, role).Some? <==> role in roles)
  {
    var n := |roles| - 1;
    var prev := ChainSpec(roles[..n], query, context, router, timeout, retries);
    var prompt := BuildAgentPrompt(roles[n], context, query, prev.1);
    CallKeepsRole(roles[n], prompt, router, timeout, retries);
    var res := CallSpec(roles[n], prompt, router, timeout, retries).0;
    CollectStep(prev, roles[n], res, role);
    assert ChainSpec(roles, query, context, router, timeout, retries) == Record(prev, roles[n], res);
    InPrefixOrLast(roles, role);
  }

  lemma {:induction false} ParallelCollectsEveryRole(roles: seq<string>, query: string, context: string,
                                                    router: EngineRouter, timeout: int, retries: int, role: string)
    ensures var d := ParallelSpec(roles, query, context, router, timeout, retries);
      Collected(d, role) && (Lookup(d.0, role).Some? <==> role in roles)
    decreases |roles|
  {
    if roles != [] {
      ParallelCollectsEveryRole(roles[..|roles| - 1], query, context, router, timeout, retries, role);
      ParallelCollectStep(roles, query, context, router, timeout, retries, role);
    }
  }

  lemma ParallelCollectStep(roles: seq<string>, query: string, context: string,
                            router: EngineRouter, timeout: int, retries: int, role: string)
    requires roles != []
    requires var d := ParallelSpec(roles[..|roles| - 1], query, context, router, timeout, retries);
      Collected(d, role) && (Lookup(d.0, role).Some? <==> role in roles[..|roles| - 1])
    ensures var d := ParallelSpec(roles, query, context, router, timeout, retries);
      Collected(d, role) && (Lookup(d.0, role).Some? <==> role in roles)
  {
    var n := |roles| - 1;
    var prev := ParallelSpec(roles[..n], query, context, router, timeout, retries);
    var prompt := BuildAgentPrompt(roles[n], context, query, []);
    CallKeepsRole(roles[n], prompt, router, timeout, retries);
    var res := CallSpec(roles[n], prompt, router, timeout, retries).0;
    CollectStep(prev, roles[n], res, role);
    assert ParallelSpec(roles, query, context, router, timeout, retries) == Record(prev, roles[n], res);
    InPrefixOrLast(roles, role);
  }

  /**
   * In parallel mode a role's result depends on nothing the other roles produce:
   * a requested role holds the call on its own snapshot-free prompt, any other role
   * holds nothing.
   */
  lemma {:induction false} ParallelIgnoresOtherRoles(roles: seq<string>, query: string, context: string,
                                                    router: EngineRouter, timeout: int, retries: int, role: string)
    ensures Lookup(ParallelSpec(roles, query, context, router, timeout, retries).0, role) ==
      if role in roles then Some(CallSpec(role, BuildAgentPrompt(role, context, query, []), router, timeout, retries).0)
      else None
    decreases |roles|
  {
    if roles != [] {
      var n := |roles| - 1;
      ParallelIgnoresOtherRoles(roles[..n], query, context, router, timeout, retries, role);
      ParallelLookupStep(roles, query, context, router, timeout, retries, role);
      InPrefixOrLast(roles, role);
    }
  }

  /** Looking a role up after the last role is recorded. */
  lemma ParallelLookupStep(roles: seq<string>, query: string, context: string,
                           router: EngineRouter, timeout: int, retries: int, k: string)
    requires roles != []
    ensures var n := |roles| - 1;
      Lookup(ParallelSpec(roles, query, context, router, timeout, retries).0, k) ==
      if k == roles[n] then Some(CallSpec(roles[n], BuildAgentPrompt(roles[n], context, query, []), router, timeout, retries).0)
      else Lookup(ParallelSpec(roles[..n], query, context, router, timeout, retries).0, k)
  {
    var n := |roles| - 1;
    var prev := ParallelSpec(roles[..n], query, context, router, timeout, retries);
    var res := CallSpec(roles[n], BuildAgentPrompt(roles[n], context, query, []), router, timeout, retries).0;
    assert ParallelSpec(roles, query, context, router, timeout, retries) == Record(prev, roles[n], res);
  }

  /**
   * Gathering every call and then recording each result under its own role gives the
   * parallel results and snapshot: every gathered result carries the role it was made for.
   */
  lemma {:induction false} GatherThenRecord(roles: seq<string>, query: string, context: string,
                                            router: EngineRouter, timeout: int, retries: int)
    ensures |SoloOutputs(roles, query, context, router, timeout, retries)| == |roles|
    ensures RecordAll(SoloOutputs(roles, query, context, router, timeout, retries)) ==
      ParallelSpec(roles, query, context, router, timeout, retries)
    decreases |roles|
  {
    if roles != [] {
      var n := |roles| - 1;
      GatherThenRecord(roles[..n], query, context, router, timeout, retries);
      var outs := SoloOutputs(roles, query, context, router, timeout, retries);
      assert outs[..n] == SoloOutputs(roles[..n], query, context, router, timeout, retries);
      CallKeepsRole(roles[n], BuildAgentPrompt(roles[n], context, query, []), router, timeout, retries);
    }
  }

  /** The loop recording each gathered result and its output under the result's role. */
  method RecordGathered(outputs: seq<CallResult>) returns (results: Results, snapshot: Dict<string>)
    ensures (results, snapshot) == RecordAll(outputs)
  {
    results, snapshot := [], [];
    var i := 0;
    while i < |outputs|
      invariant 0 <= i <= |outputs|
      invariant (results, snapshot) == RecordAll(outputs[..i])
    {
      assert outputs[..i + 1][..i] == outputs[..i];
      var res := outputs[i];
      results := Put(results, res.role, res);
      snapshot := Put(snapshot, res.role, res.output);
      i := i + 1;
    }
    assert outputs[..i] == outputs;
  }

  /**
   * In chain mode the first role sees an empty snapshot, so its prompt is the one
   * parallel mode builds; a later role's prompt lists the outputs of every earlier role.
   */
  lemma ChainFirstPromptIsParallelPrompt(roles: seq<string>, query: string, context: string,
                                         router: EngineRouter, timeout: int, retries: int)
    requires roles != []
    ensures ChainSpec(roles[..0], query, context, router, timeout, retries).1 == []
    ensures forall k :: 0 < k <= |roles| ==>
      var snapshot := ChainSpec(roles[..k], query, context, router, timeout, retries).1;
      forall j :: 0 <= j < k ==> Lookup(snapshot, roles[j]).Some?
  {
    forall k | 0 < k <= |roles|
      ensures var snapshot := ChainSpec(roles[..k], query, context, router, timeout, retries).1;
        forall j :: 0 <= j < k ==> Lookup(snapshot, roles[j]).Some?
    {
      forall j | 0 <= j < k
        ensures Lookup(ChainSpec(roles[..k], query, context, router, timeout, retries).1, roles[j]).Some?
      {
        assert roles[..k][j] == roles[j];
        ChainCollectsEveryRole(roles[..k], query, context, router, timeout, retries, roles[j]);
      }
    }
  }

  /**
   * The best role is a requested role; it is the first requested role that
   * succeeded, and when none did it is the first requested role.
   */
  lemma BestRoleIsFirstSuccess(roles: seq<string>, results: Results)
    requires roles != []
    ensures BestRole(roles, results) in roles
    ensures (exists j :: 0 <= j < |roles| && Succeeded(results, roles[j])) ==>
      Succeeded(results, BestRole(roles, results))
      && exists i :: 0 <= i < |roles| && roles[i] == BestRole(roles, results)
                     && forall j :: 0 <= j < i ==> !Succeeded(results, roles[j])
    ensures (forall j :: 0 <= j < |roles| ==> !Succeeded(results, roles[j])) ==> BestRole(roles, results) == roles[0]
  {
    FirstSuccessIsFirst(roles, results);
  }

  // ---------------------------------------------------------------------------
  // The engine object

  /** `run_mcp`'s request dict; a missing key is `None`. */
  datatype Request = Request(query: Option<string>, mode: Option<string>, roles: Option<seq<string>>, timeout: Option<int>)

  class Engine {
    var agentTimeout: int
    var retries: int
    const router: EngineRouter

    /** `MCPEngine(model_router=router)`: 30-second agent timeout, one retry. */
    constructor (router: EngineRouter)
      ensures agentTimeout == 30 && retries == 1 && this.router == router
    {
      agentTimeout := 30;
      retries := 1;
      this.router := router;
    }

    /** `_call_agent(role, prompt)`: the retry loop; `sleeps` lists each `asyncio.sleep` in units of 0.5 s. */
    method CallAgent(role: string, prompt: string) returns (res: CallResult, sleeps: seq<nat>)
      ensures (res, sleeps) == CallSpec(role, prompt, router, agentTimeout, retries)
      ensures res.role == role
    {
      AttemptsBounded(role, prompt, router, agentTimeout, retries, 0, "None");
      var attempt: nat := 0;
      var last := "None";
      sleeps := [];
      assert sleeps + Attempts(role, prompt, router, agentTimeout, retries, attempt, last).1
          == Attempts(role, prompt, router, agentTimeout, retries, attempt, last).1;
      while attempt <= retries
        invariant CallSpec(role, prompt, router, agentTimeout, retries) ==
          (Attempts(role, prompt, router, agentTimeout, retries, attempt, last).0,
           sleeps + Attempts(role, prompt, router, agentTimeout, retries, attempt, last).1)
        decreases retries + 1 - attempt
      {
        var reply := Attempt(router(prompt, attempt), agentTimeout);
        if reply.Ok? {
          assert Attempts(role, prompt, router, agentTimeout, retries, attempt, last) == (CallResult(role, true, None, reply.value), []);
          assert sleeps + [] == sleeps;
          res := CallResult(role, true, None, reply.value);
          return;
        }
        ghost var rest := Attempts(role, prompt, router, agentTimeout, retries, attempt + 1, reply.error).1;
        assert sleeps + ([attempt + 1] + rest) == (sleeps + [attempt + 1]) + rest;
        last := reply.error;
        attempt := attempt + 1;
        sleeps := sleeps + [attempt];
      }
      assert Attempts(role, prompt, router, agentTimeout, retries, attempt, last) == (CallResult(role, false, Some(last), GiveUpMessage(role)), []);
      assert sleeps + [] == sleeps;
      res := CallResult(role, false, Some(last), GiveUpMessage(role));
    }

    /**
     * The parallel branch's `tasks` loop and `asyncio.gather`: every role's call on a
     * prompt built without a snapshot, one result per role, in role order.
     */
    method CallEach(names: seq<string>, query: string, context: string) returns (outputs: seq<CallResult>)
      ensures outputs == SoloOutputs(names, query, context, router, agentTimeout, retries)
    {
      outputs := [];
      var k := 0;
      while k < |names|
        invariant 0 <= k <= |names|
        invariant outputs == SoloOutputs(names[..k], query, context, router, agentTimeout, retries)
      {
        assert names[..k + 1][..k] == names[..k];
        var prompt := BuildAgentPrompt(names[k], context, query, []);
        var res, _ := CallAgent(names[k], prompt);
        outputs := outputs + [res];
        k := k + 1;
      }
      assert names[..k] == names;
    }

    /** The parallel branch of `run`: gather the calls, then record each result and output under its role. */
    method GatherAll(names: seq<string>, query: string, context: string) returns (results: Results, snapshot: Dict<string>)
      ensures (results, snapshot) == ParallelSpec(names, query, context, router, agentTimeout, retries)
    {
      var outputs := CallEach(names, query, context);
      results, snapshot := RecordGathered(outputs);
      GatherThenRecord(names, query, context, router, agentTimeout, retries);
    }

    /** The chain branch of `run`: each prompt carries the snapshot so far. */
    method ChainAll(names: seq<string>, query: string, context: string) returns (results: Results, snapshot: Dict<string>)
      ensures (results, snapshot) == ChainSpec(names, query, context, router, agentTimeout, retries)
    {
      results, snapshot := [], [];
      var i := 0;
      while i < |names|
        invariant 0 <= i <= |names|
        invariant (results, snapshot) == ChainSpec(names[..i], query, context, router, agentTimeout, retries)
      {
        assert names[..i + 1][..i] == names[..i];
        var d := ChainRole(names[i], query, context, (results, snapshot));
        results, snapshot := d.0, d.1;
        i := i + 1;
      }
      assert names[..i] == names;
    }

    /** One turn of the chain loop: call the role on a prompt carrying the snapshot, then record it. */
    method ChainRole(name: string, query: string, context: string, prev: (Results, Dict<string>))
      returns (d: (Results, Dict<string>))
      ensures d == Record(prev, name, CallSpec(name, BuildAgentPrompt(name, context, query, prev.1), router, agentTimeout, retries).0)
    {
      var prompt := BuildAgentPrompt(name, context, query, prev.1);
      var res, _ := CallAgent(name, prompt);
      d := Record(prev, name, res);
    }

    /**
     * `run(query, session_id, mode, roles, timeout)`: a truthy timeout replaces the
     * agent timeout for this and later runs; any mode but "parallel" runs the chain.
     */
    method Run(query: string, mode: string, roles: Option<seq<string>>, timeout: Option<int>,
               retrieved: Option<string>, persisted: Option<seq<Turn>>) returns (rep: McpReport)
      modifies this
      ensures agentTimeout == if timeout.Some? && timeout.value != 0 then timeout.value else old(agentTimeout)
      ensures retries == old(retries)
      ensures rep == RunSpec(query, mode, RolesOrDefault(roles), ContextFor(retrieved, persisted), router, agentTimeout, retries)
    {
      var names := RolesOrDefault(roles);
      if timeout.Some? && timeout.value != 0 {
        agentTimeout := timeout.value;
      }
      rep := RunWith(query, mode, names, ContextFor(retrieved, persisted));
    }

    /** The rest of `run` once the roles, the timeout and the context are settled. */
    method RunWith(query: string, mode: string, names: seq<string>, context: string) returns (rep: McpReport)
      requires names != []
      ensures rep == RunSpec(query, mode, names, context, router, agentTimeout, retries)
    {
      var results: Results, snapshot: Dict<string>;
      if mode == "parallel" {
        results, snapshot := GatherAll(names, query, context);
      } else {
        results, snapshot := ChainAll(names, query, context);
      }
      var best := BestRole(names, results);
      var combined := FuseDialogue(snapshot);
      rep := McpReport(if mode == "parallel" then "parallel" else "chain", best, snapshot, combined, results);
    }

    /**
     * `run_mcp(request)`: a missing query reaches the prompts as "None", a missing
     * mode means "chain", missing roles and timeout mean the defaults.
     */
    method RunMcp(request: Request, retrieved: Option<string>, persisted: Option<seq<Turn>>) returns (rep: McpReport)
      modifies this
      ensures agentTimeout == if request.timeout.Some? && request.timeout.value != 0 then request.timeout.value else old(agentTimeout)
      ensures rep == RunSpec(request.query.GetOr("None"), request.mode.GetOr("chain"), RolesOrDefault(request.roles),
                             ContextFor(retrieved, persisted), router, agentTimeout, retries)
    {
      rep := Run(request.query.GetOr("None"), request.mode.GetOr("chain"), request.roles, request.timeout, retrieved, persisted);
    }
  }
}
