/**
 * The conversation manager: a keyword classifier that picks a task type, a table
 * from task type to prompt template, a context gate that consults the retriever
 * only for some task types, a per-session memory map filled on demand, and `chat`,
 * which builds the prompt, calls the model and records the turn.
 *
 * The retriever, the two model clients and the memory's own `save_context` are
 * outside this model; `chat` receives each of them as a function.
 */
module ConversationManager {
  import opened Wrappers
  import opened PyString
  import opened Generation
  import Coordinator

  // ---------------------------------------------------------------------------
  // Classification

  const ReflectionWords: seq<string> := ["reflect", "feeling", "emotion", "journal"]
  const ReasoningWords: seq<string> := ["plan", "goal", "steps", "strategy", "how to achieve"]
  const RagWords: seq<string> := ["summarize", "analyze", "context", "rag", "retrieve", "neuraline"]
  const CoachingWords: seq<string> := ["habit", "track", "consistency", "routine"]
  const PurposeWords: seq<string> := ["purpose", "mission", "values", "north star"]

  const Categories: set<string> := {"emotional_reflection", "cognitive_reasoning", "rag_query",
                                    "behavioral_coaching", "purpose_alignment", "general_chat"}

  /** `_classify_task(prompt)`: the first keyword group found in the lower-cased prompt decides. */
  function Classify(prompt: string): (t: string)
    ensures t in Categories
  {
    Category(Lower(prompt))
  }

  /** The category of an already lower-cased prompt. */
  function Category(p: string): (t: string)
    ensures t in Categories
  {
    if AnyOccurs(p, ReflectionWords) then "emotional_reflection"
    else if AnyOccurs(p, ReasoningWords) then "cognitive_reasoning"
    else if AnyOccurs(p, RagWords) then "rag_query"
    else if AnyOccurs(p, CoachingWords) then "behavioral_coaching"
    else if AnyOccurs(p, PurposeWords) then "purpose_alignment"
    else "general_chat"
  }

  /**
   * Each category is chosen exactly when its group matches and no group tested
   * before it does; `general_chat` exactly when no group matches.
   */
  lemma ClassifyPriority(prompt: string)
    ensures var p := Lower(prompt); var t := Classify(prompt);
      && (t == "emotional_reflection" <==> AnyOccurs(p, ReflectionWords))
      && (t == "cognitive_reasoning" <==> !AnyOccurs(p, ReflectionWords) && AnyOccurs(p, ReasoningWords))
      && (t == "rag_query" <==>
            !AnyOccurs(p, ReflectionWords) && !AnyOccurs(p, ReasoningWords) && AnyOccurs(p, RagWords))
      && (t == "behavioral_coaching" <==>
            !AnyOccurs(p, ReflectionWords) && !AnyOccurs(p, ReasoningWords) && !AnyOccurs(p, RagWords)
            && AnyOccurs(p, CoachingWords))
      && (t == "purpose_alignment" <==>
            !AnyOccurs(p, ReflectionWords) && !AnyOccurs(p, ReasoningWords) && !AnyOccurs(p, RagWords)
            && !AnyOccurs(p, CoachingWords) && AnyOccurs(p, PurposeWords))
      && (t == "general_chat" <==>
            !AnyOccurs(p, ReflectionWords) && !AnyOccurs(p, ReasoningWords) && !AnyOccurs(p, RagWords)
            && !AnyOccurs(p, CoachingWords) && !AnyOccurs(p, PurposeWords))
  {
  }

  /** A reflection keyword, in any letter case, wins over every other group. */
  lemma ReflectionWins(prompt: string, w: string)
    requires w in ReflectionWords && Occurs(Lower(prompt), w)
    ensures Classify(prompt) == "emotional_reflection"
  {
    var i :| 0 <= i < |ReflectionWords| && ReflectionWords[i] == w;
    assert AnyOccurs(Lower(prompt), ReflectionWords);
  }

  lemma LowerOfUpper(s: string)
    ensures Lower(Upper(s)) == Lower(s)
  {
  }

  /** Letter case does not matter: the prompt, lower-cased or upper-cased (ASCII case mapping), gets the same category. */
  lemma ClassifyIgnoresCase(prompt: string)
    ensures Classify(Lower(prompt)) == Classify(prompt)
    ensures Classify(Upper(prompt)) == Classify(prompt)
  {
    LowerIdempotent(prompt);
    LowerOfUpper(prompt);
    assert Classify(Lower(prompt)) == Category(Lower(Lower(prompt)));
    assert Classify(Upper(prompt)) == Category(Lower(Upper(prompt)));
  }

  /**
   * The coordinator's routing table has every category but `purpose_alignment`,
   * which the coordinator therefore routes to its default pair.
   */
  lemma PurposeTakesDefaultRoute(prompt: string)
    ensures Classify(prompt) in Coordinator.RoutingTable <==> Classify(prompt) != "purpose_alignment"
    ensures Classify(prompt) == "purpose_alignment" ==>
      Coordinator.Route(Classify(prompt)) == Coordinator.DefaultRoute
  {
  }

  // ---------------------------------------------------------------------------
  // Templates

  /** The five prompt templates. */
  datatype Template = Reflection | Reasoning | Coaching | Purpose | General

  const TemplateTable: map<string, Template> := map[
    "emotional_reflection" := Reflection,
    "cognitive_reasoning" := Reasoning,
    "rag_query" := Reasoning,
    "behavioral_coaching" := Coaching,
    "purpose_alignment" := Purpose,
    "general_chat" := General
  ]

  /** `_select_template(task_type)`: the table entry, or the general template. */
  function SelectTemplate(taskType: string): Template {
    if taskType in TemplateTable then TemplateTable[taskType] else General
  }

  /**
   * Every category has a template, `rag_query` shares the reasoning template, no
   * two other categories share one, and an unknown task type gets the general one.
   */
  lemma TemplateChoice(taskType: string)
    ensures taskType in Categories <==> taskType in TemplateTable
    ensures SelectTemplate("rag_query") == SelectTemplate("cognitive_reasoning") == Reasoning
    ensures taskType !in Categories ==> SelectTemplate(taskType) == General
    ensures forall a, b :: a in TemplateTable && b in TemplateTable && a != b && TemplateTable[a] == TemplateTable[b] ==>
      {a, b} == {"rag_query", "cognitive_reasoning"}
  {
  }

  /** The template text before the context. */
  function Intro(t: Template): string {
    match t
    case Reflection =>
      "\nYou are Neuraline \U{2014} an empathetic " + "reflection companion that helps users\n"
      + "cultivate emotional intelligence " + "and self-awareness through mindful " + "dialogue.\n\n<<CONTEXT>>\n"
    case Reasoning =>
      "\nYou are Neuraline \U{2014} a cognitive " + "reasoning guide that helps users " + "think clearly,\n"
      + "analyze complexity, and transform " + "ideas into structured understanding.\n\n<<" + "CONTEXT>>\n"
    case Coaching =>
      "\nYou are Neuraline \U{2014} a behavioral " + "coaching companion focused on " + "helping users\n"
      + "build habits, maintain consistency, " + "and sustain momentum toward " + "their goals.\n\n<<CONTEXT>>\n"
    case Purpose =>
      "\nYou are Neuraline \U{2014} a purpose " + "alignment mentor helping users " + "explore meaning,\n"
      + "motivation, and long-term direction " + "with grounded introspection.\n\n<<CONTEXT>>\n"
    case General =>
      "\nYou are Neuraline \U{2014} an intelligent, " + "emotionally aware companion\n"
      + "designed for open and thoughtful " + "conversation.\n\n<<CONTEXT>>\n"
  }

  const MemoryLabel: string := "\n\n<<CONVERSATION MEMORY>>\n"
  const InputLabel: string := "\n\n<<USER INPUT>>\n"

  /** The template text after the user input. */
  function Instructions(t: Template): string {
    "\n\n<<INSTRUCTIONS>>\n\n" +
    match t
    case Reflection =>
      "- Reflect the user's emotions " + "and underlying thought patterns " + "with compassion and clarity.\n"
      + "- Use psychologically informed " + "empathy \U{2014} validate feelings " + "without over-interpreting.\n"
      + "- Gently help the user name " + "patterns, unmet needs, or recurring " + "emotional themes.\n"
      + "- Summarize the emotional essence " + "before offering a calm, grounded " + "observation.\n"
      + "- Avoid direct advice; focus " + "on awareness and insight.\n"
      + "- Keep responses concise (3 " + "to 6 sentences) and emotionally " + "centering.\n"
    case Reasoning =>
      "- Clarify the problem or question " + "before reasoning through it.\n"
      + "- Apply structured logic \U{2014} outline " + "steps, comparisons, or frameworks "
      + "(\U{201C}First\U{2026} Then\U{2026}\U{201D}).\n"
      + "- Reference relevant cognitive " + "or behavioral principles from " + "the retrieved context.\n"
      + "- Connect reasoning to the user's " + "broader goals or self-development path.\n"
      + "- Conclude with a practical " + "takeaway or reflective insight " + "(1 to 2 sentences).\n"
    case Coaching =>
      "- Identify the user's current " + "habit, intention, or behavioral " + "challenge.\n"
      + "- Apply principles from behavioral " + "psychology (habit loops, triggers, " + "reinforcement).\n"
      + "- Encourage reflection on effort " + "and progress \U{2014} not perfection.\n"
      + "- Suggest realistic next steps " + "or micro-actions aligned with " + "the user's context.\n"
      + "- Use a warm, supportive, and " + "motivational tone that reinforces " + "self-trust.\n"
    case Purpose =>
      "- Invite reflection on core " + "values, personal mission, or " + "evolving priorities.\n"
      + "- Connect current challenges " + "to broader themes of purpose " + "and growth.\n"
      + "- Use open-ended questions to " + "help the user articulate "
      + "\U{201C}why\U{201D} behind actions or emotions.\n"
      + "- Weave insights from context " + "or past reflections to deepen " + "continuity.\n"
      + "- Keep tone calm, wise, and " + "non-judgmental \U{2014} focus on alignment, " + "not advice.\n"
    case General =>
      "- Respond naturally but with " + "emotional intelligence and clarity.\n"
      + "- Maintain continuity with previous " + "interactions and retrieved context.\n"
      + "- Blend reasoning, empathy, " + "and curiosity \U{2014} avoid robotic " + "or overly formal tone.\n"
      + "- If uncertain, ask gentle clarifying " + "questions instead of assuming.\n"
      + "- Keep answers grounded, psychologically" + " aware, and encouraging self-reflection.\n"
  }

  // ---------------------------------------------------------------------------
  // Context and prompt

  /** The task types for which `chat` consults the retriever. */
  predicate NeedsContext(taskType: string) {
    taskType in {"rag_query", "emotional_reflection", "cognitive_reasoning", "purpose_alignment"}
  }

  /** The context `chat` works with: the retrieved text, or `""` when retrieval is skipped or raises. */
  function ContextOf(taskType: string, userInput: string, retrieve: string -> Result<string>): string {
    if NeedsContext(taskType) then
      match retrieve(userInput)
      case Ok(c) => c
      case Err(_) => ""
    else ""
  }

  /** Context is non-empty only for a task type that needs it and a retrieval that returned it. */
  lemma ContextOnlyWhenNeeded(taskType: string, userInput: string, retrieve: string -> Result<string>)
    ensures ContextOf(taskType, userInput, retrieve) != "" ==>
      NeedsContext(taskType) && retrieve(userInput) == Ok(ContextOf(taskType, userInput, retrieve))
    ensures NeedsContext(taskType) && retrieve(userInput).Ok? ==>
      ContextOf(taskType, userInput, retrieve) == retrieve(userInput).value
    ensures Classify(userInput) in {"behavioral_coaching", "general_chat"} ==>
      ContextOf(Classify(userInput), userInput, retrieve) == ""
  {
  }

  const NoContext: string := "No context available."
  const Persona: string := "You are Neuraline \U{2014} an empathetic, " + "purpose-driven cognitive companion.\n\n"

  /** `context or "No context available."`. */
  function ShownContext(context: string): string {
    if context == "" then NoContext else context
  }

  /** `template.format(context=..., memory=..., user_input=...)`. */
  function Render(t: Template, context: string, memoryText: string, userInput: string): string {
    Intro(t) + context + MemoryLabel + memoryText + InputLabel + userInput + Instructions(t)
  }

  /** The prompt `chat` sends: the persona line, then the template filled in. */
  function ChatPrompt(userInput: string, context: string, memoryText: string): string {
    Persona + Render(SelectTemplate(Classify(userInput)), ShownContext(context), memoryText, userInput)
  }

  /**
   * The prompt carries the user input, the conversation memory and the context, or
   * the placeholder when there is no context; it opens with the persona line.
   */
  lemma ChatPromptEmbeds(userInput: string, context: string, memoryText: string)
    ensures StartsWith(ChatPrompt(userInput, context, memoryText), Persona)
    ensures Occurs(ChatPrompt(userInput, context, memoryText), userInput)
    ensures Occurs(ChatPrompt(userInput, context, memoryText), memoryText)
    ensures Occurs(ChatPrompt(userInput, context, memoryText), if context == "" then NoContext else context)
  {
    var t := SelectTemplate(Classify(userInput));
    var body := Render(t, ShownContext(context), memoryText, userInput);
    OccursInTemplate3(Intro(t), ShownContext(context), MemoryLabel, memoryText, InputLabel, userInput, Instructions(t));
    OccursAfterPrefix(Persona, body, userInput);
    OccursAfterPrefix(Persona, body, memoryText);
    OccursAfterPrefix(Persona, body, ShownContext(context));
  }

  // ---------------------------------------------------------------------------
  // Memory and chat

  /** The buffer after a successful turn: what `save_context` made of it, or the turn appended by hand. */
  function Recorded(buffer: string, userInput: string, response: string,
                    save: (string, string, string) -> Option<string>): string {
    match save(buffer, userInput, response)
    case Some(b) => b
    case None => buffer + "\nUser: " + userInput + "\nAI: " + response
  }

  /**
   * What one `chat` turn yields, given the session's buffer: the reply (or the
   * model's exception, re-raised) and the buffer afterwards.
   */
  function ChatSpec(userInput: string, buffer: string, useRouter: bool, retrieve: string -> Result<string>,
                    router: string -> Reply, gemini: string -> Reply,
                    save: (string, string, string) -> Option<string>): (Result<string>, string) {
    var prompt := ChatPrompt(userInput, ContextOf(Classify(userInput), userInput, retrieve), buffer);
    TurnOutcome(ModelReply(prompt, useRouter, router, gemini), buffer, userInput, save)
  }

  /** `model_router.run(prompt)` or `gemini.generate(prompt)`, as `use_router` says. */
  function ModelReply(prompt: string, useRouter: bool, router: string -> Reply, gemini: string -> Reply): Reply {
    if useRouter then router(prompt) else gemini(prompt)
  }

  /** The turn's result and buffer once the model has replied. */
  function TurnOutcome(reply: Reply, buffer: string, userInput: string,
                       save: (string, string, string) -> Option<string>): (Result<string>, string) {
    match reply
    case Raised(e) => (Err(e), buffer)
    case Text(r) => (Ok(r), Recorded(buffer, userInput, r, save))
  }

  /**
   * A failed model call leaves the buffer as it was and re-raises; a successful
   * one returns the reply, and when `save_context` fails the buffer grows by
   * exactly the turn, keeping what was there.
   */
  lemma TurnIsRecorded(userInput: string, buffer: string, useRouter: bool, retrieve: string -> Result<string>,
                       router: string -> Reply, gemini: string -> Reply,
                       save: (string, string, string) -> Option<string>)
    ensures var prompt := ChatPrompt(userInput, ContextOf(Classify(userInput), userInput, retrieve), buffer);
      var reply := ModelReply(prompt, useRouter, router, gemini);
      var (r, after) := ChatSpec(userInput, buffer, useRouter, retrieve, router, gemini, save);
      && (reply.Raised? ==> r == Err(reply.error) && after == buffer)
      && (reply.Text? ==> r == Ok(reply.text))
      && (reply.Text? && save(buffer, userInput, reply.text).None? ==>
            after == buffer + "\nUser: " + userInput + "\nAI: " + reply.text
            && StartsWith(after, buffer)
            && Occurs(after, userInput) && Occurs(after, reply.text))
  {
    var prompt := ChatPrompt(userInput, ContextOf(Classify(userInput), userInput, retrieve), buffer);
    var reply := ModelReply(prompt, useRouter, router, gemini);
    if reply.Text? {
      AppendedTurn(buffer, userInput, reply.text);
    }
  }

  /** The turn appended by hand keeps the old buffer in front and holds both sides of the turn. */
  lemma AppendedTurn(buffer: string, userInput: string, response: string)
    ensures var after := buffer + "\nUser: " + userInput + "\nAI: " + response;
      StartsWith(after, buffer) && Occurs(after, userInput) && Occurs(after, response)
  {
    var after := buffer + "\nUser: " + userInput + "\nAI: " + response;
    OccursInTemplate2(buffer + "\nUser: ", userInput, "\nAI: ", response, "");
    assert after + "" == after;
    assert after[..|buffer|] == buffer;
  }

  /** `ConversationBufferMemory`: the conversation so far, as one text. */
  class Memory {
    var buffer: string

    constructor ()
      ensures buffer == ""
    {
      buffer := "";
    }

    /** `save_context` for a turn, falling back to appending the turn to `buffer` by hand. */
    method Record(userInput: string, response: string, save: (string, string, string) -> Option<string>)
      modifies this
      ensures buffer == Recorded(old(buffer), userInput, response, save)
    {
      match save(buffer, userInput, response)
      case Some(b) =>
        buffer := b;
      case None =>
        buffer := buffer + "\nUser: " + userInput + "\nAI: " + response;
    }
  }

  /** The context-retrieval gate of `chat`. */
  method RetrieveContext(taskType: string, userInput: string, retrieve: string -> Result<string>) returns (context: string)
    ensures context == ContextOf(taskType, userInput, retrieve)
  {
    context := "";
    if taskType in {"rag_query", "emotional_reflection", "cognitive_reasoning", "purpose_alignment"} {
      match retrieve(userInput)
      case Ok(c) => context := c;
      case Err(_) => context := "";
    }
  }

  /** The manager; `memories` is its `_memories` dict. The model clients and retriever are parameters of `Chat`. */
  class Manager {
    var memories: map<string, Memory>

    /** Each session has its own memory object. */
    ghost predicate Valid()
      reads this
    {
      forall s, u :: s in memories && u in memories && s != u ==> memories[s] != memories[u]
    }

    constructor ()
      ensures memories == map[] && Valid()
    {
      memories := map[];
    }

    /** `_get_memory(session_id)`: the session's memory, created empty on first use. */
    method GetMemory(sessionId: string) returns (m: Memory)
      requires Valid()
      modifies this
      ensures Valid()
      ensures sessionId in memories && memories[sessionId] == m
      ensures sessionId in old(memories) ==> m == old(memories)[sessionId] && memories == old(memories)
      ensures sessionId !in old(memories) ==> fresh(m) && m.buffer == "" && memories == old(memories)[sessionId := m]
    {
      if sessionId !in memories {
        var created := new Memory();
        memories := memories[sessionId := created];
      }
      m := memories[sessionId];
    }

    /**
     * `chat(user_input, session_id, use_router)`: one turn. Only the session's own
     * memory changes, and it is created if the session is new.
     */
    method Chat(userInput: string, sessionId: string, useRouter: bool, retrieve: string -> Result<string>,
                router: string -> Reply, gemini: string -> Reply,
                save: (string, string, string) -> Option<string>) returns (r: Result<string>)
      requires Valid()
      modifies this, memories.Values
      ensures Valid()
      ensures sessionId in memories
      ensures sessionId in old(memories) ==> memories[sessionId] == old(memories)[sessionId]
      ensures forall s :: s != sessionId ==> (s in memories <==> s in old(memories))
      ensures forall s :: s != sessionId && s in memories ==>
        memories[s] == old(memories)[s] && memories[s].buffer == old(memories[s].buffer)
      ensures (r, memories[sessionId].buffer) ==
        ChatSpec(userInput, if sessionId in old(memories) then old(memories[sessionId].buffer) else "",
                 useRouter, retrieve, router, gemini, save)
    {
      var taskType := Classify(userInput);
      var context := RetrieveContext(taskType, userInput, retrieve);
      ghost var before := if sessionId in memories then memories[sessionId].buffer else "";
      var memory := GetMemory(sessionId);
      var memoryText := memory.buffer;
      var prompt := ChatPrompt(userInput, context, memoryText);
      var reply := ModelReply(prompt, useRouter, router, gemini);
      assert ChatSpec(userInput, before, useRouter, retrieve, router, gemini, save)
        == TurnOutcome(reply, before, userInput, save);
      match reply
      case Raised(e) =>
        r := Err(e);
      case Text(response) =>
        memory.Record(userInput, response, save);
        r := Ok(response);
    }
  }
}
