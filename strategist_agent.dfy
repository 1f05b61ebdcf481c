/** The strategist agent: turns the reflector's insight into a plan. */
module StrategistAgent {
  import opened Wrappers
  import opened PyString
  import opened SharedState
  import opened BaseAgent

  const Name: string := "strategist"
  const TaskType: string := "cognitive_reasoning"
  const Field: string := "plan"

  const Head: string :=
      "You are Neuraline's Strategist " + "Agent — a structured thinking " + "AI that transforms insights " + "into clear, achievable action steps.\n"
    + "Your job is to design a practical " + "3-step weekly plan that helps " + "the user make progress with " + "clarity and balance.\n"
    + "\n"
    + "User query: "

  const Middle: string :=
      "\n"
    + "Reflector insight: "

  const Tail: string :=
      "\n"
    + "\n"
    + "Guidelines:\n"
    + "1. Consider the emotional tone " + "from the insight — make the " + "plan encouraging and human.\n"
    + "2. Each step should be specific, " + "time-bound (Day 1-7), and achievable.\n"
    + "3. Include a short motivational " + "phrase for each step.\n"
    + "4. Avoid generic advice; use " + "the user's intent and reflection " + "context.\n"
    + "\n"
    + "Output JSON:\n"
    + "{\n"
    + "  'weekly_plan': [\n"
    + "           {'day': 'Mon-Tue', " + "'goal': '...', 'action': '...', " + "'motivation': '...'},\n"
    + "           {'day': 'Wed-Thu', " + "'goal': '...', 'action': '...', " + "'motivation': '...'},\n"
    + "           {'day': 'Fri-Sun', " + "'goal': '...', 'action': '...', " + "'motivation': '...'}\n"
    + "  ],\n"
    + "  'summary': 'Brief paragraph " + "explaining how this plan aligns " + "emotional insight with structured " + "action.'\n"
    + "}"

  /** The seed: `read("reflector", {}).get("insight", "")`, rendered as text. */
  function Seed(store: Store): Result<string> {
    match GetField(Get(store, "reflector", EmptyDict), "insight", Str(""))
    case Ok(x) => Ok(Show(x))
    case Err(e) => Err(e)
  }

  function Prompt(query: string, seed: string): string {
    Head + query + Middle + seed + Tail
  }

  function PromptFrom(query: string, store: Store): Result<string> {
    match Seed(store)
    case Ok(seed) => Ok(Prompt(query, seed))
    case Err(e) => Err(e)
  }

  /**
   * The seed is the reflector's insight when one is stored, "" when the key or the
   * field is missing, and an `AttributeError` when "reflector" holds a non-dict.
   */
  lemma SeedIsInsight(store: Store)
    ensures "reflector" !in store ==> Seed(store) == Ok("")
    ensures "reflector" in store && store["reflector"].Dict? ==>
      Seed(store) == Ok(if "insight" in store["reflector"].entries
                        then Show(store["reflector"].entries["insight"]) else "")
    ensures "reflector" in store && !store["reflector"].Dict? ==> Seed(store).Err?
  {
  }

  /** Both the query and the seed appear verbatim in the prompt. */
  lemma PromptEmbeds(query: string, seed: string)
    ensures Occurs(Prompt(query, seed), query)
    ensures Occurs(Prompt(query, seed), seed)
  {
    OccursInTemplate2(Head, query, Middle, seed, Tail);
  }

  /**
   * `StrategistAgent.run`: read the reflector's insight, call the model with task
   * type "cognitive_reasoning", merge `{"plan": reply}` under "strategist".
   */
  method Run(query: string, board: Blackboard, router: ModelRouter, timeout: int) returns (o: RunOutcome)
    modifies board
    ensures (o, board.store) == Step(Name, Field, TaskType, PromptFrom(query, old(board.store)), router, timeout, old(board.store))
  {
    var reflector := board.Read("reflector", EmptyDict);
    var seed := GetField(reflector, "insight", Str(""));
    match seed {
      case Err(e) =>
        o := Failed(e);
      case Ok(x) =>
        o := Finish(Name, Field, TaskType, Prompt(query, Show(x)), board, router, timeout);
    }
  }
}
