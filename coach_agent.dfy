/** The coach agent: turns the strategist's plan into habits and nudges. */
module CoachAgent {
  import opened Wrappers
  import opened PyString
  import opened SharedState
  import opened BaseAgent

  const Name: string := "coach"
  const TaskType: string := "behavioral_coaching"
  const Field: string := "nudges"

  const Head: string :=
      "You are Neuraline's Consistency " + "Coach — a warm, structured AI " + "that helps users stay consistent " + "through emotional intelligence " + "and practical strategy.\n"
    + "\n"
    + "Your goal is to transform the " + "given plan into specific, psychologicall" + "y sound micro-habits and motivational " + "nudges that build lasting consistency.\n"
    + "\n"
    + "Context:\n"
    + "- User query: "

  const Middle: string :=
      "\n"
    + "- Plan to refine: "

  const Tail: string :=
      "\n"
    + "\n"
    + "Instructions:\n"
    + "1. Identify the core behavioral " + "goals behind the plan.\n"
    + "2. Break them into 2 to 4 micro-habits " + "that are simple, trackable, " + "and emotionally sustainable.\n"
    + "3. For each habit, write one " + "actionable accountability nudge " + "in a caring, supportive tone.\n"
    + "4. If relevant, reflect briefly " + "on the psychological challenge " + "(e.g., procrastination, overwhelm) " + "and how the nudge helps overcome it.\n"
    + "\n"
    + "Output in structured JSON:\n"
    + "{\n"
    + "  'micro_habits': [\n"
    + "           {'habit': '...', " + "'why_it_works': '...', 'nudge': '...'}\n"
    + "  ],\n"
    + "  'summary': 'Short reflective " + "summary (2 sentences) about " + "consistency and emotional growth.'\n"
    + "}"

  /** The plan: `read("strategist", {}).get("plan", "")`, rendered as text. */
  function Plan(store: Store): Result<string> {
    match GetField(Get(store, "strategist", EmptyDict), "plan", Str(""))
    case Ok(x) => Ok(Show(x))
    case Err(e) => Err(e)
  }

  function Prompt(query: string, plan: string): string {
    Head + query + Middle + plan + Tail
  }

  function PromptFrom(query: string, store: Store): Result<string> {
    match Plan(store)
    case Ok(plan) => Ok(Prompt(query, plan))
    case Err(e) => Err(e)
  }

  /**
   * The plan is the strategist's plan when one is stored, "" when the key or the
   * field is missing, and an `AttributeError` when "strategist" holds a non-dict.
   */
  lemma PlanIsStrategistPlan(store: Store)
    ensures "strategist" !in store ==> Plan(store) == Ok("")
    ensures "strategist" in store && store["strategist"].Dict? ==>
      Plan(store) == Ok(if "plan" in store["strategist"].entries
                        then Show(store["strategist"].entries["plan"]) else "")
    ensures "strategist" in store && !store["strategist"].Dict? ==> Plan(store).Err?
  {
  }

  /** Both the query and the plan appear verbatim in the prompt. */
  lemma PromptEmbeds(query: string, plan: string)
    ensures Occurs(Prompt(query, plan), query)
    ensures Occurs(Prompt(query, plan), plan)
  {
    OccursInTemplate2(Head, query, Middle, plan, Tail);
  }

  /**
   * `CoachAgent.run`: read the strategist's plan, call the model with task type
   * "behavioral_coaching", merge `{"nudges": reply}` under "coach".
   */
  method Run(query: string, board: Blackboard, router: ModelRouter, timeout: int) returns (o: RunOutcome)
    modifies board
    ensures (o, board.store) == Step(Name, Field, TaskType, PromptFrom(query, old(board.store)), router, timeout, old(board.store))
  {
    var strategist := board.Read("strategist", EmptyDict);
    var plan := GetField(strategist, "plan", Str(""));
    match plan {
      case Err(e) =>
        o := Failed(e);
      case Ok(x) =>
        o := Finish(Name, Field, TaskType, Prompt(query, Show(x)), board, router, timeout);
    }
  }
}
