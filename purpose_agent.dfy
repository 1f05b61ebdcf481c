/** The purpose agent: ties the reflector's insight and the strategist's plan to the user's values. */
module PurposeAgent {
  import opened Wrappers
  import opened PyString
  import opened SharedState
  import opened BaseAgent

  const Name: string := "purpose"
  const TaskType: string := "purpose_alignment"
  const Field: string := "alignment"

  const NoReflection: string := "No reflection provided"
  const NoPlan: string := "No plan available"

  const Head: string :=
      "You are Neuraline's Purpose " + "Agent — an empathetic AI guide " + "who helps users align daily " + "actions with their deeper life " + "values.\n"
    + "Your goal is to interpret the " + "user's plan and reflection, " + "then craft 2 to 3 sentences " + "that connect their actions to " + "purpose and inner motivation.\n"
    + "\n"
    + "Context:\n"
    + "- Reflection insight: "

  const PlanLabel: string :=
      "\n"
    + "- Strategic plan: "

  const QueryLabel: string :=
      "\n"
    + "- User query: "

  const Tail: string :=
      "\n"
    + "\n"
    + "Guidelines:\n"
    + "1. Identify the underlying values " + "or long-term goals implied by " + "the plan.\n"
    + "2. Express how following this " + "plan supports personal growth, " + "contribution, or self-fulfillment.\n"
    + "3. Write in a warm, reflective, " + "and motivational tone — like " + "a mentor helping the user reconnect " + "with their 'why.'\n"
    + "\n"
    + "Output JSON:\n"
    + "{\n"
    + "  'purpose_alignment': '2 to " + "3 sentence reflection connecting " + "the plan to purpose and values',\n"
    + "  'core_value': 'word or phrase " + "representing the underlying " + "purpose (e.g., growth, discipline, " + "balance)'\n"
    + "}"

  function Prompt(insight: string, plan: string, query: string): string {
    Head + insight + PlanLabel + plan + QueryLabel + query + Tail
  }

  /**
   * The prompt from the two values read with `read(key, {})`: `ref.get("insight", ...)`
   * is evaluated before `strat.get("plan", ...)`, so a non-dict under "reflector"
   * raises first.
   */
  function PromptOf(query: string, ref: Value, strat: Value): Result<string> {
    match GetField(ref, "insight", Str(NoReflection))
    case Err(e) => Err(e)
    case Ok(insight) =>
      match GetField(strat, "plan", Str(NoPlan))
      case Err(e) => Err(e)
      case Ok(plan) => Ok(Prompt(Show(insight), Show(plan), query))
  }

  function PromptFrom(query: string, store: Store): Result<string> {
    PromptOf(query, Get(store, "reflector", EmptyDict), Get(store, "strategist", EmptyDict))
  }

  /**
   * On a blackboard where neither earlier role has written, the prompt says
   * "No reflection provided" and "No plan available"; when both have written, it
   * carries their insight and plan.
   */
  lemma PromptDefaults(query: string, store: Store)
    ensures "reflector" !in store && "strategist" !in store ==>
      PromptFrom(query, store) == Ok(Prompt(NoReflection, NoPlan, query))
    ensures && "reflector" in store && store["reflector"].Dict? && "insight" in store["reflector"].entries
            && "strategist" in store && store["strategist"].Dict? && "plan" in store["strategist"].entries
            ==>
      PromptFrom(query, store) == Ok(Prompt(Show(store["reflector"].entries["insight"]),
                                            Show(store["strategist"].entries["plan"]), query))
  {
  }

  /** The insight, the plan and the query all appear verbatim in the prompt. */
  lemma PromptEmbeds(insight: string, plan: string, query: string)
    ensures Occurs(Prompt(insight, plan, query), insight)
    ensures Occurs(Prompt(insight, plan, query), plan)
    ensures Occurs(Prompt(insight, plan, query), query)
  {
    OccursInTemplate3(Head, insight, PlanLabel, plan, QueryLabel, query, Tail);
  }

  /**
   * `PurposeAgent.run`: read "reflector" and "strategist", call the model with task
   * type "purpose_alignment", merge `{"alignment": reply}` under "purpose".
   */
  method Run(query: string, board: Blackboard, router: ModelRouter, timeout: int) returns (o: RunOutcome)
    modifies board
    ensures (o, board.store) == Step(Name, Field, TaskType, PromptFrom(query, old(board.store)), router, timeout, old(board.store))
  {
    var ref := board.Read("reflector", EmptyDict);
    var strat := board.Read("strategist", EmptyDict);
    var prompt := PromptOf(query, ref, strat);
    match prompt {
      case Err(e) =>
        o := Failed(e);
      case Ok(p) =>
        o := Finish(Name, Field, TaskType, p, board, router, timeout);
    }
  }
}
