/** The reflector agent: reads nothing, asks the model for an emotional insight. */
module ReflectorAgent {
  import opened Wrappers
  import opened PyString
  import opened SharedState
  import opened BaseAgent

  const Name: string := "reflector"
  const TaskType: string := "emotional_reflection"
  const Field: string := "insight"

  const Head: string :=
      "You are Neuraline's Reflection " + "Agent — a warm, empathetic AI " + "designed to help users explore " + "their thoughts and emotions " + "clearly.\n"
    + "Your role is to encourage self-awareness" + " through gentle reflective questions " + "and emotional insight.\n"
    + "\n"
    + "User query: "

  const Tail: string :=
      "\n"
    + "\n"
    + "Instructions:\n"
    + "1. Read the user's message with " + "empathy — infer what they might " + "be feeling or trying to understand.\n"
    + "2. Generate 3 short reflective " + "questions that invite emotional " + "clarity or self-understanding.\n"
    + "3. Offer 1 short insight summarizing " + "what emotional or cognitive " + "pattern might be present.\n"
    + "4. Write in a calm, conversational, " + "non-judgmental tone.\n"
    + "\n"
    + "Output JSON:\n"
    + "{\n"
    + "  'reflective_questions': ['...', " + "'...', '...'],\n"
    + "  'insight': 'A short empathetic " + "reflection about what the user " + "might be experiencing.'\n"
    + "}"

  /** The reflector's prompt: fixed instructions around the user query. */
  function Prompt(query: string): string {
    Head + query + Tail
  }

  /** The prompt the agent builds from the blackboard: the store plays no part. */
  function PromptFrom(query: string, store: Store): Result<string> {
    Ok(Prompt(query))
  }

  /** The query appears verbatim in the prompt, and the prompt determines the query. */
  lemma PromptEmbedsQuery(query: string, other: string)
    ensures Occurs(Prompt(query), query)
    ensures Prompt(query) == Prompt(other) ==> query == other
  {
    OccursInMiddle(Head, query, Tail);
    if Prompt(query) == Prompt(other) {
      assert query == Prompt(query)[|Head|..|Head| + |query|];
      assert other == Prompt(other)[|Head|..|Head| + |other|];
    }
  }

  /**
   * `ReflectorAgent.run`: build the prompt, call the model with task type
   * "emotional_reflection", merge `{"insight": reply}` under "reflector".
   */
  method Run(query: string, board: Blackboard, router: ModelRouter, timeout: int) returns (o: RunOutcome)
    modifies board
    ensures (o, board.store) == Step(Name, Field, TaskType, PromptFrom(query, old(board.store)), router, timeout, old(board.store))
    ensures !o.Failed?
  {
    o := Finish(Name, Field, TaskType, Prompt(query), board, router, timeout);
  }
}
