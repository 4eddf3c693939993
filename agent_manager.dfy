/** Keyword routing of src/agent_manager/app.py: the request's `query` is lower-cased and
    matched against two word lists in turn. */
module AgentManager {
  import opened Base
  import opened Text

  const ExecutionAgent := "execution_agent"
  const KnowledgeAgent := "knowledge_agent"
  const DefaultAgent := "default_agent"
  const Confidence := 0.95

  /** The reply: the chosen agent with its confidence, or the 500 that a `query` which is
      not a string (so has no `lower()`) provokes. */
  datatype Selection = Selected(agent: string, confidence: real) | Crashed

  predicate AsksForExecution(q: string)
  {
    Contains(q, "execute") || Contains(q, "run") || Contains(q, "code")
  }

  predicate AsksForKnowledge(q: string)
  {
    Contains(q, "knowledge") || Contains(q, "graph")
  }

  /** The if/elif chain on the lower-cased query. */
  function Route(q: string): string
  {
    if AsksForExecution(q) then ExecutionAgent
    else if AsksForKnowledge(q) then KnowledgeAgent
    else DefaultAgent
  }

  /** `select_agent` on the request's `query` field; `None` is a missing key, read as "". */
  function SelectAgent(query: Option<Json>): Selection
  {
    match query
    case None => Selected(Route(""), Confidence)
    case Some(Str(s)) => Selected(Route(ToLower(s)), Confidence)
    case Some(_) => Crashed
  }

  // ---------------------------------------------------------------------------

  /** Each string query gets one of the three agents, always at confidence 0.95: execution
      when an execution word occurs, knowledge when only a knowledge word does, and the
      default agent otherwise. */
  lemma RoutingIff(s: string)
    ensures var r := SelectAgent(Some(Str(s)));
      r.Selected? && r.confidence == 0.95
      && (r.agent == "execution_agent" <==> AsksForExecution(ToLower(s)))
      && (r.agent == "knowledge_agent" <==> !AsksForExecution(ToLower(s)) && AsksForKnowledge(ToLower(s)))
      && (r.agent == "default_agent" <==> !AsksForExecution(ToLower(s)) && !AsksForKnowledge(ToLower(s)))
  {
  }

  /** An execution word wins over a knowledge word: "run the graph" goes to the execution agent. */
  lemma ExecutionTakesPriority(s: string)
    requires AsksForExecution(ToLower(s)) && AsksForKnowledge(ToLower(s))
    ensures SelectAgent(Some(Str(s))) == Selected("execution_agent", 0.95)
  {
  }

  /** Case does not matter: a query and its lower-cased form are routed alike. */
  lemma CaseInsensitive(s: string)
    ensures SelectAgent(Some(Str(s))) == SelectAgent(Some(Str(ToLower(s))))
  {
    ToLowerIdempotent(s);
  }

  /** A request without a query goes to the default agent; a query that is not a string
      gets no agent at all. */
  lemma MissingQueryIsDefault(j: Json)
    ensures SelectAgent(None) == Selected("default_agent", 0.95)
    ensures !j.Str? ==> SelectAgent(Some(j)) == Crashed
  {
    assert !AsksForExecution("") && !AsksForKnowledge("");
  }
}
