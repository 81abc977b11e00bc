/**
 * The troubleshooting query sent to the reasoning agent, the agent itself as
 * an uninterpreted outcome, and the `kubernetes_expert` tool that relays a
 * query to a freshly created agent.
 */
module Expert {
  import opened Wrappers

  /** The fixed instruction put in front of every user text sent to the agent. */
  const TroubleshootPrefix: string :=
    "Please help troubleshoot the following Kubernetes issue, providing detailed explanations, commands to run, and resolution steps: "

  /** The query the agent receives for a user text (the f-string `f"...: {query}"`). */
  function FormatQuery(query: string): (q: string)
    ensures |q| == |TroubleshootPrefix| + |query|
    ensures TroubleshootPrefix <= q
    ensures q[|TroubleshootPrefix|..] == query
  {
    TroubleshootPrefix + query
  }

  /** The user text inside a formatted query, or nothing when `q` lacks the prefix. */
  function QueryOf(q: string): (r: Option<string>)
    ensures r.Some? <==> TroubleshootPrefix <= q
    ensures r.Some? ==> FormatQuery(r.value) == q
  {
    if TroubleshootPrefix <= q then
      assert TroubleshootPrefix + q[|TroubleshootPrefix|..] == q;
      Some(q[|TroubleshootPrefix|..])
    else None
  }

  /** Reading the user text back out of its query gives the text that went in. */
  lemma QueryRoundTrip(query: string)
    ensures QueryOf(FormatQuery(query)) == Some(query)
  {
  }

  /** Different user texts give different queries: the agent sees the text verbatim. */
  lemma FormatQueryInjective(a: string, b: string)
    ensures FormatQuery(a) == FormatQuery(b) ==> a == b
  {
    QueryRoundTrip(a);
    QueryRoundTrip(b);
  }

  /**
   * What one call to the reasoning agent yields: the string form of its
   * response, or the description of the exception it raised.
   */
  datatype AgentOutcome = Answer(text: string) | Fault(message: string)

  /**
   * The reasoning agent. Its outcome for a prompt may depend on every prompt
   * the same agent instance was given before (`history`, oldest first); a
   * freshly created agent has an empty history.
   */
  type Agent = (seq<string>, string) -> AgentOutcome

  /** Returned when the agent answers with empty text. */
  const Apology: string :=
    "I apologize, but I couldn't process this Kubernetes question. Please check if your query is clearly stated or try rephrasing it with more details about the issue you're experiencing."

  /** Put in front of the fault description when the agent raises. */
  const ExpertErrorPrefix: string :=
    "Error processing your Kubernetes troubleshooting query: "

  /**
   * `kubernetes_expert(query)`: formats the query, gives it to a new agent,
   * and returns its non-empty answer unchanged, the apology for an empty
   * answer, or the error text carrying the fault's description.
   */
  function KubernetesExpert(query: string, agent: Agent): (r: string)
    ensures r != []
    ensures agent([], FormatQuery(query)).Answer? && agent([], FormatQuery(query)).text != []
            ==> r == agent([], FormatQuery(query)).text
    ensures agent([], FormatQuery(query)) == Answer([]) ==> r == Apology
    ensures agent([], FormatQuery(query)).Fault?
            ==> ExpertErrorPrefix <= r && r[|ExpertErrorPrefix|..] == agent([], FormatQuery(query)).message
  {
    match agent([], FormatQuery(query))
    case Answer(text) => if |text| > 0 then text else Apology
    case Fault(message) => ExpertErrorPrefix + message
  }

  /**
   * The tool's reply depends on the user text only through the query the
   * agent sees, and on the agent only through its first answer to that query.
   */
  lemma ExpertDependsOnlyOnFirstOutcome(a: string, b: string, f: Agent, g: Agent)
    requires f([], FormatQuery(a)) == g([], FormatQuery(b))
    ensures KubernetesExpert(a, f) == KubernetesExpert(b, g)
  {
  }
}
