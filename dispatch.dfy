/**
 * The two chat event handlers, `handle_message_events` and
 * `handle_app_mention_events`, run against one shared reasoning agent.
 *
 * The session keeps one trace of what the bot does, in order: every `say`
 * (text and thread) and every prompt given to the shared agent. The prompts
 * in the trace are the history the agent's next outcome may depend on.
 */
module Dispatch {
  import opened Wrappers
  import opened Text
  import opened Classifier
  import opened Mentions
  import opened Expert

  /** A chat event as delivered: each of its fields may be missing. */
  datatype Event = Event(text: Option<string>, ts: Option<string>, botId: Option<string>)

  /** One `say(text=..., thread_ts=...)`: the text and the thread it goes into. */
  datatype Post = Post(text: string, threadTs: Option<string>)

  /** The acknowledgement sent before the agent is consulted. */
  const Thinking: string := ":thinking_face: Analyzing Kubernetes issue..."

  /** The reply to a mention that carries no text besides mentions and whitespace. */
  const Greeting: string :=
    "Hello! I'm a Kubernetes troubleshooting expert. Describe any Kubernetes issue you're facing, and I'll provide detailed resolution steps and commands to help you fix it."

  /** Put in front of the fault description when the agent raises inside a handler. */
  const HandlerErrorPrefix: string :=
    "I'm sorry, I encountered an error while processing this Kubernetes troubleshooting request: "

  /** `event.get("text", "")`. */
  function TextOf(e: Event): string {
    e.text.GetOr([])
  }

  /** `event.get("bot_id")` is truthy: the field is present and not empty. */
  predicate FromBot(e: Event) {
    e.botId.Some? && e.botId.value != []
  }

  /**
   * The text a handler posts for the agent's outcome: the answer as it is,
   * even when empty, or the error text carrying the fault's description.
   */
  function HandlerReply(o: AgentOutcome): (t: string)
    ensures o.Answer? ==> t == o.text
    ensures o.Fault? ==> HandlerErrorPrefix <= t && t[|HandlerErrorPrefix|..] == o.message
  {
    match o
    case Answer(text) => text
    case Fault(message) => HandlerErrorPrefix + message
  }


  /** One thing the bot does, in the order it does it: a post, or a prompt given to the shared agent. */
  datatype Action = Said(post: Post) | Asked(prompt: string)

  /** The prompts given to the agent in `trace`, oldest first: the agent's history. */
  function Prompts(trace: seq<Action>): (ps: seq<string>)
    ensures |ps| <= |trace|
  {
    if trace == [] then []
    else
      var init, last := trace[..|trace| - 1], trace[|trace| - 1];
      assert trace == init + [last];
      Prompts(init) + (if last.Asked? then [last.prompt] else [])
  }

  /** A text is in the agent's history exactly when the trace shows it was asked. */
  lemma {:induction false} PromptsAsked(trace: seq<Action>, q: string)
    ensures q in Prompts(trace) <==> Asked(q) in trace
    decreases |trace|
  {
    if trace != [] {
      var init, last := trace[..|trace| - 1], trace[|trace| - 1];
      assert trace == init + [last];
      PromptsAsked(init, q);
    }
  }

  /** The prompts of two stretches of a trace are those of the first followed by those of the second. */
  lemma {:induction false} PromptsAppend(t: seq<Action>, u: seq<Action>)
    ensures Prompts(t + u) == Prompts(t) + Prompts(u)
    decreases |u|
  {
    if u == [] {
      assert t + u == t;
    } else {
      var init := u[..|u| - 1];
      assert (t + u)[..|t + u| - 1] == t + init;
      PromptsAppend(t, init);
    }
  }

  /** The acknowledgement, then the prompt to the agent, then the reply for its outcome; posts go into thread `ts`. */
  function Exchange(ts: Option<string>, query: string, o: AgentOutcome): seq<Action> {
    [Said(Post(Thinking, ts)), Asked(query), Said(Post(HandlerReply(o), ts))]
  }

  /** What the message handler does for `e` when the shared agent has seen `history`. */
  ghost function MessageActions(e: Event, history: seq<string>, agent: Agent): seq<Action> {
    if FromBot(e) || !Relevant(TextOf(e)) then []
    else
      var q := FormatQuery(TextOf(e));
      Exchange(e.ts, q, agent(history, q))
  }

  /** What the mention handler does for `e` when the shared agent has seen `history`. */
  function MentionActions(e: Event, history: seq<string>, agent: Agent): seq<Action> {
    var t := StripMentions(TextOf(e));
    if t == [] then [Said(Post(Greeting, e.ts))]
    else
      var q := FormatQuery(t);
      Exchange(e.ts, q, agent(history, q))
  }

  /** Posting, asking and posting again, one after the other, appends an exchange. */
  lemma ExchangeAppended(t: seq<Action>, ts: Option<string>, query: string, o: AgentOutcome)
    ensures t + [Said(Post(Thinking, ts))] + [Asked(query)] + [Said(Post(HandlerReply(o), ts))]
            == t + Exchange(ts, query, o)
  {
  }

  /** An exchange gives the agent exactly its one prompt. */
  lemma ExchangePrompts(ts: Option<string>, query: string, o: AgentOutcome)
    ensures Prompts(Exchange(ts, query, o)) == [query]
  {
    var first, ask, reply := [Said(Post(Thinking, ts))], [Asked(query)], [Said(Post(HandlerReply(o), ts))];
    assert Exchange(ts, query, o) == first + ask + reply;
    PromptsAppend(first + ask, reply);
    PromptsAppend(first, ask);
    SaidPrompts(Post(Thinking, ts));
    SaidPrompts(Post(HandlerReply(o), ts));
    AskedPrompts(query);
  }

  /** A single post gives the agent no prompt. */
  lemma SaidPrompts(p: Post)
    ensures Prompts([Said(p)]) == []
  {
    assert [Said(p)][..0] == [];
  }

  /** A single prompt is the only prompt it gives the agent. */
  lemma AskedPrompts(q: string)
    ensures Prompts([Asked(q)]) == [q]
  {
    assert [Asked(q)][..0] == [];
  }

  /**
   * The message handler does nothing, and leaves the agent alone, for a
   * bot's message or an irrelevant text; otherwise it first posts the
   * acknowledgement, then gives the agent the query for the message text
   * verbatim, then posts the reply for the agent's outcome.
   */
  lemma MessageOutcome(e: Event, history: seq<string>, agent: Agent)
    ensures MessageActions(e, history, agent) == [] <==> FromBot(e) || !Relevant(TextOf(e))
    ensures var acts := MessageActions(e, history, agent);
      acts != [] ==>
        && |acts| == 3
        && acts[0] == Said(Post(Thinking, e.ts))
        && acts[1].Asked? && QueryOf(acts[1].prompt) == Some(TextOf(e))
        && acts[2] == Said(Post(HandlerReply(agent(history, acts[1].prompt)), e.ts))
        && Prompts(acts) == [acts[1].prompt]
    ensures MessageActions(e, history, agent) == [] ==> Prompts(MessageActions(e, history, agent)) == []
  {
    var q := FormatQuery(TextOf(e));
    QueryRoundTrip(TextOf(e));
    ExchangePrompts(e.ts, q, agent(history, q));
  }

  /** Every post of the message handler goes into the event's thread. */
  lemma MessageThreaded(e: Event, history: seq<string>, agent: Agent)
    ensures forall a :: a in MessageActions(e, history, agent) && a.Said? ==> a.post.threadTs == e.ts
  {
  }

  /**
   * The mention handler greets, and leaves the agent alone, exactly when the
   * text is nothing but mentions and whitespace; otherwise it first posts the
   * acknowledgement, then gives the agent the query for the stripped text,
   * then posts the reply for the agent's outcome. Neither the bot flag nor
   * the classifier plays a part.
   */
  lemma MentionOutcome(e: Event, history: seq<string>, agent: Agent)
    ensures var r := RemoveMentions(TextOf(e));
      |MentionActions(e, history, agent)| == 1 <==> forall i :: 0 <= i < |r| ==> IsSpace(r[i])
    ensures var acts := MentionActions(e, history, agent);
      |acts| == 1 ==> acts[0] == Said(Post(Greeting, e.ts)) && Prompts(acts) == []
    ensures var acts := MentionActions(e, history, agent);
      |acts| != 1 ==>
        && |acts| == 3
        && acts[0] == Said(Post(Thinking, e.ts))
        && acts[1].Asked? && QueryOf(acts[1].prompt) == Some(StripMentions(TextOf(e)))
        && acts[2] == Said(Post(HandlerReply(agent(history, acts[1].prompt)), e.ts))
        && Prompts(acts) == [acts[1].prompt]
  {
    var t := StripMentions(TextOf(e));
    var q := FormatQuery(t);
    QueryRoundTrip(t);
    ExchangePrompts(e.ts, q, agent(history, q));
    SaidPrompts(Post(Greeting, e.ts));
  }

  /** Every post of the mention handler goes into the event's thread. */
  lemma MentionThreaded(e: Event, history: seq<string>, agent: Agent)
    ensures forall a :: a in MentionActions(e, history, agent) && a.Said? ==> a.post.threadTs == e.ts
  {
    var t := StripMentions(TextOf(e));
    if t == [] {
      assert MentionActions(e, history, agent) == [Said(Post(Greeting, e.ts))];
    } else {
      var q := FormatQuery(t);
      assert MentionActions(e, history, agent) == Exchange(e.ts, q, agent(history, q));
    }
  }

  /**
   * The bot's side of the chat: everything it has said and asked its shared
   * agent, in the order it happened.
   */
  class Session {
    /** The shared agent created once when the bot starts. */
    const agent: Agent
    /** Every post and every prompt so far, oldest first. */
    var trace: seq<Action>

    constructor(agent: Agent)
      ensures this.agent == agent && trace == []
    {
      this.agent := agent;
      trace := [];
    }

    /** `say(text=text, thread_ts=threadTs)`: the agent's history is untouched. */
    method Say(text: string, threadTs: Option<string>)
      modifies this
      ensures trace == old(trace) + [Said(Post(text, threadTs))]
      ensures Prompts(trace) == Prompts(old(trace))
    {
      PromptsAppend(trace, [Said(Post(text, threadTs))]);
      SaidPrompts(Post(text, threadTs));
      trace := trace + [Said(Post(text, threadTs))];
    }

    /** `k8s_agent(query)`: the outcome depends on the query and on the agent's history. */
    method Consult(query: string) returns (o: AgentOutcome)
      modifies this
      ensures o == agent(Prompts(old(trace)), query)
      ensures trace == old(trace) + [Asked(query)]
      ensures Prompts(trace) == Prompts(old(trace)) + [query]
    {
      o := agent(Prompts(trace), query);
      PromptsAppend(trace, [Asked(query)]);
      AskedPrompts(query);
      trace := trace + [Asked(query)];
    }

    /** `handle_message_events(event, say)`. */
    method HandleMessage(e: Event)
      modifies this
      ensures trace == old(trace) + MessageActions(e, Prompts(old(trace)), agent)
    {
      if FromBot(e) {
        return;
      }
      ghost var before := trace;
      var text := TextOf(e);
      var relevant := IsKubernetesQuestion(text);
      if relevant {
        var q := FormatQuery(text);
        Say(Thinking, e.ts);
        var o := Consult(q);
        Say(HandlerReply(o), e.ts);
        ExchangeAppended(before, e.ts, q, o);
        assert MessageActions(e, Prompts(before), agent) == Exchange(e.ts, q, o);
      }
    }

    /** `handle_app_mention_events(event, say)`. */
    method HandleAppMention(e: Event)
      modifies this
      ensures trace == old(trace) + MentionActions(e, Prompts(old(trace)), agent)
    {
      ghost var before := trace;
      var text := StripMentions(TextOf(e));
      if text == [] {
        Say(Greeting, e.ts);
        return;
      }
      var q := FormatQuery(text);
      Say(Thinking, e.ts);
      var o := Consult(q);
      Say(HandlerReply(o), e.ts);
      ExchangeAppended(before, e.ts, q, o);
      assert MentionActions(e, Prompts(before), agent) == Exchange(e.ts, q, o);
    }
  }

  /**
   * A mention carrying nothing but one marker is greeted, in its thread, and
   * the agent is not asked anything.
   */
  lemma BareMentionGreeted(id: string, e: Event, history: seq<string>, agent: Agent)
    requires IsId(id) && e.text == Some(Marker(id))
    ensures MentionActions(e, history, agent) == [Said(Post(Greeting, e.ts))]
  {
    assert RemoveMentions([]) == [];
    LeadingMentionDropped(id, []);
    assert Marker(id) + [] == Marker(id);
  }

  /** The mention handler answers whether or not the sender is a bot. */
  lemma MentionIgnoresBotFlag(e: Event, botId: Option<string>, history: seq<string>, agent: Agent)
    ensures MentionActions(e.(botId := botId), history, agent) == MentionActions(e, history, agent)
  {
  }

  /**
   * The mention handler does not consult the classifier: "hello" is not
   * relevant, so as a plain message it gets no reply, yet as a mention it is
   * sent to the agent and answered.
   */
  lemma MentionSkipsClassifier(e: Event, history: seq<string>, agent: Agent)
    requires e.text == Some("hello") && !FromBot(e)
    ensures MessageActions(e, history, agent) == []
    ensures |MentionActions(e, history, agent)| == 3
    ensures MentionActions(e, history, agent)[1] == Asked(FormatQuery("hello"))
  {
    HelloIrrelevant();
    WordKeptByMention("hello");
    assert TextOf(e) == "hello";
  }

  /** "hello" is not one of the keywords, so as a single word it is not relevant. */
  lemma HelloIrrelevant()
    ensures !Relevant("hello")
  {
    assert Lower("hello") !in Keywords by {
      assert Lower("hello") == "hello";
      InKeywords("hello");
    }
    SingleWord("hello");
  }

  /** A single plain word holds no mention and no surrounding whitespace, so stripping keeps it whole. */
  lemma WordKeptByMention(w: string)
    requires w != [] && forall i :: 0 <= i < |w| ==> IsWordChar(w[i])
    ensures StripMentions(w) == w
  {
    NoOpenerUnchanged(w);
    StripUnpadded(w);
  }

  /**
   * The handlers bypass `kubernetes_expert`: for a fresh agent they post the
   * same non-empty answer it returns, but an empty answer is posted as it is
   * where the tool substitutes the apology.
   */
  lemma HandlerVersusExpert(e: Event, agent: Agent)
    requires !FromBot(e) && Relevant(TextOf(e))
    ensures agent([], FormatQuery(TextOf(e))).Answer? && agent([], FormatQuery(TextOf(e))).text != []
            ==> MessageActions(e, [], agent)[2] == Said(Post(KubernetesExpert(TextOf(e), agent), e.ts))
    ensures agent([], FormatQuery(TextOf(e))) == Answer([])
            ==> MessageActions(e, [], agent)[2].post.text == [] && KubernetesExpert(TextOf(e), agent) == Apology
  {
  }
}
