# kube_wizard in Dafny

A model of the decision logic of the kube_wizard Slack bot (`main.py`). The bot
answers Kubernetes troubleshooting questions by relaying them to a reasoning
agent. The model covers three parts.

- **The relevance classifier** `is_kubernetes_question` (module `Classifier`).
  - The fixed list of 52 keywords is tried in order. Each keyword is searched
    with `re.search(r'\b' + k + r'\b', text, re.IGNORECASE)`, and the first hit
    answers true.
  - `\b` is modelled literally, as a word/non-word transition. A lemma shows
    that for these keywords it means "occurs as a whole word".
  - `re.search` is modelled as a leftmost-match function. The loop is a method
    proved equal to an existential predicate, `Relevant`.
- **Mention stripping and query formatting** (modules `Mentions`, `Text` and
  `Expert`).
  - `re.sub(r'<@[A-Z0-9]+>', '', text)` is a left-to-right scan, modelled as a
    tokenizer into kept characters and matched mentions. Rendering the tokens
    and tokenizing the text are proved to be inverses.
  - `str.strip()` uses Python's whitespace set.
  - The troubleshooting query is a fixed prefix followed by the user text. A
    reading-back function inverts it.
- **The agent relay and the two event handlers** (modules `Expert` and
  `Dispatch`).
  - The reasoning agent is an uninterpreted function from the prompts it has
    already been given and the new prompt to an outcome, `Answer(text)` or
    `Fault(message)`. A fresh agent, as `kubernetes_expert` creates, has an
    empty history. The handlers share one agent, created at start-up, whose
    history grows with every prompt.
  - A `Session` object holds one trace of what the bot does, in order: each
    `say` and each prompt given to the shared agent. The prompts in the trace
    are the agent's history.
  - `HandleMessage` and `HandleAppMention` are proved to append exactly what
    the specification functions `MessageActions` and `MentionActions`
    describe. Lemmas state what those actions are: the acknowledgement posted
    before the agent is asked, the prompt, the reply, and the thread.

Two points of the code that a reader might expect otherwise:

- The keyword list in `main.py:54-65` has 52 entries.
- The handlers post the agent's answer as it is, even when it is empty. The
  fallback to the fixed "I apologize…" text exists only in
  `kubernetes_expert` (`main.py:96-99`), which the handlers do not call.
  `Dispatch.HandlerVersusExpert` states the difference.

## Model

| member | source | states |
|---|---|---|
| Wrappers.Option.GetOr | main.py:132 | `event.get(key, default)` gives the value when the key is present and the default otherwise |
| Text.IsWordChar | main.py:68 | `\w` in the pattern: an ASCII letter, digit or underscore (definition, no contract) |
| Text.IsSpace | main.py:165 | the characters `str.strip()` removes: Python's whitespace code points (definition, no contract) |
| Text.Fold | main.py:68 | case folding under `re.IGNORECASE`: an upper-case ASCII letter becomes its lower-case letter, every other character is unchanged, and whether it is a word character is kept |
| Text.Lower | main.py:68 | folding a text folds each character and keeps its length |
| Text.LowerIdempotent | main.py:68 | folding twice is folding once, and raising the case first makes no difference |
| Text.SpaceRunFrom | main.py:165 | the whitespace run that starts at an index ends at the first non-whitespace character or at the end of the text |
| Text.SpaceRunTo | main.py:165 | the whitespace run that ends at an index starts just after the last non-whitespace character before it, or at the beginning of the text |
| Text.Strip | main.py:165 | `str.strip()` returns a slice of the text with only whitespace around it, starting and ending with non-whitespace; the result is empty exactly when the text is all whitespace |
| Text.StripUnpadded | main.py:165 | a text with no whitespace at either end is unchanged by `strip()` |
| Text.StripIdempotent | main.py:165 | stripping twice is stripping once |
| Classifier.BoundaryAt | main.py:68 | `\b` at a position: a word character on exactly one side, the ends of the text counting as non-word (definition, no contract) |
| Classifier.HitAt | main.py:68 | `\b k \b` matches at an offset, ignoring case, by folding the text (definition, no contract) |
| Classifier.Relevant | main.py:54-71 | what `is_kubernetes_question` decides: some keyword of the list matches somewhere (definition, no contract) |
| Classifier.SearchFrom | main.py:68 | the search returns the first position at or after `from` where `\bk\b` matches ignoring case, and none when there is no such position |
| Classifier.Search | main.py:68 | for a keyword-shaped pattern, `re.search` finds the leftmost match, and finds nothing exactly when the pattern matches nowhere |
| Classifier.MatchesAny | main.py:67-71 | the loop over the keywords, with its early `return True`, answers true exactly when some keyword matches somewhere |
| Classifier.IsKubernetesQuestion | main.py:49-71 | `is_kubernetes_question` answers true exactly when some keyword of the list matches |
| Classifier.ShapedIsFolded | main.py:54-65 | a keyword made of lower-case letters, digits and `-` is its own case folding |
| Classifier.CoreWordsShaped | main.py:55 | the keywords of this line are lower case with a word character at both ends |
| Classifier.LayoutWordsShaped | main.py:56 | the keywords of this line are lower case with a word character at both ends |
| Classifier.StorageWordsShaped | main.py:57 | the keywords of this line are lower case with a word character at both ends |
| Classifier.WorkloadWordsShaped | main.py:58 | the keywords of this line are lower case with a word character at both ends |
| Classifier.StateWordsShaped | main.py:59 | the keywords of this line are lower case with a word character at both ends |
| Classifier.AccessWordsShaped | main.py:60 | the keywords of this line are lower case with a word character at both ends |
| Classifier.SchedulingWordsShaped | main.py:61 | the keywords of this line are lower case with a word character at both ends |
| Classifier.ComponentWordsShaped | main.py:62 | the keywords of this line, including `kube-system` and `kube-dns`, are lower case with a word character at both ends |
| Classifier.DistributionWordsShaped | main.py:63 | the keywords of this line are lower case with a word character at both ends |
| Classifier.EcosystemWordsShaped | main.py:64 | the keywords of this line are lower case with a word character at both ends |
| Classifier.KeywordsShape | main.py:54-65 | there are 52 keywords, each at least two characters long, lower case, with a word character at both ends |
| Classifier.InKeywords | main.py:54-65 | a string is a keyword exactly when it is on one of the ten lines of the list |
| Classifier.BoundaryIsWholeWord | main.py:68 | for a pattern that starts and ends with a word character, `\bk\b` matches exactly where `k` occurs with a non-word character or an end of the text on each side |
| Classifier.RelevantIffWholeWord | main.py:54-71 | the classifier answers true exactly when some keyword occurs as a whole word, ignoring case |
| Classifier.HitIgnoresCase | main.py:68 | texts that agree up to letter case match a pattern at the same positions |
| Classifier.CaseInsensitive | main.py:68 | changing the letter case of the text never changes the classification |
| Classifier.LowerUpperSameAnswer | main.py:68 | the text, its lower-case form and its upper-case form are classified alike |
| Classifier.SingleWord | main.py:54-71 | a text that is one word is relevant exactly when, folded, it is a keyword; a keyword inside a longer word does not count |
| Classifier.ShortTextIrrelevant | main.py:54-71 | a text shorter than two characters, the empty text in particular, is not relevant |
| Classifier.OrderIrrelevant | main.py:67-71 | the answer does not depend on the order in which the patterns are tried |
| Classifier.HitInContext | main.py:68 | a word set off by non-word characters or the ends of the text is matched by its folded form |
| Classifier.KeywordInContext | main.py:54-71 | a keyword in any case, set off by non-word characters or the ends of the text, makes the text relevant |
| Classifier.PodExample | main.py:54-71 | "my Pod is stuck" is relevant |
| Classifier.PodIsKeyword | main.py:55 | "Pod" folds to the keyword "pod" |
| Classifier.CapitalsExample | main.py:54-71 | "KUBECTL" is relevant |
| Classifier.PluralIsNoMatch | main.py:54-71 | "pods" is not relevant |
| Classifier.LongerWordIsNoMatch | main.py:54-71 | "podcast" is not relevant |
| Mentions.IsIdChar | main.py:165 | `[A-Z0-9]`: an upper-case ASCII letter or a digit (definition, no contract) |
| Mentions.Tokenize | main.py:165 | the scan of `re.sub`: at each position a marker is matched and taken whole, or one character is kept (definition; `TokenizeSound` and `TokenizeRender` state its contract) |
| Mentions.Marker | main.py:165 | the marker `<@ID>` is three characters longer than the ID |
| Mentions.IdRun | main.py:165 | `[A-Z0-9]+` consumes the longest run of ID characters |
| Mentions.IdRunStopsAt | main.py:165 | a run of ID characters ended by a non-ID character is exactly the run the pattern consumes |
| Mentions.MarkerShape | main.py:165 | a marker at the start of a text shows as `<@`, an ID-character run of the ID's length, then `>` |
| Mentions.MarkerLength | main.py:165 | a match found at the start of a text is a marker with a valid ID |
| Mentions.MarkerLengthUnique | main.py:165 | the match at a position is unique: any marker that starts the text has the length that is found |
| Mentions.MarkerLengthFinds | main.py:165 | a match is found at the start of a text exactly when the pattern matches there |
| Mentions.ScannedCons | main.py:165 | a kept character where the pattern does not match, or a valid mention, put in front of a left-to-right scan, is again a left-to-right scan |
| Mentions.TokenizeSound | main.py:165 | the scan of `re.sub` covers the whole text and only keeps characters where the pattern does not match |
| Mentions.MentionStepSound | main.py:165 | a scan step that matches a marker covers its text when the rest of the scan does |
| Mentions.MentionStepTokens | main.py:165 | where a marker matches, the scan drops it and resumes right after it |
| Mentions.MentionStepRender | main.py:165 | a matched marker followed by the rest of the text renders the text |
| Mentions.KeptStepSound | main.py:165 | a scan step that keeps a character covers its text when the rest of the scan does |
| Mentions.TokenizeRender | main.py:165 | any left-to-right scan of a text is the one `re.sub` performs, so scanning and rendering are inverses |
| Mentions.KeptStepUnique | main.py:165 | a kept character in front of a scan is read back as a kept character |
| Mentions.MentionStepUnique | main.py:165 | a mention in front of a scan is read back as a mention |
| Mentions.RemoveMentions | main.py:165 | the result is the text kept by a left-to-right scan of the input that takes every `<@ID>` marker as a mention and drops it; it is never longer than the input |
| Mentions.KeptNoLonger | main.py:165 | the kept characters are no more than the text scanned |
| Mentions.StripMentions | main.py:163-165 | the text the mention handler works with is no longer than the event text, and is empty exactly when only whitespace is left after removing the mentions |
| Mentions.NoMarkerUnchanged | main.py:165 | a text in which the pattern matches nowhere is unchanged |
| Mentions.NoOpenerUnchanged | main.py:165 | a text without `<` is unchanged |
| Mentions.LeadingMentionDropped | main.py:165 | a leading mention is removed and the scan goes on right after it |
| Mentions.LeadingCharKept | main.py:165 | a leading character where the pattern does not match is kept and the scan goes on after it |
| Mentions.InnerMarkerRemoved | main.py:165 | `<@A>B>` becomes `B>` |
| Mentions.OpenerKept | main.py:165 | `<@` not followed by an ID character is kept as text |
| Mentions.LoneMarkerRemoved | main.py:165 | `<@B>` becomes the empty text |
| Mentions.NotIdempotent | main.py:165 | one pass turns `<@<@A>B>` into `<@B>`, which a second pass would remove: the result can still hold a marker |
| Expert.FormatQuery | main.py:85 | the query is the fixed troubleshooting prefix followed by the user text, verbatim |
| Expert.QueryOf | main.py:85 | the user text can be read back from a text exactly when it starts with the prefix, and formatting it again gives that text |
| Expert.QueryRoundTrip | main.py:85 | reading back a formatted query gives the user text that went in |
| Expert.FormatQueryInjective | main.py:85 | different user texts give different queries |
| Expert.KubernetesExpert | main.py:74-103 | the reply is never empty; a non-empty answer from a fresh agent is returned unchanged, an empty one gives the fixed apology, and a fault gives the error prefix followed by the fault's description |
| Expert.ExpertDependsOnlyOnFirstOutcome | main.py:85-103 | the tool's reply depends only on what a fresh agent does with the formatted query |
| Dispatch.TextOf | main.py:132 | `event.get("text", "")`, in both handlers (also `main.py:163`): the text when present, the empty text otherwise (definition, no contract) |
| Dispatch.FromBot | main.py:128 | `event.get("bot_id")` is truthy: present and non-empty (definition, no contract) |
| Dispatch.HandlerReply | main.py:145-157 | a handler posts the agent's answer as it is, even when empty, or the handler's error prefix followed by the fault's description |
| Dispatch.Prompts | main.py:145 | the shared agent's history is the prompts of the trace, oldest first, never more than the trace's length |
| Dispatch.PromptsAsked | main.py:145 | a text is in the agent's history exactly when the trace shows it was asked |
| Dispatch.PromptsAppend | main.py:145 | the prompts of a trace followed by more actions are the old prompts followed by the new ones |
| Dispatch.MessageActions | main.py:125-157 | what the message handler does for an event, given the agent's history (definition; `MessageOutcome` and `MessageThreaded` state its contract) |
| Dispatch.MessageOutcome | main.py:125-157 | the message handler does nothing and gives the agent no prompt for a bot's message or an irrelevant text; otherwise it does three things in order: posts the thinking message, gives the agent the query for the message text verbatim, posts the reply for the agent's outcome |
| Dispatch.MessageThreaded | main.py:137-157 | every post of the message handler goes into the event's thread |
| Dispatch.MentionActions | main.py:160-196 | what the mention handler does for an event, given the agent's history (definition; `MentionOutcome` and `MentionThreaded` state its contract) |
| Dispatch.MentionOutcome | main.py:160-196 | the mention handler greets, with one post and no prompt, exactly when only mentions and whitespace were written; otherwise it does three things in order: posts the thinking message, gives the agent the query for the stripped text, posts the reply for the agent's outcome |
| Dispatch.MentionThreaded | main.py:167-196 | every post of the mention handler goes into the event's thread |
| Dispatch.Session.constructor | main.py:119-121 | the bot starts with one shared agent and an empty trace |
| Dispatch.Session.Say | main.py:137-140 | `say` appends one post with its text and thread and leaves the agent's history unchanged |
| Dispatch.Session.Consult | main.py:145 | calling the shared agent yields its outcome for the prompt given its history, and appends the prompt to the trace and the history |
| Dispatch.Session.HandleMessage | main.py:125-157 | `handle_message_events` appends exactly the message handler's actions, in order, to the trace |
| Dispatch.Session.HandleAppMention | main.py:160-196 | `handle_app_mention_events` appends exactly the mention handler's actions, in order, to the trace |
| Dispatch.BareMentionGreeted | main.py:163-172 | a mention that is a single marker gets the greeting in its thread and the agent is not asked |
| Dispatch.MentionIgnoresBotFlag | main.py:160-196 | the mention handler does not look at `bot_id` |
| Dispatch.MentionSkipsClassifier | main.py:174-196 | "hello" gets no reply as a message but is sent to the agent and answered as a mention |
| Dispatch.HelloIrrelevant | main.py:49-71 | "hello" is not relevant |
| Dispatch.WordKeptByMention | main.py:163-165 | a single plain word is left whole by mention stripping |
| Dispatch.HandlerVersusExpert | main.py:96-99 | for a fresh agent, the message handler posts the same non-empty answer that `kubernetes_expert` returns, but posts an empty answer where the tool returns the apology |

## Left out

- Logging configuration, `load_dotenv` and every `logger` call (`main.py:13-21`, `main.py:88`, `main.py:102`, `main.py:199`): output only.
- `setup_slack_bot`'s start-up (`main.py:105-122`, `main.py:198-205`) is not modelled beyond `Session.constructor`. It builds the Slack Bolt `App` and the `SocketModeHandler`, reads tokens from the environment and calls `sys.exit(1)`, all of which is transport plumbing over libraries that are not part of this model.
- The strands `Agent`, the `@tool` decorator and the system prompt text (`main.py:10`, `main.py:24-46`, `main.py:73`, `main.py:90-93`): the agent is an uninterpreted function of its prompt history and the new prompt. It is assumed deterministic given that history; the model does not capture what it answers, or the nondeterminism of a language model.
- Expert.KubernetesExpert: a fault raised while the agent is being created (`main.py:90-92`) is not distinguished from one raised while it answers. Both are a `Fault` outcome.
- Concurrent delivery of events to the shared `k8s_agent`: handlers run one at a time, each to completion.
- Failures of `say` itself, including the thinking message sent inside the mention handler's `try` (`main.py:175-180`): `say` never fails.
- `\w` and `re.IGNORECASE` beyond ASCII. The model treats `[A-Za-z0-9_]` as the word characters and folds only ASCII letters. Python also counts non-ASCII letters and digits as word characters, and under `re.IGNORECASE` it matches, for example, the Kelvin sign U+212A against `k`.
- An event whose `text` or `ts` is present but `None`: a missing field is modelled, but a present `None` text, which makes `re.search` and `re.sub` raise, is not.
- Any truthy `bot_id` other than a string: `bot_id` is modelled as an optional string, truthy when present and non-empty.
