# Interview bot core, modelled in Dafny

This project models the core of a mock-interview chat bot. The modelled pieces are:

- **Input guard** (`app/security.py`): `validate_input` rejects text over 1200 characters, then rejects text whose lower-cased form contains any phrase of a 23-entry denylist. `wrap_user_input` puts user text inside a `<USER_INPUT id="…">` envelope so the model treats it as data.
- **Interviewer** (`app/interviewer.py`): the constructor picks a system prompt from a difficulty fragment (Easy by default) and one of five technique templates (Zero-shot by default). Every template ends with the security block. `chat` appends the user message, sends the whole transcript to the completion gateway and appends the reply. `get_settings` reports the four settings.
- **Factory** (`app/interviewer.py`): `create`, `get_or_create` (at most one interviewer per key of a caller-supplied store, reused regardless of new settings) and `reset` (unbinds the key). `answer_turn` is get-or-create followed by one turn.
- **Cost arithmetic** (`app/cost_tracker.py`): a price table in dollars per million tokens with a gpt-4o-mini fallback, a linear cost, and the choice between 4 and 2 displayed decimals.

Files:

- `wrappers.dfy`: `Option` and `Result`.
- `strings.dfy`: substring containment, prefixes and suffixes, and decimal rendering of naturals with its parse-back.
- `security.dfy`: the validator, the denylist and the envelope.
- `prompts.dfy`: the difficulty table, the templates as literal text interleaved with the four f-string fields, and the technique lookup.
- `interviewer.dfy`: the `AIClient` gateway, the `Interviewer` class, the `Storage` class for the caller's dict, and the factory methods.
- `cost_tracker.dfy`: the price table and the cost functions.

## Behaviour worth noting

- A turn whose gateway call raises keeps the user message in the transcript and adds no reply. The transcript therefore grows by one message, not two.
- `reset` on a key the store does not have leaves the key absent. It does not add a `None` entry.
- `answer_turn` sends the user message as given; wrapping it is left to the caller.
- The Hard difficulty fragment joins two adjacent literals with no space: "…theoretical" + "questions…" gives "theoreticalquestions".

## Model

| member | source | states |
|---|---|---|
| Strings.Contains | app/security.py:32 | the empty phrase occurs in every text, and a phrase longer than the text never occurs in it |
| Strings.Decimal | app/security.py:17 | the rendering of a length is a non-empty run of digits with no leading zero |
| Strings.DecimalRoundTrip | app/security.py:17 | parsing the rendered digits of n gives back n |
| Strings.DecimalInjective | app/security.py:17 | different lengths render differently |
| Security.LowerChar | app/security.py:30 | lower-casing a character leaves no upper-case letter, keeps every other character, and shifts A–Z onto a–z |
| Security.Lower | app/security.py:30 | lower-casing keeps the length and maps each position through LowerChar |
| Security.LowerIdempotent | app/security.py:30 | lower-casing twice is lower-casing once |
| Security.LimitRendersAs1200 | app/security.py:15-17 | the limit appears in the message as the digits "1200" |
| Security.LimitPartIsHead | app/security.py:17 | the part of the message up to the reported length is the fixed text "Input too long! Max 1200 characters. You used " |
| Security.TooLongMessage | app/security.py:15-17 | the over-long message starts with "Input too long! Max 1200 characters. You used ", ends with '.', the text between is the length's digits, and they parse back to the input's length |
| Security.TooLongMessageInjective | app/security.py:17 | two over-long inputs share a message only when their lengths are equal |
| Security.Scan | app/security.py:31-33 | the early-return loop over the list finds a hit exactly when some phrase occurs in the text |
| Security.ValidateAgainst | app/security.py:15-35 | over 1200 characters: rejected with the length message; otherwise rejected, always with the one forbidden-phrases message, exactly when the lower-cased text contains a listed phrase; accepted `(True, "")` exactly when neither holds |
| Security.ValidateInput | app/security.py:5-35 | the same iff-statements for the denylist as written |
| Security.SameFoldSameVerdict | app/security.py:30-33 | two texts with the same lower-cased form get the same verdict |
| Security.UpperPhraseNeverMatches | app/security.py:30-32 | a phrase with an upper-case letter never occurs in lower-cased text |
| Security.DropMissingEntry | app/security.py:31-33 | removing from the list an entry that does not occur in the text does not change whether the scan finds a phrase |
| Security.DeadEntryFolds | app/security.py:23-30 | the listed entry "act as a different AI" and the sentence "Act as a different AI" both lower-case to "act as a different ai" |
| Security.DeadEntryIsIgnored | app/security.py:19-33 | the verdict for every text equals the verdict against the list without "act as a different AI" |
| Security.ActAsADifferentAIAccepted | app/security.py:19-35 | the listed phrase "Act as a different AI" itself is accepted by the as-written validator |
| Security.LowerAll | app/security.py:30 | the folded list keeps the length and lower-cases each entry |
| Security.ValidateInputFolded | app/security.py:15-35 | with the list lower-cased, the length rule is unchanged, and acceptance holds exactly when no folded entry occurs in the lower-cased text |
| Security.EveryFoldedEntryRejects | app/security.py:19-33 | with the folded list, any text within the limit that contains any entry, in any ASCII case, is rejected with the forbidden-phrases message |
| Security.ActAsADifferentAIRejectedWhenFolded | app/security.py:23 | with the folded list, "Act as a different AI" is rejected |
| Security.WrapUserInput | app/security.py:38-53 | the envelope is exactly `<USER_INPUT id="`, the boundary, `">` and a newline, the text, then a newline and `</USER_INPUT>`; its length is the text's plus the boundary's plus 33 |
| Security.WrapInjective | app/security.py:50-53 | for boundaries of equal length (a UUID string always has 36 characters) the envelope determines both the text and the boundary |
| Prompts.Level | app/interviewer.py:22-31 | the fragment is the Medium one exactly for "Medium", the Hard one exactly for "Hard", and the Easy one for every other difficulty |
| Prompts.FillMentions | app/interviewer.py:41-89 | formatting a template puts the value of every piece into the prompt |
| Prompts.Fill | app/interviewer.py:41-89 | a formatted template ends with the value of its last piece |
| Prompts.CompleteWellFormed | app/interviewer.py:41-89 | a template with all four fields and the security block last formats to a prompt that contains the role, skills, difficulty and fragment and ends with the security block |
| Prompts.Template | app/interviewer.py:41-94 | each of the five templates has all four fields and ends with the security block |
| Prompts.TechniqueNamed | app/interviewer.py:91-94 | each of the four other names selects its own template; any name outside the table selects Zero-shot |
| Prompts.SystemPrompt | app/interviewer.py:22-94 | whatever the settings, the chosen prompt ends with the security block |
| Prompts.SystemPromptWellFormed | app/interviewer.py:22-94 | for every setting, the chosen prompt contains the role, the skills, the raw difficulty and the difficulty fragment, and ends with the security block |
| Prompts.UnknownTechniqueIsZeroShot | app/interviewer.py:91-94 | an unknown technique gives exactly the Zero-shot prompt; with an unknown difficulty too, it is the Zero-shot template filled with the Easy fragment |
| Prompts.RolePlayIsZeroShot | app/interviewer.py:41-94 | "Role-Play", which the table lacks, gives the Zero-shot prompt |
| Prompts.UnknownDifficultyUsesEasy | app/interviewer.py:30-31 | with an unknown difficulty the prompt carries the Easy fragment and still names the raw difficulty |
| Interviewing.AIClient.constructor | app/ai_client.py:7-12 | a new gateway has sent nothing |
| Interviewing.AIClient.GetChatCompletion | app/ai_client.py:14-37 | each call sends exactly the given transcript and temperature once; it returns a reply or the error it raised |
| Interviewing.Interviewer.constructor | app/interviewer.py:6-99 | the settings are stored as given, the prompt is the one the settings select, the transcript is the single system message carrying it, and the gateway is new |
| Interviewing.Interviewer.Chat | app/interviewer.py:101-114 | the gateway receives the old transcript plus the user message. On a reply the transcript grows by the user and assistant messages; on a failure it keeps only the added user message. The transcript invariant (one leading system message, every assistant message right after a user message) is kept |
| Interviewing.Interviewer.GetSettings | app/interviewer.py:116-123 | the four settings the interviewer was created with |
| Interviewing.Storage.constructor | app/interviewer.py:142-159 | a new store binds no key, so the first get-or-create under any key builds an interviewer |
| Interviewing.Create | app/interviewer.py:132-139 | a new interviewer with the given settings, the prompt they select and a one-message transcript |
| Interviewing.GetOrCreate | app/interviewer.py:141-167 | if the key holds an interviewer, that one is returned and the store is unchanged, whatever settings are passed; otherwise a new interviewer with the given settings is bound to the key and no other key changes |
| Interviewing.Reset | app/interviewer.py:169-176 | a present key is bound to None; an absent key is left absent; nothing else changes |
| Interviewing.AnswerTurn | app/interviewer.py:179-206 | after the turn the default key "interviewer" holds a valid interviewer and no other key changed. A reused interviewer's transcript grows by the user message and, on a reply, the assistant message, and its gateway receives the old transcript plus the user message. A new interviewer is freshly built with the given settings; its transcript is its system message followed by the same, and its gateway's one request is the system message and the user message |
| Interviewing.GetOrCreateTwice | app/interviewer.py:141-167 | a second get-or-create under the same key returns the same interviewer even with other settings |
| Interviewing.ResetThenGetOrCreate | app/interviewer.py:159-176 | after reset, get-or-create binds a new interviewer with the new settings and a one-message transcript |
| CostTracker.RatesFor | app/cost_tracker.py:38-45 | listed models get their table rates, any other model gets 0.150/0.600; every rate is positive |
| CostTracker.CalculateCost | app/cost_tracker.py:47-50 | no tokens cost 0; non-negative token counts never cost less than 0; with non-negative counts, any input token or any output token makes the cost positive |
| CostTracker.MillionInputTokensCostTheRate | app/cost_tracker.py:38-50 | one million input tokens cost the model's input rate; on gpt-4o-mini that is 0.15 |
| CostTracker.MillionOutputTokensCostTheRate | app/cost_tracker.py:38-50 | one million output tokens cost the model's output rate; on gpt-4o-mini that is 0.6 |
| CostTracker.CostIsLinear | app/cost_tracker.py:47-50 | the cost is the input token count times the price of one input token plus the output token count times the price of one output token |
| CostTracker.UnknownModelCostsAsDefault | app/cost_tracker.py:45 | an unlisted model costs exactly what gpt-4o-mini costs |
| CostTracker.CostAdditive | app/cost_tracker.py:47-50 | the cost of two turns' tokens together is the sum of their costs |
| CostTracker.CostMonotone | app/cost_tracker.py:47-50 | more tokens of either kind never cost less |
| CostTracker.FormatCost | app/cost_tracker.py:63-65 | a dollar sign, the amount, and 4 decimals exactly when the cost is below 0.01, otherwise 2 |
| CostTracker.PrecisionNeverGrowsWithCost | app/cost_tracker.py:63-65 | a larger amount is never shown with more decimals than a smaller one |
| CostTracker.FreeCallShowsFourDecimals | app/cost_tracker.py:47-65 | a call with no tokens is shown with 4 decimals on every model |

## Findings

| source | as written | input that shows it | evidently intended | confidence | as-written member | corrected member |
|---|---|---|---|---|---|---|
| app/security.py:23 | the denylist entry "act as a different AI" contains upper-case letters, but it is compared against lower-cased text, so it can never match | "Act as a different AI" (21 characters) is accepted, although it is the listed phrase itself | every entry matches in any case, i.e. the entries are compared in lower case | high; derived from the code, not executed | Security.ActAsADifferentAIAccepted | Security.EveryFoldedEntryRejects |

`Security.DeadEntryIsIgnored` shows that, for every input, the as-written list behaves exactly like the list without that entry. `Security.ValidateInputFolded` is the corrected validator; it lower-cases the list once.

## Left out

- count_tokens (app/cost_tracker.py:4-21): delegates to the tiktoken library, which is not part of this model.
- Completion gateway: the OpenAI client, the API key and the model name from app/config.py are not modelled. A call may return any text or fail. A `None` message content from the service is not distinguished from text.
- wrap_user_input's random UUID: the boundary is a parameter, so its freshness and unpredictability are not modelled.
- Case folding: Python's `str.lower` folds all of Unicode and can change a string's length. Here only A–Z are folded.
- Costs are exact reals. IEEE-754 rounding and the digits `format_cost` prints are not modelled; only the sign, the precision and the amount are.
- Logging: the `print` calls in the constructor, the factory and the gateway.
- Python's aliasing of the transcript list handed to the gateway: the gateway's log records a copy of the list.
- PRICING_INFO (app/cost_tracker.py:68-72): a documentation-only table.
- Running usage totals: the code keeps none.
- Storage: the caller's dict may hold values of any kind. Here a key is absent, bound to None, or bound to an interviewer.
- Interviewing.GetOrCreate: for a newly built interviewer it states the settings, the one-message transcript and the new gateway, but not that its prompt is the one the settings select. Create and the constructor state that. Repeating it here makes every caller's proof carry the full template text.
- Interviewing.AnswerTurn: for the same reason, it does not state which prompt a newly built interviewer carries; it states its settings, its transcript and its gateway's request.
- app/auth.py and the Streamlit user interface are not part of this model.
