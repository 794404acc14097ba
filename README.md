# Travel agent scripts: a Dafny model

This project models the decision and string logic of a set of travel-planning
agent scripts that sit around hosted chat-completion calls:

- the structured-output script (`v2_structured_output.py`): a fixed prompt and
  a regular-expression cleaner for code fences;
- the hand-off script (`v4_handoffs.py`): a keyword router, one prompt template
  per output model, a trim-only reply handling where a validation failure gives
  `None`;
- the guardrail script (`v5_guardrails_and_context.py`): a budget check that
  can stop the query, then the routed request with the user's preferences,
  and the `strip().strip('`').strip()` cleaner that drops a leading `json` line;
- the chat front end (`v6_streamlit_agent.py`): the formatter that turns a
  result into HTML, and the session state (chat history, the pending message,
  the input box, the user context) that the page changes.

The completion service is a caller-supplied function from a call (prompt and
temperature) to a reply (the text, or the message of the exception raised);
the v5 handler returns the calls it made, in order, so the number of calls is
part of its contract. Schema validation is a record of caller-supplied
functions from text to a record or the text of the `ValidationError`. The JSON
schema texts are opaque strings. Python values that reach the formatter
(`None`, bools, ints, floats, str, lists, tuples, dicts, pydantic models) are a
datatype with `str()`, `repr()`, `dict.get`, `in`, truthiness and iteration as
Python defines them.

Modules: `Wrappers` (Option, Result), `PyText` (the `str` methods used),
`PyValue` (Python values), `Travel` (records, user context, schema texts,
validators, gateway types, `model_dump`), `Routing` (the shared router),
`StructuredOutput`, `Handoffs`, `Guardrails`, `StreamlitAgent`.

## Model

| member | source | states |
|---|---|---|
| PyText.Strip | v5_guardrails_and_context.py:104 | `strip()` leaves no whitespace character (in the sense of `str.isspace`) at either end |
| PyText.StripBy | v5_guardrails_and_context.py:104 | `strip('`')` leaves no backtick at either end, and `strip(chars)` in general none of the given characters |
| PyText.StripBySlice | v5_guardrails_and_context.py:104 | stripping removes a run of the dropped characters at each end and keeps the part between them as it is |
| PyText.StripAround | v4_handoffs.py:97 | text whose ends are not whitespace comes back unchanged from between any whitespace runs |
| PyText.StripIdempotent | v2_structured_output.py:61-64 | stripping an already stripped text changes nothing |
| PyText.StripKeepsStart | v2_structured_output.py:64 | stripping keeps a leading run of non-whitespace characters |
| PyText.Contains | v5_guardrails_and_context.py:118 | `sub in s` holds exactly when `sub` occurs at some index of `s` |
| PyText.IndexOf | v5_guardrails_and_context.py:106 | the split point of `split("\n", 1)` is the first newline, and there is none exactly when the text has no newline |
| PyText.Lower | v5_guardrails_and_context.py:118 | `lower()` keeps the length and lower-cases each ASCII letter in place |
| PyValue.ReprShape | v6_streamlit_agent.py:140 | `repr()` prints None, True and False by name; it opens and closes a list, a tuple and a dict with the right delimiters, and a model with its class name and "(" … ")"; it quotes a str in double quotes exactly when the str holds a single quote and no double quote |
| PyValue.EscapeKeeps | v6_streamlit_agent.py:140 | the escaping inside a quoted str never shortens it, and leaves a text without specials unchanged |
| PyValue.StrVsRepr | v6_streamlit_agent.py:107-125 | a placeholder inserts a str as the text itself, which differs from its quoted `repr()`; every value other than a str or a model prints as its `repr()` |
| PyValue.HasKeyIff | v6_streamlit_agent.py:105 | `key in d` holds exactly when some entry has that key |
| PyValue.GetAt | v6_streamlit_agent.py:107 | `d.get(key)` returns the value of the entry with that key |
| PyValue.GetOrFirst | v6_streamlit_agent.py:112 | `d.get(key, default)` is the value of the first entry with the key, or the default when no entry has it |
| PyValue.GetMissing | v6_streamlit_agent.py:112 | `d.get(key, default)` returns the default when the key is absent |
| PyValue.Iterate | v6_streamlit_agent.py:112 | a for-loop over a list visits its items; over None, a bool, an int or a float it raises TypeError |
| PyValue.IterateFails | v6_streamlit_agent.py:112 | the TypeError names the type of the value: `'<type>' object is not iterable` |
| PyValue.TruthyIsNonEmpty | v6_streamlit_agent.py:124 | a str, list, tuple or dict is true exactly when a loop over it visits something; a bool is its value, an int is true when non-zero, None is false and a model true |
| Travel.DumpFields | v5_guardrails_and_context.py:24-44 | `model_dump()` has one entry per declared field, no key twice, and gives back each field by its name |
| Travel.Validate | v5_guardrails_and_context.py:138 | a successful `model_validate_json` yields a record of the model it was called on |
| Routing.Route | v5_guardrails_and_context.py:118-126 | "flight" in the lower-cased query gives flight, even with "hotel" present; hotel only without "flight"; plan otherwise; the task name always names the model |
| StructuredOutput.BuildPrompt | v2_structured_output.py:26-41 | the prompt is a fixed text ending in `User query:` and a newline, then the query in double quotes on the last line |
| StructuredOutput.PromptRoundTrip | v2_structured_output.py:26-41 | the query can be read back from the prompt, so the prompt depends on the query only |
| StructuredOutput.PromptInjective | v2_structured_output.py:26-41 | different queries give different prompts |
| StructuredOutput.OpeningLength | v2_structured_output.py:64 | the opening alternative matches only at index 0: its length is 0, 7 or 8; it is non-zero exactly when the text starts with three backticks and "json" in any letter case, and 8 exactly when a newline follows that |
| StructuredOutput.ClosingStart | v2_structured_output.py:64 | the closing alternative matches exactly when the text ends with three backticks, or with three backticks and a newline; the match is three backticks 3 characters before the end, or 4 before it with a final newline; a text ending in three backticks matches at the very end; the match never overlaps the tagged opening, since it starts on a backtick where the opening has "json" or its newline |
| StructuredOutput.StripFences | v2_structured_output.py:64 | without a closing match only the opening is cut; with one, the result is exactly the text between the opening and the match followed by what comes after the match; so the opening and exactly three backticks are removed |
| StructuredOutput.Clean | v2_structured_output.py:61-64 | the cleaned reply has no whitespace at either end |
| StructuredOutput.CleanTaggedBlock | v2_structured_output.py:64 | a `` ```json `` opening in any letter case, with at most one newline, and a closing fence are both removed, leaving the stripped body |
| StructuredOutput.CleanTaggedOpeningOnly | v2_structured_output.py:64 | the tagged opening is removed even when no closing fence follows |
| StructuredOutput.CleanClosingOnly | v2_structured_output.py:64 | a closing fence is removed whether or not an opening was present |
| StructuredOutput.CleanKeepsBareOpening | v2_structured_output.py:64 | a leading fence without the json tag is not removed, when the stripped text is at least six characters long |
| StructuredOutput.CleanBackticksOnly | v2_structured_output.py:64 | a reply of n >= 3 backticks alone never matches the json opening, and the closing alternative removes its last three: "```" cleans to "", "````" to "`", and six or more leave three or more |
| StructuredOutput.CleanWithoutFences | v2_structured_output.py:64 | text with neither fence pattern comes back stripped and otherwise unchanged |
| StructuredOutput.CleanFencedJson | v2_structured_output.py:64 | a json-tagged code block around a stripped body yields the body |
| StructuredOutput.CleanNotIdempotent | v2_structured_output.py:64 | a doubled tagged opening keeps the second one, which a second pass removes |
| Handoffs.TemplateKind | v4_handoffs.py:44-64 | "flight" and only "flight" selects the flight template, "hotel" and only "hotel" the hotel template; every other name the travel plan |
| Handoffs.BuildPrompt | v4_handoffs.py:43-73 | every prompt starts with its template's persona and schema and ends with "Only return valid JSON." and the `User: {query}` line |
| Handoffs.PromptRoundTrip | v4_handoffs.py:43-73 | the template ("flight", "hotel", any other name: plan) and the query can both be read back from the prompt |
| Handoffs.PromptInjective | v4_handoffs.py:43-73 | equal prompts come from the same template and the same query |
| Handoffs.HeadersDistinct | v4_handoffs.py:46-47 | no prompt starts with two different templates |
| Handoffs.RoutedTemplate | v4_handoffs.py:79-89 | the routed task name selects the template of the routed model |
| Handoffs.ReplyOutcome | v4_handoffs.py:97-106 | the reply is only stripped before validation; a validation failure gives None, a success the routed record; a gateway exception propagates |
| Handoffs.HandleQuery | v4_handoffs.py:77-106 | one call at temperature 0.7 with the routed template, its reply handled as above |
| Handoffs.FencedReplyReachesValidator | v4_handoffs.py:97-100 | a fenced reply reaches the validator with its fences, only the surrounding whitespace removed |
| Guardrails.ContextShape | v5_guardrails_and_context.py:67-71 | the preference lines are, in order, "Preferred Airlines: " with the airlines printed as a Python list (so "[" follows), a line "Hotel Amenities: " with the amenities list, a line "Budget Level: " with the level, and a last line with the session start; the text does not depend on the user id |
| Guardrails.BuildPrompt | v5_guardrails_and_context.py:61-81 | a prompt exists exactly for "flight", "hotel" and "plan" (any other name is the KeyError); it is the preferences, then the task's schema, then the query line, and nothing else |
| Guardrails.RoutedPrompt | v5_guardrails_and_context.py:118-129 | the routed task is always a key of the schema table, and its prompt embeds the schema of the routed model |
| Guardrails.PromptInjective | v5_guardrails_and_context.py:72-81 | for one task and context, equal prompts come from equal queries |
| Guardrails.BuildBudgetCheckPrompt | v5_guardrails_and_context.py:83-92 | the budget-check prompt is a head independent of the user, the query and a newline |
| Guardrails.BudgetPromptInjective | v5_guardrails_and_context.py:83-92 | equal budget-check prompts come from equal queries |
| Guardrails.Unwrapped | v5_guardrails_and_context.py:104 | `strip().strip('`').strip()` leaves no whitespace at either end |
| Guardrails.DropTagLine | v5_guardrails_and_context.py:105-106 | an untagged text is kept; a text starting with "json" loses everything up to its first newline, and raises IndexError when it has none |
| Guardrails.DropTagLineOfBareTag | v5_guardrails_and_context.py:105-106 | the text "json" alone raises IndexError |
| Guardrails.SanitizeSteps | v5_guardrails_and_context.py:104-106 | the cleaning keeps a final part of the unwrapped text (all of it unless it starts with "json"); it fails, with IndexError, exactly when a "json" text has no newline |
| Guardrails.SanitizeUntaggedTrimmed | v5_guardrails_and_context.py:135-137 | when the unwrapped text does not start with "json", the result has no surrounding whitespace |
| Guardrails.SanitizeCleanObject | v5_guardrails_and_context.py:135-137 | a `{...}` object with only whitespace around it comes back as the object |
| Guardrails.SanitizeFencedJson | v5_guardrails_and_context.py:135-137 | a json code block around a non-empty body with no whitespace at either end yields that body |
| Guardrails.SanitizeBlankFence | v5_guardrails_and_context.py:104-106 | an empty json code block leaves "json" with no newline, and the split raises IndexError |
| Guardrails.CheckBudget | v5_guardrails_and_context.py:97-115 | only a parsed analysis with `is_realistic` false blocks, with its reasoning and suggested budget; a gateway error, the IndexError or a validation failure all fail open |
| Guardrails.MainOutcome | v5_guardrails_and_context.py:128-143 | a gateway error or the IndexError propagates; a validation failure is the error dict; a success is a record of the routed model |
| Guardrails.GuardrailStep | v5_guardrails_and_context.py:97-115 | one call with the budget-check prompt at temperature 0.2; the guardrail dict exactly when the check blocks |
| Guardrails.MainStep | v5_guardrails_and_context.py:128-143 | one call with the main prompt at temperature 0.7, its reply handled as MainOutcome states |
| Guardrails.QueryRunSteps | v5_guardrails_and_context.py:95-143 | one run of the handler makes one or two calls; the first is the budget check; exactly one call when the check blocks, and then the guardrail dict; otherwise the second call carries the routed prompt at 0.7 and its reply determines the result; a record result is of the routed model |
| Guardrails.HandleQuery | v5_guardrails_and_context.py:95-143 | the handler as written, with its early return, makes the calls and returns the outcome of one run (QueryRun), with the properties QueryRunSteps states |
| StreamlitAgent.Dispatch | v6_streamlit_agent.py:104-128 | "destination" wins over "airline", which wins over "name" together with "amenities" |
| StreamlitAgent.ListPageShape | v6_streamlit_agent.py:112-114 | a list page is the head, one item per element in order, the tail; it fails, with the TypeError text, exactly when the value cannot be iterated |
| StreamlitAgent.ListItemsAreBullets | v6_streamlit_agent.py:112-113 | the loop emits exactly one `<li>` per element, in list order |
| StreamlitAgent.ListPageOfStrings | v6_streamlit_agent.py:135-137 | a list of strings renders as the head, one item per string, the tail |
| StreamlitAgent.ResultPageShape | v6_streamlit_agent.py:104-140 | a result that is not a dict, or a dict no page applies to, is shown as `str()` of it; only a non-iterable "activities" on the plan page or "amenities" on the hotel page makes it fail, with the TypeError text |
| StreamlitAgent.DictPageShape | v6_streamlit_agent.py:93-102 | the guardrail page never fails; without the guardrail type and without "result" the page is "None"; any failure comes from the page of the "result" entry |
| StreamlitAgent.FormatShape | v6_streamlit_agent.py:86-140 | the formatter fails only on a dict or a model, with the TypeError text; a model goes straight to the page of its dump |
| StreamlitAgent.FormatModelPage | v6_streamlit_agent.py:87-89 | a model wrapped under "result" has no "type" beside it, so it gets the page of its dump |
| StreamlitAgent.FormatPlain | v6_streamlit_agent.py:87-91 | a value that is neither a dict nor a model is shown as `str()` of it |
| StreamlitAgent.FormatModelWrapped | v6_streamlit_agent.py:87-89 | a model is formatted as the dict `{"result": model_dump()}` |
| StreamlitAgent.GuardrailPageFrom | v6_streamlit_agent.py:93-98 | a dict whose "type" is "guardrail" gets the guardrail page from its reasoning and suggested budget, whatever else it holds |
| StreamlitAgent.FormatGuardrailResult | v6_streamlit_agent.py:93-98 | the guardrail dict of the guardrail script shows its reasoning and budget |
| StreamlitAgent.FormatErrorResult | v6_streamlit_agent.py:100-140 | the error dict has no "result" key and is shown as "None" |
| StreamlitAgent.DispatchOfRecord | v6_streamlit_agent.py:104-128 | each of the three records picks its own page |
| StreamlitAgent.FormatRecordResult | v6_streamlit_agent.py:87-102 | a record is rendered from its dumped fields |
| StreamlitAgent.PlanPageFrom | v6_streamlit_agent.py:105-115 | a dict with the plan's keys renders from those fields alone, one item per activity |
| StreamlitAgent.FormatPlan | v6_streamlit_agent.py:105-115 | a travel plan shows its fields and one item per activity, in order |
| StreamlitAgent.FormatFlight | v6_streamlit_agent.py:117-126 | a flight shows its fields and the direct flag as Yes or No |
| StreamlitAgent.HotelPageFrom | v6_streamlit_agent.py:128-138 | a dict with the hotel's keys renders from those fields alone, one item per amenity |
| StreamlitAgent.FormatHotel | v6_streamlit_agent.py:128-138 | a hotel shows its fields and one item per amenity, in order |
| StreamlitAgent.FormatAgentResponse | v6_streamlit_agent.py:86-140 | the function as written, with its early returns and loops, computes the formatter's page |
| StreamlitAgent.FormatDict | v6_streamlit_agent.py:93-102 | the guardrail check first, then the page of the "result" entry |
| StreamlitAgent.RenderResult | v6_streamlit_agent.py:104-140 | the key dispatch, or `str(result)` when no page applies |
| StreamlitAgent.RenderFields | v6_streamlit_agent.py:104-138 | the three pages of a result dict in the script's order |
| StreamlitAgent.AppendItems | v6_streamlit_agent.py:112-114 | iterating, appending and closing gives the list page, or the TypeError of a non-iterable value |
| StreamlitAgent.AppendEach | v6_streamlit_agent.py:112-113 | the loop appends one item per element, in order, after the head |
| StreamlitAgent.Respond | v6_streamlit_agent.py:203-209 | the page of the returned result, or the error text of the raised exception or of the formatter's TypeError |
| StreamlitAgent.Answer | v6_streamlit_agent.py:205-209 | the outcome and the calls are those of one run of the handler on the query and context (QueryRun), and the content is the page or error text of that outcome |
| StreamlitAgent.ChatSession.constructor | v6_streamlit_agent.py:64-83 | the first run starts with an empty history, nothing pending, an empty input and the default preferences |
| StreamlitAgent.ChatSession.HandleUserMessage | v6_streamlit_agent.py:143-151 | exactly one user entry appended after the unchanged history, the input pending, the input box cleared |
| StreamlitAgent.ChatSession.SubmitInput | v6_streamlit_agent.py:193-195 | a non-empty input is taken exactly when nothing is pending; otherwise nothing changes |
| StreamlitAgent.ChatSession.RunPending | v6_streamlit_agent.py:198-215 | a pending non-empty message, which is the last user entry of the history, is cleared before the run; the run is the handler on that message with the session's user context (QueryRun), and exactly one assistant entry, its content, is appended, whether the run returned or raised |
| StreamlitAgent.ChatSession.NewConversation | v6_streamlit_agent.py:182-186 | the history emptied, a new thread, nothing pending, the user context untouched |
| StreamlitAgent.ChatSession.SavePreferences | v6_streamlit_agent.py:176-179 | only the airlines, amenities and budget level of the context change |

## Left out

- The chat-completion client and the network: the gateway is a parameter; a
  reply whose content is `None` (its `.strip()` raises) is folded into the
  gateway failure.
- pydantic: `model_validate_json` is a parameter, `model_json_schema` and
  `json.dumps` are opaque schema texts.
- JSON parsing, and float values: floats are carried as the text `str()` prints
  for them; price and budget fields are not checked for sign, as the scripts do
  not check them.
- `repr()` of a str escapes only backslash, the quote, newline, carriage return
  and tab; other non-printable characters are not escaped as Python does.
  `repr()` of a float inside a model is its text.
- PyText.Lower: lower-cases the ASCII letters only. For the router this is
  exact: a non-ASCII character never lower-cases to one of the letters of
  "flight" or "hotel" (the Kelvin sign gives "k", the dotted capital I gives
  "i" followed by a combining dot), so whether the lower-cased query contains
  either word does not change.
- A dict value nested in a model dump is the dump of that model; nested pydantic
  models do not occur in the records.
- `print`, logfire, dotenv, `os.getenv`, asyncio and client set-up: output and
  configuration only.
- Streamlit page config, CSS, markdown rendering of the chat history, the sidebar
  widgets: not modelled. uuid and datetime values are parameters (thread ids,
  user ids, timestamps as strings).
- The first script `v1_basic_agent.py` and the command-line `main` loops of the
  v2, v4 and v5 scripts, which only print.
- The v6 user context is held as a value in the session; that a `UserContext`
  object is shared by reference with a running query is not modelled.
- The v2 cleaner is not idempotent (a doubled tagged opening survives one
  pass); the model follows the code and proves this in
  StructuredOutput.CleanNotIdempotent.
