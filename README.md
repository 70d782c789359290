# Ticket triage: a verified model of the client state machine and its server endpoints

This project models a small support-ticket system in Dafny and proves properties of the model. It has a React page and a Django REST back end:

- **Ticket record** (`backend/tickets/models.py`):
  - three closed choice sets;
  - title and description constraints;
  - the default status `open`;
  - the creation timestamp;
  - the string form `[status] title`.
- **List endpoint** (`get_queryset` in `backend/tickets/views.py`): every ticket, newest first, narrowed by the optional `category`, `priority`, `status` and `search` query parameters.
- **Statistics endpoint** (`stats`): totals, an open count, breakdowns by priority and by category, and the number of days the average per day is taken over.
- **Classification endpoint** (`classify`):
  - validates the description;
  - falls back to `general`/`low` when no model can be asked;
  - strips a markdown code fence from the model's reply;
  - accepts the parsed reply only when it names both suggestion keys.
- **Page component** (`App` in `frontend/src/App.js`):
  - It holds the draft form, the four filters, the ticket list, the statistics snapshot and the two in-flight flags.
  - Its handlers become methods of the class `Client.App`. Each asynchronous handler is split into the event that issues the request and the event that completes it.
  - Every outgoing request is appended to the log `sent`, so properties can be stated about which requests go out.
  - The 300-unit debounce of the filter effect is an optional deadline on an integer clock.

## Modules

| file | module | contents |
|---|---|---|
| `wrappers.dfy` | `Wrappers` | `Option` |
| `text.dfy` | `Text` | truthiness; ASCII case folding; substring search; Python's `str.strip()`, `str.startswith()` and the slice `s[a:-b]` |
| `models.dfy` | `Tickets` | choices and their stored codes, `Ticket`, creation, status change, string form |
| `queryset.dfy` | `TicketQueries` | `QueryDict.get`, the filter chain, newest-first order, `GetQueryset` |
| `stats.dfy` | `TicketStats` | counts, earliest and latest creation time, the average's divisor, `ComputeStats` |
| `classify.dfy` | `Classification` | fence removal, the key check, `Classify` |
| `app.dfy` | `Client` | the draft, the filters, the query the page sends, the suggestion merge, the class `App` |

## Modelling decisions

- **Events run one at a time**, as the browser's event loop runs them. An `await` splits a handler in two:
  - `ClassifyStart`/`ClassifyComplete`;
  - `SubmitStart`/`SubmitComplete`;
  - `StatusChangeStart`/`StatusChangeComplete`.
  
  A fetch that completes becomes `ListArrives` or `StatsArrives`, with a flag for success or failure. Ghost counters of calls in flight say which completions may be delivered.
- **Stale closures are modelled.**
  - `handleSubmit` and `handleStatusChange` call the `fetchTickets` of the render in which they were created. The list refresh after they complete therefore uses the filters captured when they started (`submitFilters`, `patchFilters`), not the filters of the moment they complete.
  - The classify merge uses the functional `setFormData(prev => …)` form. It applies to the draft as it is when the reply arrives.
- **The debounce:**
  - Changing a filter to a different value re-runs the effect, which cancels the pending timer and arms a new one 300 units ahead.
  - Setting a filter to the value it already holds does not re-render, so nothing happens.
  - When the deadline is reached, one list request goes out with the filters of that moment.
- **No stale-response guard.** The page applies every list response that succeeds, whichever request it answers. `ListArrives` therefore replaces the list with whatever arrives, and the response that completes last is the one shown. A design that tags requests and discards superseded responses would differ here. The model follows the code.
- **Overlapping classify calls.** A second classify can start while the first is in flight. `handleAIClassify` runs on every blur of the description field (App.js:165), and it does not check `isClassifying` (App.js:66-68). The first reply to complete clears the flag and re-enables the submit button (App.js:81, 202). A submit can then succeed and reset the draft (App.js:89), after which the second reply merges its category and priority into the empty draft. The model allows this interleaving, as the code does.
- **Duplicate submissions.** The only guard is the button's `disabled={isSubmitting || isClassifying}` together with the inputs' `required` attributes. `handleSubmit` checks neither. `SubmitStart` carries them as preconditions; they are the browser's conditions for delivering the event.
- **Query parameters.** Django's `QueryDict.get` returns the last value given for a key. A missing or empty parameter applies no filter, as Python truthiness decides.
- **Case-insensitive search.** `icontains` is read as ASCII case-insensitive substring search.
- **Whitespace.** `str.strip()` and the `blank=False` check use the exact character set of Python's `str.isspace()`.
- **Timestamps** are integers in microseconds. `timedelta.days` is the floor of the span divided by 86 400 000 000.
- **The average per day** is a floating-point `round(total / days, 1)`. It is kept as the pair `PerDay(tickets, days)`; `NoTickets` stands for the literal `0`.
- **Foreign calls** become parameters of `Classify`:
  - the environment variable;
  - the model request, with its reply text as `llmText` (`None` when the call, or the lookup of the text, raised);
  - `json.loads`, as the function `parseJson` (`None` when it raised).

## Model

| member | source | states |
|---|---|---|
| `Tickets.CategoryCode` | backend/tickets/models.py:5-9 | each category is stored as one of the four admitted codes, non-empty and within the 20-character column |
| `Tickets.PriorityCode` | backend/tickets/models.py:11-15 | each priority is stored as one of the four admitted codes, within the column width |
| `Tickets.StatusCode` | backend/tickets/models.py:17-21 | each status is stored as one of the four admitted codes, within the column width |
| `Tickets.ParseCategory` | backend/tickets/models.py:34-37 | a stored string is a category exactly when the check constraint admits it, and then it is that category's code |
| `Tickets.ParsePriority` | backend/tickets/models.py:38-41 | a stored string is a priority exactly when the check constraint admits it, and then it is that priority's code |
| `Tickets.ParseStatus` | backend/tickets/models.py:42-45 | a stored string is a status exactly when the check constraint admits it, and then it is that status's code |
| `Tickets.CodesRoundTrip` | backend/tickets/models.py:5-21 | every choice reads back from its stored code as itself, so distinct choices have distinct codes |
| `Tickets.Create` | backend/tickets/models.py:24-29 | a row is created exactly when the title is non-blank and at most 200 characters, the description is non-blank and both choices are admitted; it then holds the submitted values, status `open` and the creation time |
| `Tickets.NonBlank` | backend/tickets/models.py:24-25 | a text field passes `blank=False` exactly when it is not empty once stripped of whitespace |
| `Tickets.ValidTicket` | backend/tickets/models.py:24-25 | a ticket is well formed exactly when its stripped title and stripped description are non-empty and the title has at most 200 characters |
| `Tickets.WithStatus` | backend/tickets/models.py:28-29 | a status change sets the status and keeps every other field, including the creation time |
| `Tickets.WithStatusKeepsValid` | backend/tickets/models.py:24-29 | a status change keeps a valid ticket valid |
| `Tickets.Display` | backend/tickets/models.py:48-49 | the string form starts with `[`, has the length of the code plus three plus the title, and ends with the title |
| `Tickets.DisplayRoundTrip` | backend/tickets/models.py:48-49 | status and title can be read back from the string form |
| `Tickets.DisplayInjective` | backend/tickets/models.py:48-49 | two tickets with the same string form have the same status and title |
| `Text.Lower` | backend/tickets/views.py:29-32 | case folding keeps the length and folds every character independently |
| `Text.ExactImpliesIgnoreCase` | backend/tickets/views.py:29-32 | an exact occurrence of the search term is also a case-insensitive match |
| `Text.ContainsIgnoreCase` | backend/tickets/views.py:31 | the empty search term matches every text, and a term longer than the text matches none |
| `Text.ContainsIgnoreCaseFolded` | backend/tickets/views.py:29-32 | folding the searched text first does not change whether it matches |
| `Text.ContainsIgnoreCaseFoldedTerm` | backend/tickets/views.py:29-32 | folding the search term first does not change whether it matches |
| `Text.TrimLeft` | backend/tickets/views.py:136 | stripping leading whitespace leaves a suffix, removes only whitespace, and leaves no whitespace at the front |
| `Text.TrimRight` | backend/tickets/views.py:136 | stripping trailing whitespace leaves a prefix, removes only whitespace, and leaves no whitespace at the end |
| `Text.Strip` | backend/tickets/views.py:136 | `strip()` never lengthens the text; `StripIsTrimmedSlice` and the two trim contracts fix which characters it removes |
| `Text.StripIsTrimmedSlice` | backend/tickets/views.py:136 | `strip()` yields a slice of its input with no whitespace at either end, and is non-empty when the input has a non-space character |
| `Text.StripIdempotent` | backend/tickets/views.py:140-142 | stripping an already stripped text changes nothing |
| `Text.DropBoth` | backend/tickets/views.py:140-142 | `s[a:-b]` is the inner slice when the bounds do not cross and the empty string when they do |
| `TicketQueries.Get` | backend/tickets/views.py:18-21 | a parameter is absent exactly when no pair has its key; otherwise it is the value of the last pair with that key |
| `TicketQueries.GetConcat` | backend/tickets/views.py:18-21 | a key given again later overrides the earlier value |
| `TicketQueries.ParamsOf` | backend/tickets/views.py:18-21 | each of the four parameters is absent exactly when no pair in the query string carries its key |
| `TicketQueries.ParamsIgnoreOtherKeys` | backend/tickets/views.py:18-21 | a pair under any key other than the four is ignored |
| `TicketQueries.ActiveConstraints` | backend/tickets/views.py:23-32 | at most four filters are applied, and none at all exactly when every parameter is missing or empty |
| `TicketQueries.ActiveConstraintsMeanMatches` | backend/tickets/views.py:23-32 | the filters the chain applies hold of a ticket exactly when every non-empty parameter matches it: category, priority and status by equality, search in the title or the description |
| `TicketQueries.SortNewestFirst` | backend/tickets/views.py:16 | the ordering yields a permutation of the tickets with non-increasing creation times |
| `TicketQueries.Where` | backend/tickets/views.py:23-32 | a filter keeps exactly the tickets that pass it and never adds any |
| `TicketQueries.WhereIsSubsequence` | backend/tickets/views.py:23-32 | filtering only removes tickets and keeps the order of the rest |
| `TicketQueries.WhereKeepsOrder` | backend/tickets/views.py:16-32 | filtering a newest-first list leaves it newest first |
| `TicketQueries.WhereChain` | backend/tickets/views.py:23-32 | chained filters are one filter by the conjunction: the parameters combine by AND |
| `TicketQueries.WhereSortedLength` | backend/tickets/views.py:16-32 | ordering the table first does not change how many tickets a filter keeps |
| `TicketQueries.Listed` | backend/tickets/views.py:14-34 | the listing is never longer than the table; its order and contents are stated by `ListedProperties` |
| `TicketQueries.ListedProperties` | backend/tickets/views.py:14-34 | the listing is newest first, is a subsequence of all tickets in that order, and contains a ticket exactly when the ticket exists and matches every given parameter |
| `TicketQueries.GetQueryset` | backend/tickets/views.py:14-34 | the imperative filter chain computes the listing for the parameters read from the query string |
| `TicketStats.CountStatus` | backend/tickets/views.py:42 | the open count is at most the number of tickets |
| `TicketStats.CountPriority` | backend/tickets/views.py:45-48 | a priority count is at most the number of tickets; `CountPriorityWhere` fixes it as the length of the priority filter |
| `TicketStats.CountCategory` | backend/tickets/views.py:51-54 | a category count is at most the number of tickets; `CountCategoryWhere` fixes it as the length of the category filter |
| `TicketStats.CountPriorityWhere` | backend/tickets/views.py:45-48 | the count for a priority is the number of tickets the filter `priority=<code>` keeps |
| `TicketStats.CountCategoryWhere` | backend/tickets/views.py:51-54 | the count for a category is the number of tickets the filter `category=<code>` keeps |
| `TicketStats.CountStatusWhere` | backend/tickets/views.py:42 | the open count is the number of tickets the filter `status=open` keeps |
| `TicketStats.PriorityCountsSum` | backend/tickets/views.py:45-48 | the four priority counts add up to the total |
| `TicketStats.CategoryCountsSum` | backend/tickets/views.py:51-54 | the four category counts add up to the total |
| `TicketStats.Earliest` | backend/tickets/views.py:57 | the earliest creation time belongs to some ticket and is at most every ticket's |
| `TicketStats.Latest` | backend/tickets/views.py:58 | the latest creation time belongs to some ticket and is at least every ticket's |
| `TicketStats.Divisor` | backend/tickets/views.py:65-67 | the divisor is at least one; it is the whole number of days between first and last ticket when that span is a day or more, and 1 otherwise |
| `TicketStats.AverageOf` | backend/tickets/views.py:61-68 | with no tickets the average is the literal `0` (`NoTickets`); otherwise it is the total over the divisor of `Divisor`: the whole days between first and last ticket, or 1 |
| `TicketStats.ComputeStats` | backend/tickets/views.py:37-87 | the total is the number of tickets, the open count is at most the total, each breakdown partitions the total, the average is the literal `0` (`NoTickets`) when the total is 0, and otherwise it is the total over the divisor of `Divisor` |
| `TicketStats.StatsCountWhatTheySay` | backend/tickets/views.py:40-54 | each priority and category entry is the length of the listing the list endpoint returns for that single parameter, and the open count is the length of the listing for `?status=open` |
| `TicketStats.PriorityEntryIsListing` | backend/tickets/views.py:45-48 | a priority entry equals the length of the listing for `?priority=<code>` |
| `TicketStats.CategoryEntryIsListing` | backend/tickets/views.py:51-54 | a category entry equals the length of the listing for `?category=<code>` |
| `TicketStats.OpenCountIsListing` | backend/tickets/views.py:42 | the open count equals the length of the listing for `?status=open` |
| `Classification.JsonFenceIsFence` | backend/tickets/views.py:139-141 | a ```` ```json ```` fence is also a ```` ``` ```` fence, so the first branch takes precedence |
| `Classification.Unfence` | backend/tickets/views.py:138-142 | a reply starting with ```` ```json ```` yields its 8th to 4th-from-last characters, stripped, or the empty string when it is shorter than 10; any other reply starting with ```` ``` ```` yields its 4th to 4th-from-last characters, stripped, or the empty string when shorter than 6; text without a fence is unchanged, and the result is never longer than the text |
| `Classification.UnclosedFenceLosesTail` | backend/tickets/views.py:139-140 | a ```` ```json ```` reply with no closing fence still loses its last three characters: ```` ```json{"a":"b"} ```` yields `{"a":"` |
| `Classification.UnfenceJsonBlock` | backend/tickets/views.py:136-140 | a reply wrapped in a ```` ```json ```` fence yields exactly its stripped body |
| `Classification.UnfencePlainBlock` | backend/tickets/views.py:136-142 | a reply wrapped in a bare fence yields exactly its stripped body, unless the body starts with `json` |
| `Classification.Accept` | backend/tickets/views.py:146-149 | the answer always names both keys; it is the parsed object when that names both, and the fallback otherwise |
| `Classification.Classify` | backend/tickets/views.py:90-154 | the answer is 400 exactly for a missing or empty description; otherwise it always has both keys, is the fallback without a key or a reply, and is otherwise the parsed, unfenced, stripped reply when it has both keys |
| `Client.WithDraftValue` | frontend/src/App.js:153-190 | a draft input sets its own field and leaves the other three unchanged |
| `Client.WithFilterValue` | frontend/src/App.js:220-236 | a filter control sets its own filter and leaves the other three unchanged |
| `Client.QueryOf` | frontend/src/App.js:39-43 | the query string is empty exactly when no filter is set |
| `Client.QueryOfOrder` | frontend/src/App.js:39-43 | the query holds only non-empty values under distinct keys, in the order search, category, priority, status |
| `Client.QueryOfLookup` | frontend/src/App.js:39-43 | each filter reads back under its own key exactly when it is non-empty |
| `Client.QueryReachesServer` | frontend/src/App.js:39-45 | the server reads back exactly the non-empty filters as its four parameters |
| `Client.ListingForFilters` | frontend/src/App.js:37-46 | the list returned for the page's filters holds exactly the tickets that match every non-empty filter |
| `Client.BuildQuery` | frontend/src/App.js:39-43 | building the parameters step by step yields the query of the current filters |
| `Client.SuggestionOf` | frontend/src/App.js:75-76 | a suggestion key missing from the reply reads as `undefined`, and a present key reads as its value |
| `Client.Merge` | frontend/src/App.js:73-77 | a suggestion keeps title and description, replaces a choice only with a non-empty value, and never empties a choice |
| `Client.MergeIdempotent` | frontend/src/App.js:73-77 | applying the same suggestion twice is applying it once |
| `Client.MergeTakesSuggestion` | frontend/src/App.js:73-77 | each non-empty suggestion is taken whatever the draft held; with none, the draft is unchanged |
| `Client.MergeFallback` | frontend/src/App.js:73-77 | the server's fallback answer sets the draft to `general` and `low` |
| `Client.MergeCategoryOnly` | frontend/src/App.js:73-77 | a reply with only a category keeps the priority the user chose |
| `Client.App.constructor` | frontend/src/App.js:8-63 | mounting starts with no tickets, no stats and the empty draft (the state at lines 8-25), issues one stats request and arms the filter timer for the empty filters (the two effects at lines 52-63) |
| `Client.App.SubmitEnabled` | frontend/src/App.js:202 | while the submit button is enabled, no submission is in flight |
| `Client.App.EditDraft` | frontend/src/App.js:145-195 | a draft edit changes that one field and nothing else; the title stays within `maxLength` |
| `Client.App.ClassifyStart` | frontend/src/App.js:66-72 | an empty description changes nothing; otherwise the flag is set and one classify request with the description goes out |
| `Client.App.ClassifyComplete` | frontend/src/App.js:73-81 | a reply merges into the draft as it is now, a failure leaves it unchanged, and either way the flag is cleared |
| `Client.App.SubmitStart` | frontend/src/App.js:84-88 | with the button enabled, the flag is set, one create request with the draft goes out, and the filters of this render are captured |
| `Client.App.SubmitComplete` | frontend/src/App.js:88-96 | success resets the draft and issues one list request with the captured filters and one stats request; failure only clears the flag |
| `Client.App.StatusChangeStart` | frontend/src/App.js:98-100 | one patch request goes out and the filters of this render are captured; no flag is set |
| `Client.App.StatusChangeComplete` | frontend/src/App.js:100-106 | success issues one list request with the captured filters and one stats request; the displayed list is not touched |
| `Client.App.SetFilter` | frontend/src/App.js:58-63 | setting a filter to its current value changes nothing; a new value replaces the pending timer by one a full delay ahead |
| `Client.App.AdvanceClock` | frontend/src/App.js:58-62 | a reached deadline fires once and issues one list request with the filters of that moment |
| `Client.App.ListArrives` | frontend/src/App.js:44-49 | a successful list response replaces the displayed list whichever request it answers; a failure keeps it |
| `Client.App.StatsArrives` | frontend/src/App.js:28-35 | a successful stats response replaces the snapshot; a failure keeps the previous one |
| `Client.App.EditThenPause` | frontend/src/App.js:58-63 | a filter edit followed by a pause shorter than the delay sets that filter, moves the clock by the pause and leaves the timer one delay after the edit, not fired; nothing else changes |
| `Client.App.EditAll` | frontend/src/App.js:58-63 | a run of such edits applies them in order, sends nothing, moves the clock by the sum of the pauses, and leaves the timer one delay after the last edit |
| `Client.App.EditBurst` | frontend/src/App.js:58-63 | edits each followed by a pause shorter than the delay, then a wait, issue exactly one list request, carrying the filters as the last edit left them; a timer pending before the burst is cancelled by its first edit; the request goes out one full delay after the last edit, so the clock ends at the start time plus every pause but the last, plus 300; no timer is pending, and every other part of the client state is as before |

## Left out

- HTTP, the base URL, URL encoding of the query string, JSON serialisation of requests and responses, the page's console logging and the server's `print` of a failed model call (`backend/tickets/views.py:153`) are not modelled. Requests are log entries, and responses are parameters of the completion events.
- Rendering (JSX, CSS classes, date formatting, the `|| 0` fallbacks of the statistics panel) is not modelled. It computes no state.
- React's scheduling (batching, strict-mode double effects) is not modelled. Each event applies its updates at once.
- The prompt text, the model endpoint and the `GEMINI_API_KEY` lookup are not modelled. They are foreign I/O; their outcomes are parameters of `Classify`.
- `Classification.Classify`:
  - The decoded JSON is an object with string values. A reply that decodes to a list or a string (where `in` would test membership or a substring) is not modelled.
  - Values that are not strings are not modelled.
  - A `description` that is present but not a string is not modelled.
- `Client.App.ListArrives`: nothing guards against stale responses, so the model has none either. No property of the form "the list shown answers the latest filters" is claimed, because the code does not keep one.
- `TicketQueries.SortNewestFirst` fixes an order among tickets created in the same microsecond. The database leaves that order unspecified, so only the newest-first order and the permutation are claimed.
- `Text.Lower`: full Unicode case folding behind `icontains` is approximated by ASCII lower-casing.
- `TicketStats.AverageOf`: the floating-point division and `round(…, 1)` are not modelled. Only their operands are.
- The partial update behind the status select (`PATCH /tickets/<id>/`) is framework code. It is not part of this model beyond `Tickets.WithStatus`.
- The serializer, the URL routing and the Django settings are not part of this model.
- `Tickets.Create`: the serializer trims both the title and the description, and the trimmed values are what is stored and what the 200-character bound applies to. The model does not do that trimming: it checks the bound on the title as submitted and stores both fields untrimmed. Blankness is judged on the trimmed text (`NonBlank`).
