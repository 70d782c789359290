/** The React component `App` of `frontend/src/App.js`.

    The component is a class whose fields are its `useState` cells; each
    handler is a method, and every asynchronous call is split into the event
    that issues it (the request is appended to the log `sent`) and the event
    that completes it with success or failure. Timers run on an integer
    logical clock: the debounce timer is an optional deadline. Events run
    one at a time, as the browser's event loop runs them. */
module Client {
  import opened Wrappers
  import opened Text
  import opened Tickets
  import opened TicketQueries
  import TicketStats
  import Classification

  /** `formData`: the ticket being composed. `category` and `priority` hold
      whatever string the select or a suggestion put there. */
  datatype Draft = Draft(title: string, description: string, category: string, priority: string)

  /** The initial draft, and the draft after a successful submission. */
  const EmptyDraft := Draft("", "", "general", "low")

  datatype DraftField = Title | Description | CategoryChoice | PriorityChoice

  function DraftValue(d: Draft, field: DraftField): string {
    match field
    case Title => d.title
    case Description => d.description
    case CategoryChoice => d.category
    case PriorityChoice => d.priority
  }

  /** `setFormData({...formData, <field>: value})`. */
  function WithDraftValue(d: Draft, field: DraftField, value: string): (r: Draft)
    ensures DraftValue(r, field) == value
    ensures forall other :: other != field ==> DraftValue(r, other) == DraftValue(d, other)
  {
    match field
    case Title => d.(title := value)
    case Description => d.(description := value)
    case CategoryChoice => d.(category := value)
    case PriorityChoice => d.(priority := value)
  }

  /** The four filter cells: `searchTerm`, `filterCategory`,
      `filterPriority`, `filterStatus`; the empty string means "all". */
  datatype Filters = Filters(search: string, category: string, priority: string, status: string)

  const NoFilters := Filters("", "", "", "")

  datatype FilterField = Search | CategoryFilter | PriorityFilter | StatusFilter

  function FilterValue(f: Filters, field: FilterField): string {
    match field
    case Search => f.search
    case CategoryFilter => f.category
    case PriorityFilter => f.priority
    case StatusFilter => f.status
  }

  function WithFilterValue(f: Filters, field: FilterField, value: string): (r: Filters)
    ensures FilterValue(r, field) == value
    ensures forall other :: other != field ==> FilterValue(r, other) == FilterValue(f, other)
  {
    match field
    case Search => f.(search := value)
    case CategoryFilter => f.(category := value)
    case PriorityFilter => f.(priority := value)
    case StatusFilter => f.(status := value)
  }

  /** The order in which `fetchTickets` appends parameters. */
  const QueryKeys: seq<string> := ["search", "category", "priority", "status"]

  function KeyRank(key: string): int {
    if key == "search" then 0
    else if key == "category" then 1
    else if key == "priority" then 2
    else if key == "status" then 3
    else 4
  }

  function Param(key: string, value: string): QueryString {
    if value != "" then [(key, value)] else []
  }

  /** The query string `fetchTickets` builds from the filters: empty exactly
      when no filter is set. */
  function QueryOf(f: Filters): (r: QueryString)
    ensures r == [] <==> f == NoFilters
  {
    Param("search", f.search) + Param("category", f.category) +
    Param("priority", f.priority) + Param("status", f.status)
  }

  function NonEmpty(s: string): Option<string> {
    if s == "" then None else Some(s)
  }

  /** The query holds only non-empty values, under distinct keys, in the
      order search, category, priority, status. */
  lemma QueryOfOrder(f: Filters)
    ensures forall i | 0 <= i < |QueryOf(f)| :: QueryOf(f)[i].0 in QueryKeys && QueryOf(f)[i].1 != ""
    ensures forall i, j | 0 <= i < j < |QueryOf(f)| :: KeyRank(QueryOf(f)[i].0) < KeyRank(QueryOf(f)[j].0)
  {
    var a, b, c, d := Param("search", f.search), Param("category", f.category),
                      Param("priority", f.priority), Param("status", f.status);
    var q := QueryOf(f);
    assert q == a + b + c + d;
    forall i | 0 <= i < |q|
      ensures (i < |a| ==> q[i] == a[i]) && (|a| <= i < |a| + |b| ==> q[i] == b[i - |a|])
      ensures (|a| + |b| <= i < |a| + |b| + |c| ==> q[i] == c[i - |a| - |b|])
      ensures (|a| + |b| + |c| <= i ==> q[i] == d[i - |a| - |b| - |c|])
    {
    }
  }

  lemma ParamLookup(key: string, value: string, other: string)
    ensures Get(Param(key, value), key) == NonEmpty(value)
    ensures other != key ==> Get(Param(key, value), other) == None
  {
  }

  /** Each filter reads back under its own key exactly when it is not
      empty. */
  lemma QueryOfLookup(f: Filters, key: string)
    requires key in QueryKeys
    ensures key == "search" ==> Get(QueryOf(f), key) == NonEmpty(f.search)
    ensures key == "category" ==> Get(QueryOf(f), key) == NonEmpty(f.category)
    ensures key == "priority" ==> Get(QueryOf(f), key) == NonEmpty(f.priority)
    ensures key == "status" ==> Get(QueryOf(f), key) == NonEmpty(f.status)
  {
    var a, b, c, d := Param("search", f.search), Param("category", f.category),
                      Param("priority", f.priority), Param("status", f.status);
    assert QueryOf(f) == a + b + c + d;
    GetConcat(a + b + c, d, key);
    GetConcat(a + b, c, key);
    GetConcat(a, b, key);
    ParamLookup("search", f.search, key);
    ParamLookup("category", f.category, key);
    ParamLookup("priority", f.priority, key);
    ParamLookup("status", f.status, key);
  }

  /** The server reads back from the query exactly the non-empty filters. */
  lemma QueryReachesServer(f: Filters)
    ensures ParamsOf(QueryOf(f)) ==
      Params(NonEmpty(f.category), NonEmpty(f.priority), NonEmpty(f.status), NonEmpty(f.search))
  {
    QueryOfLookup(f, "search");
    QueryOfLookup(f, "category");
    QueryOfLookup(f, "priority");
    QueryOfLookup(f, "status");
  }

  /** So the list the server returns for the filters holds exactly the
      tickets that match every non-empty filter. */
  lemma ListingForFilters(all: seq<Ticket>, f: Filters, t: Ticket)
    ensures t in Listed(all, ParamsOf(QueryOf(f))) <==>
      && t in all
      && (f.category == "" || CategoryCode(t.category) == f.category)
      && (f.priority == "" || PriorityCode(t.priority) == f.priority)
      && (f.status == "" || StatusCode(t.status) == f.status)
      && (f.search == "" || ContainsIgnoreCase(t.title, f.search) || ContainsIgnoreCase(t.description, f.search))
  {
    QueryReachesServer(f);
    ListedProperties(all, ParamsOf(QueryOf(f)));
  }

  /** `fetchTickets` filling its `URLSearchParams`. */
  method BuildQuery(f: Filters) returns (params: QueryString)
    ensures params == QueryOf(f)
  {
    params := [];
    if f.search != "" {
      params := params + [("search", f.search)];
    }
    if f.category != "" {
      params := params + [("category", f.category)];
    }
    if f.priority != "" {
      params := params + [("priority", f.priority)];
    }
    if f.status != "" {
      params := params + [("status", f.status)];
    }
  }

  /** The `classify` response body as the client reads it: a key that is
      missing reads as `undefined`. */
  datatype Suggestion = Suggestion(category: Option<string>, priority: Option<string>)

  function SuggestionOf(body: Classification.JsonObject): (r: Suggestion)
    ensures r.category.None? <==> Classification.CategoryKey !in body
    ensures r.priority.None? <==> Classification.PriorityKey !in body
    ensures r.category.Some? ==> r.category.value == body[Classification.CategoryKey]
    ensures r.priority.Some? ==> r.priority.value == body[Classification.PriorityKey]
  {
    Suggestion(
      if Classification.CategoryKey in body then Some(body[Classification.CategoryKey]) else None,
      if Classification.PriorityKey in body then Some(body[Classification.PriorityKey]) else None)
  }

  /** `{...prev, category: s.suggested_category || prev.category, ...}`: a
      suggestion replaces a choice only when it is a non-empty string. */
  function Merge(prev: Draft, s: Suggestion): (r: Draft)
    ensures r.title == prev.title && r.description == prev.description
    ensures r.category == prev.category || Truthy(s.category)
    ensures r.priority == prev.priority || Truthy(s.priority)
    ensures prev.category != "" ==> r.category != ""
    ensures prev.priority != "" ==> r.priority != ""
  {
    prev.(category := if Truthy(s.category) then s.category.value else prev.category,
          priority := if Truthy(s.priority) then s.priority.value else prev.priority)
  }

  /** Applying the same suggestion twice is applying it once. */
  lemma MergeIdempotent(d: Draft, s: Suggestion)
    ensures Merge(Merge(d, s), s) == Merge(d, s)
  {
  }

  /** The merge takes each non-empty suggestion, whatever the draft held. */
  lemma MergeTakesSuggestion(d: Draft, s: Suggestion)
    ensures Truthy(s.category) ==> Merge(d, s).category == s.category.value
    ensures Truthy(s.priority) ==> Merge(d, s).priority == s.priority.value
    ensures !Truthy(s.category) && !Truthy(s.priority) ==> Merge(d, s) == d
  {
  }

  /** The server's fallback answer sets the draft to `general` / `low`. */
  lemma MergeFallback(d: Draft)
    ensures Merge(d, SuggestionOf(Classification.Fallback)) == d.(category := "general", priority := "low")
  {
  }

  /** Only the category is suggested: the priority the user chose stays. */
  lemma MergeCategoryOnly(d: Draft, category: string)
    requires category != ""
    ensures Merge(d, SuggestionOf(map[Classification.CategoryKey := category]))
            == d.(category := category)
  {
    var body := map[Classification.CategoryKey := category];
    assert Classification.PriorityKey !in body;
  }

  /** One outgoing call of the component. */
  datatype Request =
    | ListTickets(query: QueryString)
    | FetchStats
    | ClassifyText(description: string)
    | CreateTicket(draft: Draft)
    | PatchStatus(id: nat, status: string)

  /** The debounce delay of the filter effect. */
  const DebounceDelay := 300

  /** Every field of the component, as one value, so that an event can say
      what it changes and that nothing else changes. */
  datatype AppState = AppState(
    tickets: seq<Ticket>,
    stats: Option<TicketStats.Stats>,
    formData: Draft,
    isClassifying: bool,
    isSubmitting: bool,
    filters: Filters,
    now: int,
    timer: Option<int>,
    sent: seq<Request>,
    submitFilters: Option<Filters>,
    patchFilters: seq<Filters>,
    classifyCalls: nat,
    listCalls: nat,
    statsCalls: nat)

  /** Applies filter edits in order. */
  function ApplyEdits(f: Filters, edits: seq<(FilterField, string)>): Filters
    decreases |edits|
  {
    if edits == [] then f else ApplyEdits(WithFilterValue(f, edits[0].0, edits[0].1), edits[1..])
  }

  /** The total of a sequence of pauses. */
  function SumOf(ps: seq<nat>): nat
    decreases |ps|
  {
    if ps == [] then 0 else SumOf(ps[..|ps| - 1]) + ps[|ps| - 1]
  }

  /** Extending the pauses counted by one adds that pause to the total. */
  lemma SumOfPrefix(ps: seq<nat>, k: nat)
    requires k < |ps|
    ensures SumOf(ps[..k + 1]) == SumOf(ps[..k]) + ps[k]
  {
    assert ps[..k + 1][..k] == ps[..k];
  }

  /** Applying the remaining edits is applying the next one, then the rest. */
  lemma EditStep(f: Filters, edits: seq<(FilterField, string)>, k: nat)
    requires k < |edits|
    ensures ApplyEdits(f, edits[k..]) == ApplyEdits(WithFilterValue(f, edits[k].0, edits[k].1), edits[k + 1..])
    ensures EveryEditChanges(f, edits[k..]) ==>
              FilterValue(f, edits[k].0) != edits[k].1 &&
              EveryEditChanges(WithFilterValue(f, edits[k].0, edits[k].1), edits[k + 1..])
  {
    assert edits[k..][1..] == edits[k + 1..];
  }

  /** Each edit changes the value of its filter (a keystroke, a new choice). */
  predicate EveryEditChanges(f: Filters, edits: seq<(FilterField, string)>)
    decreases |edits|
  {
    edits == [] ||
    (FilterValue(f, edits[0].0) != edits[0].1 &&
     EveryEditChanges(WithFilterValue(f, edits[0].0, edits[0].1), edits[1..]))
  }

  class App {
    var tickets: seq<Ticket>
    var stats: Option<TicketStats.Stats>
    var formData: Draft
    var isClassifying: bool
    var isSubmitting: bool
    var searchTerm: string
    var filterCategory: string
    var filterPriority: string
    var filterStatus: string

    /** The logical clock, and the deadline of the pending debounce timer. */
    var now: int
    var timer: Option<int>

    /** Every request issued so far, oldest first. */
    var sent: seq<Request>

    /** The filters captured by the `fetchTickets` that an in-flight submit,
        or each in-flight status change, will call when it completes: the
        handler belongs to the render in which it started. */
    var submitFilters: Option<Filters>
    var patchFilters: seq<Filters>

    /** Calls issued and not yet completed; they say which completions the
        environment may deliver. */
    ghost var classifyCalls: nat
    ghost var listCalls: nat
    ghost var statsCalls: nat

    function CurrentFilters(): Filters
      reads this
    {
      Filters(searchTerm, filterCategory, filterPriority, filterStatus)
    }

    ghost function State(): AppState
      reads this
    {
      AppState(tickets, stats, formData, isClassifying, isSubmitting, CurrentFilters(), now, timer, sent,
               submitFilters, patchFilters, classifyCalls, listCalls, statsCalls)
    }

    /** The component's invariant: the classifying flag is set only while a
        classify call is out, the submitting flag exactly while a submission
        is out, a pending timer fires within one delay, and the title fits
        the input's `maxLength`. */
    ghost predicate Valid()
      reads this
    {
      && (isClassifying ==> classifyCalls > 0)
      && (isSubmitting <==> submitFilters.Some?)
      && (timer.Some? ==> now < timer.value <= now + DebounceDelay)
      && |formData.title| <= TitleMaxLength
    }

    /** `disabled={isSubmitting || isClassifying}` on the submit button: while
        it is enabled, no submission is in flight. */
    predicate SubmitEnabled()
      reads this
      ensures SubmitEnabled() && Valid() ==> submitFilters.None?
    {
      !isSubmitting && !isClassifying
    }

    /** Mounting: the stats effect fetches once, and the filter effect arms
        its timer for the initial, empty filters. */
    constructor ()
      ensures Valid()
      ensures State() == AppState([], None, EmptyDraft, false, false, NoFilters, 0,
                                  Some(DebounceDelay), [FetchStats], None, [], 0, 0, 1)
    {
      tickets := [];
      stats := None;
      formData := EmptyDraft;
      isClassifying := false;
      isSubmitting := false;
      searchTerm, filterCategory, filterPriority, filterStatus := "", "", "", "";
      now := 0;
      submitFilters := None;
      patchFilters := [];
      classifyCalls, listCalls := 0, 0;
      sent := [FetchStats];
      statsCalls := 1;
      timer := Some(DebounceDelay);
    }

    /** An `onChange` of the draft form. The title input holds at most
        `maxLength` characters. */
    method EditDraft(field: DraftField, value: string)
      requires Valid()
      requires field == Title ==> |value| <= TitleMaxLength
      modifies this
      ensures Valid()
      ensures State() == old(State()).(formData := WithDraftValue(old(formData), field, value))
    {
      formData := WithDraftValue(formData, field, value);
    }

    /** `handleAIClassify` up to its `await`: nothing at all happens for an
        empty description. */
    method ClassifyStart()
      requires Valid()
      modifies this
      ensures Valid()
      ensures old(formData.description) == "" ==> State() == old(State())
      ensures old(formData.description) != "" ==>
        State() == old(State()).(isClassifying := true,
                                 sent := old(sent) + [ClassifyText(old(formData.description))],
                                 classifyCalls := old(classifyCalls) + 1)
    {
      if formData.description == "" {
        return;
      }
      isClassifying := true;
      sent := sent + [ClassifyText(formData.description)];
      classifyCalls := classifyCalls + 1;
    }

    /** `handleAIClassify` after its `await`: `Some` carries the response
        body, `None` is a failed call. The merge reads the draft as it is
        now, not as it was when the call started. */
    method ClassifyComplete(outcome: Option<Suggestion>)
      requires Valid() && classifyCalls > 0
      modifies this
      ensures Valid()
      ensures !isClassifying
      ensures outcome.None? ==> formData == old(formData)
      ensures State() == old(State()).(
        formData := if outcome.Some? then Merge(old(formData), outcome.value) else old(formData),
        isClassifying := false,
        classifyCalls := old(classifyCalls) - 1)
    {
      if outcome.Some? {
        formData := Merge(formData, outcome.value);
      }
      isClassifying := false;
      classifyCalls := classifyCalls - 1;
    }

    /** `handleSubmit` up to its `await`. The button must be enabled and the
        browser's `required` checks must pass; `handleSubmit` itself checks
        neither. */
    method SubmitStart()
      requires Valid() && SubmitEnabled()
      requires formData.title != "" && formData.description != ""
      modifies this
      ensures Valid()
      ensures isSubmitting && !SubmitEnabled()
      ensures State() == old(State()).(isSubmitting := true,
                                       sent := old(sent) + [CreateTicket(old(formData))],
                                       submitFilters := Some(old(CurrentFilters())))
    {
      isSubmitting := true;
      submitFilters := Some(CurrentFilters());
      sent := sent + [CreateTicket(formData)];
    }

    /** `handleSubmit` after its `await`: on success the draft is reset and
        one list and one stats refresh go out, the list refresh with the
        filters of the render in which the submission started; on failure
        nothing but the flag changes. */
    method SubmitComplete(ok: bool)
      requires Valid() && isSubmitting
      modifies this
      ensures Valid()
      ensures !isSubmitting
      ensures ok ==> State() == old(State()).(
        formData := EmptyDraft,
        isSubmitting := false,
        submitFilters := None,
        sent := old(sent) + [ListTickets(QueryOf(old(submitFilters).value)), FetchStats],
        listCalls := old(listCalls) + 1,
        statsCalls := old(statsCalls) + 1)
      ensures !ok ==> State() == old(State()).(isSubmitting := false, submitFilters := None)
    {
      if ok {
        var query := BuildQuery(submitFilters.value);
        formData := EmptyDraft;
        sent := sent + [ListTickets(query), FetchStats];
        listCalls, statsCalls := listCalls + 1, statsCalls + 1;
        isSubmitting, submitFilters := false, None;
        assert |formData.title| == 0;
        assert unchanged(this`tickets, this`stats, this`isClassifying, this`searchTerm, this`filterCategory,
                         this`filterPriority, this`filterStatus, this`now, this`timer, this`patchFilters,
                         this`classifyCalls);
      } else {
        isSubmitting, submitFilters := false, None;
        assert unchanged(this`tickets, this`stats, this`formData, this`isClassifying, this`searchTerm,
                         this`filterCategory, this`filterPriority, this`filterStatus, this`now, this`timer,
                         this`sent, this`patchFilters, this`classifyCalls, this`listCalls, this`statsCalls);
      }
    }

    /** `handleStatusChange` up to its `await`. It sets no flag. */
    method StatusChangeStart(id: nat, newStatus: string)
      requires Valid()
      modifies this
      ensures Valid()
      ensures State() == old(State()).(sent := old(sent) + [PatchStatus(id, newStatus)],
                                       patchFilters := old(patchFilters) + [old(CurrentFilters())])
    {
      sent := sent + [PatchStatus(id, newStatus)];
      patchFilters := patchFilters + [CurrentFilters()];
    }

    /** `handleStatusChange` after its `await`, for the in-flight change
        number `i`: on success one list and one stats refresh go out; the
        ticket list itself is never touched here. */
    method StatusChangeComplete(i: nat, ok: bool)
      requires Valid() && i < |patchFilters|
      modifies this
      ensures Valid()
      ensures tickets == old(tickets)
      ensures ok ==> State() == old(State()).(
        sent := old(sent) + [ListTickets(QueryOf(old(patchFilters)[i])), FetchStats],
        patchFilters := old(patchFilters)[..i] + old(patchFilters)[i + 1..],
        listCalls := old(listCalls) + 1,
        statsCalls := old(statsCalls) + 1)
      ensures !ok ==> State() == old(State()).(patchFilters := old(patchFilters)[..i] + old(patchFilters)[i + 1..])
    {
      var captured := patchFilters[i];
      patchFilters := patchFilters[..i] + patchFilters[i + 1..];
      if ok {
        var query := BuildQuery(captured);
        sent := sent + [ListTickets(query), FetchStats];
        listCalls, statsCalls := listCalls + 1, statsCalls + 1;
        assert unchanged(this`tickets, this`stats, this`formData, this`isClassifying, this`isSubmitting,
                         this`searchTerm, this`filterCategory, this`filterPriority, this`filterStatus,
                         this`now, this`timer, this`submitFilters, this`classifyCalls);
      } else {
        assert unchanged(this`tickets, this`stats, this`formData, this`isClassifying, this`isSubmitting,
                         this`searchTerm, this`filterCategory, this`filterPriority, this`filterStatus,
                         this`now, this`timer, this`sent, this`submitFilters, this`classifyCalls,
                         this`listCalls, this`statsCalls);
      }
    }

    /** A filter control's `onChange`. Setting a cell to the value it holds
        does not re-render, so the effect does not run; otherwise the effect's
        cleanup cancels the pending timer and a new one is armed. */
    method SetFilter(field: FilterField, value: string)
      requires Valid()
      modifies this
      ensures Valid()
      ensures value == FilterValue(old(CurrentFilters()), field) ==> State() == old(State())
      ensures value != FilterValue(old(CurrentFilters()), field) ==>
        State() == old(State()).(filters := WithFilterValue(old(CurrentFilters()), field, value),
                                 timer := Some(old(now) + DebounceDelay))
    {
      if value == FilterValue(CurrentFilters(), field) {
        return;
      }
      match field {
        case Search => searchTerm := value;
        case CategoryFilter => filterCategory := value;
        case PriorityFilter => filterPriority := value;
        case StatusFilter => filterStatus := value;
      }
      timer := Some(now + DebounceDelay);
      assert unchanged(this`tickets, this`stats, this`formData, this`isClassifying, this`isSubmitting,
                       this`now, this`sent, this`submitFilters, this`patchFilters, this`classifyCalls,
                       this`listCalls, this`statsCalls);
    }

    /** Time passes up to `to`. A timer whose deadline is reached fires once
        and issues one list request with the filters of now. */
    method AdvanceClock(to: int)
      requires Valid() && now <= to
      modifies this
      ensures Valid()
      ensures old(timer).Some? && old(timer).value <= to ==>
        State() == old(State()).(now := to, timer := None,
                                 sent := old(sent) + [ListTickets(QueryOf(old(CurrentFilters())))],
                                 listCalls := old(listCalls) + 1)
      ensures !(old(timer).Some? && old(timer).value <= to) ==> State() == old(State()).(now := to)
    {
      if timer.Some? && timer.value <= to {
        var query := BuildQuery(CurrentFilters());
        sent := sent + [ListTickets(query)];
        listCalls := listCalls + 1;
        timer := None;
      }
      now := to;
      assert unchanged(this`tickets, this`stats, this`formData, this`isClassifying, this`isSubmitting,
                       this`searchTerm, this`filterCategory, this`filterPriority, this`filterStatus,
                       this`submitFilters, this`patchFilters, this`classifyCalls, this`statsCalls);
    }

    /** A list call completes. There is no check of which call it answers:
        the response that completes last is the one shown. */
    method ListArrives(ok: bool, data: seq<Ticket>)
      requires Valid() && listCalls > 0
      modifies this
      ensures Valid()
      ensures ok ==> tickets == data
      ensures State() == old(State()).(tickets := if ok then data else old(tickets),
                                       listCalls := old(listCalls) - 1)
    {
      if ok {
        tickets := data;
      }
      listCalls := listCalls - 1;
    }

    /** A stats call completes; a failure keeps the previous snapshot. */
    method StatsArrives(ok: bool, snapshot: TicketStats.Stats)
      requires Valid() && statsCalls > 0
      modifies this
      ensures Valid()
      ensures State() == old(State()).(stats := if ok then Some(snapshot) else old(stats),
                                       statsCalls := old(statsCalls) - 1)
    {
      if ok {
        stats := Some(snapshot);
      }
      statsCalls := statsCalls - 1;
    }

    /** One keystroke or choice that changes a filter, then a pause shorter
        than the delay: the timer is re-armed and does not fire. */
    method EditThenPause(field: FilterField, value: string, pause: nat)
      requires Valid()
      requires value != FilterValue(CurrentFilters(), field)
      requires pause < DebounceDelay
      modifies this
      ensures Valid()
      ensures CurrentFilters() == WithFilterValue(old(CurrentFilters()), field, value)
      ensures now == old(now) + pause && timer == Some(old(now) + DebounceDelay)
      ensures unchanged(this`tickets, this`stats, this`formData, this`isClassifying, this`isSubmitting,
                        this`sent, this`submitFilters, this`patchFilters, this`classifyCalls,
                        this`listCalls, this`statsCalls)
    {
      SetFilter(field, value);
      AdvanceClock(now + pause);
    }

    /** A burst of filter edits, each changing its filter and each followed
        by a pause shorter than the delay: no request goes out, and the timer
        stands one delay after the last edit. */
    method EditAll(edits: seq<(FilterField, string)>, pauses: seq<nat>)
      requires Valid()
      requires |edits| == |pauses| > 0
      requires forall k | 0 <= k < |pauses| :: pauses[k] < DebounceDelay
      requires EveryEditChanges(CurrentFilters(), edits)
      modifies this
      ensures Valid()
      ensures CurrentFilters() == ApplyEdits(old(CurrentFilters()), edits)
      ensures now == old(now) + SumOf(pauses)
      ensures timer == Some(old(now) + SumOf(pauses[..|pauses| - 1]) + DebounceDelay)
      ensures unchanged(this`tickets, this`stats, this`formData, this`isClassifying, this`isSubmitting,
                        this`sent, this`submitFilters, this`patchFilters, this`classifyCalls,
                        this`listCalls, this`statsCalls)
    {
      var k := 0;
      while k < |edits|
        invariant 0 <= k <= |edits|
        invariant Valid()
        invariant ApplyEdits(CurrentFilters(), edits[k..]) == ApplyEdits(old(CurrentFilters()), edits)
        invariant EveryEditChanges(CurrentFilters(), edits[k..])
        invariant unchanged(this`tickets, this`stats, this`formData, this`isClassifying, this`isSubmitting,
                            this`sent, this`submitFilters, this`patchFilters, this`classifyCalls,
                            this`listCalls, this`statsCalls)
        invariant now == old(now) + SumOf(pauses[..k])
        invariant 0 < k ==> timer == Some(old(now) + SumOf(pauses[..k - 1]) + DebounceDelay)
      {
        EditStep(CurrentFilters(), edits, k);
        SumOfPrefix(pauses, k);
        EditThenPause(edits[k].0, edits[k].1, pauses[k]);
        k := k + 1;
      }
      assert pauses[..k] == pauses;
    }

    /** Debounce coalescing: a burst of filter edits, each changing its
        filter and each followed by a pause shorter than the delay, then a
        wait until the timer fires, issues exactly one list request, and it
        carries the filters as the last edit left them. The request goes out
        one full delay after the last edit. */
    method EditBurst(edits: seq<(FilterField, string)>, pauses: seq<nat>)
      requires Valid()
      requires |edits| == |pauses| > 0
      requires forall k | 0 <= k < |pauses| :: pauses[k] < DebounceDelay
      requires EveryEditChanges(CurrentFilters(), edits)
      modifies this
      ensures Valid() && timer.None?
      ensures CurrentFilters() == ApplyEdits(old(CurrentFilters()), edits)
      ensures sent == old(sent) + [ListTickets(QueryOf(ApplyEdits(old(CurrentFilters()), edits)))]
      ensures now == old(now) + SumOf(pauses[..|pauses| - 1]) + DebounceDelay
      ensures State() == old(State()).(filters := ApplyEdits(old(CurrentFilters()), edits), now := now,
                                       timer := None, sent := sent, listCalls := old(listCalls) + 1)
    {
      EditAll(edits, pauses);
      AdvanceClock(timer.value);
    }
  }
}
