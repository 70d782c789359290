/** The ticket record of `backend/tickets/models.py`: three closed choice
    sets, the field constraints, the defaults applied at creation and the
    string form. */
module Tickets {
  import opened Wrappers
  import opened Text

  datatype Category = Billing | Technical | Account | General
  datatype Priority = Low | Medium | High | Critical
  datatype Status = Open | InProgress | Resolved | Closed

  /** The stored values the database check constraints admit. */
  const CategoryCodes: seq<string> := ["billing", "technical", "account", "general"]
  const PriorityCodes: seq<string> := ["low", "medium", "high", "critical"]
  const StatusCodes: seq<string> := ["open", "in_progress", "resolved", "closed"]

  /** Columns holding a choice are `CharField(max_length=20)`. */
  const ChoiceMaxLength := 20
  const TitleMaxLength := 200

  function CategoryCode(c: Category): (r: string)
    ensures r in CategoryCodes && 0 < |r| <= ChoiceMaxLength
  {
    match c
    case Billing => "billing"
    case Technical => "technical"
    case Account => "account"
    case General => "general"
  }

  function PriorityCode(p: Priority): (r: string)
    ensures r in PriorityCodes && 0 < |r| <= ChoiceMaxLength
  {
    match p
    case Low => "low"
    case Medium => "medium"
    case High => "high"
    case Critical => "critical"
  }

  function StatusCode(s: Status): (r: string)
    ensures r in StatusCodes && 0 < |r| <= ChoiceMaxLength
  {
    match s
    case Open => "open"
    case InProgress => "in_progress"
    case Resolved => "resolved"
    case Closed => "closed"
  }

  /** Reading a stored string back as a choice; `None` for a value the check
      constraint rejects. */
  function ParseCategory(s: string): (r: Option<Category>)
    ensures r.Some? <==> s in CategoryCodes
    ensures r.Some? ==> CategoryCode(r.value) == s
  {
    if s == "billing" then Some(Billing)
    else if s == "technical" then Some(Technical)
    else if s == "account" then Some(Account)
    else if s == "general" then Some(General)
    else None
  }

  function ParsePriority(s: string): (r: Option<Priority>)
    ensures r.Some? <==> s in PriorityCodes
    ensures r.Some? ==> PriorityCode(r.value) == s
  {
    if s == "low" then Some(Low)
    else if s == "medium" then Some(Medium)
    else if s == "high" then Some(High)
    else if s == "critical" then Some(Critical)
    else None
  }

  function ParseStatus(s: string): (r: Option<Status>)
    ensures r.Some? <==> s in StatusCodes
    ensures r.Some? ==> StatusCode(r.value) == s
  {
    if s == "open" then Some(Open)
    else if s == "in_progress" then Some(InProgress)
    else if s == "resolved" then Some(Resolved)
    else if s == "closed" then Some(Closed)
    else None
  }

  /** Every choice is stored as a distinct string that reads back as itself. */
  lemma CodesRoundTrip(c: Category, p: Priority, s: Status)
    ensures ParseCategory(CategoryCode(c)) == Some(c)
    ensures ParsePriority(PriorityCode(p)) == Some(p)
    ensures ParseStatus(StatusCode(s)) == Some(s)
  {
    match c
    case Billing =>
    case Technical =>
    case Account =>
    case General =>
    match p
    case Low =>
    case Medium =>
    case High =>
    case Critical =>
    match s
    case Open =>
    case InProgress =>
    case Resolved =>
    case Closed =>
  }

  /** Microseconds, the resolution of a `DateTimeField`. */
  type Timestamp = int

  /** A stored ticket. `id` is the primary key the ORM assigns. */
  datatype Ticket = Ticket(
    id: nat,
    title: string,
    description: string,
    category: Category,
    priority: Priority,
    status: Status,
    createdAt: Timestamp)

  /** `blank=False`: the text, once the serializer trims it, is not empty. */
  predicate NonBlank(s: string)
    ensures NonBlank(s) <==> Strip(s) != []
  {
    StripIsTrimmedSlice(s);
    exists k | 0 <= k < |s| :: !IsSpace(s[k])
  }

  /** The field constraints of a stored ticket; the choice constraints hold by
      construction of the three datatypes. */
  predicate ValidTicket(t: Ticket)
    ensures ValidTicket(t) <==>
      Strip(t.title) != [] && |t.title| <= TitleMaxLength && Strip(t.description) != []
  {
    NonBlank(t.title) && |t.title| <= TitleMaxLength && NonBlank(t.description)
  }

  /** Creating a ticket from the submitted strings. The row is accepted only
      when every field constraint and every choice constraint holds; it then
      gets the default status `open` and the creation time `now`. */
  function Create(id: nat, title: string, description: string, category: string,
                  priority: string, now: Timestamp): (r: Option<Ticket>)
    ensures r.Some? <==>
      NonBlank(title) && |title| <= TitleMaxLength && NonBlank(description) &&
      category in CategoryCodes && priority in PriorityCodes
    ensures r.Some? ==>
      ValidTicket(r.value) && r.value.status == Open && r.value.createdAt == now &&
      r.value.title == title && r.value.description == description &&
      CategoryCode(r.value.category) == category && PriorityCode(r.value.priority) == priority
  {
    var c := ParseCategory(category);
    var p := ParsePriority(priority);
    if NonBlank(title) && |title| <= TitleMaxLength && NonBlank(description) && c.Some? && p.Some?
    then Some(Ticket(id, title, description, c.value, p.value, Open, now))
    else None
  }

  /** The only update the system makes after creation: a new status. */
  function WithStatus(t: Ticket, s: Status): (r: Ticket)
    ensures r.status == s
    ensures r.id == t.id && r.createdAt == t.createdAt
    ensures r.title == t.title && r.description == t.description
    ensures r.category == t.category && r.priority == t.priority
  {
    t.(status := s)
  }

  /** A status change keeps a valid ticket valid, and keeps its creation time. */
  lemma WithStatusKeepsValid(t: Ticket, s: Status)
    requires ValidTicket(t)
    ensures ValidTicket(WithStatus(t, s)) && WithStatus(t, s).createdAt == t.createdAt
  {
  }

  /** `__str__`: the status code in brackets, a space, then the title. */
  function Display(t: Ticket): (r: string)
    ensures StartsWith(r, "[") && |r| == |StatusCode(t.status)| + 3 + |t.title|
    ensures r[|r| - |t.title|..] == t.title
  {
    "[" + StatusCode(t.status) + "] " + t.title
  }

  function DisplayPrefix(s: Status): string {
    "[" + StatusCode(s) + "] "
  }

  /** Reads a display string back into its status and title. */
  function ParseDisplay(s: string): (r: Option<(Status, string)>)
  {
    if StartsWith(s, DisplayPrefix(Open)) then Some((Open, s[|DisplayPrefix(Open)|..]))
    else if StartsWith(s, DisplayPrefix(InProgress)) then Some((InProgress, s[|DisplayPrefix(InProgress)|..]))
    else if StartsWith(s, DisplayPrefix(Resolved)) then Some((Resolved, s[|DisplayPrefix(Resolved)|..]))
    else if StartsWith(s, DisplayPrefix(Closed)) then Some((Closed, s[|DisplayPrefix(Closed)|..]))
    else None
  }

  /** The string form loses nothing of the status and the title. */
  lemma {:induction false} DisplayRoundTrip(t: Ticket)
    ensures ParseDisplay(Display(t)) == Some((t.status, t.title))
  {
    var d := Display(t);
    assert d == DisplayPrefix(t.status) + t.title;
    assert d[1] == StatusCode(t.status)[0];
    match t.status
    case Open =>
      assert StartsWith(d, DisplayPrefix(Open));
    case InProgress =>
      assert d[1] == 'i';
      assert StartsWith(d, DisplayPrefix(InProgress));
    case Resolved =>
      assert d[1] == 'r';
      assert StartsWith(d, DisplayPrefix(Resolved));
    case Closed =>
      assert d[1] == 'c';
      assert StartsWith(d, DisplayPrefix(Closed));
  }

  /** Hence two tickets with the same string form agree on status and title. */
  lemma DisplayInjective(a: Ticket, b: Ticket)
    requires Display(a) == Display(b)
    ensures a.status == b.status && a.title == b.title
  {
    DisplayRoundTrip(a);
    DisplayRoundTrip(b);
  }
}
