/** The `stats` action of `backend/tickets/views.py`: counts over every
    ticket, per-priority and per-category breakdowns, and the number of days
    the average per day is taken over. */
module TicketStats {
  import opened Wrappers
  import opened Tickets
  import opened TicketQueries

  /** `timedelta.days` counts whole days of this many microseconds. */
  const MicrosPerDay := 86_400_000_000

  function CountStatus(s: seq<Ticket>, st: Status): (n: nat)
    ensures n <= |s|
  {
    if s == [] then 0 else (if s[0].status == st then 1 else 0) + CountStatus(s[1..], st)
  }

  function CountPriority(s: seq<Ticket>, p: Priority): (n: nat)
    ensures n <= |s|
  {
    if s == [] then 0 else (if s[0].priority == p then 1 else 0) + CountPriority(s[1..], p)
  }

  function CountCategory(s: seq<Ticket>, c: Category): (n: nat)
    ensures n <= |s|
  {
    if s == [] then 0 else (if s[0].category == c then 1 else 0) + CountCategory(s[1..], c)
  }

  /** Every ticket has exactly one priority, so the breakdown adds up. */
  lemma {:induction false} PriorityCountsSum(s: seq<Ticket>)
    ensures CountPriority(s, Low) + CountPriority(s, Medium) + CountPriority(s, High)
            + CountPriority(s, Critical) == |s|
  {
    if s != [] {
      PriorityCountsSum(s[1..]);
    }
  }

  /** Every ticket has exactly one category, so the breakdown adds up. */
  lemma {:induction false} CategoryCountsSum(s: seq<Ticket>)
    ensures CountCategory(s, Billing) + CountCategory(s, Technical) + CountCategory(s, Account)
            + CountCategory(s, General) == |s|
  {
    if s != [] {
      CategoryCountsSum(s[1..]);
    }
  }

  /** `Min('created_at')`. */
  function Earliest(s: seq<Ticket>): (r: Timestamp)
    requires s != []
    ensures exists i | 0 <= i < |s| :: s[i].createdAt == r
    ensures forall i | 0 <= i < |s| :: r <= s[i].createdAt
  {
    if |s| == 1 then s[0].createdAt
    else
      var rest := Earliest(s[1..]);
      assert forall i | 1 <= i < |s| :: s[i] == s[1..][i - 1];
      if s[0].createdAt <= rest then s[0].createdAt else rest
  }

  /** `Max('created_at')`. */
  function Latest(s: seq<Ticket>): (r: Timestamp)
    requires s != []
    ensures exists i | 0 <= i < |s| :: s[i].createdAt == r
    ensures forall i | 0 <= i < |s| :: s[i].createdAt <= r
  {
    if |s| == 1 then s[0].createdAt
    else
      var rest := Latest(s[1..]);
      assert forall i | 1 <= i < |s| :: s[i] == s[1..][i - 1];
      if s[0].createdAt >= rest then s[0].createdAt else rest
  }

  /** The average per day. The division `round(total / days, 1)` is floating
      point and is kept symbolic: only its operands are modelled. */
  datatype Average = NoTickets | PerDay(tickets: nat, days: nat)

  /** The whole days between the first and the last ticket, or 1 when that
      span is shorter than a day. */
  function Divisor(s: seq<Ticket>): (days: nat)
    requires s != []
    ensures days >= 1
    ensures days == 1 || days == (Latest(s) - Earliest(s)) / MicrosPerDay
    ensures Latest(s) - Earliest(s) >= MicrosPerDay ==> days == (Latest(s) - Earliest(s)) / MicrosPerDay
  {
    var span := (Latest(s) - Earliest(s)) / MicrosPerDay;
    if span > 0 then span else 1
  }

  function AverageOf(s: seq<Ticket>): (r: Average)
    ensures r.NoTickets? <==> s == []
    ensures r.PerDay? ==> r.tickets == |s| && r.days >= 1 && r.days == Divisor(s)
  {
    if |s| > 0 then PerDay(|s|, Divisor(s)) else NoTickets
  }

  /** The `priority_breakdown` object, one count per stored value. */
  datatype PriorityBreakdown = PriorityBreakdown(low: nat, medium: nat, high: nat, critical: nat) {
    function Of(p: Priority): nat {
      match p
      case Low => low
      case Medium => medium
      case High => high
      case Critical => critical
    }
  }

  /** The `category_breakdown` object, one count per stored value. */
  datatype CategoryBreakdown = CategoryBreakdown(billing: nat, technical: nat, account: nat, general: nat) {
    function Of(c: Category): nat {
      match c
      case Billing => billing
      case Technical => technical
      case Account => account
      case General => general
    }
  }

  datatype Stats = Stats(
    totalTickets: nat,
    openTickets: nat,
    average: Average,
    priorityBreakdown: PriorityBreakdown,
    categoryBreakdown: CategoryBreakdown)

  /** The response of the `stats` action over the whole table: the total, the
      open tickets among them, breakdowns that partition the total, and an
      average that is zero exactly when there are no tickets. */
  function ComputeStats(s: seq<Ticket>): (r: Stats)
    ensures r.totalTickets == |s| && r.openTickets <= r.totalTickets
    ensures r.average.NoTickets? <==> r.totalTickets == 0
    ensures r.totalTickets > 0 ==> r.average == PerDay(r.totalTickets, Divisor(s))
    ensures r.priorityBreakdown.low + r.priorityBreakdown.medium + r.priorityBreakdown.high
            + r.priorityBreakdown.critical == r.totalTickets
    ensures r.categoryBreakdown.billing + r.categoryBreakdown.technical
            + r.categoryBreakdown.account + r.categoryBreakdown.general == r.totalTickets
  {
    PriorityCountsSum(s);
    CategoryCountsSum(s);
    Stats(
      |s|,
      CountStatus(s, Open),
      AverageOf(s),
      PriorityBreakdown(CountPriority(s, Low), CountPriority(s, Medium),
                        CountPriority(s, High), CountPriority(s, Critical)),
      CategoryBreakdown(CountCategory(s, Billing), CountCategory(s, Technical),
                        CountCategory(s, Account), CountCategory(s, General)))
  }

  /** A priority entry is the length of the listing for that priority. */
  lemma PriorityEntryIsListing(all: seq<Ticket>, p: Priority)
    ensures ComputeStats(all).priorityBreakdown.Of(p)
            == |Listed(all, Params(None, Some(PriorityCode(p)), None, None))|
  {
    var pc := [PriorityIs(PriorityCode(p))];
    assert ActiveConstraints(Params(None, Some(PriorityCode(p)), None, None)) == pc;
    WhereSortedLength(all, pc);
    CountPriorityWhere(all, p);
    assert ComputeStats(all).priorityBreakdown.Of(p) == CountPriority(all, p) by {
      match p
      case Low =>
      case Medium =>
      case High =>
      case Critical =>
    }
  }

  /** A category entry is the length of the listing for that category. */
  lemma CategoryEntryIsListing(all: seq<Ticket>, c: Category)
    ensures ComputeStats(all).categoryBreakdown.Of(c)
            == |Listed(all, Params(Some(CategoryCode(c)), None, None, None))|
  {
    var cc := [CategoryIs(CategoryCode(c))];
    assert ActiveConstraints(Params(Some(CategoryCode(c)), None, None, None)) == cc;
    WhereSortedLength(all, cc);
    CountCategoryWhere(all, c);
    assert ComputeStats(all).categoryBreakdown.Of(c) == CountCategory(all, c) by {
      match c
      case Billing =>
      case Technical =>
      case Account =>
      case General =>
    }
  }

  /** The open count is the length of the listing for `?status=open`. */
  lemma OpenCountIsListing(all: seq<Ticket>)
    ensures ComputeStats(all).openTickets == |Listed(all, Params(None, None, Some("open"), None))|
  {
    var sc := [StatusIs(StatusCode(Open))];
    assert ActiveConstraints(Params(None, None, Some("open"), None)) == sc;
    WhereSortedLength(all, sc);
    CountStatusWhere(all, Open);
  }

  /** Each breakdown entry counts the tickets carrying that value, and the
      open count is the count of status `open`: each is the length of the
      listing the list endpoint returns for that single parameter. */
  lemma StatsCountWhatTheySay(all: seq<Ticket>, p: Priority, c: Category)
    ensures ComputeStats(all).priorityBreakdown.Of(p)
            == |Listed(all, Params(None, Some(PriorityCode(p)), None, None))|
    ensures ComputeStats(all).categoryBreakdown.Of(c)
            == |Listed(all, Params(Some(CategoryCode(c)), None, None, None))|
    ensures ComputeStats(all).openTickets == |Listed(all, Params(None, None, Some("open"), None))|
  {
    PriorityEntryIsListing(all, p);
    CategoryEntryIsListing(all, c);
    OpenCountIsListing(all);
  }

  lemma {:induction false} CountStatusWhere(s: seq<Ticket>, st: Status)
    ensures |Where(s, [StatusIs(StatusCode(st))])| == CountStatus(s, st)
  {
    if s != [] {
      CountStatusWhere(s[1..], st);
      CodesRoundTrip(General, Low, s[0].status);
      CodesRoundTrip(General, Low, st);
      assert [StatusIs(StatusCode(st))][0] == StatusIs(StatusCode(st));
    }
  }

  lemma {:induction false} CountPriorityWhere(s: seq<Ticket>, p: Priority)
    ensures |Where(s, [PriorityIs(PriorityCode(p))])| == CountPriority(s, p)
  {
    if s != [] {
      CountPriorityWhere(s[1..], p);
      CodesRoundTrip(General, s[0].priority, Open);
      CodesRoundTrip(General, p, Open);
      assert [PriorityIs(PriorityCode(p))][0] == PriorityIs(PriorityCode(p));
    }
  }

  lemma {:induction false} CountCategoryWhere(s: seq<Ticket>, c: Category)
    ensures |Where(s, [CategoryIs(CategoryCode(c))])| == CountCategory(s, c)
  {
    if s != [] {
      CountCategoryWhere(s[1..], c);
      CodesRoundTrip(s[0].category, Low, Open);
      CodesRoundTrip(c, Low, Open);
      assert [CategoryIs(CategoryCode(c))][0] == CategoryIs(CategoryCode(c));
    }
  }
}
