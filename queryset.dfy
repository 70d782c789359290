/** `TicketViewSet.get_queryset` of `backend/tickets/views.py`: all tickets,
    newest first, narrowed by the optional `category`, `priority`, `status`
    and `search` query parameters. The database is a sequence of tickets. */
module TicketQueries {
  import opened Wrappers
  import opened Text
  import opened Tickets

  /** The decoded query string: (key, value) pairs in the order sent. */
  type QueryString = seq<(string, string)>

  /** Position `i` holds `(key, v)` and no later pair has `key`. */
  predicate LastAt(q: QueryString, key: string, v: string, i: int) {
    0 <= i < |q| && q[i] == (key, v) && forall j | i < j < |q| :: q[j].0 != key
  }

  /** `QueryDict.get(key)`: the LAST value given for `key`, `None` if the key
      is absent. */
  function Get(q: QueryString, key: string): (r: Option<string>)
    ensures r.None? <==> forall i | 0 <= i < |q| :: q[i].0 != key
    ensures r.Some? ==> exists i :: LastAt(q, key, r.value, i)
  {
    if q == [] then None
    else if q[|q| - 1].0 == key then
      assert LastAt(q, key, q[|q| - 1].1, |q| - 1);
      Some(q[|q| - 1].1)
    else
      var p := q[..|q| - 1];
      var r := Get(p, key);
      assert forall i | 0 <= i < |p| :: p[i] == q[i];
      assert r.Some? ==> exists i :: LastAt(q, key, r.value, i) by {
        if r.Some? {
          var i :| LastAt(p, key, r.value, i);
          assert LastAt(q, key, r.value, i);
        }
      }
      r
  }

  /** A key given again later overrides the earlier value. */
  lemma {:induction false} GetConcat(q: QueryString, r: QueryString, key: string)
    ensures Get(q + r, key) == if Get(r, key).Some? then Get(r, key) else Get(q, key)
  {
    if r != [] {
      var qr := q + r;
      assert qr[..|qr| - 1] == q + r[..|r| - 1];
      GetConcat(q, r[..|r| - 1], key);
    } else {
      assert q + r == q;
    }
  }

  /** The four parameters `get_queryset` reads. */
  datatype Params = Params(
    category: Option<string>,
    priority: Option<string>,
    status: Option<string>,
    search: Option<string>)

  /** The four `query_params.get` calls: a parameter is absent exactly when
      no pair carries its key. */
  function ParamsOf(q: QueryString): (r: Params)
    ensures r.category.None? <==> forall i | 0 <= i < |q| :: q[i].0 != "category"
    ensures r.priority.None? <==> forall i | 0 <= i < |q| :: q[i].0 != "priority"
    ensures r.status.None? <==> forall i | 0 <= i < |q| :: q[i].0 != "status"
    ensures r.search.None? <==> forall i | 0 <= i < |q| :: q[i].0 != "search"
  {
    Params(Get(q, "category"), Get(q, "priority"), Get(q, "status"), Get(q, "search"))
  }

  /** A pair under any other key is ignored by the endpoint. */
  lemma ParamsIgnoreOtherKeys(q: QueryString, key: string, value: string)
    requires key != "category" && key != "priority" && key != "status" && key != "search"
    ensures ParamsOf(q + [(key, value)]) == ParamsOf(q)
  {
    GetConcat(q, [(key, value)], "category");
    GetConcat(q, [(key, value)], "priority");
    GetConcat(q, [(key, value)], "status");
    GetConcat(q, [(key, value)], "search");
  }

  /** One `.filter(...)` step of the chain. */
  datatype Constraint =
    | CategoryIs(category: string)
    | PriorityIs(priority: string)
    | StatusIs(status: string)
    | Mentions(search: string)

  predicate Satisfies(t: Ticket, c: Constraint) {
    match c
    case CategoryIs(v) => CategoryCode(t.category) == v
    case PriorityIs(v) => PriorityCode(t.priority) == v
    case StatusIs(v) => StatusCode(t.status) == v
    case Mentions(v) => ContainsIgnoreCase(t.title, v) || ContainsIgnoreCase(t.description, v)
  }

  predicate SatisfiesAll(t: Ticket, cs: seq<Constraint>) {
    forall i | 0 <= i < |cs| :: Satisfies(t, cs[i])
  }

  /** Reference reading of the endpoint: a given parameter constrains its
      field, a missing or empty one constrains nothing, and all of them must
      hold together. */
  predicate Matches(p: Params, t: Ticket) {
    && (Truthy(p.category) ==> CategoryCode(t.category) == p.category.value)
    && (Truthy(p.priority) ==> PriorityCode(t.priority) == p.priority.value)
    && (Truthy(p.status) ==> StatusCode(t.status) == p.status.value)
    && (Truthy(p.search) ==>
          ContainsIgnoreCase(t.title, p.search.value) || ContainsIgnoreCase(t.description, p.search.value))
  }

  function CategoryStep(p: Params): seq<Constraint> {
    if Truthy(p.category) then [CategoryIs(p.category.value)] else []
  }

  function PriorityStep(p: Params): seq<Constraint> {
    if Truthy(p.priority) then [PriorityIs(p.priority.value)] else []
  }

  function StatusStep(p: Params): seq<Constraint> {
    if Truthy(p.status) then [StatusIs(p.status.value)] else []
  }

  function SearchStep(p: Params): seq<Constraint> {
    if Truthy(p.search) then [Mentions(p.search.value)] else []
  }

  /** The filters the chain applies, in the order the code applies them. */
  function ActiveConstraints(p: Params): (cs: seq<Constraint>)
    ensures |cs| <= 4
    ensures cs == [] <==> !Truthy(p.category) && !Truthy(p.priority) && !Truthy(p.status) && !Truthy(p.search)
  {
    CategoryStep(p) + PriorityStep(p) + StatusStep(p) + SearchStep(p)
  }

  /** Applying exactly the active filters is the reference reading. */
  lemma ActiveConstraintsMeanMatches(p: Params, t: Ticket)
    ensures SatisfiesAll(t, ActiveConstraints(p)) <==> Matches(p, t)
  {
    var c1, c2, c3 := CategoryStep(p), PriorityStep(p), StatusStep(p);
    var cs := ActiveConstraints(p);
    if Truthy(p.category) { assert cs[0] == CategoryIs(p.category.value); }
    if Truthy(p.priority) { assert cs[|c1|] == PriorityIs(p.priority.value); }
    if Truthy(p.status) { assert cs[|c1| + |c2|] == StatusIs(p.status.value); }
    if Truthy(p.search) { assert cs[|c1| + |c2| + |c3|] == Mentions(p.search.value); }
  }

  /** `created_at` never increases along the sequence. */
  predicate NewestFirst(s: seq<Ticket>) {
    forall i, j | 0 <= i < j < |s| :: s[i].createdAt >= s[j].createdAt
  }

  /** The recursive step of `Insert`: the head of `s` goes in front of the
      insertion into the tail. */
  lemma InsertStep(x: Ticket, s: seq<Ticket>, rest: seq<Ticket>)
    requires NewestFirst(s) && s != [] && x.createdAt < s[0].createdAt
    requires NewestFirst(rest) && multiset(rest) == multiset(s[1..]) + multiset{x}
    ensures NewestFirst([s[0]] + rest)
    ensures multiset([s[0]] + rest) == multiset(s) + multiset{x}
  {
    assert s == [s[0]] + s[1..];
    forall k | 0 <= k < |rest| ensures rest[k].createdAt <= s[0].createdAt {
      assert rest[k] in multiset(rest);
      if rest[k] != x {
        assert rest[k] in s[1..];
      }
    }
    var r := [s[0]] + rest;
    forall i, j | 0 <= i < j < |r| ensures r[i].createdAt >= r[j].createdAt {
      assert r[j] == rest[j - 1];
      if i > 0 {
        assert r[i] == rest[i - 1];
      }
    }
  }

  function Insert(x: Ticket, s: seq<Ticket>): (r: seq<Ticket>)
    requires NewestFirst(s)
    ensures NewestFirst(r)
    ensures multiset(r) == multiset(s) + multiset{x}
  {
    if s == [] || x.createdAt >= s[0].createdAt then [x] + s
    else
      var rest := Insert(x, s[1..]);
      InsertStep(x, s, rest);
      [s[0]] + rest
  }

  /** `order_by('-created_at')`. Tickets created at the same instant keep
      their relative order here; the database promises no order among them. */
  function SortNewestFirst(s: seq<Ticket>): (r: seq<Ticket>)
    ensures NewestFirst(r)
    ensures multiset(r) == multiset(s)
  {
    if s == [] then []
    else
      assert s == [s[0]] + s[1..];
      Insert(s[0], SortNewestFirst(s[1..]))
  }

  /** `a` is `b` with some elements removed, order kept. */
  predicate IsSubsequence(a: seq<Ticket>, b: seq<Ticket>)
    decreases |b|
  {
    if a == [] then true
    else if b == [] then false
    else (a[0] == b[0] && IsSubsequence(a[1..], b[1..])) || IsSubsequence(a, b[1..])
  }

  /** The tickets of `s` that pass every constraint in `cs`, in order. */
  function Where(s: seq<Ticket>, cs: seq<Constraint>): (r: seq<Ticket>)
    ensures |r| <= |s|
    ensures forall t :: t in r <==> t in s && SatisfiesAll(t, cs)
  {
    if s == [] then []
    else if SatisfiesAll(s[0], cs) then [s[0]] + Where(s[1..], cs)
    else Where(s[1..], cs)
  }

  /** Filtering only removes tickets and never reorders them. */
  lemma {:induction false} WhereIsSubsequence(s: seq<Ticket>, cs: seq<Constraint>)
    ensures IsSubsequence(Where(s, cs), s)
  {
    if s != [] {
      WhereIsSubsequence(s[1..], cs);
      var w := Where(s, cs);
      if SatisfiesAll(s[0], cs) {
        assert w[0] == s[0] && w[1..] == Where(s[1..], cs);
      }
    }
  }

  /** A filtered newest-first list is still newest first. */
  lemma {:induction false} WhereKeepsOrder(s: seq<Ticket>, cs: seq<Constraint>)
    requires NewestFirst(s)
    ensures NewestFirst(Where(s, cs))
  {
    if s != [] {
      assert NewestFirst(s[1..]);
      WhereKeepsOrder(s[1..], cs);
      var rest := Where(s[1..], cs);
      if SatisfiesAll(s[0], cs) {
        forall k | 0 <= k < |rest| ensures s[0].createdAt >= rest[k].createdAt {
          assert rest[k] in s[1..];
        }
      }
    }
  }

  /** Chained `.filter` calls are one filter by the conjunction: the
      parameters combine by AND. */
  lemma {:induction false} WhereChain(s: seq<Ticket>, cs: seq<Constraint>, ds: seq<Constraint>)
    ensures Where(Where(s, cs), ds) == Where(s, cs + ds)
  {
    if s != [] {
      WhereChain(s[1..], cs, ds);
      var t := s[0];
      assert SatisfiesAll(t, cs + ds) <==> SatisfiesAll(t, cs) && SatisfiesAll(t, ds) by {
        assert forall i | 0 <= i < |cs| :: (cs + ds)[i] == cs[i];
        assert forall i | 0 <= i < |ds| :: (cs + ds)[|cs| + i] == ds[i];
      }
      if SatisfiesAll(t, cs) {
        assert Where(s, cs) == [t] + Where(s[1..], cs);
        assert ([t] + Where(s[1..], cs))[1..] == Where(s[1..], cs);
      }
    }
  }

  lemma WhereNothing(s: seq<Ticket>)
    ensures Where(s, []) == s
  {
  }

  /** Inserting a ticket adds one to a filtered count exactly when the ticket
      passes the filter. */
  lemma {:induction false} WhereInsertLength(x: Ticket, s: seq<Ticket>, cs: seq<Constraint>)
    requires NewestFirst(s)
    ensures |Where(Insert(x, s), cs)| == |Where(s, cs)| + (if SatisfiesAll(x, cs) then 1 else 0)
  {
    var r := Insert(x, s);
    if s != [] && x.createdAt < s[0].createdAt {
      assert NewestFirst(s[1..]);
      WhereInsertLength(x, s[1..], cs);
      assert r[0] == s[0] && r[1..] == Insert(x, s[1..]);
    } else {
      assert r[0] == x && r[1..] == s;
    }
  }

  /** The ordering does not change how many tickets a filter keeps. */
  lemma {:induction false} WhereSortedLength(s: seq<Ticket>, cs: seq<Constraint>)
    ensures |Where(SortNewestFirst(s), cs)| == |Where(s, cs)|
  {
    if s != [] {
      WhereSortedLength(s[1..], cs);
      WhereInsertLength(s[0], SortNewestFirst(s[1..]), cs);
    }
  }

  /** What the endpoint lists for parameters `p`; what it holds is stated by
      `ListedProperties`. */
  function Listed(all: seq<Ticket>, p: Params): (r: seq<Ticket>)
    ensures |r| <= |all|
  {
    assert |SortNewestFirst(all)| == |multiset(SortNewestFirst(all))| == |all|;
    Where(SortNewestFirst(all), ActiveConstraints(p))
  }

  /** The listing is newest first, keeps the sorted order, and holds exactly
      the tickets the parameters admit. */
  lemma ListedProperties(all: seq<Ticket>, p: Params)
    ensures NewestFirst(Listed(all, p))
    ensures IsSubsequence(Listed(all, p), SortNewestFirst(all))
    ensures forall t :: t in Listed(all, p) <==> t in all && Matches(p, t)
  {
    var sorted := SortNewestFirst(all);
    WhereIsSubsequence(sorted, ActiveConstraints(p));
    WhereKeepsOrder(sorted, ActiveConstraints(p));
    forall t ensures t in Listed(all, p) <==> t in all && Matches(p, t) {
      ActiveConstraintsMeanMatches(p, t);
      assert t in sorted <==> t in all by {
        assert t in multiset(sorted) <==> t in multiset(all);
      }
    }
  }

  /** `get_queryset`: start from every ticket newest first, then narrow by
      each given parameter in turn. What the result satisfies is stated by
      `ListedProperties`. */
  method GetQueryset(all: seq<Ticket>, query: QueryString) returns (qs: seq<Ticket>)
    ensures qs == Listed(all, ParamsOf(query))
  {
    var sorted := SortNewestFirst(all);
    qs := sorted;
    ghost var p := ParamsOf(query);
    WhereNothing(sorted);

    var category := Get(query, "category");
    var priority := Get(query, "priority");
    var status := Get(query, "status");
    var search := Get(query, "search");

    if Truthy(category) {
      qs := Where(qs, [CategoryIs(category.value)]);
    }
    assert qs == Where(sorted, CategoryStep(p));
    if Truthy(priority) {
      WhereChain(sorted, CategoryStep(p), PriorityStep(p));
      qs := Where(qs, [PriorityIs(priority.value)]);
    } else {
      assert CategoryStep(p) + [] == CategoryStep(p);
    }
    assert qs == Where(sorted, CategoryStep(p) + PriorityStep(p));
    if Truthy(status) {
      WhereChain(sorted, CategoryStep(p) + PriorityStep(p), StatusStep(p));
      qs := Where(qs, [StatusIs(status.value)]);
    } else {
      assert CategoryStep(p) + PriorityStep(p) + [] == CategoryStep(p) + PriorityStep(p);
    }
    assert qs == Where(sorted, CategoryStep(p) + PriorityStep(p) + StatusStep(p));
    if Truthy(search) {
      WhereChain(sorted, CategoryStep(p) + PriorityStep(p) + StatusStep(p), SearchStep(p));
      qs := Where(qs, [Mentions(search.value)]);
    }
    assert CategoryStep(p) + PriorityStep(p) + StatusStep(p) + [] == CategoryStep(p) + PriorityStep(p) + StatusStep(p);
  }
}
