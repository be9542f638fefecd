/** The status filter and the counters of the staff portal page
    (client/src/pages/EmployeePortal.jsx), over the rows of the staff
    listing. The filter is whatever string the page's query names; a row's
    status is compared by its name, as the page compares JSON strings. */
module EmployeePortal {
  import opened Models
  import opened PaymentRoutes

  const AllFilter: string := "all"

  /** `searchParams.get('filter') || 'all'`: an absent or empty query
      parameter selects every row; any other value is taken as it is. */
  function FilterFrom(param: Option<string>): (filter: string)
    ensures param.None? ==> filter == AllFilter
    ensures param.Some? && param.value == "" ==> filter == AllFilter
    ensures param.Some? && param.value != "" ==> filter == param.value
  {
    if param.Some? && param.value != "" then param.value else AllFilter
  }

  /** The page's filter callback for one row. */
  predicate Keep(row: Row, filter: string)
  {
    filter == AllFilter || StatusName(row.payment.status) == filter
  }

  /** `payments.filter(...)` with the page's callback. */
  function Filtered(rows: seq<Row>, filter: string): seq<Row>
  {
    if rows == [] then []
    else (if Keep(rows[0], filter) then [rows[0]] else []) + Filtered(rows[1..], filter)
  }

  /** `payments.filter(p => p.status === name)`, the shape each counter uses. */
  function WithStatus(rows: seq<Row>, name: string): seq<Row>
  {
    if rows == [] then []
    else (if StatusName(rows[0].payment.status) == name then [rows[0]] else []) + WithStatus(rows[1..], name)
  }

  datatype Stats = Stats(total: nat, pending: nat, verified: nat, submitted: nat)

  /** The page's `stats` object. */
  function StatsOf(rows: seq<Row>): Stats
  {
    Stats(|rows|, |WithStatus(rows, "pending")|, |WithStatus(rows, "verified")|, |WithStatus(rows, "submitted")|)
  }

  /** The counter the page shows for one status. */
  function CountOf(stats: Stats, s: Status): nat
  {
    match s
    case Pending => stats.pending
    case Verified => stats.verified
    case Submitted => stats.submitted
  }

  /** `a` is `b` with some entries left out, the rest in their order. */
  predicate IsSubsequence(a: seq<Row>, b: seq<Row>)
    decreases |b|
  {
    if a == [] then true
    else if b == [] then false
    else (a[0] == b[0] && IsSubsequence(a[1..], b[1..])) || IsSubsequence(a, b[1..])
  }

  /** With the filter 'all' the page shows every row. */
  lemma {:induction false} FilterAllKeepsEverything(rows: seq<Row>)
    ensures Filtered(rows, AllFilter) == rows
  {
    if rows != [] {
      FilterAllKeepsEverything(rows[1..]);
      assert rows == [rows[0]] + rows[1..];
    }
  }

  /** Any other filter keeps exactly the rows whose status has that name, in
      their order: the rows shown are a subsequence of the listing, each
      shown row matches, and every matching row is shown. */
  lemma {:induction false} FilteredIsMatchingSubsequence(rows: seq<Row>, filter: string)
    ensures IsSubsequence(Filtered(rows, filter), rows)
    ensures forall r :: r in Filtered(rows, filter) ==> r in rows && Keep(r, filter)
    ensures forall r :: r in rows && Keep(r, filter) ==> r in Filtered(rows, filter)
    ensures filter != AllFilter ==> Filtered(rows, filter) == WithStatus(rows, filter)
  {
    if rows != [] {
      FilteredIsMatchingSubsequence(rows[1..], filter);
      var rest := Filtered(rows[1..], filter);
      if Keep(rows[0], filter) {
        assert Filtered(rows, filter) == [rows[0]] + rest;
        assert ([rows[0]] + rest)[1..] == rest;
      } else {
        assert Filtered(rows, filter) == rest;
        SubsequenceOfTail(rest, rows);
      }
      forall r | r in rows && Keep(r, filter) ensures r in Filtered(rows, filter) {
        if r != rows[0] {
          assert r in rows[1..];
        }
      }
    }
  }

  lemma {:induction false} SubsequenceOfTail(a: seq<Row>, b: seq<Row>)
    requires b != [] && IsSubsequence(a, b[1..])
    ensures IsSubsequence(a, b)
  {
  }

  /** The three status counters add up to the total: every row has one of
      the three statuses. */
  lemma {:induction false} CountersAddUp(rows: seq<Row>)
    ensures StatsOf(rows).pending + StatsOf(rows).verified + StatsOf(rows).submitted == StatsOf(rows).total
  {
    if rows != [] {
      CountersAddUp(rows[1..]);
    }
  }

  /** Under a status filter the page shows as many rows as that status's
      counter says. */
  lemma FilteredCountIsCounter(rows: seq<Row>, s: Status)
    ensures |Filtered(rows, StatusName(s))| == CountOf(StatsOf(rows), s)
  {
    FilteredIsMatchingSubsequence(rows, StatusName(s));
  }

  /** Status names are compared, not statuses; since no two statuses share
      a name, a status filter shows exactly the rows with that status. */
  lemma StatusFilterSelectsStatus(rows: seq<Row>, s: Status)
    ensures forall r :: r in Filtered(rows, StatusName(s)) <==> r in rows && r.payment.status == s
  {
    FilteredIsMatchingSubsequence(rows, StatusName(s));
    forall r | r in rows
      ensures Keep(r, StatusName(s)) <==> r.payment.status == s
    {
      StatusNameInjective(r.payment.status, s);
    }
  }

  /** A filter that is neither 'all' nor a status name shows nothing. */
  lemma {:induction false} UnknownFilterShowsNothing(rows: seq<Row>, filter: string)
    requires filter != AllFilter && forall s: Status :: StatusName(s) != filter
    ensures Filtered(rows, filter) == []
  {
    if rows != [] {
      UnknownFilterShowsNothing(rows[1..], filter);
      assert !Keep(rows[0], filter);
    }
  }
}
