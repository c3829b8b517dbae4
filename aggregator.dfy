/** The tables plot_data builds for one month, leaving the charts out, and the list of months the
    page offers: filter by month, group by a column, sum, sort descending, keep the top ten. */
module Aggregator {
  import opened Wrappers
  import opened Json
  import opened Normalizer

  /** The columns rows are grouped or listed by. */
  datatype Key = ByModel | ByUser | ByMonth

  /** The columns summed. */
  datatype Measure = Tokens | Cost

  /** One row of an aggregate table: a model or user and its summed value. */
  datatype Entry = Entry(name: string, total: real)

  /** The size of the two model rankings (head(10)). */
  const TopN: nat := 10

  /** The label of the trailing row of the user table. */
  const TotalLabel: string := "Total"

  function KeyOf(r: Row, k: Key): string {
    match k
    case ByModel => r.model
    case ByUser => r.user
    case ByMonth => r.month
  }

  function ValueOf(r: Row, m: Measure): real {
    match m
    case Tokens => r.totalTokens as real
    case Cost => r.totalCost
  }

  predicate Distinct<T(==)>(s: seq<T>) {
    forall i, j :: 0 <= i < j < |s| ==> s[i] != s[j]
  }

  /** data[data["month"] == month]: the rows of one month, in their order, every copy kept. */
  function MonthRows(rows: seq<Row>, month: string): (r: seq<Row>)
    ensures |r| <= |rows|
    ensures forall x :: x in r <==> x in rows && x.month == month
  {
    if rows == [] then []
    else
      var init := MonthRows(rows[..|rows| - 1], month);
      var last := rows[|rows| - 1];
      assert rows == rows[..|rows| - 1] + [last];
      if last.month == month then init + [last] else init
  }

  /** The filter drops no copy: a row of the month occurs in the month's rows exactly as often
      as in the batch, so repeated records count once each in every sum. */
  lemma {:induction false} MonthRowsCopies(rows: seq<Row>, month: string)
    ensures forall x :: multiset(MonthRows(rows, month))[x] == if x.month == month then multiset(rows)[x] else 0
  {
    if rows != [] {
      var init := rows[..|rows| - 1];
      var last := rows[|rows| - 1];
      MonthRowsCopies(init, month);
      assert rows == init + [last];
      assert multiset(rows) == multiset(init) + multiset{last};
    }
  }

  /** The distinct values of a column, in order of first appearance, as Series.unique lists them.
      groupby sorts its keys instead; the tables built from them are sorted by value afterwards,
      so only the set of keys matters there. */
  function Names(rows: seq<Row>, k: Key): (r: seq<string>)
    ensures Distinct(r)
    ensures forall n :: n in r <==> exists i :: 0 <= i < |rows| && KeyOf(rows[i], k) == n
  {
    if rows == [] then []
    else
      var init := rows[..|rows| - 1];
      var prev := Names(init, k);
      var n := KeyOf(rows[|rows| - 1], k);
      assert forall i :: 0 <= i < |init| ==> init[i] == rows[i];
      if n in prev then prev else prev + [n]
  }

  /** groupby(k)[m].sum() at one group: the sum of m over the rows whose k is `name`. */
  function SumFor(rows: seq<Row>, k: Key, name: string, m: Measure): real {
    if rows == [] then 0.0
    else
      SumFor(rows[..|rows| - 1], k, name, m)
        + (if KeyOf(rows[|rows| - 1], k) == name then ValueOf(rows[|rows| - 1], m) else 0.0)
  }

  /** The sum of m over all rows. */
  function Total(rows: seq<Row>, m: Measure): real {
    if rows == [] then 0.0 else Total(rows[..|rows| - 1], m) + ValueOf(rows[|rows| - 1], m)
  }

  /** One entry per name, holding that group's sum. */
  function GroupEntries(rows: seq<Row>, k: Key, m: Measure, names: seq<string>): (r: seq<Entry>)
    ensures |r| == |names|
    ensures forall i :: 0 <= i < |r| ==> r[i] == Entry(names[i], SumFor(rows, k, names[i], m))
  {
    if names == [] then []
    else [Entry(names[0], SumFor(rows, k, names[0], m))] + GroupEntries(rows, k, m, names[1..])
  }

  /** groupby(k)[m].sum().reset_index(). */
  function Groups(rows: seq<Row>, k: Key, m: Measure): (r: seq<Entry>)
    ensures DistinctNames(r)
    ensures forall q :: 0 <= q < |r| ==> r[q].name in Names(rows, k) && r[q].total == SumFor(rows, k, r[q].name, m)
    ensures forall n :: n in Names(rows, k) ==> exists q :: 0 <= q < |r| && r[q] == Entry(n, SumFor(rows, k, n, m))
  {
    GroupEntries(rows, k, m, Names(rows, k))
  }

  predicate SortedDesc(s: seq<Entry>) {
    forall i, j :: 0 <= i < j < |s| ==> s[i].total >= s[j].total
  }

  predicate DistinctNames(s: seq<Entry>) {
    forall i, j :: 0 <= i < j < |s| ==> s[i].name != s[j].name
  }

  function SumEntries(s: seq<Entry>): real {
    if s == [] then 0.0 else s[0].total + SumEntries(s[1..])
  }

  lemma {:induction false} SumEntriesAppend(a: seq<Entry>, b: seq<Entry>)
    ensures SumEntries(a + b) == SumEntries(a) + SumEntries(b)
  {
    if a == [] {
      assert a + b == b;
    } else {
      assert (a + b)[1..] == a[1..] + b;
      SumEntriesAppend(a[1..], b);
    }
  }

  /** Where an entry of total t goes in a descending sequence: after every larger total. */
  function Position(s: seq<Entry>, t: real): (p: nat)
    ensures p <= |s|
    ensures forall i :: 0 <= i < p ==> s[i].total > t
    ensures p < |s| ==> s[p].total <= t
  {
    if s == [] then 0 else if s[0].total <= t then 0 else 1 + Position(s[1..], t)
  }

  /** Insert e into a descending sequence, keeping it descending. */
  function Insert(e: Entry, s: seq<Entry>): (r: seq<Entry>)
    requires SortedDesc(s)
    ensures SortedDesc(r)
    ensures multiset(r) == multiset(s) + multiset{e}
    ensures SumEntries(r) == SumEntries(s) + e.total
    ensures DistinctNames(s) && (forall i :: 0 <= i < |s| ==> s[i].name != e.name) ==> DistinctNames(r)
  {
    var p := Position(s, e.total);
    InsertAt(e, s, p);
    s[..p] + [e] + s[p..]
  }

  /** Putting e at its position keeps the order, the elements, the sum and distinct names. */
  lemma InsertAt(e: Entry, s: seq<Entry>, p: nat)
    requires SortedDesc(s) && p == Position(s, e.total)
    ensures SortedDesc(s[..p] + [e] + s[p..])
    ensures multiset(s[..p] + [e] + s[p..]) == multiset(s) + multiset{e}
    ensures SumEntries(s[..p] + [e] + s[p..]) == SumEntries(s) + e.total
    ensures DistinctNames(s) && (forall i :: 0 <= i < |s| ==> s[i].name != e.name) ==>
              DistinctNames(s[..p] + [e] + s[p..])
  {
    InsertSorted(e, s, p);
    InsertSum(e, s, p);
    InsertMultiset(e, s, p);
    InsertDistinct(e, s, p);
  }

  lemma InsertMultiset(e: Entry, s: seq<Entry>, p: nat)
    requires p <= |s|
    ensures multiset(s[..p] + [e] + s[p..]) == multiset(s) + multiset{e}
  {
    assert s == s[..p] + s[p..];
  }

  lemma InsertSorted(e: Entry, s: seq<Entry>, p: nat)
    requires SortedDesc(s) && p == Position(s, e.total)
    ensures SortedDesc(s[..p] + [e] + s[p..])
  {
    var r := s[..p] + [e] + s[p..];
    assert forall i :: 0 <= i < |r| ==> r[i] == if i < p then s[i] else if i == p then e else s[i - 1];
    forall i, j | 0 <= i < j < |r| ensures r[i].total >= r[j].total {
      if j == p {
        assert r[i] == s[i];
      } else if i == p {
        assert r[j] == s[j - 1] && s[p].total <= e.total;
        assert p == j - 1 || s[p].total >= s[j - 1].total;
      }
    }
  }

  lemma InsertSum(e: Entry, s: seq<Entry>, p: nat)
    requires p <= |s|
    ensures SumEntries(s[..p] + [e] + s[p..]) == SumEntries(s) + e.total
  {
    assert s == s[..p] + s[p..];
    SumEntriesAppend(s[..p] + [e], s[p..]);
    SumEntriesAppend(s[..p], [e]);
    SumEntriesAppend(s[..p], s[p..]);
    assert SumEntries([e]) == e.total by { assert [e][1..] == []; }
  }

  lemma InsertDistinct(e: Entry, s: seq<Entry>, p: nat)
    requires p <= |s|
    ensures DistinctNames(s) && (forall i :: 0 <= i < |s| ==> s[i].name != e.name) ==>
              DistinctNames(s[..p] + [e] + s[p..])
  {
    if DistinctNames(s) && (forall i :: 0 <= i < |s| ==> s[i].name != e.name) {
      var r := s[..p] + [e] + s[p..];
      assert forall i :: 0 <= i < |r| ==> r[i] == if i < p then s[i] else if i == p then e else s[i - 1];
    }
  }

  /** A permutation of the tail of a sequence with distinct names holds no entry named like its head. */
  lemma HeadNameFresh(s: seq<Entry>, rest: seq<Entry>)
    requires s != [] && multiset(rest) == multiset(s[1..])
    ensures DistinctNames(s) ==> forall i :: 0 <= i < |rest| ==> rest[i].name != s[0].name
  {
    if DistinctNames(s) {
      forall i | 0 <= i < |rest| ensures rest[i].name != s[0].name {
        assert rest[i] in multiset(s[1..]);
        var j :| 0 <= j < |s[1..]| && s[1..][j] == rest[i];
        assert s[j + 1] == rest[i];
      }
    }
  }

  /** sort_values(ascending=False): a descending permutation. Ties keep no particular order. */
  function SortDesc(s: seq<Entry>): (r: seq<Entry>)
    ensures SortedDesc(r)
    ensures multiset(r) == multiset(s) && |r| == |s|
    ensures SumEntries(r) == SumEntries(s)
    ensures DistinctNames(s) ==> DistinctNames(r)
  {
    if s == [] then []
    else
      var rest := SortDesc(s[1..]);
      HeadNameFresh(s, rest);
      var r := Insert(s[0], rest);
      SortStep(s, rest, r);
      r
  }

  /** Inserting the head into a sorted permutation of the tail gives a permutation of the whole,
      with the same sum. */
  lemma SortStep(s: seq<Entry>, rest: seq<Entry>, r: seq<Entry>)
    requires s != [] && multiset(rest) == multiset(s[1..]) && SumEntries(rest) == SumEntries(s[1..])
    requires multiset(r) == multiset(rest) + multiset{s[0]} && SumEntries(r) == SumEntries(rest) + s[0].total
    ensures multiset(r) == multiset(s) && |r| == |s| && SumEntries(r) == SumEntries(s)
  {
    assert s == [s[0]] + s[1..];
    assert |multiset(r)| == |r|;
  }

  /** head(n). */
  function Top(s: seq<Entry>, n: nat): (r: seq<Entry>)
    ensures |r| == if |s| < n then |s| else n
    ensures r == s[..|r|]
  {
    if |s| < n then s else s[..n]
  }

  /** The model ranking of plot_data for one measure: group by model, sum, sort descending,
      keep ten. */
  function ModelRanking(rows: seq<Row>, m: Measure): (r: seq<Entry>)
    ensures |r| <= TopN && SortedDesc(r)
  {
    Top(SortDesc(Groups(rows, ByModel, m)), TopN)
  }

  /** The user table of plot_data: cost per user, descending, then a "Total" row holding the sum
      of the users' sums. */
  function UserCosts(rows: seq<Row>): (r: seq<Entry>)
    ensures |r| >= 1 && r[|r| - 1].name == TotalLabel && SortedDesc(r[..|r| - 1])
  {
    var users := SortDesc(Groups(rows, ByUser, Cost));
    users + [Entry(TotalLabel, SumEntries(users))]
  }

  /** The three tables plot_data shows for a month. */
  datatype Tables = Tables(modelTokens: seq<Entry>, modelCost: seq<Entry>, userCost: seq<Entry>)

  datatype QueryError = NoDataForMonth(month: string)

  /** plot_data without the charts: no tables when the month has no rows, otherwise the three
      tables built from that month's rows alone. */
  function Query(rows: seq<Row>, month: string): (r: Result<Tables, QueryError>)
    ensures r.Failure? ==> r.error == NoDataForMonth(month)
    ensures r.Success? ==> |r.value.modelTokens| <= TopN && |r.value.modelCost| <= TopN
    ensures r.Success? ==> r.value.userCost != [] && r.value.userCost[|r.value.userCost| - 1].name == TotalLabel
  {
    var monthRows := MonthRows(rows, month);
    if monthRows == [] then Failure(NoDataForMonth(month))
    else Success(Tables(ModelRanking(monthRows, Tokens), ModelRanking(monthRows, Cost), UserCosts(monthRows)))
  }

  /** The month list offered for selection, processed_data["month"].unique(), for a batch with
      at least one row. */
  function Months(rows: seq<Row>): (r: seq<string>)
    ensures Distinct(r)
    ensures forall m :: m in r <==> exists i :: 0 <= i < |rows| && rows[i].month == m
  {
    Names(rows, ByMonth)
  }

  datatype ColumnError = MissingColumn(column: string)

  /** The month list exactly as main builds it: a batch with no rows becomes a DataFrame without
      columns, and selecting its "month" column raises KeyError. */
  function MonthsAsWritten(rows: seq<Row>): (r: Result<seq<string>, ColumnError>)
    ensures r.Failure? ==> rows == [] && r.error == MissingColumn("month")
    ensures r.Success? ==> Distinct(r.value)
  {
    if rows == [] then Failure(MissingColumn("month")) else Success(Months(rows))
  }

  // ---------------------------------------------------------------------------------------
  // Properties of the aggregates
  // ---------------------------------------------------------------------------------------

  lemma {:induction false} ZeroSums(k: Key, m: Measure, names: seq<string>)
    ensures SumEntries(GroupEntries([], k, m, names)) == 0.0
    decreases |names|
  {
    if names != [] {
      ZeroSums(k, m, names[1..]);
    }
  }

  /** Adding a row adds its value to exactly the group of its key, if that key is listed. */
  lemma {:induction false} GroupEntriesStep(rows: seq<Row>, r: Row, k: Key, m: Measure, names: seq<string>)
    requires Distinct(names)
    ensures SumEntries(GroupEntries(rows + [r], k, m, names))
         == SumEntries(GroupEntries(rows, k, m, names)) + (if KeyOf(r, k) in names then ValueOf(r, m) else 0.0)
    decreases |names|
  {
    if names != [] {
      assert Distinct(names[1..]) by {
        assert forall i :: 0 <= i < |names| - 1 ==> names[1..][i] == names[i + 1];
      }
      GroupEntriesStep(rows, r, k, m, names[1..]);
      assert (rows + [r])[..|rows|] == rows;
      assert KeyOf(r, k) == names[0] ==> KeyOf(r, k) !in names[1..];
      assert KeyOf(r, k) in names <==> KeyOf(r, k) == names[0] || KeyOf(r, k) in names[1..];
    }
  }

  lemma {:induction false} GroupTotalsOver(rows: seq<Row>, k: Key, m: Measure, names: seq<string>)
    requires Distinct(names)
    requires forall i :: 0 <= i < |rows| ==> KeyOf(rows[i], k) in names
    ensures SumEntries(GroupEntries(rows, k, m, names)) == Total(rows, m)
    decreases |rows|
  {
    if rows == [] {
      ZeroSums(k, m, names);
    } else {
      var init, last := rows[..|rows| - 1], rows[|rows| - 1];
      GroupTotalsOver(init, k, m, names);
      GroupEntriesStep(init, last, k, m, names);
      assert init + [last] == rows;
    }
  }

  /** Grouping loses nothing: the group sums add up to the sum over all rows. */
  lemma GroupTotals(rows: seq<Row>, k: Key, m: Measure)
    ensures SumEntries(Groups(rows, k, m)) == Total(rows, m)
  {
    GroupTotalsOver(rows, k, m, Names(rows, k));
  }

  /** The sorted groups: one entry per distinct key, each holding its group's sum, descending. */
  lemma SortedGroups(rows: seq<Row>, k: Key, m: Measure)
    ensures var s := SortDesc(Groups(rows, k, m));
            var names := Names(rows, k);
      && |s| == |names| && SortedDesc(s) && DistinctNames(s)
      && (forall i :: 0 <= i < |s| ==> s[i].name in names && s[i].total == SumFor(rows, k, s[i].name, m))
      && (forall n :: n in names ==> exists q :: 0 <= q < |s| && s[q] == Entry(n, SumFor(rows, k, n, m)))
  {
    var g := Groups(rows, k, m);
    assert DistinctNames(g);
    SortedGroupsSound(rows, k, m, SortDesc(g));
    SortedGroupsComplete(rows, k, m, SortDesc(g));
  }

  lemma SortedGroupsSound(rows: seq<Row>, k: Key, m: Measure, s: seq<Entry>)
    requires s == SortDesc(Groups(rows, k, m))
    ensures forall i :: 0 <= i < |s| ==> s[i].name in Names(rows, k) && s[i].total == SumFor(rows, k, s[i].name, m)
  {
    var g := Groups(rows, k, m);
    forall i | 0 <= i < |s|
      ensures s[i].name in Names(rows, k) && s[i].total == SumFor(rows, k, s[i].name, m)
    {
      assert s[i] in multiset(g);
      var j :| 0 <= j < |g| && g[j] == s[i];
    }
  }

  lemma SortedGroupsComplete(rows: seq<Row>, k: Key, m: Measure, s: seq<Entry>)
    requires s == SortDesc(Groups(rows, k, m))
    ensures forall n :: n in Names(rows, k) ==> exists q :: 0 <= q < |s| && s[q] == Entry(n, SumFor(rows, k, n, m))
  {
    var g := Groups(rows, k, m);
    var names := Names(rows, k);
    forall n | n in names
      ensures exists q :: 0 <= q < |s| && s[q] == Entry(n, SumFor(rows, k, n, m))
    {
      var j :| 0 <= j < |names| && names[j] == n;
      assert g[j] == Entry(n, SumFor(rows, k, n, m));
      assert g[j] in multiset(s);
      var q :| 0 <= q < |s| && s[q] == g[j];
    }
  }

  /** No entry of the table is named n. */
  predicate Omitted(t: seq<Entry>, n: string) {
    forall j :: 0 <= j < |t| ==> t[j].name != n
  }

  /** A prefix of a descending table with distinct names is one too, and no entry past the
      prefix is larger than an entry in it. */
  lemma TopKeepsOrder(s: seq<Entry>, n: nat)
    requires SortedDesc(s) && DistinctNames(s)
    ensures SortedDesc(Top(s, n)) && DistinctNames(Top(s, n))
    ensures forall q, i :: |Top(s, n)| <= q < |s| && 0 <= i < |Top(s, n)| ==> s[q].total <= Top(s, n)[i].total
  {
    var r := Top(s, n);
    assert forall i :: 0 <= i < |r| ==> r[i] == s[i];
  }

  /** An entry whose name the prefix lacks lies past the prefix. */
  lemma OmittedBeyond(s: seq<Entry>, n: nat, q: nat)
    requires q < |s| && Omitted(Top(s, n), s[q].name)
    ensures q >= |Top(s, n)|
  {
    var r := Top(s, n);
    assert forall j :: 0 <= j < |r| ==> r[j] == s[j];
  }

  /** The top-ten model ranking, for tokens and for cost: as many entries as there are models up
      to ten, each a model of the rows with its exact sum, no model twice, descending, and no
      omitted model summing to more than any model shown. */
  lemma ModelRankingSpec(rows: seq<Row>, m: Measure)
    ensures var r := ModelRanking(rows, m);
            var names := Names(rows, ByModel);
      && |r| == (if |names| < TopN then |names| else TopN)
      && SortedDesc(r) && DistinctNames(r)
      && (forall i :: 0 <= i < |r| ==> r[i].name in names && r[i].total == SumFor(rows, ByModel, r[i].name, m))
      && (forall n, i :: n in names && Omitted(r, n) && 0 <= i < |r| ==> SumFor(rows, ByModel, n, m) <= r[i].total)
  {
    var s := SortDesc(Groups(rows, ByModel, m));
    SortedGroups(rows, ByModel, m);
    TopKeepsOrder(s, TopN);
    RankingSound(rows, m, s);
    RankingDominates(rows, m, s);
  }

  lemma RankingSound(rows: seq<Row>, m: Measure, s: seq<Entry>)
    requires s == SortDesc(Groups(rows, ByModel, m))
    requires forall i :: 0 <= i < |s| ==> s[i].name in Names(rows, ByModel) && s[i].total == SumFor(rows, ByModel, s[i].name, m)
    ensures var r := Top(s, TopN);
      forall i :: 0 <= i < |r| ==> r[i].name in Names(rows, ByModel) && r[i].total == SumFor(rows, ByModel, r[i].name, m)
  {
    var r := Top(s, TopN);
    assert forall i :: 0 <= i < |r| ==> r[i] == s[i];
  }

  lemma RankingDominates(rows: seq<Row>, m: Measure, s: seq<Entry>)
    requires forall n :: n in Names(rows, ByModel) ==> exists q :: 0 <= q < |s| && s[q] == Entry(n, SumFor(rows, ByModel, n, m))
    requires SortedDesc(s) && DistinctNames(s)
    ensures var r := Top(s, TopN);
      forall n, i :: n in Names(rows, ByModel) && Omitted(r, n) && 0 <= i < |r| ==> SumFor(rows, ByModel, n, m) <= r[i].total
  {
    var r := Top(s, TopN);
    TopKeepsOrder(s, TopN);
    forall n, i | n in Names(rows, ByModel) && Omitted(r, n) && 0 <= i < |r|
      ensures SumFor(rows, ByModel, n, m) <= r[i].total
    {
      var q :| 0 <= q < |s| && s[q] == Entry(n, SumFor(rows, ByModel, n, m));
      OmittedBeyond(s, TopN, q);
    }
  }

  /** The user table: one entry per user of the rows with that user's exact cost, no user twice,
      descending, then exactly one "Total" entry holding the cost of all the rows. */
  lemma UserCostsSpec(rows: seq<Row>)
    ensures var t := UserCosts(rows);
            var users := Names(rows, ByUser);
            var body := t[..|t| - 1];
      && |t| == |users| + 1
      && t[|t| - 1] == Entry(TotalLabel, Total(rows, Cost))
      && SortedDesc(body) && DistinctNames(body)
      && (forall i :: 0 <= i < |body| ==> body[i].name in users && body[i].total == SumFor(rows, ByUser, body[i].name, Cost))
      && (forall u :: u in users ==> exists i :: 0 <= i < |body| && body[i] == Entry(u, SumFor(rows, ByUser, u, Cost)))
  {
    var s := SortDesc(Groups(rows, ByUser, Cost));
    SortedGroups(rows, ByUser, Cost);
    GroupTotals(rows, ByUser, Cost);
    assert UserCosts(rows)[..|UserCosts(rows)| - 1] == s;
  }

  /** A month without rows yields no tables and reports that month; any month with a row yields
      the tables. */
  lemma QueryNoData(rows: seq<Row>, month: string)
    ensures Query(rows, month).Failure? <==> forall i :: 0 <= i < |rows| ==> rows[i].month != month
    ensures Query(rows, month).Failure? ==> Query(rows, month).error == NoDataForMonth(month)
  {
    MonthRowsEmpty(rows, month);
  }


  lemma MonthRowsSnoc(x: seq<Row>, last: Row, month: string)
    ensures MonthRows(x + [last], month) == MonthRows(x, month) + (if last.month == month then [last] else [])
  {
    var y := x + [last];
    assert y[..|y| - 1] == x;
    assert y[|y| - 1] == last;
    assert MonthRows(x, month) + [] == MonthRows(x, month);
  }

  lemma {:induction false} MonthRowsAppend(a: seq<Row>, b: seq<Row>, month: string)
    ensures MonthRows(a + b, month) == MonthRows(a, month) + MonthRows(b, month)
    decreases |b|
  {
    if b == [] {
      assert a + b == a;
    } else {
      var init, last := b[..|b| - 1], b[|b| - 1];
      assert b == init + [last];
      assert a + b == (a + init) + [last];
      MonthRowsAppend(a, init, month);
      MonthRowsSnoc(a + init, last, month);
      MonthRowsSnoc(init, last, month);
      var ma, mi := MonthRows(a, month), MonthRows(init, month);
      var tail := if last.month == month then [last] else [];
      assert (ma + mi) + tail == ma + (mi + tail);
    }
  }

  lemma {:induction false} MonthRowsIdempotent(rows: seq<Row>, month: string)
    ensures MonthRows(MonthRows(rows, month), month) == MonthRows(rows, month)
    decreases |rows|
  {
    if rows != [] {
      var init, last := rows[..|rows| - 1], rows[|rows| - 1];
      MonthRowsIdempotent(init, month);
      if last.month == month {
        MonthRowsAppend(MonthRows(init, month), [last], month);
        assert [last][..0] == [];
        assert MonthRows([last], month) == [last];
      }
    }
  }

  /** Only the month's rows are aggregated: querying the month's rows alone gives the same answer. */
  lemma QueryOnlyMonth(rows: seq<Row>, month: string)
    ensures Query(rows, month) == Query(MonthRows(rows, month), month)
  {
    MonthRowsIdempotent(rows, month);
  }

  lemma {:induction false} MonthRowsNone(rows: seq<Row>, month: string)
    requires forall i :: 0 <= i < |rows| ==> rows[i].month != month
    ensures MonthRows(rows, month) == []
    decreases |rows|
  {
    if rows != [] {
      MonthRowsNone(rows[..|rows| - 1], month);
    }
  }

  /** Rows of other months change nothing about a month's tables. */
  lemma QueryIgnoresOtherMonths(rows: seq<Row>, others: seq<Row>, month: string)
    requires forall i :: 0 <= i < |others| ==> others[i].month != month
    ensures Query(rows + others, month) == Query(rows, month)
  {
    MonthRowsAppend(rows, others, month);
    MonthRowsNone(others, month);
    assert MonthRows(rows, month) + [] == MonthRows(rows, month);
  }

  /** The month list holds every row's month exactly once and nothing else. */
  lemma MonthsSpec(rows: seq<Row>)
    ensures Distinct(Months(rows))
    ensures forall m :: m in Months(rows) <==> exists i :: 0 <= i < |rows| && rows[i].month == m
    ensures rows == [] ==> Months(rows) == []
  {
  }

  /** Exactly the months on the list have data: selecting one never reports "no data". */
  lemma MonthsHaveData(rows: seq<Row>, month: string)
    ensures month in Months(rows) <==> Query(rows, month).Success?
  {
    QueryNoData(rows, month);
    MonthsSpec(rows);
  }

  lemma MonthRowsEmpty(rows: seq<Row>, month: string)
    ensures MonthRows(rows, month) == [] <==> forall i :: 0 <= i < |rows| ==> rows[i].month != month
  {
    var mr := MonthRows(rows, month);
    if mr != [] {
      assert mr[0] in mr;
    } else {
      forall i | 0 <= i < |rows| ensures rows[i].month != month {
        assert rows[i] in rows;
      }
    }
  }


  /** The month list as written fails exactly on a batch with no rows. */
  lemma MonthsAsWrittenFails(rows: seq<Row>)
    ensures MonthsAsWritten(rows).Failure? <==> rows == []
    ensures rows != [] ==> MonthsAsWritten(rows) == Success(Months(rows))
  {
  }

  /** An upload whose every record is skipped: the month list as written fails on it, while the
      corrected list is simply empty. */
  lemma AllSkippedUpload()
    ensures var b := Normalize([("alice@example.com", JArray([JNull]))]);
      && b.rows == []
      && b.skips == [InvalidRecord(JNull)]
      && MonthsAsWritten(b.rows) == Failure(MissingColumn("month"))
      && Months(b.rows) == []
  {
    var data := [("alice@example.com", JArray([JNull]))];
    assert data[..0] == [];
    assert GroupBatch("alice@example.com", [JNull]) == Batch([], [InvalidRecord(JNull)]) by {
      assert [JNull][..0] == [];
    }
  }

  lemma TwoRowTotal(rows: seq<Row>)
    requires rows == [Row("2024-11", "gpt-4", 10.0, "alice", 0), Row("2024-11", "gpt-4", 5.0, "bob", 0)]
    ensures Total(rows, Cost) == 15.0
  {
    assert rows[..1][..0] == [] && rows[..1] == [rows[0]];
    assert Total(rows[..1], Cost) == 10.0;
  }

  /** A month where alice spent 10 and bob 5: the user table ends with a Total of 15. */
  lemma UserCostsExample()
    ensures var rows := [Row("2024-11", "gpt-4", 10.0, "alice", 0), Row("2024-11", "gpt-4", 5.0, "bob", 0)];
      UserCosts(rows)[|UserCosts(rows)| - 1] == Entry(TotalLabel, 15.0)
  {
    var rows := [Row("2024-11", "gpt-4", 10.0, "alice", 0), Row("2024-11", "gpt-4", 5.0, "bob", 0)];
    GroupTotals(rows, ByUser, Cost);
    TwoRowTotal(rows);
  }
}
