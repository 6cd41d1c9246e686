/** Gap-filled daily series and the attention list of the dashboard. */
module Analytics {
  import opened Wrappers
  import opened Sorting

  // ---------------------------------------------------------------- daily series

  /** Days are ordinals. One entry per day from `start` to `end`, both included. */
  method DaySeries(start: int, end: int) returns (days: seq<int>)
    ensures |days| == Max(0, end - start + 1)
    ensures forall i :: 0 <= i < |days| ==> days[i] == start + i
  {
    days := [];
    var cur := start;
    while cur <= end
      invariant cur == start + |days| && (cur <= end + 1 || days == [])
      invariant forall i :: 0 <= i < |days| ==> days[i] == start + i
    {
      days := days + [cur];
      cur := cur + 1;
    }
  }

  /** A grouped row, or an entry of the series: the counters of one day. */
  datatype Row = Row(day: int, counts: seq<nat>)

  /** Grouping yields one row per day, with `width` counters each. */
  predicate Grouped(rows: seq<Row>, width: nat) {
    && (forall i, j :: 0 <= i < j < |rows| ==> rows[i].day != rows[j].day)
    && (forall i :: 0 <= i < |rows| ==> |rows[i].counts| == width)
  }

  function Zeros(width: nat): seq<nat> {
    seq(width, _ => 0)
  }

  /** The counters of `day`: those of its row, or zeros. */
  function CountsOn(rows: seq<Row>, day: int, width: nat): seq<nat> {
    if rows == [] then Zeros(width)
    else
      var last := rows[|rows| - 1];
      if last.day == day then last.counts else CountsOn(rows[..|rows| - 1], day, width)
  }

  /** chat_volume_daily, feedback_trend_daily and sync_activity_daily, once their rows are in. */
  method FillGaps(rows: seq<Row>, start: int, end: int, width: nat) returns (filled: seq<Row>)
    requires Grouped(rows, width)
    ensures filled == Series(rows, start, Max(0, end - start + 1), width)
  {
    var seen: map<int, seq<nat>> := map[];
    for i := 0 to |rows|
      invariant forall day :: CountsOn(rows[..i], day, width) == if day in seen then seen[day] else Zeros(width)
    {
      assert rows[..i + 1][..i] == rows[..i];
      seen := seen[rows[i].day := rows[i].counts];
    }
    assert rows[..|rows|] == rows;
    var days := DaySeries(start, end);
    filled := [];
    for i := 0 to |days|
      invariant |filled| == i
      invariant forall k :: 0 <= k < i ==> filled[k] == Row(start + k, CountsOn(rows, start + k, width))
    {
      filled := filled + [Row(days[i], if days[i] in seen then seen[days[i]] else Zeros(width))];
    }
  }

  function Counter(r: Row, c: nat): nat {
    if c < |r.counts| then r.counts[c] else 0
  }

  /** The total of counter `c`. */
  function Total(rows: seq<Row>, c: nat): nat {
    if rows == [] then 0 else Total(rows[..|rows| - 1], c) + Counter(rows[|rows| - 1], c)
  }

  predicate InRange(r: Row, start: int, n: nat) {
    start <= r.day < start + n
  }

  /** The part of the total that falls on the `n` days from `start`. */
  function TotalWithin(rows: seq<Row>, c: nat, start: int, n: nat): nat {
    if rows == [] then 0
    else
      var last := rows[|rows| - 1];
      TotalWithin(rows[..|rows| - 1], c, start, n) + (if InRange(last, start, n) then Counter(last, c) else 0)
  }

  /** The filled series of `n` days. */
  function Series(rows: seq<Row>, start: int, n: nat, width: nat): (s: seq<Row>)
    ensures |s| == n && forall i :: 0 <= i < n ==> s[i] == Row(start + i, CountsOn(rows, start + i, width))
  {
    seq(n, i requires 0 <= i < n => Row(start + i, CountsOn(rows, start + i, width)))
  }

  lemma {:induction false} NoRowNoCounts(rows: seq<Row>, day: int, width: nat)
    requires forall i :: 0 <= i < |rows| ==> rows[i].day != day
    ensures CountsOn(rows, day, width) == Zeros(width)
  {
    if rows != [] {
      NoRowNoCounts(rows[..|rows| - 1], day, width);
    }
  }

  /** One more row adds its counters to its day, and to no other. */
  lemma {:induction false} OneMoreRow(rows: seq<Row>, r: Row, start: int, n: nat, width: nat, c: nat)
    requires Grouped(rows + [r], width) && Grouped(rows, width) && c < width
    ensures Total(Series(rows + [r], start, n, width), c)
         == Total(Series(rows, start, n, width), c) + (if InRange(r, start, n) then Counter(r, c) else 0)
    decreases n
  {
    if n > 0 {
      var more, less := Series(rows + [r], start, n, width), Series(rows, start, n, width);
      assert more[..n - 1] == Series(rows + [r], start, n - 1, width);
      assert less[..n - 1] == Series(rows, start, n - 1, width);
      OneMoreRow(rows, r, start, n - 1, width, c);
      assert (rows + [r])[..|rows|] == rows;
      if r.day == start + n - 1 {
        forall i | 0 <= i < |rows|
          ensures rows[i].day != r.day
        {
          assert (rows + [r])[i] == rows[i] && (rows + [r])[|rows|] == r;
        }
        NoRowNoCounts(rows, r.day, width);
      }
    }
  }

  lemma {:induction false} SeriesTotal(rows: seq<Row>, start: int, n: nat, width: nat, c: nat)
    requires Grouped(rows, width) && c < width
    ensures Total(Series(rows, start, n, width), c) == TotalWithin(rows, c, start, n)
  {
    if rows == [] {
      EmptySeries(start, n, width, c);
    } else {
      var before, last := rows[..|rows| - 1], rows[|rows| - 1];
      assert rows == before + [last];
      SeriesTotal(before, start, n, width, c);
      OneMoreRow(before, last, start, n, width, c);
    }
  }

  lemma {:induction false} EmptySeries(start: int, n: nat, width: nat, c: nat)
    requires c < width
    ensures Total(Series([], start, n, width), c) == 0
  {
    if n > 0 {
      assert Series([], start, n, width)[..n - 1] == Series([], start, n - 1, width);
      EmptySeries(start, n - 1, width, c);
    }
  }

  lemma {:induction false} WithinIffInRange(rows: seq<Row>, c: nat, start: int, n: nat)
    ensures TotalWithin(rows, c, start, n) <= Total(rows, c)
    ensures TotalWithin(rows, c, start, n) == Total(rows, c)
       <==> forall i :: 0 <= i < |rows| ==> InRange(rows[i], start, n) || Counter(rows[i], c) == 0
  {
    if rows != [] {
      var before, last := rows[..|rows| - 1], rows[|rows| - 1];
      WithinIffInRange(before, c, start, n);
      assert forall i :: 0 <= i < |before| ==> before[i] == rows[i];
    }
  }

  /** Gap filling conserves the total of a counter exactly when every row that counts something
      falls on a day of the series; it never adds anything. */
  lemma GapFillConserves(rows: seq<Row>, start: int, end: int, width: nat, c: nat)
    requires Grouped(rows, width) && c < width
    ensures var filled := Series(rows, start, Max(0, end - start + 1), width);
            && Total(filled, c) <= Total(rows, c)
            && (Total(filled, c) == Total(rows, c)
                <==> forall i :: 0 <= i < |rows| ==> start <= rows[i].day <= end || Counter(rows[i], c) == 0)
  {
    var n := Max(0, end - start + 1);
    SeriesTotal(rows, start, n, width, c);
    WithinIffInRange(rows, c, start, n);
    assert forall i :: 0 <= i < |rows| ==> (InRange(rows[i], start, n) <==> start <= rows[i].day <= end);
  }

  // ---------------------------------------------------------------- the attention list

  datatype Kind = Connection | Sync | Study

  /** A failing source of one kind, and when it failed if that is known. */
  datatype Failing = Failing(source: int, at: Option<int>)

  datatype Item = Item(source: int, kind: Kind, at: Option<int>)

  /** Newest first, unknown times last; ties are possible. */
  predicate Leq(a: Item, b: Item) {
    b.at.None? || (a.at.Some? && a.at.value >= b.at.value)
  }

  lemma LeqIsTotal()
    ensures TotalPreorder(Leq)
  {
  }

  /** The whole list, before it is cut. */
  function Ranked(items: seq<Item>): seq<Item> {
    StableSort(items, Leq)
  }

  /** The items that failed at `t`, in order; None selects those whose time is unknown. */
  function FailedAt(items: seq<Item>, t: Option<int>): seq<Item> {
    if items == [] then []
    else (if items[0].at == t then [items[0]] else []) + FailedAt(items[1..], t)
  }

  /** Items tie exactly when their times agree. */
  lemma {:induction false} TiesAgree(items: seq<Item>, x: Item)
    ensures Alike(items, x, Leq) == FailedAt(items, x.at)
  {
    if items != [] {
      TiesAgree(items[1..], x);
    }
  }

  /** No item that comes earlier is older than one that comes later, known times come first. */
  predicate NewestFirst(items: seq<Item>) {
    forall i, j :: 0 <= i < j < |items| && items[j].at.Some? ==>
      items[i].at.Some? && items[i].at.value >= items[j].at.value
  }

  function SourcesOf(rows: seq<Failing>): set<int> {
    set r <- rows :: r.source
  }

  function Items(rows: seq<Failing>, kind: Kind, except: set<int>): seq<Item> {
    if rows == [] then []
    else
      var last := rows[|rows| - 1];
      Items(rows[..|rows| - 1], kind, except)
      + (if last.source in except then [] else [Item(last.source, kind, last.at)])
  }

  /** One item per failing source, under the first kind it fails in. */
  function Merged(conn: seq<Failing>, sync: seq<Failing>, study: seq<Failing>): seq<Item> {
    Items(conn, Connection, {}) + Items(sync, Sync, SourcesOf(conn))
    + Items(study, Study, SourcesOf(conn) + SourcesOf(sync))
  }

  /** The database returns each source at most once per kind. */
  predicate OncePerSource(rows: seq<Failing>) {
    forall i, j :: 0 <= i < j < |rows| ==> rows[i].source != rows[j].source
  }

  /** The slice `[:limit]`: a negative limit counts from the end. */
  function Trim<T>(s: seq<T>, limit: int): seq<T> {
    s[..if limit >= 0 then Min(limit, |s|) else Max(0, |s| + limit)]
  }

  /** One row more of its kind. */
  lemma NextItem(rows: seq<Failing>, kind: Kind, except: set<int>, i: nat)
    requires OncePerSource(rows) && i < |rows|
    ensures Items(rows[..i + 1], kind, except)
         == Items(rows[..i], kind, except)
            + (if rows[i].source in except then [] else [Item(rows[i].source, kind, rows[i].at)])
    ensures SourcesOf(rows[..i + 1]) == SourcesOf(rows[..i]) + {rows[i].source}
    ensures rows[i].source !in SourcesOf(rows[..i])
  {
    assert rows[..i + 1][..i] == rows[..i];
    assert rows[..i + 1] == rows[..i] + [rows[i]];
  }

  /** Append the rows of one kind, skipping what is already listed. */
  method AppendKind(items: seq<Item>, listed: set<int>, rows: seq<Failing>, kind: Kind)
      returns (more: seq<Item>, listed': set<int>)
    requires OncePerSource(rows)
    ensures more == items + Items(rows, kind, listed)
    ensures listed' == listed + SourcesOf(rows)
  {
    more, listed' := items, listed;
    for i := 0 to |rows|
      invariant more == items + Items(rows[..i], kind, listed)
      invariant listed' == listed + SourcesOf(rows[..i])
    {
      NextItem(rows, kind, listed, i);
      hide Items, SourcesOf, OncePerSource;
      if rows[i].source !in listed' {
        more := more + [Item(rows[i].source, kind, rows[i].at)];
      }
      listed' := listed' + {rows[i].source};
    }
    assert rows[..|rows|] == rows;
  }

  method NeedsAttention(conn: seq<Failing>, sync: seq<Failing>, study: seq<Failing>, limit: int)
      returns (items: seq<Item>)
    requires OncePerSource(conn) && OncePerSource(sync) && OncePerSource(study)
    ensures items == Trim(Ranked(Merged(conn, sync, study)), limit)
    ensures NewestFirst(items)
  {
    var listed: set<int> := {};
    items, listed := AppendKind([], listed, conn, Connection);
    assert listed == SourcesOf(conn);
    items, listed := AppendKind(items, listed, sync, Sync);
    items, listed := AppendKind(items, listed, study, Study);
    assert items == Merged(conn, sync, study);
    AttentionListIsRanked(items, limit);
    items := Trim(Ranked(items), limit);
  }

  /** Items of one kind: exactly its sources that are not excluded, each once. */
  lemma {:induction false} ItemsFacts(rows: seq<Failing>, kind: Kind, except: set<int>)
    requires OncePerSource(rows)
    ensures var items := Items(rows, kind, except);
            && Unique(items)
            && (forall x :: x in items <==>
                  x.kind == kind && x.source !in except && Failing(x.source, x.at) in rows)
  {
    if rows != [] {
      var before, last := rows[..|rows| - 1], rows[|rows| - 1];
      ItemsFacts(before, kind, except);
      assert rows == before + [last];
      var items := Items(before, kind, except);
      forall i | 0 <= i < |items|
        ensures items[i].source != last.source
      {
        assert items[i] in items;
        var k :| 0 <= k < |before| && before[k] == Failing(items[i].source, items[i].at);
        assert rows[k] == before[k];
      }
    }
  }

  predicate Unique(items: seq<Item>) {
    forall i, j :: 0 <= i < j < |items| ==> items[i].source != items[j].source
  }

  lemma UniqueConcat(a: seq<Item>, b: seq<Item>)
    requires Unique(a) && Unique(b) && forall x, y :: x in a && y in b ==> x.source != y.source
    ensures Unique(a + b)
  {
    forall i, j | 0 <= i < j < |a + b|
      ensures (a + b)[i].source != (a + b)[j].source
    {
      if i < |a| <= j {
        assert a[i] in a && b[j - |a|] in b;
      }
    }
  }

  /** The kind a failing source is listed under: the first of connection, sync, study. */
  predicate Listed(x: Item, conn: seq<Failing>, sync: seq<Failing>, study: seq<Failing>) {
    match x.kind
    case Connection => Failing(x.source, x.at) in conn
    case Sync => Failing(x.source, x.at) in sync && x.source !in SourcesOf(conn)
    case Study => Failing(x.source, x.at) in study && x.source !in SourcesOf(conn) + SourcesOf(sync)
  }

  lemma MergedFacts(conn: seq<Failing>, sync: seq<Failing>, study: seq<Failing>)
    requires OncePerSource(conn) && OncePerSource(sync) && OncePerSource(study)
    ensures Unique(Merged(conn, sync, study))
    ensures forall x :: x in Merged(conn, sync, study) <==> Listed(x, conn, sync, study)
  {
    var a, b, c := Items(conn, Connection, {}), Items(sync, Sync, SourcesOf(conn)),
                   Items(study, Study, SourcesOf(conn) + SourcesOf(sync));
    ItemsFacts(conn, Connection, {});
    ItemsFacts(sync, Sync, SourcesOf(conn));
    ItemsFacts(study, Study, SourcesOf(conn) + SourcesOf(sync));
    UniqueConcat(a, b);
    UniqueConcat(a + b, c);
  }

  lemma UniqueAfterSort(s: seq<Item>, r: seq<Item>)
    requires multiset(s) == multiset(r) && Unique(s)
    ensures Unique(r)
  {
    forall i, j | 0 <= i < j < |r|
      ensures r[i].source != r[j].source
    {
      if r[i].source == r[j].source {
        TwiceInMultiset(r, i, j);
        AtMostOnce(s, r[i], r[j]);
      }
    }
  }

  lemma TwiceInMultiset(r: seq<Item>, i: nat, j: nat)
    requires i < j < |r|
    ensures r[i] in multiset(r) && r[j] in multiset(r)
    ensures r[i] == r[j] ==> multiset(r)[r[i]] >= 2
  {
    assert r == r[..i] + [r[i]] + r[i + 1..j] + [r[j]] + r[j + 1..];
  }

  /** Two items of one source are the same item, listed once. */
  lemma {:induction false} AtMostOnce(s: seq<Item>, x: Item, y: Item)
    requires Unique(s) && x.source == y.source
    ensures x in s && y in s ==> x == y
    ensures multiset(s)[x] <= 1
  {
    if s != [] {
      assert s == [s[0]] + s[1..];
      AtMostOnce(s[1..], x, y);
      if s[0].source == x.source {
        forall k | 0 <= k < |s[1..]|
          ensures s[1..][k].source != x.source
        {
          assert s[1..][k] == s[k + 1];
        }
        assert x !in s[1..] && y !in s[1..];
        assert multiset(s[1..])[x] == 0;
      }
    }
  }

  lemma TrimIsPrefix(s: seq<Item>, limit: int)
    ensures Trim(s, limit) <= s
    ensures |Trim(s, limit)| == if limit >= 0 then Min(limit, |s|) else Max(0, |s| + limit)
  {
  }

  lemma PrefixOfUnique(s: seq<Item>, p: seq<Item>)
    requires Unique(s) && p <= s
    ensures Unique(p)
  {
    assert forall i :: 0 <= i < |p| ==> p[i] == s[i];
  }

  lemma SameMembers(s: seq<Item>, r: seq<Item>, x: Item)
    requires multiset(s) == multiset(r)
    ensures x in s <==> x in r
  {
    assert x in multiset(s) <==> x in multiset(r);
  }

  /** The list shows each source at most once, under its first failing kind; every failing source
      is shown or dropped. */
  lemma AttentionListsEachSourceOnce(conn: seq<Failing>, sync: seq<Failing>, study: seq<Failing>, limit: int)
    requires OncePerSource(conn) && OncePerSource(sync) && OncePerSource(study)
    ensures var ranked := Ranked(Merged(conn, sync, study));
            && Unique(Trim(ranked, limit))
            && |Trim(ranked, limit)| == (if limit >= 0 then Min(limit, |ranked|) else Max(0, |ranked| + limit))
            && forall x :: x in ranked <==> Listed(x, conn, sync, study)
  {
    var merged, ranked := Merged(conn, sync, study), Ranked(Merged(conn, sync, study));
    MergedFacts(conn, sync, study);
    SortPermutes(merged, Leq);
    UniqueAfterSort(merged, ranked);
    TrimIsPrefix(ranked, limit);
    PrefixOfUnique(ranked, Trim(ranked, limit));
    forall x
      ensures x in ranked <==> x in merged
    {
      SameMembers(merged, ranked, x);
    }
  }

  /** However many sources fail, the list is newest first: a known time never follows an unknown one, and
      of two known times the later one comes first. Whatever is dropped is no newer than anything shown,
      an unknown time is shown only when no known one is dropped, and items of equal time keep the order
      of the three queries. */
  lemma AttentionListIsRanked(merged: seq<Item>, limit: int)
    ensures var ranked := Ranked(merged);
            var shown := Trim(ranked, limit);
            && shown <= ranked && multiset(ranked) == multiset(merged)
            && NewestFirst(shown)
            && (forall i, j :: 0 <= i < |shown| <= j < |ranked| && shown[i].at.Some? && ranked[j].at.Some? ==>
                  shown[i].at.value >= ranked[j].at.value)
            && ((exists i :: 0 <= i < |shown| && shown[i].at.None?) ==>
                  forall j :: |shown| <= j < |ranked| ==> ranked[j].at.None?)
            && (forall t :: FailedAt(ranked, t) == FailedAt(merged, t))
  {
    var ranked := Ranked(merged);
    LeqIsTotal();
    SortSorts(merged, Leq);
    SortPermutes(merged, Leq);
    TrimIsPrefix(ranked, limit);
    assert forall i, j :: 0 <= i < j < |ranked| ==> Leq(ranked[i], ranked[j]);
    forall t
      ensures FailedAt(ranked, t) == FailedAt(merged, t)
    {
      var x := Item(0, Connection, t);
      SortIsStable(merged, x, Leq);
      TiesAgree(merged, x);
      TiesAgree(ranked, x);
    }
  }

  lemma {:induction false} FailedAtMembers(items: seq<Item>, x: Item)
    ensures x in FailedAt(items, x.at) <==> x in items
    ensures forall y :: y in FailedAt(items, x.at) ==> y in items
  {
    if items != [] {
      FailedAtMembers(items[1..], x);
      assert items == [items[0]] + items[1..];
    }
  }

  /** The head of one list is no older than the head of the other, which is one of its items. */
  lemma HeadIsNewest(a: seq<Item>, b: seq<Item>)
    requires NewestFirst(a) && a != [] && forall t :: FailedAt(a, t) == FailedAt(b, t)
    ensures b != [] && b[0] in a
    ensures b[0].at.Some? ==> a[0].at.Some? && a[0].at.value >= b[0].at.value
  {
    FailedAtMembers(a, a[0]);
    FailedAtMembers(b, a[0]);
    assert FailedAt(a, a[0].at) == FailedAt(b, a[0].at);
    FailedAtMembers(a, b[0]);
    FailedAtMembers(b, b[0]);
    assert FailedAt(a, b[0].at) == FailedAt(b, b[0].at);
    var i :| 0 <= i < |a| && a[i] == b[0];
  }

  lemma FailedAtTail(items: seq<Item>, t: Option<int>)
    requires items != []
    ensures items[0].at == t ==> FailedAt(items, t) == [items[0]] + FailedAt(items[1..], t)
    ensures FailedAt(items[1..], t) == FailedAt(items, t)[if items[0].at == t then 1 else 0..]
  {
  }

  /** These facts leave one order only. */
  lemma {:induction false} RankingIsUnique(a: seq<Item>, b: seq<Item>)
    requires NewestFirst(a) && NewestFirst(b) && forall t :: FailedAt(a, t) == FailedAt(b, t)
    ensures a == b
  {
    if a == [] || b == [] {
      if a != [] {
        HeadIsNewest(a, b);
      } else if b != [] {
        HeadIsNewest(b, a);
      }
    } else {
      HeadIsNewest(a, b);
      HeadIsNewest(b, a);
      assert FailedAt(a, a[0].at) == FailedAt(b, a[0].at);
      assert a[0] == FailedAt(a, a[0].at)[0] && b[0] == FailedAt(b, a[0].at)[0];
      forall t
        ensures FailedAt(a[1..], t) == FailedAt(b[1..], t)
      {
        assert FailedAt(a, t) == FailedAt(b, t);
        FailedAtTail(a, t);
        FailedAtTail(b, t);
      }
      assert NewestFirst(a[1..]) && NewestFirst(b[1..]);
      RankingIsUnique(a[1..], b[1..]);
    }
  }
}
