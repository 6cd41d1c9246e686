/** Paged extraction of a query result. */
module Paging {
  import opened Wrappers

  datatype Document<Row> = Document(row: Row, rowIndex: nat)

  /** LIMIT and OFFSET on a result in some order. */
  function Page<Row>(result: seq<Row>, limit: nat, offset: nat): seq<Row> {
    if offset >= |result| then [] else result[offset..Min(offset + limit, |result|)]
  }

  function Numbered<Row>(rows: seq<Row>): (docs: seq<Document<Row>>)
    ensures |docs| == |rows|
    ensures forall i :: 0 <= i < |rows| ==> docs[i] == Document(rows[i], i)
  {
    seq(|rows|, i requires 0 <= i < |rows| => Document(rows[i], i))
  }

  /** `result(k)` is the whole result in the order the database produces it for query `k`; no
      ORDER BY is added, so orders may differ between queries. */
  ghost predicate SameLength<Row>(result: nat -> seq<Row>, n: nat) {
    forall k: nat :: HasLength(result, k, n)
  }

  ghost predicate HasLength<Row>(result: nat -> seq<Row>, k: nat, n: nat) {
    |result(k)| == n
  }

  /** The rows fetched from query `k` on. */
  function Fetched<Row>(result: nat -> seq<Row>, n: nat, pageSize: nat, k: nat, offset: nat): seq<Row>
    decreases n - offset
  {
    var page := Page(result(k), pageSize, offset);
    if page == [] || pageSize == 0 || offset >= n then []
    else page + (if |page| < pageSize then [] else Fetched(result, n, pageSize, k + 1, offset + pageSize))
  }

  method AppendPage<Row>(docs: seq<Document<Row>>, ghost rows: seq<Row>, page: seq<Row>)
      returns (more: seq<Document<Row>>)
    requires docs == Numbered(rows)
    ensures more == Numbered(rows + page)
  {
    var rowIndex := |docs|;
    more := docs;
    for i := 0 to |page|
      invariant rowIndex == |more| == |rows| + i
      invariant forall k :: 0 <= k < |rows| + i ==> more[k] == Document((rows + page)[k], k)
    {
      more := more + [Document(page[i], rowIndex)];
      rowIndex := rowIndex + 1;
    }
  }

  /** The loop: page after page until one comes back short. A negative limit is refused by the
      database. The number of queries is one more than the number of full pages. */
  method ExtractDocuments<Row>(result: nat -> seq<Row>, ghost n: nat, pageSize: int)
      returns (docs: seq<Document<Row>>, queries: nat, failed: bool)
    requires SameLength(result, n)
    ensures failed <==> pageSize < 0
    ensures failed ==> docs == [] && queries == 1
    ensures !failed ==> docs == Numbered(Fetched(result, n, pageSize, 0, 0))
    ensures queries >= 1 && (pageSize >= 1 ==> (queries - 1) * pageSize <= n < queries * pageSize)
  {
    if pageSize < 0 {
      return [], 1, true;
    }
    docs, queries, failed := [], 0, false;
    var offset := 0;
    ghost var rows: seq<Row> := [];
    ghost var all := Fetched(result, n, pageSize, 0, 0);
    while true
      invariant docs == Numbered(rows)
      invariant offset == Steps(queries, pageSize) && offset <= n
      invariant rows + Fetched(result, n, pageSize, queries, offset) == all
      decreases n - offset
    {
      var page := Page(result(queries), pageSize, offset);
      OnePage(result, n, pageSize, queries, offset, rows);
      queries := queries + 1;
      if page == [] {
        break;
      }
      docs := AppendPage(docs, rows, page);
      rows := rows + page;
      offset := offset + pageSize;
      if |page| < pageSize {
        break;
      }
    }
    StepsIsProduct(queries - 1, pageSize);
    StepsIsProduct(queries, pageSize);
  }

  /** One turn of the loop. */
  lemma OnePage<Row>(result: nat -> seq<Row>, n: nat, pageSize: nat, k: nat, offset: nat, rows: seq<Row>)
    requires SameLength(result, n) && offset <= n
    ensures var page := Page(result(k), pageSize, offset);
            && |page| == (if offset >= n then 0 else Min(pageSize, n - offset))
            && rows + Fetched(result, n, pageSize, k, offset)
               == if page == [] then rows
                  else if |page| < pageSize then rows + page
                  else (rows + page) + Fetched(result, n, pageSize, k + 1, offset + pageSize)
  {
    assert HasLength(result, k, n);
  }

  /** The offset after `q` pages: `q * p`. */
  function Steps(q: nat, p: nat): nat {
    if q == 0 then 0 else Steps(q - 1, p) + p
  }

  lemma {:induction false} StepsIsProduct(q: nat, p: nat)
    ensures Steps(q, p) == q * p
  {
    if q > 0 {
      StepsIsProduct(q - 1, p);
    }
  }

  /** With one order throughout, paging fetches the rest of the result. */
  lemma {:induction false} StablePagesAreTheResult<Row>(
      result: nat -> seq<Row>, table: seq<Row>, pageSize: nat, k: nat, offset: nat)
    requires pageSize >= 1 && offset <= |table| && forall j: nat :: result(j) == table
    ensures Fetched(result, |table|, pageSize, k, offset) == table[offset..]
    decreases |table| - offset
  {
    if offset < |table| && offset + pageSize <= |table| {
      StablePagesAreTheResult(result, table, pageSize, k + 1, offset + pageSize);
    }
  }

  /** Every row exactly once, numbered by position, for every page size of at least one; a page
      size of zero extracts everything only from an empty result. */
  lemma PagingIsExactIff<Row>(result: nat -> seq<Row>, table: seq<Row>, pageSize: nat)
    requires forall j: nat :: result(j) == table
    ensures Numbered(Fetched(result, |table|, pageSize, 0, 0)) == Numbered(table) <==> pageSize >= 1 || table == []
  {
    if pageSize >= 1 {
      StablePagesAreTheResult(result, table, pageSize, 0, 0);
      assert table[0..] == table;
    }
  }

  /** Without a fixed order a row can be fetched twice and another one never. */
  lemma UnstableOrderLosesRows()
    ensures exists result: nat -> seq<int> :: SameLength(result, 2)
              && (forall k: nat :: multiset(result(k)) == multiset{1, 2})
              && Fetched(result, 2, 1, 0, 0) == [1, 1]
  {
    var result: nat -> seq<int> := k => if k == 0 then [1, 2] else [2, 1];
    assert Page(result(0), 1, 0) == [1] && Page(result(1), 1, 1) == [1];
    assert Fetched(result, 2, 1, 2, 2) == [];
    assert Fetched(result, 2, 1, 1, 1) == [1];
    assert Fetched(result, 2, 1, 0, 0) == [1] + [1];
  }
}
