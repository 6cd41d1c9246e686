/** Batched embedding: slices, retries, and responses that arrive in any order. */
module Embedding {
  import opened Wrappers
  import opened Sorting

  const BATCH_SIZE := 100
  const MAX_ATTEMPTS := 3

  type Vector = seq<real>

  datatype Tagged = Tagged(index: int, vector: Vector)

  /** One call of the embedding endpoint. */
  datatype Attempt = Answer(data: seq<Tagged>) | Transient | Permanent

  datatype Result = Vectors(value: seq<Vector>) | BadDimension(got: nat) | CallFailed

  predicate ByIndex(a: Tagged, b: Tagged) {
    a.index <= b.index
  }

  lemma ByIndexIsTotal()
    ensures TotalPreorder(ByIndex)
  {
  }

  function VectorsOf(data: seq<Tagged>): (vs: seq<Vector>)
    ensures |vs| == |data|
    ensures forall i :: 0 <= i < |data| ==> vs[i] == data[i].vector
  {
    seq(|data|, i requires 0 <= i < |data| => data[i].vector)
  }

  /** Which of the attempts settles the batch: the first that is not transient, at most the third. */
  function Settles(attempts: nat -> Attempt, n: nat): (settling: nat)
    requires n < MAX_ATTEMPTS
    ensures n <= settling < MAX_ATTEMPTS
    ensures forall k: nat :: n <= k < settling ==> attempts(k).Transient?
    ensures attempts(settling).Transient? ==> settling == MAX_ATTEMPTS - 1
    decreases MAX_ATTEMPTS - n
  {
    if attempts(n).Transient? && n + 1 < MAX_ATTEMPTS then Settles(attempts, n + 1) else n
  }

  predicate WellSized(vs: seq<Vector>, dimensions: nat) {
    forall i :: 0 <= i < |vs| ==> |vs[i]| == dimensions
  }

  /** One batch: up to three attempts, then sort by index and validate. */
  method EmbedBatch(attempts: nat -> Attempt, dimensions: nat) returns (r: Result, calls: nat)
    ensures calls == Settles(attempts, 0) + 1
    ensures 1 <= calls <= 3 && forall k: nat :: k < calls - 1 ==> attempts(k).Transient?
    ensures attempts(calls - 1).Transient? ==> calls == 3
    ensures var a := attempts(calls - 1);
            if a.Answer? then
              var vs := VectorsOf(StableSort(a.data, ByIndex));
              if WellSized(vs, dimensions) then r == Vectors(vs)
              else r.BadDimension? && exists i :: 0 <= i < |vs| && |vs[i]| == r.got != dimensions
            else r == CallFailed
  {
    calls := 0;
    var a := attempts(0);
    while a.Transient? && calls + 1 < MAX_ATTEMPTS
      invariant calls < MAX_ATTEMPTS && a == attempts(calls)
      invariant Settles(attempts, calls) == Settles(attempts, 0)
      decreases MAX_ATTEMPTS - calls
    {
      calls := calls + 1;
      a := attempts(calls);
    }
    calls := calls + 1;
    if !a.Answer? {
      return CallFailed, calls;
    }
    var vs := VectorsOf(StableSort(a.data, ByIndex));
    for i := 0 to |vs|
      invariant forall k :: 0 <= k < i ==> |vs[k]| == dimensions
    {
      if |vs[i]| != dimensions {
        return BadDimension(|vs[i]|), calls;
      }
    }
    return Vectors(vs), calls;
  }

  // ---------------------------------------------------------------- permuted responses

  /** The texts of a batch, embedded and tagged in order. */
  function InOrder(texts: seq<string>, embed: string -> Vector): (data: seq<Tagged>)
    ensures |data| == |texts|
    ensures forall i :: 0 <= i < |texts| ==> data[i] == Tagged(i, embed(texts[i]))
  {
    seq(|texts|, i requires 0 <= i < |texts| => Tagged(i, embed(texts[i])))
  }

  /** Strictly ascending numbers below their count are 0, 1, 2, … */
  lemma {:induction false} AscendingIsIdentity(data: seq<Tagged>, i: nat)
    requires forall j, k :: 0 <= j < k < |data| ==> data[j].index < data[k].index
    requires forall j :: 0 <= j < |data| ==> 0 <= data[j].index < |data|
    requires i < |data|
    ensures data[i].index == i
  {
    IndexAtLeast(data, i);
    IndexAtMost(data, i);
  }

  lemma {:induction false} IndexAtLeast(data: seq<Tagged>, i: nat)
    requires forall j, k :: 0 <= j < k < |data| ==> data[j].index < data[k].index
    requires forall j :: 0 <= j < |data| ==> 0 <= data[j].index
    requires i < |data|
    ensures i <= data[i].index
  {
    if i > 0 {
      IndexAtLeast(data, i - 1);
    }
  }

  lemma {:induction false} IndexAtMost(data: seq<Tagged>, i: nat)
    requires forall j, k :: 0 <= j < k < |data| ==> data[j].index < data[k].index
    requires forall j :: 0 <= j < |data| ==> data[j].index < |data|
    requires i < |data|
    ensures data[i].index <= i
    decreases |data| - i
  {
    if i < |data| - 1 {
      IndexAtMost(data, i + 1);
    }
  }

  lemma Permuted(a: seq<Tagged>, b: seq<Tagged>)
    requires multiset(a) == multiset(b)
    ensures |a| == |b| && forall x :: x in a <==> x in b
  {
    assert |multiset(a)| == |a| && |multiset(b)| == |b|;
    forall x
      ensures x in a <==> x in b
    {
      assert x in multiset(a) <==> x in multiset(b);
    }
  }

  /** Sorting any permutation of a tagged batch restores the batch. */
  lemma SortRestores(texts: seq<string>, embed: string -> Vector, data: seq<Tagged>)
    requires multiset(data) == multiset(InOrder(texts, embed))
    ensures StableSort(data, ByIndex) == InOrder(texts, embed)
  {
    var sorted, ordered := StableSort(data, ByIndex), InOrder(texts, embed);
    ByIndexIsTotal();
    SortSorts(data, ByIndex);
    SortPermutes(data, ByIndex);
    Permuted(sorted, ordered);
    forall j, k | 0 <= j < k < |sorted|
      ensures sorted[j].index < sorted[k].index
    {
      DistinctIndices(sorted, texts, embed, j, k);
      assert ByIndex(sorted[j], sorted[k]);
    }
    forall i | 0 <= i < |sorted|
      ensures sorted[i] == ordered[i]
    {
      assert sorted[i] in ordered;
      assert forall j :: 0 <= j < |sorted| ==> sorted[j] in ordered;
      AscendingIsIdentity(sorted, i);
    }
  }

  lemma DistinctIndices(sorted: seq<Tagged>, texts: seq<string>, embed: string -> Vector, j: nat, k: nat)
    requires multiset(sorted) == multiset(InOrder(texts, embed)) && j < k < |sorted|
    ensures sorted[j].index != sorted[k].index
  {
    var ordered := InOrder(texts, embed);
    Permuted(sorted, ordered);
    assert sorted[j] in ordered && sorted[k] in ordered;
    assert sorted[j] == ordered[sorted[j].index] && sorted[k] == ordered[sorted[k].index];
    OnlyOnce(ordered, sorted[j].index);
    TwicePresent(sorted, j, k);
  }

  lemma TwicePresent(data: seq<Tagged>, j: nat, k: nat)
    requires j < k < |data|
    ensures data[j] == data[k] ==> multiset(data)[data[j]] >= 2
  {
    assert data == data[..j] + [data[j]] + data[j + 1..k] + [data[k]] + data[k + 1..];
  }

  lemma OnlyOnce(ordered: seq<Tagged>, i: nat)
    requires i < |ordered| && forall k :: 0 <= k < |ordered| ==> ordered[k].index == k
    ensures multiset(ordered)[ordered[i]] == 1
  {
    assert ordered == ordered[..i] + [ordered[i]] + ordered[i + 1..];
    assert ordered[i] !in ordered[..i] && ordered[i] !in ordered[i + 1..];
  }

  // ---------------------------------------------------------------- all batches

  function EmbedAll(texts: seq<string>, embed: string -> Vector): (vs: seq<Vector>)
    ensures |vs| == |texts|
    ensures forall i :: 0 <= i < |texts| ==> vs[i] == embed(texts[i])
  {
    seq(|texts|, i requires 0 <= i < |texts| => embed(texts[i]))
  }

  /** Batches start at the multiples of the batch size. */
  predicate BatchStart(n: nat, start: nat) {
    start < n && start % BATCH_SIZE == 0
  }

  function BatchAt(texts: seq<string>, start: nat): seq<string>
    requires start <= |texts|
  {
    texts[start..Min(start + BATCH_SIZE, |texts|)]
  }

  /** What a batch contributes; None when it fails. */
  function BatchVectors(attempts: nat -> Attempt, dimensions: nat): Option<seq<Vector>> {
    var a := attempts(Settles(attempts, 0));
    if a.Answer? && WellSized(VectorsOf(StableSort(a.data, ByIndex)), dimensions)
    then Some(VectorsOf(StableSort(a.data, ByIndex))) else None
  }

  /** The batches from `start` on, joined in order; None when any of them fails. */
  function Joined(n: nat, calls: nat -> (nat -> Attempt), dimensions: nat, start: nat): Option<seq<Vector>>
    decreases n - start
  {
    if start >= n then Some([])
    else Prepend(BatchVectors(calls(start), dimensions), Joined(n, calls, dimensions, start + BATCH_SIZE))
  }

  function Prepend(a: Option<seq<Vector>>, b: Option<seq<Vector>>): Option<seq<Vector>> {
    if a.Some? && b.Some? then Some(a.value + b.value) else None
  }

  lemma PrependNothing(b: Option<seq<Vector>>)
    ensures Prepend(Some([]), b) == b
  {
    if b.Some? {
      assert [] + b.value == b.value;
    }
  }

  lemma PrependTwice(flat: seq<Vector>, a: Option<seq<Vector>>, b: Option<seq<Vector>>)
    ensures Prepend(Some(flat), Prepend(a, b))
         == if a.None? then None else Prepend(Some(flat + a.value), b)
  {
    if a.Some? && b.Some? {
      assert flat + (a.value + b.value) == (flat + a.value) + b.value;
    }
  }

  /** `calls(start)` are the endpoint's answers for the batch that starts there. Whatever the
      number of texts, a faithful endpoint makes this the map of the embedder over them. */
  method EmbedTexts(texts: seq<string>, calls: nat -> (nat -> Attempt), dimensions: nat)
      returns (r: Result, batches: nat)
    ensures r.Vectors? ==> batches == (|texts| + 99) / 100
    ensures var joined := Joined(|texts|, calls, dimensions, 0);
            if joined.Some? then r == Vectors(joined.value) else !r.Vectors?
    ensures forall embed | Faithful(texts, calls, embed, dimensions) :: r == Vectors(EmbedAll(texts, embed))
  {
    var start, flat := 0, [];
    batches := 0;
    r := Vectors([]);
    PrependNothing(Joined(|texts|, calls, dimensions, 0));
    while start < |texts|
      invariant start == Min(batches * BATCH_SIZE, |texts|)
      invariant start < |texts| ==> BatchStart(|texts|, start)
      invariant batches > 0 ==> (batches - 1) * BATCH_SIZE < |texts|
      invariant r == Vectors(flat)
      invariant Joined(|texts|, calls, dimensions, 0)
             == Prepend(Some(flat), Joined(|texts|, calls, dimensions, start))
      invariant forall embed | Faithful(texts, calls, embed, dimensions) :: flat == EmbedAll(texts[..start], embed)
      decreases |texts| - start
    {
      var more, n := EmbedBatch(calls(start), dimensions);
      PrependTwice(flat, BatchVectors(calls(start), dimensions),
                   Joined(|texts|, calls, dimensions, start + BATCH_SIZE));
      ghost var end := Min(start + BATCH_SIZE, |texts|);
      forall embed | Faithful(texts, calls, embed, dimensions)
        ensures more == Vectors(EmbedAll(BatchAt(texts, start), embed))
        ensures flat + EmbedAll(BatchAt(texts, start), embed) == EmbedAll(texts[..end], embed)
      {
        BatchIsFaithful(texts, calls, embed, dimensions, start);
        PrefixGrows(texts, embed, start);
      }
      if !more.Vectors? {
        return more, batches;
      }
      flat := flat + more.value;
      r := Vectors(flat);
      start := if start + BATCH_SIZE < |texts| then start + BATCH_SIZE else |texts|;
      batches := batches + 1;
    }
    assert texts[..start] == texts;
  }

  /** Every batch is eventually answered with some permutation of its embedded texts. */
  ghost predicate Faithful(texts: seq<string>, calls: nat -> (nat -> Attempt), embed: string -> Vector,
                           dimensions: nat) {
    && (forall i :: 0 <= i < |texts| ==> |embed(texts[i])| == dimensions)
    && forall start: nat :: BatchStart(|texts|, start) ==> Answered(calls(start), BatchAt(texts, start), embed)
  }

  ghost predicate Answered(attempts: nat -> Attempt, batch: seq<string>, embed: string -> Vector) {
    var a := attempts(Settles(attempts, 0));
    a.Answer? && multiset(a.data) == multiset(InOrder(batch, embed))
  }

  lemma BatchIsFaithful(texts: seq<string>, calls: nat -> (nat -> Attempt), embed: string -> Vector,
                        dimensions: nat, start: nat)
    requires Faithful(texts, calls, embed, dimensions) && BatchStart(|texts|, start)
    ensures var a := calls(start)(Settles(calls(start), 0));
            && a.Answer?
            && VectorsOf(StableSort(a.data, ByIndex)) == EmbedAll(BatchAt(texts, start), embed)
            && WellSized(EmbedAll(BatchAt(texts, start), embed), dimensions)
  {
    var batch := BatchAt(texts, start);
    assert Answered(calls(start), batch, embed);
    assert forall i :: 0 <= i < |batch| ==> batch[i] == texts[start + i];
    SortRestores(batch, embed, calls(start)(Settles(calls(start), 0)).data);
  }

  lemma PrefixGrows(texts: seq<string>, embed: string -> Vector, start: nat)
    requires start <= |texts|
    ensures EmbedAll(texts[..start], embed) + EmbedAll(BatchAt(texts, start), embed)
         == EmbedAll(texts[..Min(start + BATCH_SIZE, |texts|)], embed)
  {
    assert texts[..start] + BatchAt(texts, start) == texts[..Min(start + BATCH_SIZE, |texts|)];
  }

  // ---------------------------------------------------------------- answers of another length

  /** How many items the answer that settles a batch holds; nothing compares it with the batch. */
  function Items(attempts: nat -> Attempt): nat {
    var a := attempts(Settles(attempts, 0));
    if a.Answer? then |a.data| else 0
  }

  /** A batch yields one vector per item of its answer, so one per text exactly when they are as many. */
  lemma BatchLength(attempts: nat -> Attempt, batch: seq<string>, dimensions: nat)
    requires BatchVectors(attempts, dimensions).Some?
    ensures |BatchVectors(attempts, dimensions).value| == |batch| <==> Items(attempts) == |batch|
    ensures |BatchVectors(attempts, dimensions).value| == Items(attempts)
  {
    var data := attempts(Settles(attempts, 0)).data;
    SortPermutes(data, ByIndex);
    Permuted(StableSort(data, ByIndex), data);
  }

  /** One text, an answer without items: no vector and no error. */
  lemma EmptyAnswerLosesText(calls: nat -> (nat -> Attempt), dimensions: nat)
    requires calls(0)(0) == Answer([])
    ensures Joined(1, calls, dimensions, 0) == Some([])
  {
    assert Settles(calls(0), 0) == 0;
    assert StableSort([], ByIndex) == [];
    assert BatchVectors(calls(0), dimensions) == Some([]);
    PrependNothing(Joined(1, calls, dimensions, BATCH_SIZE));
  }

  /** Every answer from batch `start` on has one item per text. */
  ghost predicate AsLong(texts: seq<string>, calls: nat -> (nat -> Attempt), start: nat) {
    forall k: nat :: start <= k && BatchStart(|texts|, k) ==> Items(calls(k)) == |BatchAt(texts, k)|
  }

  /** Every batch from `start` on yields the embedder's vectors of its texts. */
  ghost predicate EachBatchMaps(texts: seq<string>, calls: nat -> (nat -> Attempt), embed: string -> Vector,
                                dimensions: nat, start: nat) {
    forall k: nat :: start <= k && BatchStart(|texts|, k) ==>
      BatchVectors(calls(k), dimensions) == Some(EmbedAll(BatchAt(texts, k), embed))
  }

  function Rest(texts: seq<string>, start: nat): seq<string> {
    texts[Min(start, |texts|)..]
  }

  lemma RestSplits(texts: seq<string>, embed: string -> Vector, start: nat)
    requires start < |texts|
    ensures EmbedAll(Rest(texts, start), embed)
         == EmbedAll(BatchAt(texts, start), embed) + EmbedAll(Rest(texts, start + BATCH_SIZE), embed)
  {
    assert Rest(texts, start) == BatchAt(texts, start) + Rest(texts, start + BATCH_SIZE);
  }

  lemma SplitEqual(a: seq<Vector>, b: seq<Vector>, c: seq<Vector>, d: seq<Vector>)
    requires |a| == |c|
    ensures a + b == c + d <==> a == c && b == d
  {
    if a + b == c + d {
      assert a == (a + b)[..|a|] && b == (a + b)[|a|..];
      assert c == (c + d)[..|c|] && d == (c + d)[|c|..];
    }
  }

  /** A start that is not below the next batch is this one. */
  lemma NextBatch(n: nat, start: nat, k: nat)
    requires start % BATCH_SIZE == 0 && start <= k && BatchStart(n, k)
    ensures k == start || start + BATCH_SIZE <= k
  {
  }

  lemma {:induction false} RestIsMapIff(texts: seq<string>, calls: nat -> (nat -> Attempt), embed: string -> Vector,
                                        dimensions: nat, start: nat)
    requires start % BATCH_SIZE == 0
    ensures Joined(|texts|, calls, dimensions, start) == Some(EmbedAll(Rest(texts, start), embed))
            && AsLong(texts, calls, start)
       <==> EachBatchMaps(texts, calls, embed, dimensions, start)
    decreases |texts| - start
  {
    if start < |texts| {
      RestIsMapIff(texts, calls, embed, dimensions, start + BATCH_SIZE);
      forall k: nat | start <= k && BatchStart(|texts|, k)
        ensures k == start || start + BATCH_SIZE <= k
      {
        NextBatch(|texts|, start, k);
      }
      BatchStep(texts, calls, embed, dimensions, start);
    } else {
      assert EmbedAll(Rest(texts, start), embed) == [];
    }
  }

  lemma BatchStep(texts: seq<string>, calls: nat -> (nat -> Attempt), embed: string -> Vector,
                  dimensions: nat, start: nat)
    requires BatchStart(|texts|, start)
    ensures var rest := Joined(|texts|, calls, dimensions, start + BATCH_SIZE);
            var batch := BatchAt(texts, start);
            (Joined(|texts|, calls, dimensions, start) == Some(EmbedAll(Rest(texts, start), embed))
             && Items(calls(start)) == |batch|)
            <==> (BatchVectors(calls(start), dimensions) == Some(EmbedAll(batch, embed))
                  && rest == Some(EmbedAll(Rest(texts, start + BATCH_SIZE), embed)))
  {
    var here, rest := BatchVectors(calls(start), dimensions), Joined(|texts|, calls, dimensions, start + BATCH_SIZE);
    var batch := BatchAt(texts, start);
    RestSplits(texts, embed, start);
    if here.Some? && rest.Some? {
      BatchLength(calls(start), batch, dimensions);
      if |here.value| == |batch| {
        SplitEqual(here.value, rest.value, EmbedAll(batch, embed), EmbedAll(Rest(texts, start + BATCH_SIZE), embed));
      }
    }
  }

  /** The texts' vectors come back in order from answers as long as their batches exactly when each
      batch's settling answer sorts into the embedder's vectors of that batch. */
  lemma AlignedIffEachBatchIs(texts: seq<string>, calls: nat -> (nat -> Attempt), embed: string -> Vector,
                              dimensions: nat)
    ensures Joined(|texts|, calls, dimensions, 0) == Some(EmbedAll(texts, embed)) && AsLong(texts, calls, 0)
       <==> EachBatchMaps(texts, calls, embed, dimensions, 0)
  {
    assert Rest(texts, 0) == texts;
    RestIsMapIff(texts, calls, embed, dimensions, 0);
  }

  /** How many items the settling answers from batch `start` on hold together. */
  function Total(n: nat, calls: nat -> (nat -> Attempt), start: nat): nat
    decreases n - start
  {
    if start >= n then 0 else Items(calls(start)) + Total(n, calls, start + BATCH_SIZE)
  }

  /** As many vectors come back as the settling answers hold items, whatever the number of texts. */
  lemma {:induction false} LengthIsTotal(texts: seq<string>, calls: nat -> (nat -> Attempt), dimensions: nat,
                                         start: nat)
    requires Joined(|texts|, calls, dimensions, start).Some?
    ensures |Joined(|texts|, calls, dimensions, start).value| == Total(|texts|, calls, start)
    decreases |texts| - start
  {
    if start < |texts| {
      LengthIsTotal(texts, calls, dimensions, start + BATCH_SIZE);
      BatchLength(calls(start), BatchAt(texts, start), dimensions);
    }
  }

  /** No answer from batch `start` on has more items than its batch has texts, or none has fewer. */
  ghost predicate OneSided(texts: seq<string>, calls: nat -> (nat -> Attempt), start: nat) {
    || (forall k: nat :: start <= k && BatchStart(|texts|, k) ==> Items(calls(k)) <= |BatchAt(texts, k)|)
    || (forall k: nat :: start <= k && BatchStart(|texts|, k) ==> Items(calls(k)) >= |BatchAt(texts, k)|)
  }

  lemma TotalStep(texts: seq<string>, calls: nat -> (nat -> Attempt), start: nat)
    requires BatchStart(|texts|, start)
    ensures |Rest(texts, start)| == |BatchAt(texts, start)| + |Rest(texts, start + BATCH_SIZE)|
    ensures forall k: nat :: start <= k && BatchStart(|texts|, k) ==> k == start || start + BATCH_SIZE <= k
  {
    forall k: nat | start <= k && BatchStart(|texts|, k)
      ensures k == start || start + BATCH_SIZE <= k
    {
      NextBatch(|texts|, start, k);
    }
  }

  lemma {:induction false} TotalBounded(texts: seq<string>, calls: nat -> (nat -> Attempt), start: nat)
    requires start % BATCH_SIZE == 0
    ensures (forall k: nat :: start <= k && BatchStart(|texts|, k) ==> Items(calls(k)) <= |BatchAt(texts, k)|) ==>
              && Total(|texts|, calls, start) <= |Rest(texts, start)|
              && (Total(|texts|, calls, start) == |Rest(texts, start)| ==> AsLong(texts, calls, start))
    ensures (forall k: nat :: start <= k && BatchStart(|texts|, k) ==> Items(calls(k)) >= |BatchAt(texts, k)|) ==>
              && Total(|texts|, calls, start) >= |Rest(texts, start)|
              && (Total(|texts|, calls, start) == |Rest(texts, start)| ==> AsLong(texts, calls, start))
    ensures AsLong(texts, calls, start) ==> Total(|texts|, calls, start) == |Rest(texts, start)|
    decreases |texts| - start
  {
    if start < |texts| {
      assert BatchStart(|texts|, start);
      TotalBounded(texts, calls, start + BATCH_SIZE);
      TotalStep(texts, calls, start);
    }
  }

  /** One vector per text comes back exactly when the settling answers hold as many items as there are texts;
      when they err on one side only, exactly when each is as long as its batch. */
  lemma LengthKeptIff(texts: seq<string>, calls: nat -> (nat -> Attempt), dimensions: nat)
    requires Joined(|texts|, calls, dimensions, 0).Some?
    ensures |Joined(|texts|, calls, dimensions, 0).value| == |texts| <==> Total(|texts|, calls, 0) == |texts|
    ensures OneSided(texts, calls, 0) ==>
              (|Joined(|texts|, calls, dimensions, 0).value| == |texts| <==> AsLong(texts, calls, 0))
  {
    LengthIsTotal(texts, calls, dimensions, 0);
    TotalBounded(texts, calls, 0);
    assert Rest(texts, 0) == texts;
  }
}
