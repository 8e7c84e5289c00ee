/**
 `co::forEach`: the partition of a random-access range over coroutines, and the workers that are
 fed through a `BufferedChannel`.
 */
module ForEachPartition {
  /** The half-open range [begin, end) of one coroutine. */
  datatype Slice = Slice(begin: nat, end: nat)

  function Min(a: nat, b: nat): nat { if a < b then a else b }

  /** Contiguous, ordered, nonempty slices from 0 to `s`. */
  ghost predicate Partitions(slices: seq<Slice>, s: nat) {
    && slices != []
    && slices[0].begin == 0
    && slices[|slices| - 1].end == s
    && (forall i | 0 <= i < |slices| :: slices[i].begin < slices[i].end)
    && (forall i | 0 < i < |slices| :: slices[i].begin == slices[i - 1].end)
  }

  ghost predicate Balanced(slices: seq<Slice>) {
    forall i, j | 0 <= i < |slices| && 0 <= j < |slices| ::
      slices[i].end - slices[i].begin <= slices[j].end - slices[j].begin + 1
  }

  /** Where the i-th slice begins: the first `r` slices have one item more than `q`. */
  function Bound(q: nat, r: nat, i: nat): nat {
    if i == 0 then 0 else Bound(q, r, i - 1) + q + if i <= r then 1 else 0
  }

  lemma {:induction false} BoundIs(q: nat, r: nat, i: nat)
    ensures Bound(q, r, i) == i * q + Min(i, r)
  {
    if i > 0 {
      BoundIs(q, r, i - 1);
      assert i * q == (i - 1) * q + q;
    }
  }

  /** `itemsPerCoro` and `remaining`. */
  method Divide(s: nat, coroCnt: nat) returns (itemsPerCoro: nat, remaining: nat)
    requires 0 < coroCnt <= s
    ensures itemsPerCoro > 0 && remaining < coroCnt
    ensures Bound(itemsPerCoro, remaining, coroCnt) == s
  {
    itemsPerCoro, remaining := s / coroCnt, s % coroCnt;
    BoundIs(itemsPerCoro, remaining, coroCnt);
    assert coroCnt * itemsPerCoro + remaining == s;
  }

  predicate SliceIs(slice: Slice, q: nat, r: nat, i: nat) { slice == Slice(Bound(q, r, i), Bound(q, r, i + 1)) }

  ghost predicate FollowsBounds(slices: seq<Slice>, q: nat, r: nat) {
    forall i | 0 <= i < |slices| :: SliceIs(slices[i], q, r, i)
  }

  lemma FollowsBoundsPartitions(slices: seq<Slice>, q: nat, r: nat)
    requires slices != [] && q > 0 && FollowsBounds(slices, q, r)
    ensures Partitions(slices, Bound(q, r, |slices|)) && Balanced(slices)
  {
    assert forall i | 0 <= i < |slices| :: SliceIs(slices[i], q, r, i) && q <= slices[i].end - slices[i].begin <= q + 1;
    forall i | 0 < i < |slices| ensures slices[i].begin == slices[i - 1].end {
      assert SliceIs(slices[i - 1], q, r, i - 1);
    }
    assert SliceIs(slices[0], q, r, 0) && SliceIs(slices[|slices| - 1], q, r, |slices| - 1);
  }

  /** The loop over `coros`; the code divides by the number of coroutines, so both arguments have to be positive. */
  method Partition(s: nat, maxParallelity: nat) returns (coros: array<Slice>, remaining: nat)
    requires s > 0 && maxParallelity > 0
    ensures coros.Length == Min(maxParallelity, s)
    ensures Partitions(coros[..], s) && Balanced(coros[..]) && remaining == 0
  {
    var coroCnt := Min(maxParallelity, s);
    coros := new Slice[coroCnt](_ => Slice(0, 0));
    var itemsPerCoro;
    itemsPerCoro, remaining := Divide(s, coroCnt);
    ghost var r := remaining;
    var begin, end := 0, 0;
    for c := 0 to coroCnt
      invariant end == Bound(itemsPerCoro, r, c)
      invariant remaining == if c < r then r - c else 0
      invariant FollowsBounds(coros[..c], itemsPerCoro, r)
    {
      begin := end;
      end := begin + itemsPerCoro;
      if remaining != 0 {
        end := end + 1;
        remaining := remaining - 1;
      }
      coros[c] := Slice(begin, end);
      assert coros[..c + 1] == coros[..c] + [coros[c]];
    }
    assert coros[..] == coros[..coroCnt];
    FollowsBoundsPartitions(coros[..], itemsPerCoro, r);
  }

  /** What the coroutines process when none of them throws, one coroutine after the other. */
  function Processed<T>(items: seq<T>, slices: seq<Slice>): seq<T>
    requires forall i | 0 <= i < |slices| :: slices[i].begin <= slices[i].end <= |items|
  {
    if slices == [] then []
    else items[slices[0].begin..slices[0].end] + Processed(items, slices[1..])
  }

  lemma {:induction false} ProcessedFrom<T>(items: seq<T>, slices: seq<Slice>)
    requires slices != [] && slices[|slices| - 1].end == |items|
    requires forall i | 0 <= i < |slices| :: slices[i].begin < slices[i].end
    requires forall i | 0 < i < |slices| :: slices[i].begin == slices[i - 1].end
    ensures forall i | 0 <= i < |slices| :: slices[i].end <= |items|
    ensures Processed(items, slices) == items[slices[0].begin..]
  {
    if |slices| > 1 {
      var rest := slices[1..];
      assert rest[|rest| - 1] == slices[|slices| - 1];
      forall i | 0 < i < |rest| ensures rest[i].begin == rest[i - 1].end {
        assert slices[i + 1].begin == slices[i].end;
      }
      ProcessedFrom(items, rest);
      assert forall i | 0 < i < |slices| :: slices[i] == rest[i - 1];
    } else {
      assert slices[1..] == [];
    }
  }

  /** The slices of a partition cover every item of the range exactly once and in order. */
  lemma PartitionCovers<T>(items: seq<T>, slices: seq<Slice>)
    requires Partitions(slices, |items|)
    ensures forall i | 0 <= i < |slices| :: slices[i].begin <= slices[i].end <= |items|
    ensures Processed(items, slices) == items
  {
    ProcessedFrom(items, slices);
  }
}
