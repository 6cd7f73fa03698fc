/** The accounting values: the write statistics of a follower replica, which
    accumulate by field-wise 64-bit addition, and the pooled completion
    report handed back to the store queue. */
module Accounting {

  import opened AdmissionTypes

  const TwoTo63: int := 0x8000_0000_0000_0000
  const TwoTo64: int := 0x1_0000_0000_0000_0000

  /** The 64-bit two's-complement value congruent to `x`. */
  function Wrap64(x: int): (r: int64)
    ensures (r - x) % TwoTo64 == 0
    ensures -TwoTo63 <= x < TwoTo63 ==> r == x
  {
    (x + TwoTo63) % TwoTo64 - TwoTo63
  }

  /** Go's `+=` on int64 wraps around. */
  function Add64(a: int64, b: int64): (r: int64)
  {
    Wrap64(a + b)
  }

  lemma Wrap64Congruent(x: int, y: int)
    requires (x - y) % TwoTo64 == 0
    ensures Wrap64(x) == Wrap64(y)
  {
    var k := (x - y) / TwoTo64;
    assert x + TwoTo63 == (y + TwoTo63) + k * TwoTo64;
  }

  lemma Add64Associative(a: int64, b: int64, c: int64)
    ensures Add64(Add64(a, b), c) == Add64(a, Add64(b, c))
  {
    Wrap64Congruent(Add64(a, b) + c, a + b + c);
    Wrap64Congruent(a + Add64(b, c), a + b + c);
  }

  /** The value of a FollowerStoreWriteBytes. */
  datatype FollowerCounts = FollowerCounts(numEntries: int64, writeBytes: int64, ingestedBytes: int64) {
    function DoneInfo(): (r: StoreWorkDoneInfo)
    {
      StoreWorkDoneInfo(writeBytes, ingestedBytes)
    }
  }

  const NoFollowerWrites := FollowerCounts(0, 0, 0)

  /** Field-wise accumulation of two reports. */
  function Sum(a: FollowerCounts, b: FollowerCounts): (r: FollowerCounts)
  {
    FollowerCounts(Add64(a.numEntries, b.numEntries), Add64(a.writeBytes, b.writeBytes), Add64(a.ingestedBytes, b.ingestedBytes))
  }

  lemma SumCommutative(a: FollowerCounts, b: FollowerCounts)
    ensures Sum(a, b) == Sum(b, a)
  {
  }

  lemma SumAssociative(a: FollowerCounts, b: FollowerCounts, c: FollowerCounts)
    ensures Sum(Sum(a, b), c) == Sum(a, Sum(b, c))
  {
    Add64Associative(a.numEntries, b.numEntries, c.numEntries);
    Add64Associative(a.writeBytes, b.writeBytes, c.writeBytes);
    Add64Associative(a.ingestedBytes, b.ingestedBytes, c.ingestedBytes);
  }

  lemma SumIdentity(a: FollowerCounts)
    ensures Sum(NoFollowerWrites, a) == a
  {
  }

  /** The result of merging the reports `s` one after the other into a zero
      value. */
  function Total(s: seq<FollowerCounts>): (r: FollowerCounts)
  {
    if s == [] then NoFollowerWrites else Sum(Total(s[..|s| - 1]), s[|s| - 1])
  }

  function RemoveAt<T>(s: seq<T>, i: nat): (r: seq<T>)
    requires i < |s|
    ensures |r| == |s| - 1
  {
    s[..i] + s[i + 1..]
  }

  lemma SumSwapLast(x: FollowerCounts, a: FollowerCounts, b: FollowerCounts)
    ensures Sum(Sum(x, a), b) == Sum(Sum(x, b), a)
  {
    SumAssociative(x, a, b);
    SumCommutative(a, b);
    SumAssociative(x, b, a);
  }

  /** Any one report can be taken out and merged last. */
  lemma {:induction false} TotalRemoveAt(t: seq<FollowerCounts>, i: nat)
    requires i < |t|
    ensures Total(t) == Sum(Total(RemoveAt(t, i)), t[i])
    decreases |t|
  {
    var n := |t|;
    if i < n - 1 {
      var init := t[..n - 1];
      TotalRemoveAt(init, i);
      assert RemoveAt(t, i) == RemoveAt(init, i) + [t[n - 1]];
      assert RemoveAt(t, i)[..n - 2] == RemoveAt(init, i);
      SumSwapLast(Total(RemoveAt(init, i)), t[i], t[n - 1]);
    } else {
      assert RemoveAt(t, i) == t[..n - 1];
    }
  }

  /** Merging is order-independent: reports merged in any order add up to
      the same statistics. */
  lemma {:induction false} TotalPermutation(s: seq<FollowerCounts>, t: seq<FollowerCounts>)
    requires multiset(s) == multiset(t)
    ensures Total(s) == Total(t)
    decreases |s|
  {
    if s != [] {
      var n := |s|;
      var x := s[n - 1];
      assert s == s[..n - 1] + [x];
      assert x in multiset(t);
      var i :| 0 <= i < |t| && t[i] == x;
      assert t == t[..i] + [x] + t[i + 1..];
      assert multiset(s[..n - 1]) == multiset(RemoveAt(t, i)) by {
        calc {
          multiset(s[..n - 1]);
          multiset(s) - multiset{x};
          multiset(t) - multiset{x};
          multiset(t[..i]) + multiset(t[i + 1..]);
        }
      }
      TotalPermutation(s[..n - 1], RemoveAt(t, i));
      TotalRemoveAt(t, i);
    } else {
      assert t == [];
    }
  }

  /** The write statistics of a follower replica, merged in place. */
  class FollowerStoreWriteBytes {
    var numEntries: int64
    var writeBytes: int64
    var ingestedBytes: int64

    function Value(): (r: FollowerCounts)
      reads this
    {
      FollowerCounts(numEntries, writeBytes, ingestedBytes)
    }

    constructor ()
      ensures Value() == NoFollowerWrites
    {
      numEntries, writeBytes, ingestedBytes := 0, 0, 0;
    }

    method Merge(from: FollowerCounts)
      modifies this
      ensures Value() == Sum(old(Value()), from)
    {
      numEntries := Add64(numEntries, from.numEntries);
      writeBytes := Add64(writeBytes, from.writeBytes);
      ingestedBytes := Add64(ingestedBytes, from.ingestedBytes);
    }
  }

  /** The completion report of a request's writes, drawn from a reuse pool.
      `released` records that the instance went back to the pool, after
      which it must not be used. */
  class StoreWriteBytes {
    var writeBytes: int64
    var ingestedBytes: int64
    ghost var released: bool

    function DoneInfo(): (r: StoreWorkDoneInfo)
      reads this
    {
      StoreWorkDoneInfo(writeBytes, ingestedBytes)
    }

    constructor ()
      ensures DoneInfo() == NoWorkDone && !released
    {
      writeBytes, ingestedBytes, released := 0, 0, false;
    }
  }

  /** A zeroed instance, whatever the pool held. */
  method NewStoreWriteBytes() returns (wb: StoreWriteBytes)
    ensures fresh(wb) && wb.DoneInfo() == NoWorkDone && !wb.released
  {
    wb := new StoreWriteBytes();
  }

  /** Returns an instance to the pool; nil is ignored. */
  method Release(wb: StoreWriteBytes?)
    requires wb != null ==> !wb.released
    modifies wb
    ensures wb != null ==> wb.released && wb.DoneInfo() == old(wb.DoneInfo())
  {
    if wb == null {
      return;
    }
    wb.released := true;
  }
}
