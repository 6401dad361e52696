/** Names of requests: `"tmp_" + to_string(timestamp) + "." + to_string(counter)`. */
module Naming {
  import opened Decimal
  import opened Int32

  const Prefix: string := "tmp_"

  /** Timestamps of at most 16 digits. */
  const MaxTimestamp: int := 10_000_000_000_000_000

  function TmpName(timestamp: int, counter: Int32): (name: string)
    ensures |name| > |Prefix| && name[..|Prefix|] == Prefix
  {
    Prefix + IntToString(timestamp) + "." + IntToString(counter)
  }

  /** Two strings without '.' joined by a '.' can be split back apart. */
  lemma {:induction false} SplitAtDot(a1: string, b1: string, a2: string, b2: string)
    requires '.' !in a1 && '.' !in a2
    requires a1 + "." + b1 == a2 + "." + b2
    ensures a1 == a2 && b1 == b2
  {
    var w1, w2 := a1 + "." + b1, a2 + "." + b2;
    assert w1[|a1|] == '.' && w2[|a2|] == '.';
    assert forall k :: 0 <= k < |a1| ==> w1[k] == a1[k];
    assert forall k :: 0 <= k < |a2| ==> w2[k] == a2[k];
    assert |a1| == |a2|;
    assert a1 == w1[..|a1|] && a2 == w2[..|a2|];
    assert b1 == w1[|a1| + 1..] && b2 == w2[|a2| + 1..];
  }

  /** The name determines both the timestamp and the counter value it was made from. */
  lemma TmpNameInjective(t1: int, c1: Int32, t2: int, c2: Int32)
    ensures TmpName(t1, c1) == TmpName(t2, c2) <==> t1 == t2 && c1 == c2
  {
    if TmpName(t1, c1) == TmpName(t2, c2) {
      var s1, s2 := IntToString(t1), IntToString(t2);
      var d1, d2 := IntToString(c1), IntToString(c2);
      assert Prefix + s1 + "." + d1 == Prefix + (s1 + "." + d1);
      assert Prefix + s2 + "." + d2 == Prefix + (s2 + "." + d2);
      assert s1 + "." + d1 == (Prefix + s1 + "." + d1)[|Prefix|..];
      assert s2 + "." + d2 == (Prefix + s2 + "." + d2)[|Prefix|..];
      IntToStringHasNoDot(t1);
      IntToStringHasNoDot(t2);
      SplitAtDot(s1, d1, s2, d2);
      IntToStringInjective(t1, t2);
      IntToStringInjective(c1, c2);
    }
  }

  /** Allocations i and j (counting from the first, which sees counter value 1)
      get different names whatever their timestamps, as long as fewer than
      2^32 allocations separate them. */
  lemma AllocationsDistinct(i: nat, ti: int, j: nat, tj: int)
    requires i < j < i + TwoTo32
    ensures TmpName(ti, Wrap(i + 1)) != TmpName(tj, Wrap(j + 1))
  {
    WrapDistinct(i + 1, j + 1);
    TmpNameInjective(ti, Wrap(i + 1), tj, Wrap(j + 1));
  }

  /** The names of the first |names| allocations, made at the given timestamps. */
  ghost predicate AllocatedNames(names: seq<string>, stamps: seq<int>) {
    |names| == |stamps| && forall i :: 0 <= i < |names| ==> names[i] == TmpName(stamps[i], Wrap(i + 1))
  }

  /** The next allocation's name is new. */
  lemma NextNameFresh(names: seq<string>, stamps: seq<int>, t: int)
    requires AllocatedNames(names, stamps) && |names| < TwoTo32
    ensures TmpName(t, Wrap(|names| + 1)) !in names
  {
    forall i | 0 <= i < |names|
      ensures names[i] != TmpName(t, Wrap(|names| + 1))
    {
      AllocationsDistinct(i, stamps[i], |names|, t);
    }
  }

  /** Up to 2^32 allocations give pairwise different names. */
  lemma AllocatedNamesDistinct(names: seq<string>, stamps: seq<int>)
    requires AllocatedNames(names, stamps) && |names| <= TwoTo32
    ensures forall i, j :: 0 <= i < j < |names| ==> names[i] != names[j]
  {
    forall i, j | 0 <= i < j < |names|
      ensures names[i] != names[j]
    {
      AllocationsDistinct(i, stamps[i], j, stamps[j]);
    }
  }

  /** After 2^32 allocations in one second the counter repeats and so does the name. */
  lemma CounterWrapCollides(t: int, i: nat)
    ensures TmpName(t, Wrap(i + 1)) == TmpName(t, Wrap(i + 1 + TwoTo32))
  {
    WrapPeriod(i + 1);
  }

  /** A timestamp of at most 16 digits gives a name of at most 32 characters. */
  lemma TmpNameLength(timestamp: int, counter: Int32)
    requires 0 <= timestamp < MaxTimestamp
    ensures |TmpName(timestamp, counter)| <= 32
    ensures '\0' !in TmpName(timestamp, counter)
  {
    Pow10Values();
    IntToStringLength(timestamp, 16);
    IntToStringLength(counter, 10);
  }
}
