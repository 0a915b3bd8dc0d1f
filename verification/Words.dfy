/** Machine words, searching a sequence, and small facts about finite sets. */
module Words {
  const U32 := 0x1_0000_0000
  const U64 := 0x1_0000_0000_0000_0000

  /** The value kept by a `uint32_t` after C arithmetic on `x`. */
  function Wrap32(x: int): (r: int)
    ensures 0 <= r < U32 && (0 <= x < U32 ==> r == x)
  {
    x % U32
  }

  /** The value kept by a `uint64_t` (or `size_t`) after C arithmetic on `x`. */
  function Wrap64(x: int): (r: int)
    ensures 0 <= r < U64 && (0 <= x < U64 ==> r == x)
  {
    x % U64
  }

  function Max(a: int, b: int): int {
    if a > b then a else b
  }

  datatype Option<+T> = None | Some(value: T)

  /** Index of the first `x` at or after `from`, or the length if there is none. */
  function First<T(==)>(s: seq<T>, x: T, from: nat): (r: nat)
    requires from <= |s|
    ensures from <= r <= |s|
    ensures r < |s| ==> s[r] == x
    ensures forall k :: from <= k < r ==> s[k] != x
    decreases |s| - from
  {
    if from == |s| || s[from] == x then from else First(s, x, from + 1)
  }

  function Remove<T>(s: seq<T>, i: nat): seq<T>
    requires i < |s|
  {
    s[..i] + s[i + 1..]
  }

  ghost function Elems(s: seq<int>): set<int> {
    set i | 0 <= i < |s| :: s[i]
  }

  ghost predicate Distinct(s: seq<int>) {
    forall i, j :: 0 <= i < j < |s| ==> s[i] != s[j]
  }

  /** Entries other than the free marker 0 do not repeat. */
  ghost predicate DistinctNonZero(s: seq<int>) {
    forall i, j :: 0 <= i < j < |s| && s[i] == s[j] ==> s[i] == 0
  }

  lemma {:induction false} ElemsSize(s: seq<int>)
    ensures |Elems(s)| <= |s|
    ensures Distinct(s) ==> |Elems(s)| == |s|
  {
    if s == [] {
      assert Elems(s) == {};
    } else {
      var init, last := s[..|s| - 1], s[|s| - 1];
      ElemsSize(init);
      assert Elems(s) == Elems(init) + {last} by {
        forall x | x in Elems(s) ensures x in Elems(init) + {last} {
          var i :| 0 <= i < |s| && s[i] == x;
          if i < |init| { assert init[i] == x; }
        }
        forall x | x in Elems(init) + {last} ensures x in Elems(s) {
          if x in Elems(init) {
            var i :| 0 <= i < |init| && init[i] == x;
            assert s[i] == x;
          } else {
            assert s[|s| - 1] == x;
          }
        }
      }
      if Distinct(s) {
        assert Distinct(init);
        assert last !in Elems(init);
      }
    }
  }

  lemma SubsetSize(a: set<int>, b: set<int>)
    requires a <= b
    ensures |a| <= |b|
  {
    assert b == a + (b - a);
  }

  /**
   * Pigeonhole: if the used entries of a slot array are distinct members of a set that also
   * contains an unused value, and the set is no larger than the array, a slot is free.
   */
  lemma FreeSlotExists(slots: seq<int>, universe: set<int>, x: int)
    requires DistinctNonZero(slots)
    requires forall i :: 0 <= i < |slots| && slots[i] != 0 ==> slots[i] in universe
    requires x in universe && x !in Elems(slots)
    requires |universe| <= |slots|
    ensures exists i :: 0 <= i < |slots| && slots[i] == 0
  {
    assert |universe - {x}| == |universe| - 1;
    if forall i :: 0 <= i < |slots| ==> slots[i] != 0 {
      ElemsSize(slots);
      SubsetSize(Elems(slots), universe - {x});
    }
  }
}
