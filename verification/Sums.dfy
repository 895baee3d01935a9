/** Sums over account slots, some of which are closed. */
module Sums {
  import opened Checked

  /** A closed slot weighs nothing. */
  ghost function Weight<T>(slot: Option<T>, f: T -> int): int {
    if slot.Some? then f(slot.value) else 0
  }

  ghost function Sum<T>(slots: seq<Option<T>>, f: T -> int): int {
    if slots == [] then 0 else Weight(slots[0], f) + Sum(slots[1..], f)
  }

  lemma {:induction false} SumReplace<T>(slots: seq<Option<T>>, i: nat, x: Option<T>, f: T -> int)
    requires i < |slots|
    ensures Sum(slots[i := x], f) == Sum(slots, f) - Weight(slots[i], f) + Weight(x, f)
  {
    if i == 0 {
      assert slots[0 := x][1..] == slots[1..];
    } else {
      assert slots[i := x][1..] == slots[1..][i - 1 := x];
      SumReplace(slots[1..], i - 1, x, f);
    }
  }

  lemma {:induction false} SumAppend<T>(slots: seq<Option<T>>, x: Option<T>, f: T -> int)
    ensures Sum(slots + [x], f) == Sum(slots, f) + Weight(x, f)
  {
    if slots == [] {
      assert slots + [x] == [x];
    } else {
      assert (slots + [x])[1..] == slots[1..] + [x];
      SumAppend(slots[1..], x, f);
    }
  }

  /** If every weight grows by `c` times another, so does the sum. */
  lemma {:induction false} SumGrows<T(!new)>(
      slots: seq<Option<T>>, before: T -> int, after: T -> int, share: T -> int, c: int)
    requires forall x: T :: after(x) == before(x) + share(x) * c
    ensures Sum(slots, after) == Sum(slots, before) + Sum(slots, share) * c
  {
    if slots != [] {
      SumGrows(slots[1..], before, after, share, c);
      assert Weight(slots[0], after) == Weight(slots[0], before) + Weight(slots[0], share) * c;
      Distribute(Weight(slots[0], share), Sum(slots[1..], share), c);
    }
  }

  lemma Distribute(x: int, y: int, c: int)
    ensures (x + y) * c == x * c + y * c
  {
  }

  /** Among weights that are never negative, none exceeds the sum. */
  lemma {:induction false} SumCovers<T>(slots: seq<Option<T>>, f: T -> int, i: nat)
    requires forall k :: 0 <= k < |slots| ==> 0 <= Weight(slots[k], f)
    requires i < |slots|
    ensures 0 <= Weight(slots[i], f) <= Sum(slots, f)
  {
    forall k | 0 <= k < |slots[1..]| ensures 0 <= Weight(slots[1..][k], f) {
      assert slots[1..][k] == slots[k + 1];
    }
    if i == 0 {
      SumNonNegative(slots[1..], f);
    } else {
      assert slots[1..][i - 1] == slots[i];
      SumCovers(slots[1..], f, i - 1);
    }
  }

  lemma {:induction false} SumNonNegative<T>(slots: seq<Option<T>>, f: T -> int)
    requires forall k :: 0 <= k < |slots| ==> 0 <= Weight(slots[k], f)
    ensures 0 <= Sum(slots, f)
  {
    if slots != [] {
      forall k | 0 <= k < |slots[1..]| ensures 0 <= Weight(slots[1..][k], f) {
        assert slots[1..][k] == slots[k + 1];
      }
      SumNonNegative(slots[1..], f);
    }
  }

  /** Weights that agree on every slot have the same sum. */
  lemma {:induction false} SumSame<T>(slots: seq<Option<T>>, f: T -> int, g: T -> int)
    requires forall k :: 0 <= k < |slots| ==> Weight(slots[k], f) == Weight(slots[k], g)
    ensures Sum(slots, f) == Sum(slots, g)
  {
    if slots != [] {
      forall k | 0 <= k < |slots[1..]| ensures Weight(slots[1..][k], f) == Weight(slots[1..][k], g) {
        assert slots[1..][k] == slots[k + 1];
      }
      SumSame(slots[1..], f, g);
    }
  }
}
