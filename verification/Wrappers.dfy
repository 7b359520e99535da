/**
 The stock types for a value that may be absent and for a call that may fail, how concatenations regroup, and what
 is left of a fact that steps set and clear.
 */
module Wrappers {
  datatype Option<+T> = None | Some(value: T)

  datatype Result<+T, +E> = Ok(value: T) | Err(error: E)

  lemma {:induction false} Regroup<T>(a: seq<T>, b: seq<T>, c: seq<T>)
    ensures (a + b) + c == a + (b + c)
  {
  }

  lemma {:induction false} TakeNext<T>(s: seq<T>, i: nat)
    requires i < |s|
    ensures s[..i + 1] == s[..i] + [s[i]]
  {
  }

  /** Step i, among the first k, sets a fact that none of them after it clears. */
  ghost predicate SetSince(sets: seq<bool>, clears: seq<bool>, i: nat, k: nat)
    requires k <= |sets| == |clears|
  {
    i < k && sets[i] && forall j :: i < j < k ==> !clears[j]
  }

  /** The fact holds after a step exactly if the step sets it, or it held before and the step does not clear it. */
  ghost predicate SetAndCleared(has: seq<bool>, sets: seq<bool>, clears: seq<bool>) {
    && |has| == |sets| + 1 && |sets| == |clears| && !has[0]
    && forall k :: 0 <= k < |sets| ==> (has[k + 1] <==> sets[k] || (has[k] && !clears[k]))
  }

  lemma {:induction false} HoldsSince(has: seq<bool>, sets: seq<bool>, clears: seq<bool>, k: nat)
    requires SetAndCleared(has, sets, clears) && k <= |sets|
    ensures has[k] <==> exists i: nat :: SetSince(sets, clears, i, k)
  {
    if k > 0 {
      HoldsSince(has, sets, clears, k - 1);
      if sets[k - 1] {
        assert SetSince(sets, clears, k - 1, k);
      } else if has[k] {
        var i: nat :| SetSince(sets, clears, i, k - 1);
        assert SetSince(sets, clears, i, k);
      } else if i: nat :| SetSince(sets, clears, i, k) {
        assert SetSince(sets, clears, i, k - 1);
      }
    }
  }
}
