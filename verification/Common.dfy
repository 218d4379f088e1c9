/** Small datatypes and sequence facts shared by every model in this project. */
module Common {

  datatype Option<+T> = None | Some(value: T)

  datatype Result<+T> = Ok(value: T) | Err(error: string)

  type byte = b: int | 0 <= b < 256

  /** The elements of a sequence, forgetting order and repetition. */
  function Elements<T>(s: seq<T>): set<T> {
    set x | x in s
  }

  ghost predicate Distinct<T(!new)>(s: seq<T>) {
    forall i, j :: 0 <= i < j < |s| ==> s[i] != s[j]
  }

  lemma {:induction false} DistinctCount<T(!new)>(s: seq<T>)
    requires Distinct(s)
    ensures |Elements(s)| == |s|
  {
    if s == [] {
    } else {
      var k := |s| - 1;
      DistinctCount(s[..k]);
      assert s == s[..k] + [s[k]];
      assert Elements(s) == Elements(s[..k]) + {s[k]};
    }
  }

  lemma JoinSizes<T>(a: set<T>, b: set<T>)
    requires a !! b
    ensures a <= a + b && |a + b| == |a| + |b|
  {
  }

  lemma MulMonotone(a: int, b: int, r: nat)
    ensures a <= b ==> a * r <= b * r
  {
    assert b * r - a * r == (b - a) * r;
  }

  /** A property that holds at the start, and after each step exactly when the step
      is not bad, holds throughout exactly when no step is bad. */
  lemma HoldsThroughout(good: seq<bool>, bad: seq<bool>)
    requires |good| == |bad| + 1 && good[0]
    requires forall k :: 0 <= k < |bad| && good[k] ==> (good[k + 1] <==> !bad[k])
    ensures (forall k :: 0 <= k < |good| ==> good[k]) <==> (forall k :: 0 <= k < |bad| ==> !bad[k])
  {
    if forall k :: 0 <= k < |bad| ==> !bad[k] {
      forall k | 0 <= k < |good| ensures good[k] {
        HoldsUpTo(good, bad, k);
      }
    } else {
      var k :| 0 <= k < |bad| && bad[k];
      assert !good[k] || !good[k + 1];
    }
  }

  lemma {:induction false} HoldsUpTo(good: seq<bool>, bad: seq<bool>, n: nat)
    requires |good| == |bad| + 1 && good[0] && n < |good|
    requires forall k :: 0 <= k < |bad| && good[k] ==> (good[k + 1] <==> !bad[k])
    requires forall k :: 0 <= k < |bad| ==> !bad[k]
    ensures good[n]
  {
    if n == 0 {
    } else {
      HoldsUpTo(good, bad, n - 1);
      assert !bad[n - 1] && good[n - 1 + 1] == good[n];
    }
  }

  /** `s` ends with `suffix`. */
  predicate EndsWith(s: string, suffix: string) {
    |suffix| <= |s| && s[|s| - |suffix|..] == suffix
  }

  /** Rust's `str::strip_suffix`. */
  function StripSuffix(s: string, suffix: string): Option<string> {
    if EndsWith(s, suffix) then Some(s[..|s| - |suffix|]) else None
  }

  lemma StripSuffixOfAppend(s: string, suffix: string)
    ensures StripSuffix(s + suffix, suffix) == Some(s)
  {
    assert (s + suffix)[|s|..] == suffix && (s + suffix)[..|s|] == s;
  }
}
