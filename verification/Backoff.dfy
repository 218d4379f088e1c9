/** The reconnect delay shared by the MQTT and the WebSocket task: it doubles with
    every wait, from 2 up to 60 seconds. */
module Backoff {

  const INITIAL_RECONNECT_DELAY: nat := 2
  const MAX_RECONNECT_DELAY: nat := 60

  function Min(a: nat, b: nat): nat {
    if a <= b then a else b
  }

  function Doubled(delay: nat): nat {
    Min(2 * delay, MAX_RECONNECT_DELAY)
  }

  function Sum(s: seq<nat>): nat {
    if s == [] then 0 else Sum(s[..|s| - 1]) + s[|s| - 1]
  }

  function Pow2(n: nat): nat {
    if n == 0 then 1 else 2 * Pow2(n - 1)
  }

  /** The delay before the backoff that follows `k` others since the last successful connection. */
  function DelayAfter(k: nat): nat {
    Min(Pow2(k + 1), MAX_RECONNECT_DELAY)
  }

  lemma DoubledDelay(k: nat)
    ensures Doubled(DelayAfter(k)) == DelayAfter(k + 1)
  {
  }

  lemma LargePow2(k: nat)
    requires k >= 6
    ensures Pow2(k) >= 64
  {
    if k == 6 {
    } else {
      LargePow2(k - 1);
    }
  }

  lemma {:induction false} SumOfDelays(s: seq<nat>)
    requires forall i :: 0 <= i < |s| ==> s[i] == DelayAfter(i)
    ensures |s| <= 5 ==> Sum(s) == 2 * (Pow2(|s|) - 1)
    ensures |s| >= 5 ==> Sum(s) == 62 + 60 * (|s| - 5)
  {
    assert Pow2(0) == 1 && Pow2(1) == 2 && Pow2(2) == 4 && Pow2(3) == 8 && Pow2(4) == 16 && Pow2(5) == 32;
    if s == [] {
    } else {
      var k := |s| - 1;
      SumOfDelays(s[..k]);
      if k >= 5 {
        LargePow2(k + 1);
      }
    }
  }
}
