/** Uploading one inspection, with capped exponential backoff (`_upload` in src/isar/storage/uploader.py). */
module Uploader {

  function Pow2(n: nat): (p: nat)
    ensures p >= 1
  {
    if n == 0 then 1 else 2 * Pow2(n - 1)
  }

  /** The sleep after failed attempt number `i`. */
  function Backoff(i: nat, maxWait: nat): nat { if Pow2(i) <= maxWait then Pow2(i) else maxWait }

  /** The sleep after the first `n` failed attempts together. */
  function TotalSleep(n: nat, maxWait: nat): nat {
    if n == 0 then 0 else TotalSleep(n - 1, maxWait) + Backoff(n, maxWait)
  }

  /**
   `_upload`; `store(i)` says whether the call made after `i` failures succeeds.  The store is called until the first
   success and at most `limit` times, with a sleep between any two calls and none after the last.
   */
  method Upload(store: nat -> bool, limit: nat, maxWait: nat) returns (uploaded: bool, calls: nat, slept: nat)
    ensures calls <= limit
    ensures forall i :: 0 <= i < calls ==> (store(i) <==> uploaded && i == calls - 1)
    ensures uploaded ==> calls > 0
    ensures !uploaded ==> calls == limit
    ensures slept == if calls == 0 then 0 else TotalSleep(calls - 1, maxWait)
  {
    uploaded, calls, slept := false, 0, 0;
    var attempts := 0;
    while attempts < limit
      invariant attempts == calls <= limit && !uploaded
      invariant forall i :: 0 <= i < calls ==> !store(i)
      invariant slept == TotalSleep(if calls == limit && calls > 0 then calls - 1 else calls, maxWait)
    {
      calls := calls + 1;
      if store(attempts) {
        uploaded := true;
        return;
      }
      attempts := attempts + 1;
      if attempts < limit {
        slept := slept + Backoff(attempts, maxWait);
      }
    }
  }

  lemma {:induction false} Pow2Increases(m: nat, n: nat)
    requires m <= n
    ensures Pow2(m) <= Pow2(n)
  {
    if m == n {
    } else {
      Pow2Increases(m, n - 1);
    }
  }

  /** The last power of two that the cap lets through. */
  function {:tailrecursion false} CapExponent(maxWait: nat): (k: nat)
    requires maxWait >= 1
    ensures Pow2(k) <= maxWait < Pow2(k + 1)
  {
    if maxWait == 1 then 0 else CapExponent(maxWait / 2) + 1
  }

  /** As long as no sleep is capped, the sleeps double. */
  lemma {:induction false} UncappedSleep(n: nat, maxWait: nat)
    requires n > 0 ==> Pow2(n) <= maxWait
    ensures TotalSleep(n, maxWait) == Pow2(n + 1) - 2
  {
    if n == 0 {
    } else {
      Pow2Increases(n - 1, n);
      UncappedSleep(n - 1, maxWait);
    }
  }

  lemma OneMoreTime(times: nat, maxWait: nat)
    ensures (times + 1) * maxWait == times * maxWait + maxWait
  {}

  /** From then on every sleep takes the maximum. */
  lemma {:induction false} CappedSleep(k: nat, n: nat, maxWait: nat)
    requires Pow2(k) <= maxWait < Pow2(k + 1) && k <= n
    ensures TotalSleep(n, maxWait) == Pow2(k + 1) - 2 + (n - k) * maxWait
  {
    if n == k {
      UncappedSleep(n, maxWait);
    } else {
      CappedSleep(k, n - 1, maxWait);
      Pow2Increases(k + 1, n);
      assert Backoff(n, maxWait) == maxWait;
      OneMoreTime(n - 1 - k, maxWait);
    }
  }

  /** How long an upload that fails altogether sleeps, for all limits and caps. */
  lemma SleepOfFailedUpload(limit: nat, maxWait: nat)
    requires limit >= 1 && maxWait >= 1
    ensures var k := CapExponent(maxWait);
            TotalSleep(limit - 1, maxWait) == if limit - 1 <= k then Pow2(limit) - 2
                                              else Pow2(k + 1) - 2 + (limit - 1 - k) * maxWait
  {
    var k := CapExponent(maxWait);
    if limit - 1 <= k {
      Pow2Increases(limit - 1, k);
      UncappedSleep(limit - 1, maxWait);
    } else {
      CappedSleep(k, limit - 1, maxWait);
    }
  }

  lemma {:induction false} SleepIsBounded(n: nat, maxWait: nat)
    ensures TotalSleep(n, maxWait) <= n * maxWait
    ensures TotalSleep(n, maxWait) <= Pow2(n + 1) - 2
  {
    if n == 0 {
    } else {
      SleepIsBounded(n - 1, maxWait);
      OneMoreTime(n - 1, maxWait);
    }
  }
}
