/** `CommandRateLimiter` of `daemon/src/rate_limit.rs`: a switchable token
    bucket in front of every daemon command. The bucket belongs to the
    `governor` crate, which is not part of this model; it is modelled with the
    clock frozen, as a counter of the cells spent out of `burst`. */
module RateLimit {

  /** `enabled`, the sustained rate and the burst never change; `spent` counts
      the commands admitted since the bucket was last full. */
  datatype Limiter = Limiter(enabled: bool, perSecond: nat, burst: nat, spent: nat)

  predicate Valid(l: Limiter)
  {
    l.perSecond > 0 && l.burst > 0 && l.spent <= l.burst
  }

  /** `CommandRateLimiter::new`. The source panics on a zero rate or burst, so
      callers must not pass one. */
  function NewLimiter(perSecond: nat, burst: nat, enabled: bool): (l: Limiter)
    requires perSecond > 0 && burst > 0
    ensures Valid(l) && l.spent == 0 && l.enabled == enabled
  {
    Limiter(enabled, perSecond, burst, 0)
  }

  /** `check`: a disabled limiter admits everything; an enabled one admits a
      command while a cell is left and spends it. */
  function Admit(l: Limiter): (Limiter, bool)
  {
    if !l.enabled then (l, true)
    else if l.spent < l.burst then (l.(spent := l.spent + 1), true)
    else (l, false)
  }

  /** `acquire`: waits until a cell is available and spends it. With the bucket
      empty, the wait lasts until one cell has refilled, and that cell is taken. */
  function Await(l: Limiter): (Limiter, bool)
  {
    if !l.enabled then (l, true)
    else if l.spent < l.burst then (l.(spent := l.spent + 1), true)
    else (l, true)
  }

  // ---------------------------------------------------------------------------
  // Properties

  /** Every check keeps the limiter well-formed; a refused check changes
      nothing; an admitted one spends exactly one cell when limiting is on. */
  lemma CheckEffect(l: Limiter)
    requires Valid(l)
    ensures Valid(Admit(l).0)
    ensures !Admit(l).1 ==> Admit(l).0 == l
    ensures l.enabled && Admit(l).1 ==> Admit(l).0.spent == l.spent + 1
    ensures Admit(l).1 <==> !l.enabled || l.spent < l.burst
  {
  }

  /** Disabled limiting admits every command and keeps no state. */
  lemma DisabledAdmitsAll(l: Limiter)
    requires !l.enabled
    ensures Admit(l) == (l, true) && Await(l) == (l, true)
  {
  }

  /** `acquire` answers `true` whenever it returns, and keeps the limiter
      well-formed. */
  lemma AcquireAlwaysTrue(l: Limiter)
    requires Valid(l)
    ensures Await(l).1 && Valid(Await(l).0)
  {
  }

  /** The results of `n` checks in a row. */
  function Checks(l: Limiter, n: nat): (Limiter, seq<bool>)
    decreases n
  {
    if n == 0 then (l, [])
    else
      var first := Admit(l);
      var rest := Checks(first.0, n - 1);
      (rest.0, [first.1] + rest.1)
  }

  /** With `spent` cells used, the next `n` checks succeed exactly while cells
      remain, and the bucket then stays exhausted. */
  lemma {:induction false} ChecksFrom(l: Limiter, n: nat)
    requires Valid(l) && l.enabled
    ensures |Checks(l, n).1| == n
    ensures forall i :: 0 <= i < n ==> (Checks(l, n).1[i] <==> l.spent + i < l.burst)
    decreases n
  {
    if n > 0 {
      var first := Admit(l);
      ChecksFrom(first.0, n - 1);
      var rest := Checks(first.0, n - 1);
      assert Checks(l, n).1 == [first.1] + rest.1;
      forall i | 0 <= i < n ensures Checks(l, n).1[i] <==> l.spent + i < l.burst {
        if i > 0 {
          assert Checks(l, n).1[i] == rest.1[i - 1];
        }
      }
    }
  }

  /** The burst: a fresh enabled limiter admits exactly `burst` commands and
      refuses every one after them, so two refusals in a row follow an
      exhausted bucket. */
  lemma BurstThenRefuse(perSecond: nat, burst: nat, n: nat)
    requires perSecond > 0 && burst > 0
    ensures var r := Checks(NewLimiter(perSecond, burst, true), n).1;
      |r| == n && forall i :: 0 <= i < n ==> (r[i] <==> i < burst)
  {
    ChecksFrom(NewLimiter(perSecond, burst, true), n);
  }

  // ---------------------------------------------------------------------------
  // The object the daemon holds

  class CommandRateLimiter {
    const enabled: bool
    const perSecond: nat
    const burst: nat
    var spent: nat

    function View(): Limiter
      reads this
    {
      Limiter(enabled, perSecond, burst, spent)
    }

    /** `CommandRateLimiter::new`. */
    constructor (perSecond: nat, burst: nat, enabled: bool)
      requires perSecond > 0 && burst > 0
      ensures View() == NewLimiter(perSecond, burst, enabled)
    {
      this.enabled := enabled;
      this.perSecond := perSecond;
      this.burst := burst;
      spent := 0;
    }

    /** `check`. */
    method Check() returns (ok: bool)
      modifies this
      ensures (View(), ok) == Admit(old(View()))
    {
      if !enabled {
        return true;
      }
      if spent < burst {
        spent := spent + 1;
        return true;
      }
      ok := false;
    }

    /** `acquire`. */
    method Acquire() returns (ok: bool)
      modifies this
      ensures (View(), ok) == Await(old(View()))
    {
      if enabled && spent < burst {
        spent := spent + 1;
      }
      ok := true;
    }
  }
}
