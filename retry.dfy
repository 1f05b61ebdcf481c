/**
 * `retry_async(retries, delay)`: the decorator that calls the wrapped coroutine up
 * to `retries + 1` times, sleeping `delay * 2**i` after failure `i` when another
 * attempt follows, and re-raising the last exception once every attempt failed.
 *
 * The wrapped coroutine is a function from the attempt number to what that call
 * produced. The sleeps are recorded, not taken: each is a whole number of the
 * caller's delay units, and `calls` counts how often the wrapped coroutine ran.
 */
module Retry {
  import opened Wrappers
  import opened Generation

  /** The decorator's default `retries`. */
  const DefaultRetries: int := 2
  /** The decorator's default `delay`, 0.5 s, taken as one delay unit. */
  const DefaultDelay: nat := 1
  /** What `raise None` raises when the loop never ran. */
  const NotAnException: string := "exceptions must derive from " + "BaseException"

  /** What the wrapped coroutine produces on its `i`-th call. */
  type Wrapped = nat -> Reply

  function Pow2(n: nat): (p: nat)
    ensures p >= 1
  {
    if n == 0 then 1 else 2 * Pow2(n - 1)
  }

  /** The sleep after failed attempt `i`. */
  function Backoff(delay: nat, i: nat): nat {
    delay * Pow2(i)
  }

  /** What one decorated call does: its result or exception, the sleeps it took, and the calls it made. */
  datatype Trace = Trace(reply: Reply, sleeps: seq<nat>, calls: nat)

  /** The loop from attempt `i` on, with `last` the exception of the attempt before it. */
  function Tries(fn: Wrapped, retries: int, delay: nat, i: nat, last: Option<string>): Trace
    decreases if i <= retries then retries + 1 - i else 0
  {
    if i > retries then Trace(Raised(if last.Some? then last.value else NotAnException), [], 0)
    else match fn(i)
      case Text(v) => Trace(Text(v), [], 1)
      case Raised(e) =>
        var rest := Tries(fn, retries, delay, i + 1, Some(e));
        Trace(rest.reply, (if i < retries then [Backoff(delay, i)] else []) + rest.sleeps, rest.calls + 1)
  }

  /** One call of the decorated coroutine. */
  function RetrySpec(fn: Wrapped, retries: int, delay: nat): Trace {
    Tries(fn, retries, delay, 0, None)
  }

  /**
   * From attempt `i` on: at most the remaining attempts are made, a sleep separates
   * each pair of consecutive calls and the `k`-th of them is `delay * 2**(i + k)`,
   * every call but the last one raised, and a returned value is the last call's.
   */
  lemma {:induction false} TriesShape(fn: Wrapped, retries: int, delay: nat, i: nat, last: Option<string>)
    ensures var t := Tries(fn, retries, delay, i, last);
      && t.calls <= (if i <= retries then retries + 1 - i else 0)
      && (i <= retries ==> t.calls >= 1 && |t.sleeps| == t.calls - 1)
      && (i > retries ==> t.sleeps == [])
      && (forall k :: 0 <= k < |t.sleeps| ==> t.sleeps[k] == Backoff(delay, i + k))
      && (forall k :: i <= k < i + t.calls - 1 ==> fn(k).Raised?)
      && (t.reply.Text? ==> t.calls >= 1 && t.reply == fn(i + t.calls - 1))
    decreases if i <= retries then retries + 1 - i else 0
  {
    if i <= retries && fn(i).Raised? {
      TriesShape(fn, retries, delay, i + 1, Some(fn(i).error));
      var rest := Tries(fn, retries, delay, i + 1, Some(fn(i).error));
      var t := Tries(fn, retries, delay, i, last);
      assert t.sleeps == (if i < retries then [Backoff(delay, i)] else []) + rest.sleeps;
      assert t.calls == rest.calls + 1;
      forall k | 0 <= k < |t.sleeps| ensures t.sleeps[k] == Backoff(delay, i + k) {
        if k > 0 {
          assert t.sleeps[k] == rest.sleeps[k - 1];
        }
      }
    }
  }

  /**
   * The wrapped coroutine runs at most `retries + 1` times (never when `retries`
   * is negative); exactly one sleep separates consecutive calls, the `k`-th being
   * `delay * 2**k`; every call before the last one raised, and a returned value
   * is the last call's.
   */
  lemma CallsBounded(fn: Wrapped, retries: int, delay: nat)
    ensures var t := RetrySpec(fn, retries, delay);
      && t.calls <= (if retries >= 0 then retries + 1 else 0)
      && (retries >= 0 ==> t.calls >= 1 && |t.sleeps| == t.calls - 1)
      && (forall k :: 0 <= k < |t.sleeps| ==> t.sleeps[k] == Backoff(delay, k))
      && (forall k :: 0 <= k < t.calls - 1 ==> fn(k).Raised?)
      && (t.reply.Text? ==> t.reply == fn(t.calls - 1))
  {
    TriesShape(fn, retries, delay, 0, None);
  }

  /** The sleeps `delay * 2**(i + j)` for `j` below `n`. */
  function Backoffs(delay: nat, i: nat, n: nat): (s: seq<nat>)
    ensures |s| == n
    ensures forall j :: 0 <= j < n ==> s[j] == Backoff(delay, i + j)
  {
    if n == 0 then [] else Backoffs(delay, i, n - 1) + [Backoff(delay, i + n - 1)]
  }

  lemma {:induction false} FirstSuccessFrom(fn: Wrapped, retries: int, delay: nat, i: nat, last: Option<string>, k: nat)
    ensures i <= k <= retries && fn(k).Text? && (forall j :: i <= j < k ==> fn(j).Raised?) ==>
      Tries(fn, retries, delay, i, last) == Trace(fn(k), Backoffs(delay, i, k - i), k - i + 1)
    decreases k - i
  {
    if i < k <= retries && fn(k).Text? && (forall j :: i <= j < k ==> fn(j).Raised?) {
      FirstSuccessFrom(fn, retries, delay, i + 1, Some(fn(i).error), k);
      var rest := Backoffs(delay, i + 1, k - i - 1);
      assert [Backoff(delay, i)] + rest == Backoffs(delay, i, k - i);
    }
  }

  /**
   * The first call that returns ends the loop: its value is the result, the calls
   * before it each raised and were each followed by their backoff sleep.
   */
  lemma FirstSuccessReturned(fn: Wrapped, retries: int, delay: nat, k: nat)
    requires k <= retries && fn(k).Text?
    requires forall j :: 0 <= j < k ==> fn(j).Raised?
    ensures RetrySpec(fn, retries, delay) == Trace(fn(k), Backoffs(delay, 0, k), k + 1)
  {
    FirstSuccessFrom(fn, retries, delay, 0, None, k);
  }

  lemma {:induction false} AllFailFrom(fn: Wrapped, retries: int, delay: nat, i: nat, last: Option<string>)
    ensures i <= retries && (forall j :: i <= j <= retries ==> fn(j).Raised?) ==>
      Tries(fn, retries, delay, i, last) == Trace(fn(retries), Backoffs(delay, i, retries - i), retries - i + 1)
    decreases if i <= retries then retries - i else 0
  {
    if i < retries && (forall j :: i <= j <= retries ==> fn(j).Raised?) {
      AllFailFrom(fn, retries, delay, i + 1, Some(fn(i).error));
      var rest := Backoffs(delay, i + 1, retries - i - 1);
      assert [Backoff(delay, i)] + rest == Backoffs(delay, i, retries - i);
    } else if i == retries && fn(i).Raised? {
      assert Tries(fn, retries, delay, i + 1, Some(fn(i).error)).sleeps == [];
      assert [] + [] == Backoffs(delay, i, 0);
    }
  }

  /**
   * When every attempt raises, all `retries + 1` calls are made, exactly `retries`
   * sleeps are taken, and the last call's exception is re-raised.
   */
  lemma AllFailReraisesLast(fn: Wrapped, retries: int, delay: nat)
    requires retries >= 0
    requires forall j :: 0 <= j <= retries ==> fn(j).Raised?
    ensures RetrySpec(fn, retries, delay) == Trace(fn(retries), Backoffs(delay, 0, retries), retries + 1)
  {
    AllFailFrom(fn, retries, delay, 0, None);
  }

  /** With `retries == 0` there is one call, no sleep, and its outcome is the result. */
  lemma NoRetries(fn: Wrapped, delay: nat)
    ensures RetrySpec(fn, 0, delay) == Trace(fn(0), [], 1)
  {
    if fn(0).Raised? {
      assert Tries(fn, 0, delay, 1, Some(fn(0).error)).sleeps == [];
    }
  }

  /** A negative `retries` makes no call and raises `None`, which Python rejects with a TypeError. */
  lemma NegativeRetries(fn: Wrapped, retries: int, delay: nat)
    requires retries < 0
    ensures RetrySpec(fn, retries, delay) == Trace(Raised(NotAnException), [], 0)
  {
  }

  /** The decorated call: the attempt loop of `wrapper`. */
  method RetryAsync(fn: Wrapped, retries: int, delay: nat) returns (r: Reply, sleeps: seq<nat>, calls: nat)
    ensures Trace(r, sleeps, calls) == RetrySpec(fn, retries, delay)
  {
    var last: Option<string> := None;
    sleeps := [];
    calls := 0;
    var i: nat := 0;
    while i <= retries
      invariant calls == i
      invariant var t := Tries(fn, retries, delay, i, last);
        Trace(t.reply, sleeps + t.sleeps, calls + t.calls) == RetrySpec(fn, retries, delay)
      decreases retries + 1 - i
    {
      var o := fn(i);
      calls := calls + 1;
      match o
      case Text(v) =>
        assert Tries(fn, retries, delay, i, last) == Trace(o, [], 1);
        assert sleeps + [] == sleeps;
        r := o;
        return;
      case Raised(e) =>
        ghost var rest := Tries(fn, retries, delay, i + 1, Some(e));
        last := Some(e);
        if i < retries {
          assert sleeps + ([Backoff(delay, i)] + rest.sleeps) == (sleeps + [Backoff(delay, i)]) + rest.sleeps;
          sleeps := sleeps + [Backoff(delay, i)];
        } else {
          assert [] + rest.sleeps == rest.sleeps;
        }
        i := i + 1;
    }
    assert sleeps + [] == sleeps;
    r := Raised(if last.Some? then last.value else NotAnException);
  }
}
