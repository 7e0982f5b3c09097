// The reconnect delay of daemon/tunnel.go: the `backoff` function with Go's 64-bit arithmetic,
// the value of the `delay` variable over a history of loop iterations, and its closed form.
module Delays {

  // Durations are int64 nanoseconds in Go.
  const SECOND: int := 1_000_000_000
  const MAX_DELAY: int := 60 * SECOND
  const TWO62: int := 0x4000_0000_0000_0000
  const TWO63: int := 2 * TWO62
  const TWO64: int := 4 * TWO62

  /** The value that an int64 holds after an operation whose exact result is x. */
  function Wrap64(x: int): int {
    (x + TWO63) % TWO64 - TWO63
  }

  function Backoff(current: int, initial: int, max: int): int {
    var next := Wrap64(current * 2);
    if next > max then max
    else if next < initial then initial
    else next
  }

  /** How one iteration of the main loop ended, when it ended in a sleep. */
  datatype Outcome = IdleFailed | EndpointFailed | ConnectFailed | SessionLost

  /** The `delay` variable at the loop head after the iterations h, started with delay d. */
  function Delay(d: int, h: seq<Outcome>): int {
    if h == [] then d
    else
      var before := Delay(d, h[..|h| - 1]);
      match h[|h| - 1]
      case IdleFailed => before
      case EndpointFailed => before
      case ConnectFailed => Backoff(before, d, MAX_DELAY)
      case SessionLost => Backoff(d, d, MAX_DELAY)
  }

  /** How long the iteration with outcome o sleeps when it follows the iterations h. */
  function SleepAfter(d: int, h: seq<Outcome>, o: Outcome): int {
    match o
    case IdleFailed => Delay(d, h)
    case EndpointFailed => Delay(d, h)
    case ConnectFailed => Backoff(Delay(d, h), d, MAX_DELAY)
    case SessionLost => d
  }

  function Pow2(e: nat): (p: nat)
    ensures p > 0
  {
    if e == 0 then 1 else 2 * Pow2(e - 1)
  }

  function Min(x: int, y: int): int {
    if x < y then x else y
  }

  /** Connect failures since the last lost session; a lost session itself counts once. */
  function Exponent(h: seq<Outcome>): nat {
    if h == [] then 0
    else
      match h[|h| - 1]
      case IdleFailed => Exponent(h[..|h| - 1])
      case EndpointFailed => Exponent(h[..|h| - 1])
      case ConnectFailed => Exponent(h[..|h| - 1]) + 1
      case SessionLost => 1
  }

  function ClosedForm(d: int, e: nat): int {
    if e == 0 then d else Min(MAX_DELAY, Pow2(e) * d)
  }

  lemma DoubleProduct(p: int, d: int)
    ensures 2 * p * d == 2 * (p * d)
  {
  }

  lemma BackoffOfProduct(x: int, d: int)
    requires 0 <= d <= x && d < TWO62
    ensures Backoff(Min(MAX_DELAY, x), d, MAX_DELAY) == Min(MAX_DELAY, 2 * x)
    ensures x < TWO62 ==> Backoff(x, d, MAX_DELAY) == Min(MAX_DELAY, 2 * x)
  {
  }

  lemma BackoffDoubles(d: int, e: nat)
    requires 0 <= d < TWO62
    ensures Backoff(ClosedForm(d, e), d, MAX_DELAY) == ClosedForm(d, e + 1)
  {
    PowGrows(d, e);
    DoubleProduct(Pow2(e), d);
    BackoffOfProduct(Pow2(e) * d, d);
  }

  /** The loop variable follows the closed form, whatever the mix of outcomes. */
  lemma {:induction false} DelayClosedForm(d: int, h: seq<Outcome>)
    requires 0 <= d < TWO62
    ensures Delay(d, h) == ClosedForm(d, Exponent(h))
  {
    if h == [] {
    } else {
      DelayClosedForm(d, h[..|h| - 1]);
      BackoffDoubles(d, Exponent(h[..|h| - 1]));
      BackoffDoubles(d, 0);
    }
  }

  /** k connect failures in a row leave the exponent k higher. */
  lemma {:induction false} FailuresRaiseExponent(h: seq<Outcome>, k: nat)
    ensures Exponent(h + seq(k, _ => ConnectFailed)) == Exponent(h) + k
  {
    var t := h + seq(k, _ => ConnectFailed);
    if k == 0 {
      assert t == h;
    } else {
      assert t[..|t| - 1] == h + seq(k - 1, _ => ConnectFailed);
      FailuresRaiseExponent(h, k - 1);
    }
  }

  /** A connect failure after the history h sleeps the next capped power of two. */
  lemma FailureSleeps(d: int, h: seq<Outcome>)
    requires 0 <= d < TWO62
    ensures SleepAfter(d, h, ConnectFailed) == Min(MAX_DELAY, Pow2(Exponent(h) + 1) * d)
  {
    DelayClosedForm(d, h);
    BackoffDoubles(d, Exponent(h));
  }

  /** From start-up, the k-th connect failure in a row (k >= 1) sleeps min(60s, 2^k * d). */
  lemma FailureSleepFromStart(d: int, k: nat)
    requires 0 <= d < TWO62 && k >= 1
    ensures SleepAfter(d, seq(k - 1, _ => ConnectFailed), ConnectFailed) == Min(MAX_DELAY, Pow2(k) * d)
  {
    var h := seq(k - 1, _ => ConnectFailed);
    assert h == [] + h;
    FailuresRaiseExponent([], k - 1);
    FailureSleeps(d, h);
  }

  /** After a lost session the loop sleeps d, and the k-th failure in a row then sleeps min(60s, 2^(k+1) * d). */
  lemma FailureSleepAfterLoss(d: int, h: seq<Outcome>, k: nat)
    requires 0 <= d < TWO62 && k >= 1
    ensures SleepAfter(d, h, SessionLost) == d
    ensures SleepAfter(d, h + [SessionLost] + seq(k - 1, _ => ConnectFailed), ConnectFailed)
         == Min(MAX_DELAY, Pow2(k + 1) * d)
  {
    FailuresRaiseExponent(h + [SessionLost], k - 1);
    FailureSleeps(d, h + [SessionLost] + seq(k - 1, _ => ConnectFailed));
  }

  /** Failed idle reads and failed endpoint selections can be struck from the history. */
  lemma QuietOutcomesKeepDelay(d: int, h: seq<Outcome>, o: Outcome)
    requires o == IdleFailed || o == EndpointFailed
    ensures Delay(d, h + [o]) == Delay(d, h) == SleepAfter(d, h, o)
  {
    assert (h + [o])[..|h|] == h;
  }

  /** For 0 < d <= 60s no sleep is shorter than d or longer than 60s. */
  lemma SleepWithinBounds(d: int, h: seq<Outcome>, o: Outcome)
    requires 0 < d <= MAX_DELAY
    ensures d <= SleepAfter(d, h, o) <= MAX_DELAY
  {
    DelayClosedForm(d, h);
    var e := Exponent(h);
    BackoffDoubles(d, e);
    PowGrows(d, e);
    PowGrows(d, e + 1);
  }

  lemma PowGrows(d: int, e: nat)
    requires d >= 0
    ensures Pow2(e) * d >= d
  {
    assert (Pow2(e) - 1) * d >= 0;
  }

  /** The first failure sleeps the capped double exactly when doubling d does not wrap; when it does wrap it sleeps d. */
  lemma CapHoldsUnlessDoublingWraps(d: int)
    requires 0 <= d < TWO63
    ensures Backoff(d, d, MAX_DELAY) == Min(60_000_000_000, 2 * d) <==> d < 0x4000_0000_0000_0000
    ensures d >= 0x4000_0000_0000_0000 ==> Backoff(d, d, MAX_DELAY) == d
  {
    if d >= TWO62 {
      assert Wrap64(2 * d) == 2 * d - TWO64;
    }
  }

  /** A configured delay of up to 300 seconds never wraps: neither in nanoseconds nor when doubled. */
  lemma ConfiguredDelayDoesNotWrap(seconds: int, h: seq<Outcome>)
    requires 0 <= seconds <= 300
    ensures var d := Wrap64(seconds * 1_000_000_000);
            && d == seconds * 1_000_000_000 < TWO62
            && -TWO63 <= 2 * Delay(d, h) < TWO63
  {
    var d := seconds * SECOND;
    DelayClosedForm(d, h);
    PowGrows(d, Exponent(h));
  }
}
