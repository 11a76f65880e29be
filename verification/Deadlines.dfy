/** The clock arithmetic of a request: seconds on the monotonic clock, milliseconds on the
    wall clock, two roundings. Both clocks advance together; `offset` is their difference. */
module Deadlines {
  const TTL: real := 120.0
  const WINDOW: int := 120000

  /** Python's `int` rounds towards zero. */
  function Truncate(x: real): int {
    if x < 0.0 then -(-x).Floor else x.Floor
  }

  /** `int(time.time() * 1000)` at the monotonic time `at`. */
  function WallMillis(at: real, offset: real): int {
    Truncate((at + offset) * 1000.0)
  }

  /** The authority reads the wall clock at `at` and the monotonic clock a moment later. */
  function SignedExpiry(at: real, later: real, deadline: real, offset: real): int {
    WallMillis(at, offset) + Truncate((deadline - later) * 1000.0)
  }

  /** The host gives up at `deadline`: on the wall clock, in milliseconds. */
  function WallDeadline(deadline: real, offset: real): real {
    (deadline + offset) * 1000.0
  }

  predicate NeverLater(at: real, later: real, deadline: real, offset: real) {
    SignedExpiry(at, later, deadline, offset) as real <= WallDeadline(deadline, offset)
  }

  lemma TruncateRounds(x: real)
    ensures 0.0 <= x ==> Truncate(x) as real <= x < Truncate(x) as real + 1.0 && Truncate(x) >= 0
    ensures x <= 0.0 ==> Truncate(x) as real >= x && Truncate(x) <= 0
  {
  }

  /** The signed expiry never lies after the host's deadline when the request was built
      before it. The phone accepts no other: it asks for `expires > issued`. */
  lemma ExpiryWithinDeadline(at: real, later: real, deadline: real, offset: real)
    requires at <= later && at + offset >= 0.0
    requires later <= deadline || SignedExpiry(at, later, deadline, offset) > WallMillis(at, offset)
    ensures NeverLater(at, later, deadline, offset)
  {
    TruncateRounds((at + offset) * 1000.0);
    TruncateRounds((deadline - later) * 1000.0);
  }

  /** Exactly which readings are safe on every wall clock: the rounded remainder must not
      exceed the true one. */
  lemma SafeOnEveryClock(at: real, later: real, deadline: real)
    requires at <= later
    ensures (forall offset: real :: at + offset >= 0.0 ==> NeverLater(at, later, deadline, offset))
        <==> Truncate((deadline - later) * 1000.0) as real <= (deadline - at) * 1000.0
  {
    var remainder := Truncate((deadline - later) * 1000.0);
    if remainder as real <= (deadline - at) * 1000.0 {
      forall offset: real | at + offset >= 0.0
        ensures NeverLater(at, later, deadline, offset)
      {
        TruncateRounds((at + offset) * 1000.0);
      }
    } else {
      var offset := -at;
      assert (at + offset) * 1000.0 == 0.0;
      assert WallMillis(at, offset) == 0;
      assert !NeverLater(at, later, deadline, offset);
    }
  }

  function Fraction(x: real): (f: real)
    ensures 0.0 <= f < 1.0
  {
    x - x.Floor as real
  }

  /** Exactly which readings are safe on one wall clock: what the rounded remainder has too
      much, the wall clock's own fraction of a millisecond must make up for. */
  lemma SafeOnThisClock(at: real, later: real, deadline: real, offset: real)
    requires at <= later && at + offset >= 0.0
    ensures NeverLater(at, later, deadline, offset)
        <==> Truncate((deadline - later) * 1000.0) as real - (deadline - at) * 1000.0 <= Fraction((at + offset) * 1000.0)
  {
    assert WallDeadline(deadline, offset) == (at + offset) * 1000.0 + (deadline - at) * 1000.0;
  }

  /** Rounding towards zero is the flaw: half a millisecond past the deadline, on a clock of
      October 2025, the expiry written into the request lies after it. The phone refuses that
      request. */
  lemma LateRequestIsStampedLater()
    ensures !NeverLater(120.0005, 120.0005, TTL, 1760000000.0005)
    ensures SignedExpiry(120.0005, 120.0005, TTL, 1760000000.0005) == WallMillis(120.0005, 1760000000.0005)
  {
    assert (TTL - 120.0005) * 1000.0 == -0.5;
    assert Truncate(-0.5) == -(0.5).Floor == 0;
    assert (120.0005 + 1760000000.0005) * 1000.0 == 1760000120001.0;
  }

  /** The window of a request is never longer than the phone allows. */
  lemma WindowIsBounded(start: real, at: real, later: real, offset: real)
    requires start <= at <= later && at + offset >= 0.0
    ensures SignedExpiry(at, later, start + TTL, offset) - WallMillis(at, offset) <= WINDOW
  {
    var left := (start + TTL - later) * 1000.0;
    TruncateRounds(left);
    assert left <= 120000.0;
  }

  /** `host.py` stamps the expiry before it starts its own clock. */
  lemma HostStampsFirst(at: real, started: real, offset: real)
    requires at <= started && at + offset >= 0.0
    ensures (WallMillis(at, offset) + WINDOW) as real <= WallDeadline(started + TTL, offset)
  {
    TruncateRounds((at + offset) * 1000.0);
  }
}
