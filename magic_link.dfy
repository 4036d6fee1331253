/**
 * The "magic link sent" screen: the masked address it shows, and the
 * resend button with its one-minute cool-down driven by a one-second timer.
 *
 * The timer itself is not modelled; each firing of the interval is a call
 * of `Tick`. The resend callback is counted, not performed.
 */
module MagicLink {
  import opened Wrappers
  import opened Text

  /** The cool-down, in seconds, shown when resending is re-enabled. */
  const CoolDown := 60

  function Max(a: int, b: int): int { if a >= b then a else b }

  /**
   * `maskEmail` on the part before the first '@': its first character, at
   * least one '*', and its last character when it has more than one.
   */
  function MaskLocal(username: string): (r: string)
    ensures |r| == if |username| >= 3 then |username| else |username| + 1
    ensures |username| >= 1 ==> r[0] == username[0]
    ensures |username| > 1 ==> r[|r| - 1] == username[|username| - 1]
    ensures var first := if |username| >= 1 then 1 else 0;
            var stars := Max(1, |username| - 2);
            first + stars <= |r| && forall i :: first <= i < first + stars ==> r[i] == '*'
  {
    (if |username| >= 1 then [username[0]] else "") +
    Repeat('*', Max(1, |username| - 2)) +
    (if |username| > 1 then [username[|username| - 1]] else "")
  }

  /**
   * `maskEmail(email)`: split at '@', mask the first piece, keep the second;
   * with no '@' the second piece is `undefined`, which prints as "undefined".
   */
  function MaskEmail(email: string): (r: string)
    ensures var local := match IndexOf(email, '@') case Some(n) => email[..n] case None => email;
      |MaskLocal(local)| < |r| && r[..|MaskLocal(local)| + 1] == MaskLocal(local) + "@"
  {
    var pieces := Split(email, '@');
    var domain := if |pieces| >= 2 then pieces[1] else "undefined";
    MaskLocal(pieces[0]) + "@" + domain
  }

  /** The first '@' of `u + [c] + t`, when `u` has none, is at |u|. */
  lemma {:induction false} IndexOfAfterFree(u: string, c: char, t: string)
    requires c !in u
    ensures IndexOf(u + [c] + t, c) == Some(|u|)
  {
    if u != [] {
      assert (u + [c] + t)[1..] == u[1..] + [c] + t;
      IndexOfAfterFree(u[1..], c, t);
    }
  }

  /** Splitting `u + "@" + rest` gives `u` and then the pieces of `rest`. */
  lemma SplitAt(u: string, rest: string)
    requires '@' !in u
    ensures Split(u + "@" + rest, '@') == [u] + Split(rest, '@')
  {
    var s := u + "@" + rest;
    IndexOfAfterFree(u, '@', rest);
    assert s[..|u|] == u;
    assert s[|u| + 1..] == rest;
  }

  /** A piece without '@' splits into itself. */
  lemma SplitFree(d: string)
    requires '@' !in d
    ensures Split(d, '@') == [d]
  {
  }

  /** `u@d`, with neither part holding an '@', is shown as the masked `u`, an '@' and `d` unchanged. */
  lemma MaskKeepsDomain(u: string, d: string)
    requires '@' !in u && '@' !in d
    ensures MaskEmail(u + "@" + d) == MaskLocal(u) + "@" + d
  {
    SplitAt(u, d);
    SplitFree(d);
  }

  /** Text after a second '@' is dropped. */
  lemma MaskDropsAfterSecondAt(u: string, d: string, rest: string)
    requires '@' !in u && '@' !in d
    ensures MaskEmail(u + "@" + d + "@" + rest) == MaskLocal(u) + "@" + d
  {
    var tail := d + "@" + rest;
    assert u + "@" + tail == u + "@" + d + "@" + rest;
    SplitAt(u, tail);
    SplitAt(d, rest);
    var pieces := Split(u + "@" + tail, '@');
    assert pieces == [u] + ([d] + Split(rest, '@'));
    assert pieces[0] == u && pieces[1] == d;
  }

  /** Without an '@' the whole input is masked and the domain reads "undefined". */
  lemma MaskWithoutAt(email: string)
    requires '@' !in email
    ensures MaskEmail(email) == MaskLocal(email) + "@undefined"
  {
    SplitFree(email);
  }

  /** The resend button's state: whether it is disabled and the seconds left. */
  datatype Timer = Timer(resendDisabled: bool, countdown: int)

  /** One firing of the interval; it only runs while resending is disabled. */
  function Tick(t: Timer): (r: Timer)
    ensures !t.resendDisabled ==> r == t
    ensures r.resendDisabled ==> r.countdown == t.countdown - 1 && t.countdown > 1
    ensures t.resendDisabled && !r.resendDisabled ==> r.countdown == CoolDown
  {
    if !t.resendDisabled then t
    else if t.countdown <= 1 then Timer(false, CoolDown)
    else Timer(true, t.countdown - 1)
  }

  function Ticks(t: Timer, n: nat): Timer
    decreases n
  {
    if n == 0 then t else Ticks(Tick(t), n - 1)
  }

  /** The countdown stays within 1..60. */
  predicate InRange(t: Timer) { 1 <= t.countdown <= CoolDown }

  lemma TickKeepsRange(t: Timer)
    requires InRange(t)
    ensures InRange(Tick(t))
    ensures Tick(t).resendDisabled ==> Tick(t).countdown == t.countdown - 1
  {
  }

  /**
   * From `c` seconds left, the button stays disabled for the next `c - 1`
   * firings, counting down by one each time, and the `c`-th firing re-enables
   * it with the countdown back at 60.
   */
  lemma {:induction false} CountdownRuns(c: int, n: nat)
    requires 1 <= c && n <= c
    ensures n < c ==> Ticks(Timer(true, c), n) == Timer(true, c - n)
    ensures n == c ==> Ticks(Timer(true, c), n) == Timer(false, CoolDown)
  {
    if n > 0 {
      if c == 1 {
        assert Ticks(Timer(true, c), n) == Ticks(Timer(false, CoolDown), 0);
      } else {
        assert Tick(Timer(true, c)) == Timer(true, c - 1);
        CountdownRuns(c - 1, n - 1);
      }
    }
  }

  /** After a resend, the button comes back after exactly sixty firings. */
  lemma ResendCoolDown()
    ensures forall n: nat :: n < CoolDown ==> Ticks(Timer(true, CoolDown), n).resendDisabled
    ensures Ticks(Timer(true, CoolDown), CoolDown) == Timer(false, CoolDown)
  {
    forall n: nat | n < CoolDown
      ensures Ticks(Timer(true, CoolDown), n).resendDisabled
    {
      CountdownRuns(CoolDown, n);
    }
    CountdownRuns(CoolDown, CoolDown);
  }

  /** The component's state; `linksRequested` counts calls of the resend callback. */
  class ResendButton {
    var resendDisabled: bool
    var countdown: int
    var linksRequested: nat

    function State(): Timer
      reads this
    {
      Timer(resendDisabled, countdown)
    }

    ghost predicate Valid()
      reads this
    {
      InRange(State())
    }

    constructor ()
      ensures Valid() && !resendDisabled && countdown == CoolDown && linksRequested == 0
    {
      resendDisabled := false;
      countdown := CoolDown;
      linksRequested := 0;
    }

    /** `handleResendLink`: request a new link and disable the button, unless it is already disabled. */
    method HandleResendLink()
      modifies this`resendDisabled, this`linksRequested
      ensures old(resendDisabled) ==> resendDisabled && linksRequested == old(linksRequested)
      ensures !old(resendDisabled) ==> resendDisabled && linksRequested == old(linksRequested) + 1
    {
      if !resendDisabled {
        linksRequested := linksRequested + 1;
        resendDisabled := true;
      }
    }

    /** One firing of the interval's `setCountdown` updater. */
    method OnTick()
      requires Valid()
      modifies this`resendDisabled, this`countdown
      ensures Valid()
      ensures State() == Tick(old(State()))
    {
      if resendDisabled {
        if countdown <= 1 {
          resendDisabled := false;
          countdown := CoolDown;
        } else {
          countdown := countdown - 1;
        }
      }
    }
  }
}
