/** The loop that keeps a running execution authorized (internal/delegation/guard.go) and the lease as
    the device reads it (internal/noderun/delegation.go). */
module Guard {
  import opened Prelude
  import opened Delegation

  const TIMEOUT: int := 5 * SECOND
  const INTERVAL: int := 5 * SECOND
  const SHORTEST_WAIT: int := 10 * MS
  const LEASE_MS: int := 20_000

  /** The relay's reply as it reaches the device. `read` is when the authority made its first storage
      read for it, `at` when it evaluated the expiries, `ms` the lease it then granted. */
  datatype Answer = Lease(read: int, at: int, ms: int) | Refusal | Failure

  /** One turn of the loop: the clock is read at `top`, the timer fires and the request starts at
      `start`, and the call returns at `finish`. `stopped` means that the context ended first. */
  datatype Turn = Turn(top: int, start: int, stopped: bool, finish: int, answer: Answer)

  datatype Cause = Expired | Unauthorized | Ended
  datatype Guard = Active(expires: int) | Cancelled(at: int, cause: Cause)

  datatype Reply = Renewed(expires: int) | RefusedNow | NoReply

  function Request(start: int, until: int, finish: int, answer: Answer): Reply {
    var deadline := Min(start + TIMEOUT, until);
    match answer
    case Refusal => RefusedNow
    case Failure => NoReply
    case Lease(_, _, ms) =>
      if ms <= 0 || ms > LEASE_MS then RefusedNow
      else if finish >= deadline || start + ms * MS <= finish then NoReply
      else Renewed(start + ms * MS)
  }

  function Wait(remaining: int): int
    requires remaining > 0
  {
    var third := remaining / 3;
    var wait := if third > INTERVAL then INTERVAL else if third < SHORTEST_WAIT then SHORTEST_WAIT else third;
    Min(wait, remaining)
  }

  function TurnStep(expires: int, t: Turn): Guard {
    if expires - t.top <= 0 then Cancelled(t.top, Expired)
    else if t.stopped then Cancelled(t.start, Ended)
    else
      match Request(t.start, expires, t.finish, t.answer)
      case Renewed(next) => Active(next)
      case RefusedNow => Cancelled(t.finish, Unauthorized)
      case NoReply => Active(expires)
  }

  function Turns(g: Guard, turns: seq<Turn>): Guard
    decreases |turns|
  {
    if turns == [] || g.Cancelled? then g else Turns(TurnStep(g.expires, turns[0]), turns[1..])
  }

  /** The first request decides whether there is a guarded context at all. */
  function Open(start: int, finish: int, answer: Answer): Guard {
    match Request(start, start + TIMEOUT, finish, answer)
    case Renewed(expires) => Active(expires)
    case RefusedNow => Cancelled(finish, Unauthorized)
    case NoReply => Cancelled(finish, Expired)
  }

  method RequestLease(start: int, until: int, finish: int, answer: Answer) returns (r: Reply)
    ensures r == Request(start, until, finish, answer)
  {
    var deadline := until;
    if start + TIMEOUT < deadline {
      deadline := start + TIMEOUT;
    }
    match answer {
      case Refusal => return RefusedNow;
      case Failure => return NoReply;
      case Lease(_, _, ms) =>
        if ms <= 0 || ms > LEASE_MS {
          return RefusedNow;
        }
        if finish >= deadline {
          return NoReply;
        }
        var expires := start + ms * MS;
        if expires <= finish {
          return NoReply;
        }
        return Renewed(expires);
    }
  }

  /** The loop, over the turns the clock and the relay make of it. */
  method Maintain(start: int, finish: int, answer: Answer, turns: seq<Turn>) returns (g: Guard)
    ensures g == Turns(Open(start, finish, answer), turns)
  {
    var first := RequestLease(start, start + TIMEOUT, finish, answer);
    if !first.Renewed? {
      return Cancelled(finish, if first == RefusedNow then Unauthorized else Expired);
    }
    var expires := first.expires;
    for i := 0 to |turns|
      invariant Turns(Active(expires), turns[i..]) == Turns(Open(start, finish, answer), turns)
    {
      var t := turns[i];
      assert turns[i..][1..] == turns[i + 1..];
      var remaining := expires - t.top;
      if remaining <= 0 {
        return Cancelled(t.top, Expired);
      }
      if t.stopped {
        return Cancelled(t.start, Ended);
      }
      var reply := RequestLease(t.start, expires, t.finish, t.answer);
      match reply {
        case Renewed(next) =>
          expires := next;
        case RefusedNow =>
          return Cancelled(t.finish, Unauthorized);
        case NoReply =>
      }
    }
    assert turns[|turns|..] == [];
    return Active(expires);
  }

  // ----- What the clock and the relay may do ---------------------------------------------------------

  /** A granted lease was read, evaluated and received in this order, between sending the request and
      its return, and is the authority's lease for `c` in whole milliseconds. */
  ghost predicate Honest(c: Claims, start: int, finish: int, answer: Answer) {
    && start <= finish
    && (answer.Lease? ==>
          && start <= answer.read <= answer.at <= finish
          && exists ttl :: LeaseOf(c, answer.at, ttl) && ttl > 0 && answer.ms == ttl / MS)
  }

  /** Wake-ups are at most `slack` late: the loop goes on at `top` after `since`, the timer fires after
      its wait, and a call returns when its deadline passes. A stopped context wakes the timer early. */
  predicate Prompt(since: int, expires: int, t: Turn, slack: nat) {
    && since <= t.top <= since + slack
    && (expires > t.top ==>
          && t.top <= t.start <= t.top + Wait(expires - t.top) + slack
          && (!t.stopped ==> t.top + Wait(expires - t.top) <= t.start)
          && t.start <= t.finish && (t.finish <= Min(t.start + TIMEOUT, expires) + slack || t.finish <= t.start + slack))
  }

  /** Every turn is prompt and honest, as long as the guard lives. */
  ghost predicate Plausible(c: Claims, since: int, g: Guard, turns: seq<Turn>, slack: nat)
    decreases |turns|
  {
    turns == [] || g.Cancelled?
    || (Prompt(since, g.expires, turns[0], slack)
        && (g.expires > turns[0].top && !turns[0].stopped ==>
              Honest(c, turns[0].start, turns[0].finish, turns[0].answer))
        && Plausible(c, turns[0].finish, TurnStep(g.expires, turns[0]), turns[1..], slack))
  }

  // ----- The lease bound -----------------------------------------------------------------------------

  /** Every granted lease read its storage by `r`. */
  predicate ReadsUntil(r: int, turns: seq<Turn>) {
    forall t <- turns :: t.answer.Lease? ==> t.answer.read <= r
  }

  /** A confirmed expiry is covered by the last successful read and by every expiry of the claims. */
  ghost predicate Covered(c: Claims, r: int, expires: int) {
    expires <= r + LEASE && forall e <- Expiries(c) :: expires <= e
  }

  lemma RenewedIsCovered(c: Claims, r: int, start: int, until: int, finish: int, answer: Answer)
    requires Honest(c, start, finish, answer) && (answer.Lease? ==> answer.read <= r)
    requires Request(start, until, finish, answer).Renewed?
    ensures Covered(c, r, Request(start, until, finish, answer).expires)
    ensures finish < Request(start, until, finish, answer).expires
  {
    var ttl :| LeaseOf(c, answer.at, ttl) && ttl > 0 && answer.ms == ttl / MS;
    assert answer.ms * MS <= ttl;
  }

  lemma WaitIsShort(remaining: int)
    requires remaining > 0
    ensures 0 < Wait(remaining) <= remaining
    ensures Wait(remaining) == remaining || Wait(remaining) >= SHORTEST_WAIT
  {
  }

  lemma {:induction false} TurnsAreCovered(c: Claims, r: int, since: int, g: Guard, turns: seq<Turn>, slack: nat)
    requires Plausible(c, since, g, turns, slack) && ReadsUntil(r, turns)
    requires g.Active? && Covered(c, r, g.expires) && since <= g.expires + 2 * slack
    ensures match Turns(g, turns)
      case Active(expires) =>
        Covered(c, r, expires) && (turns != [] ==> turns[|turns| - 1].finish <= expires + 2 * slack)
      case Cancelled(at, _) =>
        at <= r + LEASE + 3 * slack && forall e <- Expiries(c) :: at <= e + 3 * slack
    decreases |turns|
  {
    if turns != [] {
      var t := turns[0];
      var next := TurnStep(g.expires, t);
      assert t in turns;
      if g.expires > t.top {
        WaitIsShort(g.expires - t.top);
      }
      if next.Active? {
        if Request(t.start, g.expires, t.finish, t.answer).Renewed? {
          RenewedIsCovered(c, r, t.start, g.expires, t.finish, t.answer);
        }
        assert ReadsUntil(r, turns[1..]);
        TurnsAreCovered(c, r, t.finish, next, turns[1..], slack);
      }
    }
  }

  /** When every storage read after `r` is refused, the execution is cancelled by r + 20 s, and never
      later than the end of its proof, of the caller's credential or of his share; late wake-ups add
      at most three times their lateness. A context that is still alive is within the same bounds. */
  lemma LeaseBound(c: Claims, r: int, start: int, finish: int, answer: Answer, turns: seq<Turn>, slack: nat)
    requires Honest(c, start, finish, answer) && Open(start, finish, answer).Active?
    requires Plausible(c, finish, Open(start, finish, answer), turns, slack)
    requires answer.Lease? ==> answer.read <= r
    requires ReadsUntil(r, turns)
    ensures var g := Turns(Open(start, finish, answer), turns);
      var last := if g.Cancelled? then g.at else if turns == [] then finish else turns[|turns| - 1].finish;
      last <= r + LEASE + 3 * slack && forall e <- Expiries(c) :: last <= e + 3 * slack
  {
    RenewedIsCovered(c, r, start, start + TIMEOUT, finish, answer);
    TurnsAreCovered(c, r, finish, Open(start, finish, answer), turns, slack);
  }

  // ----- Failing renewals end ------------------------------------------------------------------------

  /** The attempts a lease with `remaining` time leaves room for when each fails at once. */
  function Attempts(remaining: int): nat
    decreases if remaining > 0 then remaining else 0
  {
    if remaining <= 0 then 0 else
    assert Wait(remaining) > 0;
    1 + Attempts(remaining - Wait(remaining))
  }

  lemma WaitLeavesMore(a: int, b: int)
    requires 0 < a <= b
    ensures a - Wait(a) <= b - Wait(b)
  {
  }

  lemma {:induction false} AttemptsGrow(a: int, b: int)
    requires a <= b
    ensures Attempts(a) <= Attempts(b)
    decreases if b > 0 then b else 0
  {
    if a > 0 {
      WaitLeavesMore(a, b);
      AttemptsGrow(a - Wait(a), b - Wait(b));
    }
  }

  /** No turn before `expires` brings a usable reply: the relay was silent, answered after the deadline, or
      with a lease that was already over. */
  predicate AllFail(expires: int, turns: seq<Turn>) {
    forall t <- turns :: t.top < expires ==> !t.stopped && Request(t.start, expires, t.finish, t.answer) == NoReply
  }

  /** With every request failing the loop ends, for the old expiry and no grace, after no more turns
      than the waits allow. */
  lemma {:induction false} FailingTurnsEnd(c: Claims, since: int, expires: int, turns: seq<Turn>, slack: nat)
    requires Plausible(c, since, Active(expires), turns, slack) && AllFail(expires, turns)
    requires since <= expires + 2 * slack && |turns| > Attempts(expires - since)
    ensures var g := Turns(Active(expires), turns);
      g.Cancelled? && g.cause == Expired && expires <= g.at <= expires + 3 * slack
    decreases |turns|
  {
    var t := turns[0];
    assert t in turns;
    if expires > t.top {
      WaitIsShort(expires - t.top);
      AttemptsGrow(expires - t.top, expires - since);
      assert Attempts(expires - t.top) == 1 + Attempts(expires - t.top - Wait(expires - t.top));
      AttemptsGrow(expires - t.finish, expires - t.top - Wait(expires - t.top));
      assert AllFail(expires, turns[1..]);
      FailingTurnsEnd(c, t.finish, expires, turns[1..], slack);
    }
  }

  lemma Attempt(a: nat, b: nat)
    requires 0 < a && a * MS - Wait(a * MS) <= b * MS
    ensures Attempts(a * MS) <= 1 + Attempts(b * MS)
  {
    AttemptsGrow(a * MS - Wait(a * MS), b * MS);
  }

  /** A whole lease leaves room for 20 attempts at most. */
  lemma AttemptsAreFew(remaining: int)
    requires remaining <= LEASE
    ensures Attempts(remaining) <= 20
  {
    hide Attempts;
    AttemptsGrow(remaining, LEASE);
    Attempt(20000, 15000);
    Attempt(15000, 10000);
    Attempt(10000, 6667);
    Attempt(6667, 4445);
    Attempt(4445, 2964);
    Attempt(2964, 1976);
    Attempt(1976, 1318);
    Attempt(1318, 879);
    Attempt(879, 586);
    Attempt(586, 391);
    Attempt(391, 261);
    Attempt(261, 174);
    Attempt(174, 116);
    Attempt(116, 78);
    Attempt(78, 52);
    Attempt(52, 35);
    Attempt(35, 24);
    Attempt(24, 14);
    Attempt(14, 4);
    Attempt(4, 0);
    NoAttempts();
  }

  lemma NoAttempts()
    ensures Attempts(0) == 0
  {
  }

  /** However the renewals fail, the loop is over after 21 turns. */
  lemma FailuresEndTheLoop(c: Claims, start: int, finish: int, answer: Answer, turns: seq<Turn>, slack: nat)
    requires Honest(c, start, finish, answer) && Open(start, finish, answer).Active?
    requires Plausible(c, finish, Open(start, finish, answer), turns, slack)
    requires AllFail(Open(start, finish, answer).expires, turns) && |turns| > 20
    ensures var expires := Open(start, finish, answer).expires;
      var g := Turns(Open(start, finish, answer), turns);
      g.Cancelled? && g.cause == Expired && expires <= g.at <= expires + 3 * slack
  {
    var expires := Open(start, finish, answer).expires;
    AttemptsAreFew(expires - finish);
    FailingTurnsEnd(c, finish, expires, turns, slack);
  }
}
