/** When a renewal is granted, for how long, and what keeps an execution alive. */
module LeaseAnswers {
  import opened Prelude
  import opened Devices
  import opened Access
  import opened AccessAnswers
  import opened Delegation
  import opened Guard
  import G = Guard

  // ----- The authority ---------------------------------------------------------------------------------

  /** A lease ends with the first of twenty seconds, the proof, the credential and the share, and no sooner. */
  lemma LeaseEndsExactly(c: Claims, now: int, ttl: int)
    ensures LeaseOf(c, now, ttl) <==>
      && ttl <= 20_000_000_000
      && (c.expires > 0 ==> now + ttl <= c.expires * 1_000_000)
      && (c.identity.expiresAt > 0 ==> now + ttl <= c.identity.expiresAt * 1_000_000_000)
      && (c.authorization.expiresAt > 0 ==> now + ttl <= c.authorization.expiresAt * 1_000_000_000)
      && (ttl == 20_000_000_000 || (c.expires > 0 && now + ttl == c.expires * 1_000_000)
          || (c.identity.expiresAt > 0 && now + ttl == c.identity.expiresAt * 1_000_000_000)
          || (c.authorization.expiresAt > 0 && now + ttl == c.authorization.expiresAt * 1_000_000_000))
  {
    if c.expires > 0 {
      assert c.expires * MS in Expiries(c);
    }
    if c.identity.expiresAt > 0 {
      assert c.identity.expiresAt * SECOND in Expiries(c);
    }
    if c.authorization.expiresAt > 0 {
      assert c.authorization.expiresAt * SECOND in Expiries(c);
    }
  }

  /** The caller's standing: for an owned device exactly what the store grants it now, which allows the operation; for
      another one that names a caller, that caller's credential; and anybody else is not asked. */
  lemma CheckExactly(s: Store, c: Claims, operation: string, now: int, late: int)
    ensures Check(s, c, operation, now, late) == Accepted <==>
      if c.binding.ownershipId != NONE then
        && Resolve(s, c.authorization.binding.deviceUid, c.identity, now, late) == Some(c.authorization)
        && operation in OPERATIONS && operation in c.authorization.permissions
      else c.identity.principalId == NONE || Genuine(s, c.identity, now)
    ensures Check(s, c, operation, now, late) != Unreadable
  {
    GenuineExactly(s, c.identity, now);
    hide Resolve, VerifyActor, Genuine;
  }

  /** The claims are renewed exactly while the device accepts invocations under the binding they name, and the caller,
      where there is one, keeps its standing. */
  lemma EntitledExactly(c: Claims, loaded: Loaded, verdict: Verdict)
    ensures Entitled(c, loaded, verdict) <==>
      && loaded.Row? && loaded.device.inbound && c.binding.deviceUid != NONE && c.binding.deviceUid == loaded.device.uid
      && (if loaded.device.ownershipId != NONE then c.binding == Binding(loaded.device.uid, NONE, loaded.device.ownershipId)
          else loaded.device.grantId != NONE && c.binding == Binding(loaded.device.uid, loaded.device.grantId, NONE))
      && (c.binding.ownershipId != NONE || c.identity.principalId != NONE ==> verdict == Accepted)
  {
  }

  /** Either the claims are entitled, or they are barred, or some read has failed. */
  lemma EntitledOrBarred(c: Claims, loaded: Loaded, verdict: Verdict)
    ensures !(Entitled(c, loaded, verdict) && Barred(c, loaded, verdict))
    ensures !Entitled(c, loaded, verdict) && !Barred(c, loaded, verdict) ==>
      loaded == Broken || (NeedsCaller(c) && verdict == Unreadable)
  {
  }

  /** A share just made renews at once for its member, over a device that accepts invocations. */
  lemma SharedExecutionRenews(s: Store, number: string, uid: Id, who: Identity, operation: string, now: int, late: int)
    requires uid in s.devices && uid != NONE && s.devices[uid].inbound && Genuine(s, who, now)
    requires Owner(s, uid, who) || (Shared(s, uid, who, late) && operation in s.shares[ShareKey(s.owners[uid].id, who.membershipId)].permissions)
    requires operation in OPERATIONS
    ensures var told := Resolve(s, uid, who, now, late);
      && told.Some?
      && var c := Claims(s.authority, number, told.value.binding, who, told.value, 0);
         Entitled(c, Row(DeviceOf(s, uid)), Check(s, c, operation, now, late))
  {
    ResolvedExactly(s, uid, who, now, late);
    hide Resolve, Genuine;
    var told := Resolve(s, uid, who, now, late).value;
    var c := Claims(s.authority, number, told.binding, who, told, 0);
    CheckExactly(s, c, operation, now, late);
    EntitledExactly(c, Row(DeviceOf(s, uid)), Check(s, c, operation, now, late));
    hide Check, Entitled;
  }

  // ----- The guard -------------------------------------------------------------------------------------

  /** A reply renews exactly when it is a lease of 1 ms to 20 s that arrives before the deadline of 5 s, before the old
      expiry and before its own end, which counts from the request; a refusal or a lease of any other length ends the
      execution at once. */
  lemma ReplyAnswers(start: int, until: int, finish: int, answer: Answer)
    ensures var r := G.Request(start, until, finish, answer);
      && (r.Renewed? <==>
            && answer.Lease? && 1 <= answer.ms <= 20_000
            && finish < start + 5_000_000_000 && finish < until && finish < start + answer.ms * 1_000_000)
      && (r.Renewed? ==> r.expires == start + answer.ms * 1_000_000)
      && (r == RefusedNow <==> answer.Refusal? || (answer.Lease? && !(1 <= answer.ms <= 20_000)))
  {
  }

  /** The wait before the next request: a third of what is left, but 10 ms at least and 5 s at most, and never more
      than is left. */
  lemma WaitAnswers(remaining: int)
    requires remaining > 0
    ensures var w := Wait(remaining);
      && 0 < w <= remaining && w <= 5_000_000_000
      && (30_000_000 <= remaining <= 15_000_000_000 ==> 3 * w <= remaining < 3 * w + 3)
      && (remaining < 30_000_000 ==> w == 10_000_000 || w == remaining)
      && (remaining > 15_000_000_002 ==> w == 5_000_000_000)
  {
  }

  /** A relay that grants nearly full leases within a second. */
  predicate Healthy(turns: seq<Turn>) {
    forall t <- turns ::
      !t.stopped && t.answer.Lease? && 19_000 <= t.answer.ms <= 20_000 && t.finish <= t.start + 1_000_000_000
  }

  /** Keeps the execution alive for as long as it does so: each renewal comes long before the expiry it replaces. */
  lemma {:induction false} HealthyLoopLives(c: Claims, since: int, expires: int, turns: seq<Turn>, slack: nat)
    requires Plausible(c, since, Active(expires), turns, slack) && Healthy(turns)
    requires slack <= 100_000_000 && since + 17_000_000_000 <= expires
    ensures var g := Turns(Active(expires), turns);
      g.Active? && (turns == [] || turns[|turns| - 1].finish + 17_000_000_000 <= g.expires)
    decreases |turns|
  {
    if turns != [] {
      var t := turns[0];
      assert t in turns;
      WaitAnswers(expires - t.top);
      ReplyAnswers(t.start, expires, t.finish, t.answer);
      hide Wait, G.Request;
      assert TurnStep(expires, t) == Active(t.start + t.answer.ms * 1_000_000);
      HealthyLoopLives(c, t.finish, t.start + t.answer.ms * 1_000_000, turns[1..], slack);
    }
  }

  /** A refusal ends the execution in the turn that brings it, and so does the end of its context. */
  lemma RefusalEndsTheLoop(expires: int, t: Turn, more: seq<Turn>)
    requires t.top < expires && (t.stopped || t.answer.Refusal?)
    ensures Turns(Active(expires), [t] + more) == if t.stopped then Cancelled(t.start, Ended) else Cancelled(t.finish, Unauthorized)
  {
    assert ([t] + more)[1..] == more;
  }
}
