/** Renewable execution authority (internal/delegation/authority.go). Time is one integer clock in
    nanoseconds; lateness of the parties shows in when each step happens. */
module Delegation {
  import opened Prelude
  import opened Devices
  import opened Access
  import AccessHistory

  const MS: int := 1_000_000
  const SECOND: int := 1_000_000_000
  const LEASE: int := 20 * SECOND
  const PROOF_LIFETIME: int := 660 * SECOND
  const MAX_PROOF_BYTES := 4096
  const EXEC := "exec"

  /** `expires` is the end of the proof in milliseconds, 0 for a live route that needs no proof. */
  datatype Claims = Claims(
    authority: Id, number: string, binding: Binding, identity: Identity, authorization: Authorization, expires: int)

  /** The signature cannot be forged: a proof is either something the authority signed or noise. */
  datatype Proof = Signed(claims: Claims, size: nat) | Noise(size: nat)

  datatype Decision = Granted(ttl: int) | Declined | Failed

  /** What one read of the device row returned. */
  datatype Loaded = Row(device: Device) | Missing | Broken
  /** What the check of the caller returned. */
  datatype Verdict = Accepted | Rejected | Unreadable

  /** The instants at which an authority based on `c` must end. */
  function Expiries(c: Claims): set<int> {
    (if c.expires > 0 then {c.expires * MS} else {})
    + (if c.identity.expiresAt > 0 then {c.identity.expiresAt * SECOND} else {})
    + (if c.authorization.expiresAt > 0 then {c.authorization.expiresAt * SECOND} else {})
  }

  /** A lease is as long as it may be: twenty seconds, or exactly up to the first expiry. */
  ghost predicate LeaseOf(c: Claims, now: int, ttl: int) {
    && ttl <= LEASE
    && (forall e <- Expiries(c) :: now + ttl <= e)
    && (ttl == LEASE || exists e <- Expiries(c) :: now + ttl == e)
  }

  lemma LeaseIsUnique(c: Claims, now: int, a: int, b: int)
    requires LeaseOf(c, now, a) && LeaseOf(c, now, b)
    ensures a == b
  {
  }

  predicate NeedsCaller(c: Claims) {
    c.binding.ownershipId != NONE || c.identity.principalId != NONE
  }

  /** The reads allow a renewal at all. */
  predicate Entitled(c: Claims, loaded: Loaded, verdict: Verdict) {
    && c.binding.Matches(c.binding)
    && loaded.Row? && loaded.device.inbound && c.binding.Matches(loaded.device.Bound())
    && (NeedsCaller(c) ==> verdict == Accepted)
  }

  /** The reads refuse it: an answer, not a failure to get one. */
  predicate Barred(c: Claims, loaded: Loaded, verdict: Verdict) {
    || !c.binding.Matches(c.binding)
    || loaded == Missing
    || (loaded.Row? && (!loaded.device.inbound || !c.binding.Matches(loaded.device.Bound())
                        || (NeedsCaller(c) && verdict == Rejected)))
  }

  /** One renewal. `alive` tells whether the request was still wanted after the last read, `now` is the
      clock then. */
  method Renew(c: Claims, loaded: Loaded, verdict: Verdict, alive: bool, now: int) returns (d: Decision)
    ensures d.Granted? ==> Entitled(c, loaded, verdict) && alive && d.ttl > 0 && LeaseOf(c, now, d.ttl)
    ensures Barred(c, loaded, verdict) ==> d == Declined
    ensures Entitled(c, loaded, verdict) && alive ==>
      (d == Declined <==> exists e <- Expiries(c) :: e <= now) && d != Failed
    ensures !Entitled(c, loaded, verdict) && !Barred(c, loaded, verdict) ==> d == Failed
    ensures Entitled(c, loaded, verdict) && !alive ==> d == Failed
  {
    if !c.binding.Matches(c.binding) {
      return Declined;
    }
    if loaded == Missing {
      return Declined;
    }
    if loaded == Broken {
      return Failed;
    }
    if !loaded.device.inbound || !c.binding.Matches(loaded.device.Bound()) {
      return Declined;
    }
    if NeedsCaller(c) && verdict == Rejected {
      return Declined;
    }
    if NeedsCaller(c) && verdict == Unreadable {
      return Failed;
    }
    if !alive {
      return Failed;
    }
    var expires := now + LEASE;
    if c.expires > 0 && c.expires * MS < expires {
      expires := c.expires * MS;
    }
    var ends := [c.identity.expiresAt, c.authorization.expiresAt];
    for i := 0 to |ends|
      invariant expires <= now + LEASE
      invariant c.expires > 0 ==> expires <= c.expires * MS
      invariant forall k | 0 <= k < i :: ends[k] > 0 ==> expires <= ends[k] * SECOND
      invariant expires == now + LEASE || expires in Expiries(c)
    {
      if ends[i] > 0 && ends[i] * SECOND < expires {
        expires := ends[i] * SECOND;
        assert ends[i] == c.identity.expiresAt || ends[i] == c.authorization.expiresAt;
      }
    }
    assert expires <= now + LEASE && forall e <- Expiries(c) :: expires <= e by {
      assert ends[0] == c.identity.expiresAt && ends[1] == c.authorization.expiresAt;
    }
    assert LeaseOf(c, now, expires - now);
    if expires - now <= 0 {
      assert expires in Expiries(c);
      return Declined;
    }
    return Granted(expires - now);
  }

  // ----- Proofs --------------------------------------------------------------------------------------

  /** A proof of an authenticated connection; `size` is the length of its encoding. */
  function Issue(authority: Id, number: string, binding: Binding, identity: Identity, a: Authorization,
                 now: int, size: nat): Option<Proof>
    requires now >= 0
  {
    if !binding.Matches(binding) || size > MAX_PROOF_BYTES then None
    else Some(Signed(Claims(authority, number, binding, identity, a, (now + PROOF_LIFETIME) / MS), size))
  }

  /** The claims a proof stands for, as the authority accepts them from device `number`. */
  function Accept(authority: Id, number: string, uid: Id, proof: Proof, now: int): Option<Claims> {
    if proof.size == 0 || proof.size > MAX_PROOF_BYTES || proof.Noise? then None
    else
      var c := proof.claims;
      if c.authority != authority || c.number != number || c.binding.deviceUid != uid || c.expires <= now / MS then None
      else Some(c)
  }

  /** A proof is good for exactly eleven minutes, up to the millisecond it was issued in, for the
      device and authority it was issued for, and says what was issued. */
  lemma ProofRoundTrip(authority: Id, number: string, binding: Binding, identity: Identity, a: Authorization,
                       issued: int, size: nat, authority': Id, number': string, uid: Id, now: int)
    requires issued >= 0 && now >= 0 && size > 0
    requires Issue(authority, number, binding, identity, a, issued, size).Some?
    ensures var proof := Issue(authority, number, binding, identity, a, issued, size).value;
      var c := Accept(authority', number', uid, proof, now);
      && (c.Some? <==> authority' == authority && number' == number && uid == binding.deviceUid
                       && now / MS < (issued + PROOF_LIFETIME) / MS)
      && (c.Some? ==> c.value == Claims(authority, number, binding, identity, a, (issued + PROOF_LIFETIME) / MS))
  {
  }

  // ----- The check of the caller reads the store -------------------------------------------------------

  function Check(s: Store, c: Claims, operation: string, now: int, late: int): Verdict {
    if c.binding.ownershipId != NONE then
      if Verify(s, c.identity, c.authorization, operation, now, late) then Accepted else Rejected
    else if c.identity.principalId != NONE then
      if VerifyActor(s, c.identity, now) then Accepted else Rejected
    else Accepted
  }

  /** For a device with an owner, a refusal by the access rules is final for this caller and grant:
      whatever happens to the store, and whatever its device row says, no later renewal is granted. */
  lemma RefusedRenewalStaysRefused(w: AccessHistory.World, now: int, after: seq<AccessHistory.Event>, c: Claims,
                                   operation: string, loaded: Loaded, t: int, u: int)
    requires c.binding.ownershipId != NONE && now <= w.now
    requires AccessHistory.Bounded(w.store)
    requires AccessHistory.KnownIdentity(w.store, c.identity) && AccessHistory.KnownAuthorization(w.store, c.authorization)
    requires Check(w.store, c, operation, now, w.now) == Rejected
    requires var later := AccessHistory.Run(w, after); later.now <= t <= u
    ensures !Entitled(c, loaded, Check(AccessHistory.Run(w, after).store, c, operation, t, u))
  {
    AccessHistory.KnownDenialStays(w, now, after, c.identity, c.authorization, operation);
  }
}
