/** Who may do what, read off the rows of the store, and what each request leaves behind. */
module AccessAnswers {
  import opened Prelude
  import opened Devices
  import opened Access
  import AccessHistory

  // ----- Reading the rows ------------------------------------------------------------------------------

  /** The identity is what a valid credential says now: neither revoked nor expired, its membership active and of
      the version the identity was issued for. */
  predicate Genuine(s: Store, who: Identity, now: int) {
    && who.authority == s.authority
    && who.credentialId in s.credentials
    && var c := s.credentials[who.credentialId];
       && c == Credential(who.membershipId, who.expiresAt, false) && now < who.expiresAt
       && c.membership in s.members && s.members[c.membership] == Membership(who.principalId, who.tenantId, true, who.version)
  }

  predicate Owned(s: Store, uid: Id) {
    uid in s.owners && s.owners[uid].id != NONE
  }

  /** The owner's principal in the owner's tenant. */
  predicate Owner(s: Store, uid: Id, who: Identity) {
    Owned(s, uid) && who.principalId != NONE && s.owners[uid] == Ownership(s.owners[uid].id, who.tenantId, who.principalId)
  }

  /** The member's share of an owned device, while it lasts. */
  predicate Shared(s: Store, uid: Id, who: Identity, late: int) {
    Owned(s, uid) && var key := ShareKey(s.owners[uid].id, who.membershipId);
      key in s.shares && late < s.shares[key].expiresAt
  }

  /** The device behind a number is the one the connection was authenticated for. */
  predicate Current(s: Store, number: string, expected: Device) {
    && number in s.numbers && s.numbers[number] == expected.uid && expected.uid in s.devices
    && s.devices[expected.uid].secretHash == expected.secretHash
    && expected.ownershipId == if expected.uid in s.owners then s.owners[expected.uid].id else NONE
  }

  predicate WellFormed(req: Request) {
    match req
    case Request("claim", member, share, names, ttl) => member == NONE && share == NONE && names == [] && ttl == 0
    case Request("status", member, share, names, ttl) => member == NONE && share == NONE && names == [] && ttl == 0
    case Request("transfer", member, share, names, ttl) => member != NONE && share == NONE && names == [] && ttl == 0
    case Request("share", member, share, names, ttl) =>
      && member != NONE && share == NONE && 60 <= ttl <= 90 * 24 * 60 * 60
      && |names| > 0 && forall i | 0 <= i < |names| :: names[i] in OPERATIONS
    case Request("unshare", member, share, names, ttl) => member == NONE && share != NONE && names == [] && ttl == 0
    case _ => false
  }

  /** The shares of the device that stand in the way of a new one for this member. */
  function OtherShares(s: Store, uid: Id, member: Id, late: int): set<ShareKey>
    requires uid in s.owners
  {
    set k <- s.shares | k.ownership == s.owners[uid].id && k.member != member && late < s.shares[k].expiresAt
  }

  /** What the owner's request needs besides. */
  predicate Fits(s: Store, uid: Id, req: Request, late: int)
    requires uid in s.owners
  {
    match req.action
    case "transfer" => req.membershipId in s.members && s.members[req.membershipId].active
    case "share" =>
      req.membershipId in s.members && s.members[req.membershipId].active && |OtherShares(s, uid, req.membershipId, late)| < 128
    case "unshare" => exists k <- s.shares :: k.ownership == s.owners[uid].id && s.shares[k].id == req.shareId
    case _ => true
  }

  /** The operations a request names. */
  function Named(req: Request): Permissions {
    set i | 0 <= i < |req.operations| :: req.operations[i]
  }

  // ----- Who is who ------------------------------------------------------------------------------------

  lemma GenuineExactly(s: Store, who: Identity, now: int)
    ensures VerifyActor(s, who, now) <==> Genuine(s, who, now)
  {
  }

  /** The holder of a credential is told what the rows say, as long as they make it a genuine identity. */
  lemma AuthenticatedExactly(s: Store, credential: Id, now: int, who: Identity)
    ensures Authenticate(s, credential, now) == Some(who) <==> Genuine(s, who, now) && who.credentialId == credential
  {
  }

  /** An operation on an owned device is allowed exactly to its owner, and to a member whose unexpired share names it. */
  lemma AllowedExactly(s: Store, uid: Id, who: Identity, operation: string, now: int, late: int)
    ensures (exists a: Authorization :: a.binding.deviceUid == uid && Verify(s, who, a, operation, now, late)) <==>
      && operation in OPERATIONS && uid in s.devices && Genuine(s, who, now)
      && (Owner(s, uid, who)
          || (Shared(s, uid, who, late)
              && operation in s.shares[ShareKey(s.owners[uid].id, who.membershipId)].permissions))
  {
    GenuineExactly(s, who, now);
    ResolvedExactly(s, uid, who, now, late);
    hide VerifyActor, Genuine;
    var a := Resolve(s, uid, who, now, late);
    if a.Some? {
      assert a.value.binding.deviceUid == uid;
      assert Verify(s, who, a.value, operation, now, late) <==> operation in OPERATIONS && operation in a.value.permissions;
    }
  }

  /** And what they are told: an owner everything for as long as they own it, a member the share's permissions until
      it expires. */
  lemma ResolvedExactly(s: Store, uid: Id, who: Identity, now: int, late: int)
    ensures Resolve(s, uid, who, now, late) ==
      if uid !in s.devices || !Genuine(s, who, now) then None
      else if Owner(s, uid, who) then Some(Authorization(Binding(uid, NONE, s.owners[uid].id), NONE, OPERATIONS, 0))
      else if !Shared(s, uid, who, late) then None
      else
        var share := s.shares[ShareKey(s.owners[uid].id, who.membershipId)];
        Some(Authorization(Binding(uid, NONE, s.owners[uid].id), share.id, share.permissions, share.expiresAt))
  {
    GenuineExactly(s, who, now);
    hide VerifyActor, Genuine;
  }

  // ----- Who may manage --------------------------------------------------------------------------------

  lemma WellFormedExactly(req: Request)
    ensures RequestOk(req) <==> WellFormed(req)
  {
    if req.action == "share" {
      assert ParseOk(req.operations) <==> |req.operations| > 0 && forall i | 0 <= i < |req.operations| :: req.operations[i] in OPERATIONS;
    }
  }

  lemma CurrentExactly(s: Store, number: string, expected: Device, actor: Identity, req: Request, now: int)
    ensures Barrier(s, number, expected, actor, req, now).None? <==>
      && WellFormed(req) && Genuine(s, actor, now) && Current(s, number, expected)
      && (Owner(s, expected.uid, actor) || (!Owned(s, expected.uid) && (req.action == "claim" || req.action == "status")))
  {
    WellFormedExactly(req);
    GenuineExactly(s, actor, now);
    hide VerifyActor, Genuine, RequestOk, WellFormed;
  }

  lemma RoomExactly(s: Store, uid: Id, req: Request, late: int)
    requires uid in s.owners && WellFormed(req) && req.action == "share"
    ensures ReplaceShare(s, s.owners[uid].id, req, late).Ok? <==> Fits(s, uid, req, late)
  {
    WellFormedExactly(req);
    var ownership, member := s.owners[uid].id, req.membershipId;
    var s1 := DropShares(s, {ShareKey(ownership, member)});
    var s2 := DropShares(s1, ExpiredShares(s1, ownership, late));
    assert SharesOf(s2, ownership) == OtherShares(s, uid, member, late);
  }

  /** A request is carried out exactly when it is well formed, comes from a genuine identity over a connection of the
      current device, and either its actor owns the device and what it asks for fits, or the device has no owner and
      it is a claim or asks for the status. */
  lemma ManagesExactly(s: Store, number: string, expected: Device, actor: Identity, req: Request, now: int, late: int)
    ensures Manage(s, number, expected, actor, req, now, late).Ok? <==>
      && WellFormed(req) && Genuine(s, actor, now) && Current(s, number, expected)
      && if Owned(s, expected.uid) then Owner(s, expected.uid, actor) && Fits(s, expected.uid, req, late)
         else req.action == "claim" || req.action == "status"
  {
    CurrentExactly(s, number, expected, actor, req, now);
    hide Barrier, Genuine, WellFormed, ReplaceShare;
    var uid := expected.uid;
    if Barrier(s, number, expected, actor, req, now).None? && uid in s.owners && req.action == "share" {
      RoomExactly(s, uid, req, late);
    }
    if Barrier(s, number, expected, actor, req, now).None? && uid in s.owners && req.action == "unshare" {
      UnshareExactly(s, uid, req.shareId);
    }
  }

  lemma UnshareExactly(s: Store, uid: Id, id: Id)
    requires uid in s.owners
    ensures NamedShares(s, s.owners[uid].id, id) != {} <==>
      exists k <- s.shares :: k.ownership == s.owners[uid].id && s.shares[k].id == id
  {
    if k :| k in s.shares && k.ownership == s.owners[uid].id && s.shares[k].id == id {
      assert k in NamedShares(s, s.owners[uid].id, id);
    }
    if k :| k in NamedShares(s, s.owners[uid].id, id) {
      assert k in s.shares;
    }
  }

  /** The code of a refusal, in the order of the source. */
  lemma RefusedBecause(s: Store, number: string, expected: Device, actor: Identity, req: Request, now: int, late: int)
    requires Manage(s, number, expected, actor, req, now, late).Refused?
    ensures Manage(s, number, expected, actor, req, now, late).why ==
      if !WellFormed(req) then Invalid
      else if !Genuine(s, actor, now) then Denied
      else if number !in s.numbers || s.numbers[number] !in s.devices then NotFound
      else if req.action == "share" && Current(s, number, expected) && Owner(s, expected.uid, actor)
              && req.membershipId in s.members && s.members[req.membershipId].active then Limit
      else Denied
  {
    WellFormedExactly(req);
    GenuineExactly(s, actor, now);
    hide VerifyActor, Genuine, WellFormed;
    assert req.action == "share" && RequestOk(req) ==> ParseOk(req.operations);
    hide RequestOk, ParseOk, SharesOf, ExpiredShares, NamedShares, NameSet;
  }

  // ----- What a request leaves -------------------------------------------------------------------------

  /** All that changes hands: the ownership gets a new identifier, the new owner's principal and tenant, and the old
      ownership's shares end. */
  ghost predicate HandedTo(s: Store, later: Store, uid: Id, tenant: Id, principal: Id) {
    && later == s.(owners := later.owners, shares := later.shares, next := later.next)
    && s.next < later.next
    && later.owners == s.owners[uid := Ownership(s.next, tenant, principal)]
    && (forall k :: k in later.shares <==> k in s.shares && !(uid in s.owners && k.ownership == s.owners[uid].id))
    && (forall k <- later.shares :: later.shares[k] == s.shares[k])
  }

  lemma SetOwnerHands(s: Store, uid: Id, tenant: Id, principal: Id)
    ensures HandedTo(s, SetOwner(s, uid, tenant, principal), uid, tenant, principal)
  {
  }

  /** A claim makes the actor the owner of a device without one; nothing else comes of it. */
  lemma ClaimLeaves(s: Store, number: string, expected: Device, actor: Identity, req: Request, now: int, late: int)
    requires Manage(s, number, expected, actor, req, now, late).Ok? && req.action == "claim"
    ensures var later := Manage(s, number, expected, actor, req, now, late).value;
      if Owned(s, expected.uid) then later == s else HandedTo(s, later, expected.uid, actor.tenantId, actor.principalId)
  {
    CurrentExactly(s, number, expected, actor, req, now);
    SetOwnerHands(s, expected.uid, actor.tenantId, actor.principalId);
    hide Barrier, Genuine, WellFormed, SetOwner, HandedTo;
  }

  /** A transfer makes the named membership's principal the owner, in the membership's tenant. */
  lemma TransferLeaves(s: Store, number: string, expected: Device, actor: Identity, req: Request, now: int, late: int)
    requires Manage(s, number, expected, actor, req, now, late).Ok? && req.action == "transfer"
    ensures var later := Manage(s, number, expected, actor, req, now, late).value;
      && req.membershipId in s.members
      && var to := s.members[req.membershipId];
         if to.principal == actor.principalId && to.tenant == actor.tenantId then later == s
         else HandedTo(s, later, expected.uid, to.tenant, to.principal)
  {
    CurrentExactly(s, number, expected, actor, req, now);
    hide Barrier, Genuine, WellFormed, SetOwner, HandedTo;
    if req.membershipId in s.members {
      SetOwnerHands(s, expected.uid, s.members[req.membershipId].tenant, s.members[req.membershipId].principal);
    }
  }

  /** A share changes only the shares of this device: the member gets exactly the named operations until the time
      asked for has passed, and of the others those that have expired go. */
  lemma ShareLeaves(s: Store, number: string, expected: Device, actor: Identity, req: Request, now: int, late: int)
    requires Manage(s, number, expected, actor, req, now, late).Ok? && req.action == "share"
    ensures var later := Manage(s, number, expected, actor, req, now, late).value;
      var key := ShareKey(expected.ownershipId, req.membershipId);
      && later == s.(shares := later.shares, next := later.next) && s.next < later.next
      && key in later.shares
      && later.shares[key] == Share(s.next, Named(req), late + req.ttl)
      && (forall k :: k != key ==>
            (k in later.shares <==> k in s.shares && !(k.ownership == expected.ownershipId && s.shares[k].expiresAt <= late)))
      && (forall k <- later.shares :: k != key ==> later.shares[k] == s.shares[k])
  {
    CurrentExactly(s, number, expected, actor, req, now);
    hide Barrier, Genuine, WellFormed;
    ReplacedShare(s, expected.ownershipId, req, late);
    hide ReplaceShare;
  }

  lemma ReplacedShare(s: Store, ownership: Id, req: Request, late: int)
    requires ReplaceShare(s, ownership, req, late).Ok?
    ensures var later := ReplaceShare(s, ownership, req, late).value;
      var key := ShareKey(ownership, req.membershipId);
      && later == s.(shares := later.shares, next := s.next + 1)
      && key in later.shares && later.shares[key] == Share(s.next, Named(req), late + req.ttl)
      && (forall k :: k != key ==>
            (k in later.shares <==> k in s.shares && !(k.ownership == ownership && s.shares[k].expiresAt <= late)))
      && (forall k <- later.shares :: k != key ==> later.shares[k] == s.shares[k])
  {
    hide ParseOk, ActiveMember, SharesOf;
  }

  /** So that is what the member is told from then on, until the share's time is over. */
  lemma ShareResolves(s: Store, number: string, expected: Device, actor: Identity, req: Request, now: int, late: int,
                      who: Identity, at: int, later: int)
    requires Manage(s, number, expected, actor, req, now, late).Ok? && req.action == "share"
    requires Genuine(s, who, at) && who.membershipId == req.membershipId && !Owner(s, expected.uid, who)
    ensures Resolve(Manage(s, number, expected, actor, req, now, late).value, expected.uid, who, at, later) ==
      if late + req.ttl <= later then None
      else Some(Authorization(Binding(expected.uid, NONE, expected.ownershipId), s.next, Named(req), late + req.ttl))
  {
    var after := Manage(s, number, expected, actor, req, now, late).value;
    ShareLeaves(s, number, expected, actor, req, now, late);
    CurrentExactly(s, number, expected, actor, req, now);
    hide Manage, Barrier, WellFormed;
    ResolvedExactly(after, expected.uid, who, at, later);
    assert Genuine(after, who, at);
    hide Resolve, Genuine;
  }

  /** Unsharing removes the named share and leaves everything else; asking for the status changes nothing. */
  lemma UnshareLeaves(s: Store, number: string, expected: Device, actor: Identity, req: Request, now: int, late: int)
    requires Manage(s, number, expected, actor, req, now, late).Ok? && (req.action == "unshare" || req.action == "status")
    ensures var later := Manage(s, number, expected, actor, req, now, late).value;
      && later == s.(shares := later.shares)
      && (forall k :: k in later.shares <==>
            k in s.shares && !(req.action == "unshare" && k.ownership == expected.ownershipId && s.shares[k].id == req.shareId))
      && (forall k <- later.shares :: later.shares[k] == s.shares[k])
  {
    CurrentExactly(s, number, expected, actor, req, now);
    hide Barrier, Genuine, WellFormed;
  }

  /** Whatever a request changes, it was its owner's to change, or nobody's and claimed. */
  lemma OnlyOwnersChange(s: Store, number: string, expected: Device, actor: Identity, req: Request, now: int, late: int)
    requires var r := Manage(s, number, expected, actor, req, now, late); r.Ok? && r.value != s
    ensures Genuine(s, actor, now) && Current(s, number, expected)
    ensures Owner(s, expected.uid, actor) || (!Owned(s, expected.uid) && req.action == "claim")
  {
    CurrentExactly(s, number, expected, actor, req, now);
    hide Barrier, Genuine, WellFormed, ReplaceShare, SetOwner;
  }

  // ----- Devices and accounts --------------------------------------------------------------------------

  /** A number is free, or it belongs to whoever knows its secret; a new device has nothing but its secret. */
  lemma RegistersExactly(s: Store, number: string, secretHash: string, inbound: bool)
    requires s.next !in s.grants && s.next !in s.owners
    ensures var r := RegisterDevice(s, number, secretHash, inbound);
      if number !in s.numbers then
        && r.Ok? && r.value == s.(numbers := r.value.numbers, devices := r.value.devices, next := r.value.next)
        && r.value.numbers == s.numbers[number := s.next] && s.next < r.value.next
        && r.value.devices.Keys == s.devices.Keys + {s.next}
        && DeviceOf(r.value, s.next) == Device(s.next, secretHash, inbound, NONE, "", NONE, NONE, NONE)
      else if s.numbers[number] in s.devices && s.devices[s.numbers[number]].secretHash == secretHash then r == Ok(s)
      else r == Refused(Denied)
  {
  }

  /** Settings are taken over as requested: a changed sharing hash gets a new grant, or none when it is empty, and
      the rest of the device stays. */
  lemma UpdateLeaves(s: Store, number: string, requested: Device)
    requires s.next != NONE
    ensures var r := UpdateDevice(s, number, requested);
      (r.Ok? <==> number in s.numbers && s.numbers[number] == requested.uid && requested.uid in s.devices
                  && s.devices[requested.uid].secretHash == requested.secretHash)
      && (r.Ok? && (requested.uid in s.grants ==> (s.grants[requested.uid].id == NONE <==> s.grants[requested.uid].hash == "")) ==>
            requested.uid in r.value.devices
            && var before := DeviceOf(s, requested.uid); var after := DeviceOf(r.value, requested.uid);
               && after.inbound == requested.inbound && after.grantHash == requested.grantHash
               && after.grantId == (if requested.grantHash == before.grantHash then before.grantId
                                  else if requested.grantHash == "" then NONE else s.next)
               && after == before.(inbound := after.inbound, grantHash := after.grantHash, grantId := after.grantId)
               && r.value.shares == s.shares && r.value.owners == s.owners
               && s.next < r.value.next)
  {
  }

  /** Deleting takes the number, the secret, the grant, the ownership and its shares. */
  lemma DeleteLeaves(s: Store, number: string, uid: Id, secretHash: string)
    ensures var r := DeleteDevice(s, number, uid, secretHash);
      (r.Ok? <==> number in s.numbers && s.numbers[number] == uid && uid in s.devices && s.devices[uid].secretHash == secretHash)
      && (r.Ok? ==>
            && number !in r.value.numbers && uid !in r.value.devices && uid !in r.value.grants && uid !in r.value.owners
            && (uid in s.owners ==> forall k <- r.value.shares :: k.ownership != s.owners[uid].id)
            && (forall n <- s.numbers :: n != number ==> n in r.value.numbers && r.value.numbers[n] == s.numbers[n])
            && (forall u <- s.devices :: u != uid ==> u in r.value.devices && DeviceOf(r.value, u) == DeviceOf(s, u)))
  {
  }

  /** A credential is issued for an active membership alone, and its holder is its member until it expires. */
  lemma IssuedAuthenticates(s: Store, membership: Id, expiresAt: int, now: int)
    ensures var r := IssueCredential(s, membership, expiresAt);
      (r.Ok? <==> membership in s.members && s.members[membership].active)
      && (r.Ok? ==>
            var m := s.members[membership];
            Authenticate(r.value, s.next, now) ==
              if now < expiresAt
              then Some(Identity(s.authority, m.principal, m.tenant, membership, m.version, s.next, expiresAt)) else None)
  {
  }

  /** A new principal can sign in at once, in a tenant of its own unless one was named. */
  lemma NewPrincipalAuthenticates(s: Store, tenant: Id, expiresAt: int, now: int)
    requires now < expiresAt && forall m <- s.members :: m < s.next
    ensures var r := CreatePrincipal(s, tenant, expiresAt);
      && r.Ok?
      && (exists credential :: Authenticate(r.value, credential, now).Some?
            && var who := Authenticate(r.value, credential, now).value;
               && who.membershipId !in s.members && who.principalId >= s.next && who.expiresAt == expiresAt
               && (if tenant == NONE then who.tenantId >= s.next else who.tenantId == tenant))
  {
    var later := CreatePrincipal(s, tenant, expiresAt).value;
    assert Authenticate(later, s.next + 3, now).Some?;
  }

  /** Every event of a history is its transaction: what it asks for happens, and a refusal changes nothing. */
  lemma DeviceEventsHappen(w: AccessHistory.World, number: string, uid: Id, secretHash: string, device: Device, who: Identity,
                           req: Request, inbound: bool, delay: nat)
    ensures var s, now := w.store, w.now;
      var after := (r: Outcome<Store>) => if r.Ok? then r.value else s;
      && AccessHistory.Step(w, AccessHistory.Elapse(delay)) == AccessHistory.World(s, now + delay)
      && AccessHistory.Step(w, AccessHistory.Manages(number, device, who, req, delay))
           == AccessHistory.World(after(Manage(s, number, device, who, req, now, now + delay)), now + delay)
      && AccessHistory.Step(w, AccessHistory.Registers(number, secretHash, inbound)).store
           == after(RegisterDevice(s, number, secretHash, inbound))
      && AccessHistory.Step(w, AccessHistory.Updates(number, device)).store == after(UpdateDevice(s, number, device))
      && AccessHistory.Step(w, AccessHistory.Deletes(number, uid, secretHash)).store == after(DeleteDevice(s, number, uid, secretHash))
  {
    hide Manage, RegisterDevice, UpdateDevice, DeleteDevice;
  }

  lemma AccountEventsHappen(w: AccessHistory.World, membership: Id, credential: Id, tenant: Id, active: bool, ttl: int)
    ensures var s, now := w.store, w.now;
      var after := (r: Outcome<Store>) => if r.Ok? then r.value else s;
      && AccessHistory.Step(w, AccessHistory.Issues(membership, ttl)).store == after(IssueCredential(s, membership, now + ttl))
      && AccessHistory.Step(w, AccessHistory.CreatesPrincipal(tenant, ttl)).store == after(CreatePrincipal(s, tenant, now + ttl))
      && (credential in s.credentials ==>
            AccessHistory.Step(w, AccessHistory.Revokes(credential)).store
              == s.(credentials := s.credentials[credential := s.credentials[credential].(revoked := true)]))
      && (membership in s.members ==>
            var m := s.members[membership];
            AccessHistory.Step(w, AccessHistory.Activates(membership, active)).store
              == s.(members := s.members[membership := m.(active := active, version := m.version + 1)]))
  {
    hide IssueCredential, CreatePrincipal;
  }
}
