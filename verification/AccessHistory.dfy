/** Authority that only shrinks: what claims, transfers, shares, memberships, credentials, device
    settings and device recreation can and cannot give back. */
module AccessHistory {
  import opened Prelude
  import opened Devices
  import opened Access

  datatype World = World(store: Store, now: int)

  datatype Event =
    | Elapse(seconds: nat)
    | Manages(number: string, expected: Device, actor: Identity, request: Request, delay: nat)
    | Registers(number: string, secretHash: string, inbound: bool)
    | Updates(number: string, requested: Device)
    | Deletes(number: string, uid: Id, secretHash: string)
    | CreatesPrincipal(tenant: Id, ttl: int)
    | Issues(membership: Id, ttl: int)
    | Revokes(credential: Id)
    | Activates(membership: Id, active: bool)

  const Fresh := World(Store(1, map[], map[], map[], map[], map[], map[], map[], 2), 0)

  function Result(w: World, e: Event): Outcome<Store> {
    match e
    case Elapse(_) => Ok(w.store)
    case Manages(number, expected, actor, request, delay) =>
      Manage(w.store, number, expected, actor, request, w.now, w.now + delay)
    case Registers(number, secretHash, inbound) => RegisterDevice(w.store, number, secretHash, inbound)
    case Updates(number, requested) => UpdateDevice(w.store, number, requested)
    case Deletes(number, uid, secretHash) => DeleteDevice(w.store, number, uid, secretHash)
    case CreatesPrincipal(tenant, ttl) => CreatePrincipal(w.store, tenant, w.now + ttl)
    case Issues(membership, ttl) => IssueCredential(w.store, membership, w.now + ttl)
    case Revokes(credential) => RevokeCredential(w.store, credential)
    case Activates(membership, active) => SetMembershipActive(w.store, membership, active)
  }

  function Duration(e: Event): nat {
    match e
    case Elapse(seconds) => seconds
    case Manages(_, _, _, _, delay) => delay
    case _ => 0
  }

  /** A refused transaction changes nothing; neither does one that is rolled back, so a commit whose
      fate is unknown is the event or its absence. */
  function Step(w: World, e: Event): World {
    var r := Result(w, e);
    World(if r.Ok? then r.value else w.store, w.now + Duration(e))
  }

  function Run(w: World, events: seq<Event>): World
    decreases |events|
  {
    if events == [] then w else Run(Step(w, events[0]), events[1..])
  }

  // ----- Later stores give nothing back --------------------------------------------------------------

  predicate KeepsAccounts(s: Store, later: Store) {
    && (forall c <- s.credentials ::
          && c in later.credentials
          && later.credentials[c].membership == s.credentials[c].membership
          && later.credentials[c].expiresAt == s.credentials[c].expiresAt
          && (s.credentials[c].revoked ==> later.credentials[c].revoked))
    && (forall m <- s.members ::
          && m in later.members
          && later.members[m].principal == s.members[m].principal
          && later.members[m].tenant == s.members[m].tenant
          && later.members[m].version >= s.members[m].version
          && (later.members[m].version == s.members[m].version ==> later.members[m] == s.members[m]))
  }

  predicate KeepsDevices(s: Store, later: Store) {
    && (forall u <- later.devices :: u < s.next ==> u in s.devices)
    && (forall u <- later.owners :: later.owners[u].id < s.next ==> u in s.owners && s.owners[u] == later.owners[u])
    && (forall k <- later.shares :: later.shares[k].id < s.next ==> k in s.shares && s.shares[k] == later.shares[k])
  }

  /** Rows with an identifier that was already drawn can only lose authority. */
  predicate Shrinks(s: Store, later: Store) {
    && later.authority == s.authority && later.next >= s.next
    && KeepsAccounts(s, later) && KeepsDevices(s, later)
  }

  lemma AccountsOn(a: Store, b: Store, c: Store)
    requires KeepsAccounts(a, b) && KeepsAccounts(b, c)
    ensures KeepsAccounts(a, c)
  {
  }

  lemma DevicesOn(a: Store, b: Store, c: Store)
    requires KeepsDevices(a, b) && KeepsDevices(b, c) && a.next <= b.next
    ensures KeepsDevices(a, c)
  {
  }

  lemma ShrinksOn(a: Store, b: Store, c: Store)
    requires Shrinks(a, b) && Shrinks(b, c)
    ensures Shrinks(a, c)
  {
    hide KeepsAccounts, KeepsDevices;
    AccountsOn(a, b, c);
    DevicesOn(a, b, c);
  }

  lemma SameAccounts(s: Store, later: Store)
    requires later.credentials == s.credentials && later.members == s.members
    ensures KeepsAccounts(s, later)
  {
  }

  lemma SameDevices(s: Store, later: Store)
    requires later.devices.Keys <= s.devices.Keys && later.owners == s.owners
    requires later.shares.Keys <= s.shares.Keys && forall k <- later.shares :: later.shares[k] == s.shares[k]
    ensures KeepsDevices(s, later)
  {
  }

  lemma SetOwnerShrinks(s: Store, uid: Id, tenant: Id, principal: Id)
    ensures Shrinks(s, SetOwner(s, uid, tenant, principal))
  {
    SameAccounts(s, SetOwner(s, uid, tenant, principal));
  }

  lemma ReplaceShareShrinks(s: Store, ownership: Id, req: Request, now: int)
    ensures var r := ReplaceShare(s, ownership, req, now); r.Ok? ==> Shrinks(s, r.value)
  {
    hide ParseOk, NameSet, ActiveMember;
    var r := ReplaceShare(s, ownership, req, now);
    if r.Ok? {
      SameAccounts(s, r.value);
    }
  }

  lemma MutateShrinks(s: Store, device: Device, actor: Identity, req: Request, late: int)
    ensures var r := Mutate(s, device, actor, req, late); r.Ok? ==> Shrinks(s, r.value)
  {
    hide SetOwner, ReplaceShare, Shrinks, NamedShares;
    ShrinksSelf(s);
    ReplaceShareShrinks(s, device.ownershipId, req, late);
    SetOwnerShrinks(s, device.uid, actor.tenantId, actor.principalId);
    if req.membershipId in s.members {
      SetOwnerShrinks(s, device.uid, s.members[req.membershipId].tenant, s.members[req.membershipId].principal);
    }
    DropShrinks(s, NamedShares(s, device.ownershipId, req.shareId));
  }

  lemma ShrinksSelf(s: Store)
    ensures Shrinks(s, s)
  {
    SameAccounts(s, s);
    SameDevices(s, s);
  }

  lemma DropShrinks(s: Store, gone: set<ShareKey>)
    ensures Shrinks(s, DropShares(s, gone))
  {
    SameAccounts(s, DropShares(s, gone));
    SameDevices(s, DropShares(s, gone));
  }

  lemma RegisterShrinks(s: Store, number: string, secretHash: string, inbound: bool)
    ensures var r := RegisterDevice(s, number, secretHash, inbound); r.Ok? ==> Shrinks(s, r.value)
  {
    var r := RegisterDevice(s, number, secretHash, inbound);
    if r.Ok? {
      SameAccounts(s, r.value);
    }
  }

  lemma UpdateFrame(s: Store, number: string, requested: Device)
    ensures var r := UpdateDevice(s, number, requested);
      r.Ok? ==>
        && r.value == s.(devices := r.value.devices, grants := r.value.grants, next := s.next + 1)
        && r.value.devices.Keys == s.devices.Keys
  {
  }

  lemma UpdateShrinks(s: Store, number: string, requested: Device)
    ensures var r := UpdateDevice(s, number, requested); r.Ok? ==> Shrinks(s, r.value)
  {
    hide KeepsAccounts, KeepsDevices, UpdateDevice;
    UpdateFrame(s, number, requested);
    var r := UpdateDevice(s, number, requested);
    if r.Ok? {
      SameAccounts(s, r.value);
      SameDevices(s, r.value);
    }
  }

  lemma DeleteShrinks(s: Store, number: string, uid: Id, secretHash: string)
    ensures var r := DeleteDevice(s, number, uid, secretHash); r.Ok? ==> Shrinks(s, r.value)
  {
    hide KeepsAccounts;
    var r := DeleteDevice(s, number, uid, secretHash);
    if r.Ok? {
      SameAccounts(s, r.value);
    }
  }

  lemma AccountsShrink(w: World, e: Event)
    requires e.CreatesPrincipal? || e.Issues? || e.Revokes? || e.Activates?
    requires Bounded(w.store)
    ensures Result(w, e).Ok? ==> Shrinks(w.store, Result(w, e).value)
  {
    hide KeepsDevices;
    if Result(w, e).Ok? {
      SameDevices(w.store, Result(w, e).value);
    }
  }

  /** Every identifier in use was drawn. */
  predicate Bounded(s: Store) {
    && 0 < s.next
    && (forall u <- s.devices :: NONE < u < s.next)
    && (forall u <- s.owners :: NONE < s.owners[u].id < s.next)
    && (forall k <- s.shares :: NONE < s.shares[k].id < s.next)
    && (forall c <- s.credentials :: c < s.next)
    && (forall m <- s.members :: m < s.next)
  }

  lemma SetOwnerBounded(s: Store, uid: Id, tenant: Id, principal: Id)
    requires Bounded(s)
    ensures Bounded(SetOwner(s, uid, tenant, principal))
  {
  }

  lemma DropBounded(s: Store, gone: set<ShareKey>)
    requires Bounded(s)
    ensures Bounded(DropShares(s, gone))
  {
  }

  lemma ReplaceShareBounded(s: Store, ownership: Id, req: Request, now: int)
    requires Bounded(s)
    ensures var r := ReplaceShare(s, ownership, req, now); r.Ok? ==> Bounded(r.value)
  {
    hide ParseOk, NameSet, ActiveMember;
  }

  lemma MutateBounded(s: Store, device: Device, actor: Identity, req: Request, late: int)
    requires Bounded(s)
    ensures var r := Mutate(s, device, actor, req, late); r.Ok? ==> Bounded(r.value)
  {
    hide SetOwner, ReplaceShare, Bounded, NamedShares, DropShares;
    ReplaceShareBounded(s, device.ownershipId, req, late);
    SetOwnerBounded(s, device.uid, actor.tenantId, actor.principalId);
    if req.membershipId in s.members {
      SetOwnerBounded(s, device.uid, s.members[req.membershipId].tenant, s.members[req.membershipId].principal);
    }
    DropBounded(s, NamedShares(s, device.ownershipId, req.shareId));
  }

  lemma ManageBounded(s: Store, number: string, expected: Device, actor: Identity, req: Request, now: int, late: int)
    requires Bounded(s)
    ensures var r := Manage(s, number, expected, actor, req, now, late); r.Ok? ==> Bounded(r.value)
  {
    hide Bounded, Mutate;
    if Barrier(s, number, expected, actor, req, now).None? {
      MutateBounded(s, DeviceOf(s, s.numbers[number]), actor, req, late);
    }
  }

  lemma RegisterBounded(s: Store, number: string, secretHash: string, inbound: bool)
    requires Bounded(s)
    ensures var r := RegisterDevice(s, number, secretHash, inbound); r.Ok? ==> Bounded(r.value)
  {
  }

  lemma UpdateBounded(s: Store, number: string, requested: Device)
    requires Bounded(s)
    ensures var r := UpdateDevice(s, number, requested); r.Ok? ==> Bounded(r.value)
  {
    UpdateFrame(s, number, requested);
    hide UpdateDevice;
  }

  lemma DeleteBounded(s: Store, number: string, uid: Id, secretHash: string)
    requires Bounded(s)
    ensures var r := DeleteDevice(s, number, uid, secretHash); r.Ok? ==> Bounded(r.value)
  {
  }

  lemma AccountsBounded(w: World, e: Event)
    requires Bounded(w.store) && (e.CreatesPrincipal? || e.Issues? || e.Revokes? || e.Activates?)
    ensures Result(w, e).Ok? ==> Bounded(Result(w, e).value)
  {
  }

  lemma StepKeepsBounded(w: World, e: Event)
    requires Bounded(w.store)
    ensures Bounded(Step(w, e).store)
  {
    hide Bounded, Manage, RegisterDevice, UpdateDevice, DeleteDevice, CreatePrincipal, IssueCredential,
         RevokeCredential, SetMembershipActive;
    match e
    case Elapse(_) =>
    case Manages(number, expected, actor, request, delay) =>
      ManageBounded(w.store, number, expected, actor, request, w.now, w.now + delay);
    case Registers(number, secretHash, inbound) => RegisterBounded(w.store, number, secretHash, inbound);
    case Updates(number, requested) => UpdateBounded(w.store, number, requested);
    case Deletes(number, uid, secretHash) => DeleteBounded(w.store, number, uid, secretHash);
    case _ => AccountsBounded(w, e);
  }

  lemma StepShrinks(w: World, e: Event)
    requires Bounded(w.store)
    ensures Shrinks(w.store, Step(w, e).store)
  {
    hide Shrinks, Manage, RegisterDevice, UpdateDevice, DeleteDevice, CreatePrincipal, IssueCredential,
         RevokeCredential, SetMembershipActive;
    ShrinksSelf(w.store);
    match e
    case Elapse(_) =>
    case Manages(number, expected, actor, request, delay) =>
      ManageShrinks(w.store, number, expected, actor, request, w.now, w.now + delay);
    case Registers(number, secretHash, inbound) => RegisterShrinks(w.store, number, secretHash, inbound);
    case Updates(number, requested) => UpdateShrinks(w.store, number, requested);
    case Deletes(number, uid, secretHash) => DeleteShrinks(w.store, number, uid, secretHash);
    case _ => AccountsShrink(w, e);
  }

  lemma ManageShrinks(s: Store, number: string, expected: Device, actor: Identity, req: Request, now: int, late: int)
    ensures var r := Manage(s, number, expected, actor, req, now, late); r.Ok? ==> Shrinks(s, r.value)
  {
    hide Shrinks, Mutate;
    if Barrier(s, number, expected, actor, req, now).None? {
      MutateShrinks(s, DeviceOf(s, s.numbers[number]), actor, req, late);
    }
  }

  lemma {:induction false} RunShrinks(w: World, events: seq<Event>)
    requires Bounded(w.store)
    ensures Shrinks(w.store, Run(w, events).store) && Bounded(Run(w, events).store)
    ensures w.now <= Run(w, events).now
    decreases |events|
  {
    hide Shrinks, Bounded, Result;
    ShrinksSelf(w.store);
    if events != [] {
      var w' := Step(w, events[0]);
      StepShrinks(w, events[0]);
      StepKeepsBounded(w, events[0]);
      RunShrinks(w', events[1..]);
      ShrinksOn(w.store, w'.store, Run(w', events[1..]).store);
    }
  }

  // ----- Denial is permanent -------------------------------------------------------------------------

  /** An identity the authority could have told a caller at some time up to now. */
  predicate KnownIdentity(s: Store, actor: Identity) {
    && actor.credentialId in s.credentials
    && s.credentials[actor.credentialId].membership == actor.membershipId
    && actor.membershipId in s.members
    && actor.version <= s.members[actor.membershipId].version
  }

  /** An authorization whose identifiers were all drawn. */
  predicate KnownAuthorization(s: Store, a: Authorization) {
    a.binding.deviceUid < s.next && a.binding.ownershipId < s.next && a.shareId < s.next
  }

  lemma ActorBackwards(s: Store, later: Store, actor: Identity, now: int, moment: int)
    requires KeepsAccounts(s, later) && later.authority == s.authority && KnownIdentity(s, actor) && now <= moment
    requires VerifyActor(later, actor, moment)
    ensures VerifyActor(s, actor, now)
  {
  }

  lemma ResolveBackwards(s: Store, later: Store, actor: Identity, a: Authorization,
                         now: int, late: int, now': int, late': int)
    requires KeepsDevices(s, later) && KnownAuthorization(s, a) && late <= late'
    requires VerifyActor(s, actor, now)
    requires Resolve(later, a.binding.deviceUid, actor, now', late') == Some(a)
    ensures Resolve(s, a.binding.deviceUid, actor, now, late) == Some(a)
  {
    hide VerifyActor;
    var uid := a.binding.deviceUid;
    assert later.owners[uid].id == a.binding.ownershipId;
    assert s.owners[uid] == later.owners[uid];
  }

  /** Read backwards: what is allowed later was allowed already. */
  lemma VerifyBackwards(s: Store, later: Store, actor: Identity, a: Authorization, operation: string,
                        now: int, late: int, now': int, late': int)
    requires Shrinks(s, later) && KnownIdentity(s, actor) && KnownAuthorization(s, a)
    requires now <= now' && late <= late'
    requires Verify(later, actor, a, operation, now', late')
    ensures Verify(s, actor, a, operation, now, late)
  {
    hide VerifyActor, KeepsAccounts, KeepsDevices, KnownIdentity, KnownAuthorization;
    assert VerifyActor(later, actor, now');
    ActorBackwards(s, later, actor, now, now');
    ResolveBackwards(s, later, actor, a, now, late, now', late');
  }

  /** Once an identity and an authorization the authority gave out are refused an operation, they are
      refused it for ever: no claim, transfer, share, unshare, membership change, credential, setting or
      recreated device brings them back. */
  lemma DenialIsPermanent(before: seq<Event>, toGrant: seq<Event>, toDenial: seq<Event>, after: seq<Event>,
                          actor: Identity, a: Authorization, operation: string, read: int, checked: nat)
    requires var w0 := Run(Fresh, before);
      Authenticate(w0.store, actor.credentialId, w0.now) == Some(actor)
    requires var w1 := Run(Run(Fresh, before), toGrant);
      Resolve(w1.store, a.binding.deviceUid, actor, w1.now, read) == Some(a)
    requires var w2 := Run(Run(Run(Fresh, before), toGrant), toDenial);
      !Verify(w2.store, actor, a, operation, w2.now, w2.now + checked)
    ensures var w2 := Run(Run(Run(Fresh, before), toGrant), toDenial);
      var w3 := Run(World(w2.store, w2.now + checked), after);
      forall t, u | w3.now <= t <= u :: !Verify(w3.store, actor, a, operation, t, u)
  {
    hide Run, Verify, Shrinks, Resolve, Authenticate, Bounded;
    var w0 := Run(Fresh, before);
    var w1 := Run(w0, toGrant);
    var w2 := Run(w1, toDenial);
    FreshIsBounded();
    RunShrinks(Fresh, before);
    RunShrinks(w0, toGrant);
    RunShrinks(w1, toDenial);
    IdentityIsKnown(w0.store, actor.credentialId, w0.now);
    ResolvedIsKnown(w1.store, a.binding.deviceUid, actor, w1.now, read);
    ShrinksOn(w0.store, w1.store, w2.store);
    KnownStays(w0.store, w2.store, actor, w1.store, a);
    KnownDenialStays(World(w2.store, w2.now + checked), w2.now, after, actor, a, operation);
  }

  lemma KnownDenialStays(w: World, now: int, after: seq<Event>, actor: Identity, a: Authorization, operation: string)
    requires Bounded(w.store) && KnownIdentity(w.store, actor) && KnownAuthorization(w.store, a)
    requires now <= w.now && !Verify(w.store, actor, a, operation, now, w.now)
    ensures var w' := Run(w, after);
      forall t, u | w'.now <= t <= u :: !Verify(w'.store, actor, a, operation, t, u)
  {
    hide Run, Verify, Shrinks, Bounded, KnownIdentity, KnownAuthorization;
    var w' := Run(w, after);
    RunShrinks(w, after);
    forall t, u | w'.now <= t <= u ensures !Verify(w'.store, actor, a, operation, t, u) {
      if Verify(w'.store, actor, a, operation, t, u) {
        VerifyBackwards(w.store, w'.store, actor, a, operation, now, w.now, t, u);
      }
    }
  }

  lemma FreshIsBounded()
    ensures Bounded(Fresh.store)
  {
  }

  lemma IdentityIsKnown(s: Store, credential: Id, now: int)
    requires Authenticate(s, credential, now).Some?
    ensures KnownIdentity(s, Authenticate(s, credential, now).value)
    ensures VerifyActor(s, Authenticate(s, credential, now).value, now)
  {
  }

  lemma ResolvedIsKnown(s: Store, uid: Id, actor: Identity, now: int, late: int)
    requires Bounded(s) && Resolve(s, uid, actor, now, late).Some?
    ensures KnownAuthorization(s, Resolve(s, uid, actor, now, late).value)
    ensures Resolve(s, uid, actor, now, late).value.binding.deviceUid == uid
  {
  }

  lemma KnownStays(s: Store, later: Store, actor: Identity, s1: Store, a: Authorization)
    requires KnownIdentity(s, actor) && Shrinks(s, later)
    requires KnownAuthorization(s1, a) && Shrinks(s1, later)
    ensures KnownIdentity(later, actor) && KnownAuthorization(later, a)
  {
  }

  // ----- What each change ends, and that it ends nothing else ----------------------------------------

  lemma SameActors(s: Store, later: Store, actor: Identity, now: int)
    requires later.credentials == s.credentials && later.members == s.members && later.authority == s.authority
    ensures VerifyActor(later, actor, now) == VerifyActor(s, actor, now)
  {
  }

  /** A revoked credential ends for every operation on every device, and no other does. */
  lemma RevokeEndsOneCredential(s: Store, credential: Id, actor: Identity, a: Authorization, operation: string, now: int, late: int)
    requires RevokeCredential(s, credential).Ok?
    ensures Verify(RevokeCredential(s, credential).value, actor, a, operation, now, late)
      <==> Verify(s, actor, a, operation, now, late) && actor.credentialId != credential
  {
  }

  /** Disabling a membership, and enabling it again, both end every identity issued before. */
  lemma ActivationEndsOneMembership(s: Store, membership: Id, active: bool, actor: Identity, a: Authorization,
                                    operation: string, now: int, late: int)
    requires SetMembershipActive(s, membership, active).Ok? && KnownIdentity(s, actor)
    ensures Verify(SetMembershipActive(s, membership, active).value, actor, a, operation, now, late)
      <==> Verify(s, actor, a, operation, now, late) && actor.membershipId != membership
  {
  }

  lemma UnshareEndsOneShare(s: Store, ownership: Id, id: Id, actor: Identity, a: Authorization,
                            operation: string, now: int, late: int)
    requires id != NONE && ownership != NONE
    ensures Verify(DropShares(s, NamedShares(s, ownership, id)), actor, a, operation, now, late)
      <==> Verify(s, actor, a, operation, now, late) && !(a.binding.ownershipId == ownership && a.shareId == id)
  {
    SameActors(s, DropShares(s, NamedShares(s, ownership, id)), actor, now);
    hide VerifyActor;
  }

  /** A new share replaces the member's old one even when it grants the same; nobody else loses
      anything that had not already expired. */
  lemma ShareEndsItsPredecessor(s: Store, ownership: Id, req: Request, at: int, actor: Identity, a: Authorization,
                                operation: string, now: int, late: int)
    requires ownership != NONE && ReplaceShare(s, ownership, req, at).Ok? && at <= late
    requires Bounded(s) && KnownAuthorization(s, a)
    ensures Verify(ReplaceShare(s, ownership, req, at).value, actor, a, operation, now, late)
      <==> Verify(s, actor, a, operation, now, late)
           && !(a.binding.ownershipId == ownership && a.shareId != NONE && actor.membershipId == req.membershipId)
  {
    SameActors(s, ReplaceShare(s, ownership, req, at).value, actor, now);
    hide VerifyActor, ParseOk, NameSet, ActiveMember;
  }

  /** No two devices share an ownership. */
  predicate OwnersDistinct(s: Store) {
    forall u <- s.owners, v <- s.owners :: s.owners[u].id == s.owners[v].id ==> u == v
  }

  /** A change of hands ends the old owner and all his shares on that device, and nothing elsewhere. */
  lemma ChangeOfHandsEndsOneDevice(s: Store, uid: Id, tenant: Id, principal: Id, actor: Identity, a: Authorization,
                                   operation: string, now: int, late: int)
    requires OwnersDistinct(s) && Bounded(s) && KnownAuthorization(s, a)
    ensures Verify(SetOwner(s, uid, tenant, principal), actor, a, operation, now, late)
      <==> Verify(s, actor, a, operation, now, late) && a.binding.deviceUid != uid
  {
    SameActors(s, SetOwner(s, uid, tenant, principal), actor, now);
    hide VerifyActor;
  }

  lemma DeletionEndsOneDevice(s: Store, number: string, uid: Id, secretHash: string, actor: Identity, a: Authorization,
                              operation: string, now: int, late: int)
    requires OwnersDistinct(s) && DeleteDevice(s, number, uid, secretHash).Ok?
    ensures Verify(DeleteDevice(s, number, uid, secretHash).value, actor, a, operation, now, late)
      <==> Verify(s, actor, a, operation, now, late) && a.binding.deviceUid != uid
  {
    SameActors(s, DeleteDevice(s, number, uid, secretHash).value, actor, now);
    hide VerifyActor;
  }

  /** Switching inbound or rotating the sharing password decides nothing about owners and members. */
  lemma SettingsEndNothing(s: Store, number: string, requested: Device, actor: Identity, a: Authorization,
                           operation: string, now: int, late: int)
    requires UpdateDevice(s, number, requested).Ok? && a.binding.ownershipId != NONE
    ensures Verify(UpdateDevice(s, number, requested).value, actor, a, operation, now, late)
      == Verify(s, actor, a, operation, now, late)
  {
    SameActors(s, UpdateDevice(s, number, requested).value, actor, now);
    UpdateFrame(s, number, requested);
    hide VerifyActor, UpdateDevice;
  }

  // ----- Shares stay few and ownerships distinct -----------------------------------------------------

  ghost predicate SharesFew(s: Store) {
    forall o: Id :: |SharesOf(s, o)| <= MAX_SHARES
  }

  ghost predicate Orderly(s: Store) {
    Bounded(s) && OwnersDistinct(s) && SharesFew(s)
  }

  lemma SubsetIsFewer<T>(a: set<T>, b: set<T>)
    requires a <= b
    ensures |a| <= |b|
  {
    assert b == a + (b - a);
  }

  lemma FewerShares(s: Store, later: Store)
    requires SharesFew(s) && later.shares.Keys <= s.shares.Keys
    ensures SharesFew(later)
  {
    forall o: Id ensures |SharesOf(later, o)| <= MAX_SHARES {
      SubsetIsFewer(SharesOf(later, o), SharesOf(s, o));
    }
  }

  lemma ReplaceShareFew(s: Store, ownership: Id, req: Request, now: int)
    requires SharesFew(s)
    ensures var r := ReplaceShare(s, ownership, req, now); r.Ok? ==> SharesFew(r.value)
  {
    hide ParseOk, NameSet, ActiveMember, SharesOf, ExpiredShares, SharesFew;
    var r := ReplaceShare(s, ownership, req, now);
    if r.Ok? {
      var key := ShareKey(ownership, req.membershipId);
      var s1 := DropShares(s, {key});
      var s2 := DropShares(s1, ExpiredShares(s1, ownership, now));
      FewerShares(s, s2);
      OneMoreShare(s2, r.value, key, r.value.shares[key]);
    }
  }

  lemma OneMoreShare(s: Store, later: Store, key: ShareKey, share: Share)
    requires SharesFew(s) && later.shares == s.shares[key := share] && |SharesOf(s, key.ownership)| < MAX_SHARES
    ensures SharesFew(later)
  {
    forall o: Id ensures |SharesOf(later, o)| <= MAX_SHARES {
      assert SharesOf(later, o) == if o == key.ownership then SharesOf(s, o) + {key} else SharesOf(s, o);
    }
  }

  lemma MutateFew(s: Store, device: Device, actor: Identity, req: Request, late: int)
    requires SharesFew(s)
    ensures var r := Mutate(s, device, actor, req, late); r.Ok? ==> SharesFew(r.value)
  {
    hide SharesFew, NamedShares, ReplaceShare, SharesOf;
    var r := Mutate(s, device, actor, req, late);
    if req.action == "share" {
      ReplaceShareFew(s, device.ownershipId, req, late);
    } else if r.Ok? {
      FewerShares(s, r.value);
    }
  }

  lemma MutateDistinct(s: Store, device: Device, actor: Identity, req: Request, late: int)
    requires Bounded(s) && OwnersDistinct(s)
    ensures var r := Mutate(s, device, actor, req, late); r.Ok? ==> OwnersDistinct(r.value)
  {
    hide NamedShares, ParseOk, NameSet, SharesOf, ExpiredShares;
  }

  lemma ManageOrderly(s: Store, number: string, expected: Device, actor: Identity, req: Request, now: int, late: int)
    requires Orderly(s)
    ensures var r := Manage(s, number, expected, actor, req, now, late);
      r.Ok? ==> OwnersDistinct(r.value) && SharesFew(r.value)
  {
    hide SharesFew, OwnersDistinct, Bounded, Mutate;
    if Barrier(s, number, expected, actor, req, now).None? {
      MutateFew(s, DeviceOf(s, s.numbers[number]), actor, req, late);
      MutateDistinct(s, DeviceOf(s, s.numbers[number]), actor, req, late);
    }
  }

  lemma StepKeepsOrderly(w: World, e: Event)
    requires Orderly(w.store)
    ensures Orderly(Step(w, e).store)
  {
    hide SharesFew, OwnersDistinct, Manage, Bounded;
    StepKeepsBounded(w, e);
    if e.Manages? {
      ManageOrderly(w.store, e.number, e.expected, e.actor, e.request, w.now, w.now + e.delay);
    } else if Result(w, e).Ok? {
      OwnersOnlyGo(w, e);
    }
  }

  lemma OwnersOnlyGo(w: World, e: Event)
    requires Result(w, e).Ok? && !e.Manages? && OwnersDistinct(w.store) && SharesFew(w.store)
    ensures OwnersDistinct(Result(w, e).value) && SharesFew(Result(w, e).value)
  {
    hide SharesFew;
    FewerShares(w.store, Result(w, e).value);
  }

  lemma {:induction false} RunKeepsOrderly(w: World, events: seq<Event>)
    requires Orderly(w.store)
    ensures Orderly(Run(w, events).store)
    decreases |events|
  {
    hide Orderly, Step;
    if events != [] {
      StepKeepsOrderly(w, events[0]);
      RunKeepsOrderly(Step(w, events[0]), events[1..]);
    }
  }

  lemma FreshIsOrderly()
    ensures Orderly(Fresh.store)
  {
  }

  /** In every reachable store all identifiers in use were drawn, at most 128 members share a device, and no
      two devices have one ownership. */
  lemma ReachableStoresAreOrderly(events: seq<Event>)
    ensures Orderly(Run(Fresh, events).store)
  {
    hide Orderly, Run;
    FreshIsOrderly();
    RunKeepsOrderly(Fresh, events);
  }
}
