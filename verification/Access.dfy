/** Device access decisions over the relay's store (internal/access/service.go, manage.go,
    internal/account, internal/storage). Every transaction is one atomic update of the store. */
module Access {
  import opened Prelude
  import opened Devices

  const MAX_SHARES := 128
  const MIN_TTL := 60
  const MAX_TTL := 7776000

  datatype DeviceRow = DeviceRow(secretHash: string, inbound: bool)
  datatype Grant = Grant(id: Id, hash: string)
  datatype Ownership = Ownership(id: Id, tenant: Id, principal: Id)
  datatype ShareKey = ShareKey(ownership: Id, member: Id)
  datatype Share = Share(id: Id, permissions: Permissions, expiresAt: int)
  datatype Membership = Membership(principal: Id, tenant: Id, active: bool, version: nat)
  datatype Credential = Credential(membership: Id, expiresAt: int, revoked: bool)

  /** The tables of the store. `numbers` maps display numbers to device UIDs, `next` is the next
      identifier to be drawn; random identifiers never repeat. */
  datatype Store = Store(
    authority: Id,
    numbers: map<string, Id>,
    devices: map<Id, DeviceRow>,
    grants: map<Id, Grant>,
    owners: map<Id, Ownership>,
    shares: map<ShareKey, Share>,
    members: map<Id, Membership>,
    credentials: map<Id, Credential>,
    next: Id)

  datatype Why = Invalid | Denied | NotFound | Limit
  datatype Outcome<T> = Ok(value: T) | Refused(why: Why)

  // ----- Reading -------------------------------------------------------------------------------------

  function DeviceOf(s: Store, uid: Id): Device
    requires uid in s.devices
  {
    var row := s.devices[uid];
    var grant := if uid in s.grants then s.grants[uid] else Grant(NONE, "");
    var owner := if uid in s.owners then s.owners[uid] else Ownership(NONE, NONE, NONE);
    Device(uid, row.secretHash, row.inbound, grant.id, grant.hash, owner.id, owner.tenant, owner.principal)
  }

  /** A credential joined with its membership, as an identity. */
  function IdentityOf(s: Store, credential: Id): Identity
    requires credential in s.credentials && s.credentials[credential].membership in s.members
  {
    var c := s.credentials[credential];
    var m := s.members[c.membership];
    Identity(s.authority, m.principal, m.tenant, c.membership, m.version, credential, c.expiresAt)
  }

  predicate ValidAt(s: Store, credential: Id, now: int) {
    && credential in s.credentials && s.credentials[credential].membership in s.members
    && s.members[s.credentials[credential].membership].active
    && !s.credentials[credential].revoked
    && s.credentials[credential].expiresAt > now
  }

  /** What the holder of the token of `credential` is told to be. */
  function Authenticate(s: Store, credential: Id, now: int): Option<Identity> {
    if ValidAt(s, credential, now) then Some(IdentityOf(s, credential)) else None
  }

  predicate VerifyActor(s: Store, actor: Identity, now: int) {
    ValidAt(s, actor.credentialId, now) && IdentityOf(s, actor.credentialId) == actor
  }

  /** The clock is read twice, `now` for the credential and not before it `late` for a share. */
  function Resolve(s: Store, uid: Id, actor: Identity, now: int, late: int): Option<Authorization> {
    if uid !in s.devices || DeviceOf(s, uid).ownershipId == NONE || !VerifyActor(s, actor, now) then None
    else
      var device := DeviceOf(s, uid);
      var key := ShareKey(device.ownershipId, actor.membershipId);
      if device.OwnedBy(actor) then Some(Authorization(device.Bound(), NONE, OPERATIONS, 0))
      else if key !in s.shares || s.shares[key].expiresAt <= late then None
      else Some(Authorization(device.Bound(), s.shares[key].id, s.shares[key].permissions, s.shares[key].expiresAt))
  }

  /** `Resolve` for a connection that authenticated as `expected`. */
  function ResolveFor(s: Store, expected: Device, actor: Identity, now: int, late: int): Option<Authorization> {
    var a := Resolve(s, expected.uid, actor, now, late);
    if a.Some? && a.value.binding == expected.Bound() then a else None
  }

  predicate Verify(s: Store, actor: Identity, expected: Authorization, operation: string, now: int, late: int) {
    var current := Resolve(s, expected.binding.deviceUid, actor, now, late);
    current == Some(expected) && expected.Allows(operation)
  }

  // ----- Transactions on ownership and shares --------------------------------------------------------

  function DropShares(s: Store, gone: set<ShareKey>): Store {
    s.(shares := s.shares - gone)
  }

  function SharesOf(s: Store, ownership: Id): set<ShareKey> {
    set k <- s.shares | k.ownership == ownership
  }

  function ExpiredShares(s: Store, ownership: Id, now: int): set<ShareKey> {
    set k <- s.shares | k.ownership == ownership && s.shares[k].expiresAt <= now
  }

  function NamedShares(s: Store, ownership: Id, id: Id): set<ShareKey> {
    set k <- s.shares | k.ownership == ownership && s.shares[k].id == id
  }

  /** The old ownership goes with all its shares. */
  function SetOwner(s: Store, uid: Id, tenant: Id, principal: Id): Store {
    var gone := if uid in s.owners then SharesOf(s, s.owners[uid].id) else {};
    DropShares(s, gone).(owners := s.owners[uid := Ownership(s.next, tenant, principal)], next := s.next + 1)
  }

  datatype Request = Request(action: string, membershipId: Id, shareId: Id, operations: seq<string>, ttl: int)

  predicate ParseOk(names: seq<string>) {
    names != [] && forall n <- names :: n in OPERATIONS
  }

  function NameSet(names: seq<string>): Permissions {
    set n <- names
  }

  predicate RequestOk(r: Request) {
    if r.action == "claim" || r.action == "status" then
      r.membershipId == NONE && r.shareId == NONE && r.operations == [] && r.ttl == 0
    else if r.action == "transfer" then
      r.membershipId != NONE && r.shareId == NONE && r.operations == [] && r.ttl == 0
    else if r.action == "share" then
      r.membershipId != NONE && r.shareId == NONE && MIN_TTL <= r.ttl <= MAX_TTL && ParseOk(r.operations)
    else if r.action == "unshare" then
      r.shareId != NONE && r.membershipId == NONE && r.operations == [] && r.ttl == 0
    else false
  }

  predicate ActiveMember(s: Store, id: Id) {
    id in s.members && s.members[id].active
  }

  function ReplaceShare(s: Store, ownership: Id, req: Request, now: int): Outcome<Store> {
    if !ActiveMember(s, req.membershipId) then Refused(Denied)
    else if !ParseOk(req.operations) then Refused(Invalid)
    else
      var key := ShareKey(ownership, req.membershipId);
      var s1 := DropShares(s, {key});
      var s2 := DropShares(s1, ExpiredShares(s1, ownership, now));
      if |SharesOf(s2, ownership)| >= MAX_SHARES then Refused(Limit)
      else Ok(s2.(shares := s2.shares[key := Share(s.next, NameSet(req.operations), now + req.ttl)], next := s.next + 1))
  }

  function Transfer(s: Store, device: Device, to: Id): Outcome<Store> {
    if !ActiveMember(s, to) then Refused(Denied)
    else if s.members[to].tenant != device.ownerTenant || s.members[to].principal != device.ownerPrincipal then
      Ok(SetOwner(s, device.uid, s.members[to].tenant, s.members[to].principal))
    else Ok(s)
  }

  function Mutate(s: Store, device: Device, actor: Identity, req: Request, late: int): Outcome<Store> {
    if req.action == "claim" then
      Ok(if device.ownershipId == NONE then SetOwner(s, device.uid, actor.tenantId, actor.principalId) else s)
    else if req.action == "transfer" then Transfer(s, device, req.membershipId)
    else if req.action == "share" then ReplaceShare(s, device.ownershipId, req, late)
    else if req.action == "unshare" then
      if NamedShares(s, device.ownershipId, req.shareId) == {} then Refused(Denied)
      else Ok(DropShares(s, NamedShares(s, device.ownershipId, req.shareId)))
    else Ok(s)
  }

  /** Why a request is turned away before it may change anything. */
  function Barrier(s: Store, number: string, expected: Device, actor: Identity, req: Request, now: int): Option<Why> {
    if !RequestOk(req) then Some(Invalid)
    else if !VerifyActor(s, actor, now) then Some(Denied)
    else if number !in s.numbers || s.numbers[number] !in s.devices then Some(NotFound)
    else
      var device := DeviceOf(s, s.numbers[number]);
      if device.uid != expected.uid || device.secretHash != expected.secretHash
         || device.ownershipId != expected.ownershipId then Some(Denied)
      else if device.ownershipId != NONE && !device.OwnedBy(actor) then Some(Denied)
      else if req.action != "claim" && req.action != "status" && device.ownershipId == NONE then Some(Denied)
      else None
  }

  function Manage(s: Store, number: string, expected: Device, actor: Identity, req: Request, now: int, late: int)
    : Outcome<Store>
  {
    var barrier := Barrier(s, number, expected, actor, req, now);
    if barrier.Some? then Refused(barrier.value)
    else Mutate(s, DeviceOf(s, s.numbers[number]), actor, req, late)
  }

  // ----- Transactions on devices ---------------------------------------------------------------------

  function RegisterDevice(s: Store, number: string, secretHash: string, inbound: bool): Outcome<Store> {
    if number in s.numbers then
      if s.numbers[number] in s.devices && s.devices[s.numbers[number]].secretHash == secretHash then Ok(s)
      else Refused(Denied)
    else
      Ok(s.(numbers := s.numbers[number := s.next],
            devices := s.devices[s.next := DeviceRow(secretHash, inbound)], next := s.next + 1))
  }

  function WriteDevice(s: Store, record: Device): Store
    requires record.uid in s.devices
  {
    s.(devices := s.devices[record.uid := s.devices[record.uid].(inbound := record.inbound)],
       grants := if record.grantId == NONE then s.grants - {record.uid}
                 else s.grants[record.uid := Grant(record.grantId, record.grantHash)],
       next := s.next + 1)
  }

  function UpdateDevice(s: Store, number: string, requested: Device): Outcome<Store> {
    if number !in s.numbers || s.numbers[number] !in s.devices then Refused(Denied)
    else
      var uid := s.numbers[number];
      var current := DeviceOf(s, uid);
      if current.uid != requested.uid || current.secretHash != requested.secretHash then Refused(Denied)
      else
        Ok(WriteDevice(s, current.WithAccess(requested.grantHash, requested.inbound, s.next)))
  }

  /** Ownership, shares and grant go with the device. */
  function DeleteDevice(s: Store, number: string, uid: Id, secretHash: string): Outcome<Store> {
    if number !in s.numbers || s.numbers[number] != uid || uid !in s.devices || s.devices[uid].secretHash != secretHash then
      Refused(Denied)
    else
      var gone := if uid in s.owners then SharesOf(s, s.owners[uid].id) else {};
      Ok(DropShares(s, gone).(numbers := s.numbers - {number}, devices := s.devices - {uid},
                              grants := s.grants - {uid}, owners := s.owners - {uid}))
  }

  // ----- Transactions on accounts --------------------------------------------------------------------

  function IssueCredential(s: Store, membership: Id, expiresAt: int): Outcome<Store> {
    if !ActiveMember(s, membership) then Refused(Denied)
    else Ok(s.(credentials := s.credentials[s.next := Credential(membership, expiresAt, false)], next := s.next + 1))
  }

  /** A new principal, in a tenant of its own unless one is named, with a first credential. */
  function CreatePrincipal(s: Store, tenant: Id, expiresAt: int): Outcome<Store> {
    var home := if tenant == NONE then s.next + 1 else tenant;
    var s1 := s.(members := s.members[s.next + 2 := Membership(s.next, home, true, 1)], next := s.next + 3);
    IssueCredential(s1, s.next + 2, expiresAt)
  }

  function RevokeCredential(s: Store, credential: Id): Outcome<Store> {
    if credential !in s.credentials then Refused(Denied)
    else Ok(s.(credentials := s.credentials[credential := s.credentials[credential].(revoked := true)]))
  }

  function SetMembershipActive(s: Store, membership: Id, active: bool): Outcome<Store> {
    if membership !in s.members then Refused(Denied)
    else
      var m := s.members[membership];
      Ok(s.(members := s.members[membership := m.(active := active, version := m.version + 1)]))
  }

  // ----- The same decisions step by step -------------------------------------------------------------

  method ParsePermissions(names: seq<string>) returns (permissions: Permissions, ok: bool)
    ensures ok == ParseOk(names)
    ensures ok ==> permissions == NameSet(names) && permissions <= OPERATIONS
  {
    permissions := {};
    for i := 0 to |names|
      invariant forall n <- names[..i] :: n in OPERATIONS
      invariant permissions == NameSet(names[..i])
    {
      assert names[..i + 1] == names[..i] + [names[i]];
      if names[i] !in OPERATIONS {
        return {}, false;
      }
      permissions := permissions + {names[i]};
    }
    assert names[..|names|] == names;
    return permissions, names != [];
  }

  /** The access service: `store` is the committed content; a transaction works on a copy. */
  class Service {
    var store: Store

    method ReplaceMemberShare(tx: Store, device: Device, req: Request, now: int) returns (r: Outcome<Store>)
      ensures r == ReplaceShare(tx, device.ownershipId, req, now)
    {
      if !ActiveMember(tx, req.membershipId) {
        return Refused(Denied);
      }
      var permissions, ok := ParsePermissions(req.operations);
      if !ok {
        return Refused(Invalid);
      }
      var id := tx.next;
      var key := ShareKey(device.ownershipId, req.membershipId);
      var work := DropShares(tx, {key});
      work := DropShares(work, ExpiredShares(work, device.ownershipId, now));
      if |SharesOf(work, device.ownershipId)| >= MAX_SHARES {
        return Refused(Limit);
      }
      work := work.(shares := work.shares[key := Share(id, permissions, now + req.ttl)], next := id + 1);
      return Ok(work);
    }

    /** `commit` is the fate of the transaction; only a confirmed one is reported as a success. */
    method ManageDevice(number: string, expected: Device, actor: Identity, req: Request, now: int, late: int,
                        commit: WriteOutcome) returns (done: bool)
      modifies this
      ensures var result := Manage(old(store), number, expected, actor, req, now, late);
        && store == (if result.Ok? then AfterWrite(old(store), result.value, commit) else old(store))
        && done == (result.Ok? && commit == Written)
    {
      hide ReplaceShare, RequestOk, ValidAt, SetOwner;
      if !RequestOk(req) {
        return false;
      }
      var tx := store;
      if !VerifyActor(tx, actor, now) || number !in tx.numbers || tx.numbers[number] !in tx.devices {
        return false;
      }
      var device := DeviceOf(tx, tx.numbers[number]);
      if device.uid != expected.uid || device.secretHash != expected.secretHash
         || device.ownershipId != expected.ownershipId {
        return false;
      }
      if device.ownershipId != NONE && !device.OwnedBy(actor) {
        return false;
      }
      if req.action != "claim" && req.action != "status" && device.ownershipId == NONE {
        return false;
      }
      var r := ApplyAction(tx, device, actor, req, late);
      if r.Refused? {
        return false;
      }
      if commit != FailedBefore {
        store := r.value;
      }
      return commit == Written;
    }

    method ApplyAction(tx: Store, device: Device, actor: Identity, req: Request, late: int) returns (r: Outcome<Store>)
      ensures r == Mutate(tx, device, actor, req, late)
    {
      hide ReplaceShare, SetOwner;
      var work := tx;
      if req.action == "claim" {
        if device.ownershipId == NONE {
          work := SetOwner(work, device.uid, actor.tenantId, actor.principalId);
        }
      } else if req.action == "transfer" {
        if !ActiveMember(work, req.membershipId) {
          return Refused(Denied);
        }
        var member := work.members[req.membershipId];
        if member.tenant != device.ownerTenant || member.principal != device.ownerPrincipal {
          work := SetOwner(work, device.uid, member.tenant, member.principal);
        }
      } else if req.action == "share" {
        r := ReplaceMemberShare(work, device, req, late);
        return;
      } else if req.action == "unshare" {
        var gone := NamedShares(work, device.ownershipId, req.shareId);
        if gone == {} {
          return Refused(Denied);
        }
        work := DropShares(work, gone);
      }
      return Ok(work);
    }
  }
}
