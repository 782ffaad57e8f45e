/** Device identity and authorization snapshots (internal/access/device.go, authorization.go,
    internal/principal). */
module Devices {
  import opened Prelude

  /** A random identifier. NONE is the empty string, which no identifier is. */
  type Id = nat
  const NONE: Id := 0

  /** A committed snapshot of a device. `grantId` changes whenever the sharing hash does. */
  datatype Device = Device(
    uid: Id, secretHash: string, inbound: bool, grantId: Id, grantHash: string,
    ownershipId: Id, ownerTenant: Id, ownerPrincipal: Id)
  {
    function Bound(): Binding {
      if ownershipId != NONE then Binding(uid, NONE, ownershipId) else Binding(uid, grantId, NONE)
    }

    /** `drawn` is the identifier chosen for a new grant. */
    function WithAccess(hash: string, enabled: bool, drawn: Id): Device {
      if hash == grantHash then this.(inbound := enabled)
      else this.(inbound := enabled, grantHash := hash, grantId := if hash != "" then drawn else NONE)
    }

    predicate OwnedBy(actor: Identity) {
      && ownershipId != NONE && actor.principalId != NONE
      && ownerPrincipal == actor.principalId && ownerTenant == actor.tenantId
    }
  }

  /** What a connection was authenticated against. */
  datatype Binding = Binding(deviceUid: Id, grantId: Id, ownershipId: Id) {
    predicate Matches(current: Binding) {
      deviceUid != NONE && (grantId != NONE) != (ownershipId != NONE) && this == current
    }
  }

  /** A caller as the authority knows it. */
  datatype Identity = Identity(
    authority: Id, principalId: Id, tenantId: Id, membershipId: Id, version: nat, credentialId: Id, expiresAt: int)

  const OPERATIONS: set<string> :=
    {"info", "read", "write", "exec", "processes", "handoff.submit", "handoff.get"}

  type Permissions = set<string>

  /** What a caller was granted, and when that ends; an owner's grant does not expire. */
  datatype Authorization = Authorization(binding: Binding, shareId: Id, permissions: Permissions, expiresAt: int) {
    predicate Allows(operation: string) {
      operation in OPERATIONS && operation in permissions
    }
  }

  /** A binding stays good exactly until the device is recreated, changes hands, or, while it has no
      owner, changes its sharing hash; switching inbound alone never breaks it. */
  lemma BindingSurvives(d: Device, hash: string, enabled: bool, drawn: Id)
    requires d.Bound().Matches(d.Bound()) && drawn != d.grantId
    ensures d.Bound().Matches(d.WithAccess(hash, enabled, drawn).Bound())
      <==> hash == d.grantHash || d.ownershipId != NONE
  {
  }

  /** Going back to an older sharing hash does not bring the older binding back. */
  lemma OldGrantStaysDead(d: Device, away: string, first: Id, second: Id)
    requires d.ownershipId == NONE && away != d.grantHash && first != d.grantId && second != d.grantId
    ensures !d.Bound().Matches(d.WithAccess(away, d.inbound, first).WithAccess(d.grantHash, d.inbound, second).Bound())
  {
  }
}
