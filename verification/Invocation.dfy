/** The execution namespace derived by the relay (internal/invocation). */
module Invocation {

  datatype Scope = Scope(
    authority: string, deviceUid: string, ownershipId: string,
    grantId: string, principalId: string, tenantId: string)
  {
    predicate Valid() {
      && IsIdentity(authority) && IsIdentity(deviceUid)
      && (ownershipId == "") != (grantId == "")
      && (ownershipId != "" ==> IsIdentity(ownershipId) && principalId != "")
      && (grantId != "" ==> IsIdentity(grantId))
      && if principalId == "" then tenantId == "" else IsIdentity(principalId) && IsIdentity(tenantId)
    }
  }

  /** What the device currently is, as last told by the relay. */
  datatype DeviceContext = DeviceContext(
    authority: string, deviceUid: string, ownershipId: string, grantId: string, inbound: bool)
  {
    predicate Valid() {
      && IsIdentity(authority) && IsIdentity(deviceUid)
      && (ownershipId == "" || IsIdentity(ownershipId))
      && (grantId == "" || IsIdentity(grantId))
      && (ownershipId == "" || grantId == "")
    }

    predicate Allows(scope: Scope) {
      && Valid() && inbound && scope.Valid()
      && authority == scope.authority && deviceUid == scope.deviceUid
      && ownershipId == scope.ownershipId && grantId == scope.grantId
    }
  }

  /** A valid scope is allowed by exactly one device context: any change of the device ends what it allowed. */
  lemma OneContextPerScope(scope: Scope, device: DeviceContext)
    requires scope.Valid()
    ensures device.Allows(scope) <==>
      device == DeviceContext(scope.authority, scope.deviceUid, scope.ownershipId, scope.grantId, true)
  {
  }

  /** 32 lower-case hexadecimal digits. */
  predicate IsIdentity(value: string) {
    |value| == 32 && forall c <- value :: '0' <= c <= '9' || 'a' <= c <= 'f'
  }
}
