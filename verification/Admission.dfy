/** Per-device counting leases for requests in flight (internal/admission/service.go). */
module AdmissionModel {
  import opened Prelude
  import opened Devices

  type Active = map<Id, nat>

  datatype Outcome = Granted | InvalidRequest | LimitReached

  function Count(active: Active, uid: Id): nat {
    if uid in active then active[uid] else 0
  }

  function Acquire(active: Active, limit: nat, uid: Id): (Active, Outcome) {
    if uid == NONE then (active, InvalidRequest)
    else if Count(active, uid) >= limit then (active, LimitReached)
    else (active[uid := Count(active, uid) + 1], Granted)
  }

  /** What the first `Release` of a lease for `uid` does to the counters. */
  function GiveBack(active: Active, uid: Id): Active {
    if Count(active, uid) > 1 then active[uid := active[uid] - 1] else active - {uid}
  }

  predicate Positive(active: Active) {
    forall uid <- active :: active[uid] > 0
  }

  /** A granted lease, once given back, leaves the counters as they were. */
  lemma AcquireThenGiveBack(active: Active, limit: nat, uid: Id)
    requires Positive(active)
    ensures var (active', outcome) := Acquire(active, limit, uid);
      && Positive(active')
      && (outcome == Granted ==> Count(active', uid) <= limit && GiveBack(active', uid) == active)
      && (outcome != Granted ==> active' == active)
      && (outcome == LimitReached <==> uid != NONE && Count(active, uid) >= limit)
  {
  }

  lemma GiveBackCounts(active: Active, uid: Id, other: Id)
    requires Positive(active)
    ensures Positive(GiveBack(active, uid))
    ensures Count(GiveBack(active, uid), other) ==
      if other == uid && Count(active, uid) > 0 then Count(active, other) - 1 else Count(active, other)
  {
  }

  class Service {
    const limit: nat
    var active: Active

    constructor (limit: nat)
      requires limit > 0
      ensures active == map[] && this.limit == limit
    {
      this.limit, active := limit, map[];
    }

    method AcquireLease(uid: Id) returns (lease: Lease?, outcome: Outcome)
      modifies this
      ensures (active, outcome) == Acquire(old(active), limit, uid)
      ensures outcome == Granted <==> lease != null
      ensures lease != null ==> fresh(lease) && lease.service == this && lease.device == uid && !lease.released
    {
      if uid == NONE {
        return null, InvalidRequest;
      }
      if (if uid in active then active[uid] else 0) >= limit {
        return null, LimitReached;
      }
      active := active[uid := (if uid in active then active[uid] else 0) + 1];
      outcome := Granted;
      lease := new Lease(this, uid);
    }
  }

  class Lease {
    const service: Service
    const device: Id
    var released: bool

    constructor (service: Service, device: Id)
      ensures this.service == service && this.device == device && !released
    {
      this.service, this.device, released := service, device, false;
    }

    /** Idempotent: only the first call returns capacity. */
    method Release()
      modifies this, service
      ensures released
      ensures service.active == if old(released) then old(service.active) else GiveBack(old(service.active), device)
    {
      if released {
        return;
      }
      released := true;
      if device in service.active && service.active[device] > 1 {
        service.active := service.active[device := service.active[device] - 1];
      } else {
        service.active := service.active - {device};
      }
    }
  }
}
