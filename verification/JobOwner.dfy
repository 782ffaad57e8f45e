/** One reserved job and the processes it supervises, one after the other (internal/job/owner.go). */
module JobOwner {
  import opened Prelude
  import opened JobLedger

  type GroupId = nat

  /** What waiting for a supervised process group reports. */
  datatype ChildStatus = Running | Settled | CleanupFailed

  /** How the operating system answers a launch. `StartUncertain` leaves a group that may be alive
      although the launch reports an error. */
  datatype Spawn = Started(group: GroupId) | NotStarted | StartUncertain(group: GroupId)

  datatype Owner = Owner(id: JobId, child: Option<GroupId>, uncertain: bool, closed: bool, outcome: Option<Fault>)

  datatype StartResult = Launched | Refused | StillActive | Unconfirmed | StartFailed

  function NewOwner(id: JobId): Owner {
    Owner(id, None, false, false, None)
  }

  /** The checks before the durable launch boundary: a previous child must have been confirmed gone. */
  function SettleChild(o: Owner, status: ChildStatus): (Owner, StartResult) {
    if o.closed || o.uncertain then (o, Refused)
    else if o.child.None? then (o, Launched)
    else
      match status
      case Running => (o, StillActive)
      case CleanupFailed => (o.(uncertain := true), Unconfirmed)
      case Settled => (o.(child := None), Launched)
  }

  /** After the launch boundary has been made durable. */
  function Publish(o: Owner, spawn: Spawn): (Owner, StartResult) {
    match spawn
    case Started(g) => (o.(child := Some(g)), Launched)
    case NotStarted => (o, StartFailed)
    case StartUncertain(_) => (o.(uncertain := true), StartFailed)
  }

  /** A whole `Start`: the checks, the durable record, then the operating system. */
  function StartJob(o: Owner, l: View, d: Disk, status: ChildStatus, w: WriteOutcome, spawn: Spawn): (Owner, View, Disk, StartResult) {
    var (settled, allowed) := SettleChild(o, status);
    if allowed != Launched then (settled, l, d, allowed)
    else
      var (l', d', ready) := PrepareStart(l, d, o.id, w);
      if !ready then (settled, l', d', Refused)
      else
        var (o', result) := Publish(settled, spawn);
        (o', l', d', result)
  }

  /** The owner once `Finish` has waited for its last child. */
  function Closing(o: Owner, status: ChildStatus): Owner {
    o.(closed := true, uncertain := o.uncertain || (o.child.Some? && status == CleanupFailed))
  }

  class JobOwner {
    const id: JobId
    const ledger: Ledger
    var child: Option<GroupId>
    var uncertain: bool
    var closed: bool
    var outcome: Option<Fault>

    function Fields(): Owner
      reads this
    {
      Owner(id, child, uncertain, closed, outcome)
    }

    constructor (id: JobId, ledger: Ledger)
      ensures Fields() == NewOwner(id) && this.ledger == ledger
    {
      this.id, this.ledger := id, ledger;
      child, uncertain, closed, outcome := None, false, false, None;
    }

    /** `status` is what the child's completion reports, `w` how the launch record's write ends
        and `spawn` how the operating system answers. Nothing is spawned unless the ledger has
        durably recorded the launch. */
    method Start(status: ChildStatus, w: WriteOutcome, spawn: Spawn) returns (result: StartResult)
      modifies this, ledger, ledger.profile
      ensures (Fields(), ledger.Fields(), ledger.profile.Contents(), result)
           == StartJob(old(Fields()), old(ledger.Fields()), old(ledger.profile.Contents()), status, w, spawn)
    {
      if closed || uncertain {
        return Refused;
      }
      if child.Some? {
        match status {
          case Running => return StillActive;
          case CleanupFailed =>
            uncertain := true;
            return Unconfirmed;
          case Settled => child := None;
        }
      }
      var ready := ledger.PrepareLaunch(id, w);
      if !ready {
        return Refused;
      }
      match spawn {
        case Started(g) =>
          child := Some(g);
          return Launched;
        case NotStarted => return StartFailed;
        case StartUncertain(_) =>
          uncertain := true;
          return StartFailed;
      }
    }

    method FinishOwner(status: ChildStatus, env: Opening, w: WriteOutcome) returns (fault: Option<Fault>)
      modifies this, ledger, ledger.profile
      ensures old(closed) ==>
        Fields() == old(Fields()) && fault == outcome
        && ledger.Fields() == old(ledger.Fields()) && ledger.profile.Contents() == old(ledger.profile.Contents())
      ensures !old(closed) ==>
        var o := Closing(old(Fields()), status);
        && (ledger.Fields(), ledger.profile.Contents(), fault)
           == Finish(old(ledger.Fields()), old(ledger.profile.Contents()), ledger.me, id, o.uncertain, env, w)
        && Fields() == o.(outcome := fault)
    {
      if closed {
        return outcome;
      }
      closed := true;
      if child.Some? && status == CleanupFailed {
        uncertain := true;
      }
      fault := ledger.FinishJob(id, uncertain, env, w);
      outcome := fault;
    }
  }
}
