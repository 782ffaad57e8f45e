/** A reclaimable mutex per device identity (internal/relay/identity_gate.go): entries exist only
    while somebody owns or awaits them, and are deleted and recreated at will. */
module IdentityGate {
  import opened Prelude

  type CallerId = nat
  type GateRef = nat

  /** One entry object: its one-slot token channel and its user count. */
  datatype Gate = Gate(token: bool, users: int)

  /** `Took` is between receiving the token and looking at the context again; `Leaving` has no
      token and still has to deregister. */
  datatype Phase = Waiting | Took | Holding | Leaving

  datatype Caller = Caller(device: string, gate: GateRef, phase: Phase)

  datatype World = World(
    entries: map<string, GateRef>, gates: map<GateRef, Gate>, callers: map<CallerId, Caller>,
    nextGate: GateRef, nextCaller: CallerId)

  const Empty := World(map[], map[], map[], 0, 0)

  datatype Event =
    | Enter(device: string)
    | TakeToken(caller: CallerId)
    | Confirm(caller: CallerId)
    | PutBack(caller: CallerId)
    | CancelWait(caller: CallerId)
    | Deregister(caller: CallerId)

  function Move(w: World, c: CallerId, phase: Phase): World
    requires c in w.callers
  {
    w.(callers := w.callers[c := w.callers[c].(phase := phase)])
  }

  function SetToken(w: World, g: GateRef, token: bool): World
    requires g in w.gates
  {
    w.(gates := w.gates[g := w.gates[g].(token := token)])
  }

  predicate In(w: World, c: CallerId, phase: Phase) {
    c in w.callers && w.callers[c].phase == phase && w.callers[c].gate in w.gates
  }

  function EnterStep(w: World, device: string): World {
    var w' := if device in w.entries then w else
      w.(gates := w.gates[w.nextGate := Gate(true, 0)], entries := w.entries[device := w.nextGate], nextGate := w.nextGate + 1);
    var g := w'.entries[device];
    if g !in w'.gates then w else
    w'.(gates := w'.gates[g := w'.gates[g].(users := w'.gates[g].users + 1)],
        callers := w'.callers[w.nextCaller := Caller(device, g, Waiting)], nextCaller := w.nextCaller + 1)
  }

  function DeregisterStep(w: World, c: CallerId): World {
    if !In(w, c, Leaving) then w else
    var id := w.callers[c].device;
    var g := w.callers[c].gate;
    var left := w.gates[g].(users := w.gates[g].users - 1);
    w.(gates := w.gates[g := left], callers := w.callers - {c},
       entries := if left.users == 0 then w.entries - {id} else w.entries)
  }

  function Step(w: World, e: Event): World {
    match e
    case Enter(device) => EnterStep(w, device)
    case TakeToken(c) =>
      if !In(w, c, Waiting) || !w.gates[w.callers[c].gate].token then w
      else Move(SetToken(w, w.callers[c].gate, false), c, Took)
    case Confirm(c) => if !In(w, c, Took) then w else Move(w, c, Holding)
    case PutBack(c) =>
      if !In(w, c, Took) && !In(w, c, Holding) then w
      else Move(SetToken(w, w.callers[c].gate, true), c, Leaving)
    case CancelWait(c) => if !In(w, c, Waiting) then w else Move(w, c, Leaving)
    case Deregister(c) => DeregisterStep(w, c)
  }

  function Run(w: World, events: seq<Event>): World
    decreases |events|
  {
    if events == [] then w else Run(Step(w, events[0]), events[1..])
  }

  // ----- Invariant -------------------------------------------------------------------------------

  function UsersOf(w: World, device: string): set<CallerId> {
    set c <- w.callers | w.callers[c].device == device
  }

  predicate Owns(w: World, c: CallerId) {
    c in w.callers && (w.callers[c].phase == Took || w.callers[c].phase == Holding)
  }

  predicate Entries(w: World) {
    && (forall id <- w.entries :: w.entries[id] in w.gates && w.entries[id] < w.nextGate)
    && (forall id <- w.entries, other <- w.entries :: w.entries[id] == w.entries[other] ==> id == other)
    && (forall c <- w.callers :: c < w.nextCaller)
    && (forall g <- w.gates :: g < w.nextGate)
  }

  predicate Registered(w: World) {
    forall c <- w.callers :: w.callers[c].device in w.entries && w.entries[w.callers[c].device] == w.callers[c].gate
  }

  predicate Counted(w: World) {
    forall id <- w.entries :: w.entries[id] in w.gates
      && w.gates[w.entries[id]].users == |UsersOf(w, id)| && UsersOf(w, id) != {}
  }

  predicate Exclusive(w: World) {
    && (forall c <- w.callers, d <- w.callers ::
      Owns(w, c) && Owns(w, d) && w.callers[c].device == w.callers[d].device ==> c == d)
    && (forall c <- w.callers :: Owns(w, c) && w.callers[c].gate in w.gates ==> !w.gates[w.callers[c].gate].token)
  }

  /** The token is never lost: when nobody owns it, the entry has it. */
  predicate TokenKept(w: World) {
    forall id <- w.entries :: w.entries[id] in w.gates ==>
      w.gates[w.entries[id]].token || exists c <- w.callers :: Owns(w, c) && w.callers[c].device == id
  }

  predicate Inv(w: World) {
    Entries(w) && Registered(w) && Counted(w) && Exclusive(w) && TokenKept(w)
  }

  lemma EnterUsers(w: World, device: string, id: string)
    requires Entries(w)
    ensures UsersOf(EnterStep(w, device), id) == UsersOf(w, id) + if id == device then {w.nextCaller} else {}
    ensures w.nextCaller !in UsersOf(w, id)
  {
  }

  lemma EnterKeepsEntries(w: World, device: string)
    requires Entries(w) && Registered(w)
    ensures Entries(EnterStep(w, device)) && Registered(EnterStep(w, device))
  {
  }

  lemma EnterKeepsCounted(w: World, device: string)
    requires Entries(w) && Registered(w) && Counted(w)
    ensures Counted(EnterStep(w, device))
  {
    var w' := EnterStep(w, device);
    forall id <- w'.entries
      ensures w'.entries[id] in w'.gates && w'.gates[w'.entries[id]].users == |UsersOf(w', id)| && UsersOf(w', id) != {}
    {
      EnterUsers(w, device, id);
      if id !in w.entries {
        assert UsersOf(w, id) == {};
      }
    }
  }

  /** An arrival owns nothing and moves no token. */
  lemma EnterFrame(w: World, device: string)
    requires Entries(w)
    ensures var w' := EnterStep(w, device);
      && (forall c <- w.callers :: c in w'.callers && w'.callers[c] == w.callers[c])
      && (forall c :: Owns(w', c) == Owns(w, c))
      && (forall g <- w.gates :: g in w'.gates && w'.gates[g].token == w.gates[g].token)
      && (forall id <- w.entries :: id in w'.entries && w'.entries[id] == w.entries[id])
      && (forall id <- w'.entries :: id !in w.entries ==> w'.entries[id] in w'.gates && w'.gates[w'.entries[id]].token)
  {
    assert forall c <- w.callers :: c != w.nextCaller;
  }

  lemma EnterKeepsTokens(w: World, device: string)
    requires Entries(w) && Registered(w) && Exclusive(w) && TokenKept(w)
    ensures Exclusive(EnterStep(w, device)) && TokenKept(EnterStep(w, device))
  {
    EnterFrame(w, device);
    EnterStaysExclusive(w, device);
    hide EnterStep, Exclusive, Owns;
    var w' := EnterStep(w, device);
    forall id <- w'.entries | w'.entries[id] in w'.gates
      ensures w'.gates[w'.entries[id]].token || exists c <- w'.callers :: Owns(w', c) && w'.callers[c].device == id
    {
      if id in w.entries && !w.gates[w.entries[id]].token {
        var c :| c in w.callers && Owns(w, c) && w.callers[c].device == id;
        assert c in w'.callers && Owns(w', c) && w'.callers[c].device == id;
      }
    }
  }

  lemma EnterStaysExclusive(w: World, device: string)
    requires Entries(w) && Registered(w) && Exclusive(w)
    ensures Exclusive(EnterStep(w, device))
  {
    EnterFrame(w, device);
    var w' := EnterStep(w, device);
    assert forall c :: Owns(w', c) ==> c in w.callers;
    hide EnterStep, Owns;
  }

  lemma LastUserLeaves(w: World, c: CallerId)
    requires Entries(w) && Registered(w) && Counted(w) && In(w, c, Leaving)
    ensures var w' := DeregisterStep(w, c);
      && (forall id :: UsersOf(w', id) == UsersOf(w, id) - {c})
      && (w.callers[c].device in w'.entries <==> UsersOf(w', w.callers[c].device) != {})
  {
    var w' := DeregisterStep(w, c);
    var device := w.callers[c].device;
    forall id ensures UsersOf(w', id) == UsersOf(w, id) - {c} {}
    assert c in UsersOf(w, device);
    assert |UsersOf(w, device) - {c}| == |UsersOf(w, device)| - 1;
  }

  lemma DeregisterKeepsShape(w: World, c: CallerId)
    requires Entries(w) && Registered(w) && Counted(w)
    ensures var w' := DeregisterStep(w, c); Entries(w') && Registered(w') && Counted(w')
  {
    DeregisterKeepsRegistered(w, c);
    DeregisterKeepsCounted(w, c);
    hide Registered, Counted;
  }

  lemma DeregisterKeepsRegistered(w: World, c: CallerId)
    requires Entries(w) && Registered(w) && Counted(w)
    ensures Registered(DeregisterStep(w, c))
  {
    if In(w, c, Leaving) {
      var w' := DeregisterStep(w, c);
      LastUserLeaves(w, c);
      hide Counted;
      forall d <- w'.callers ensures w'.callers[d].device in w'.entries {
        assert d in UsersOf(w', w'.callers[d].device);
      }
    }
  }

  lemma DeregisterKeepsCounted(w: World, c: CallerId)
    requires Entries(w) && Registered(w) && Counted(w)
    ensures Counted(DeregisterStep(w, c))
  {
    if In(w, c, Leaving) {
      var w' := DeregisterStep(w, c);
      var device := w.callers[c].device;
      LastUserLeaves(w, c);
      forall id <- w'.entries
        ensures w'.gates[w'.entries[id]].users == |UsersOf(w', id)| && UsersOf(w', id) != {}
      {
        if id != device {
          assert c !in UsersOf(w, id);
          assert UsersOf(w', id) == UsersOf(w, id);
        } else {
          assert c in UsersOf(w, id);
        }
      }
    }
  }

  lemma DeregisterKeepsTokens(w: World, c: CallerId)
    requires Entries(w) && Registered(w) && Exclusive(w) && TokenKept(w)
    ensures Exclusive(DeregisterStep(w, c)) && TokenKept(DeregisterStep(w, c))
  {
    if In(w, c, Leaving) {
      var w' := DeregisterStep(w, c);
      assert forall d :: Owns(w', d) == Owns(w, d);
      assert forall g <- w.gates :: w'.gates[g].token == w.gates[g].token;
      forall id <- w'.entries | !w'.gates[w'.entries[id]].token
        ensures exists d <- w'.callers :: Owns(w', d) && w'.callers[d].device == id
      {
        var d :| d in w.callers && Owns(w, d) && w.callers[d].device == id;
        assert d in w'.callers && Owns(w', d) && w'.callers[d].device == id;
      }
    }
  }

  /** Changing one caller's phase, and its gate's token with it, changes nothing else. */
  lemma MoveFrame(w: World, e: Event)
    requires !e.Enter? && !e.Deregister?
    ensures var w' := Step(w, e);
      && w' == w.(gates := w'.gates, callers := w'.callers)
      && w'.gates.Keys == w.gates.Keys && w'.callers.Keys == w.callers.Keys
      && (forall g <- w.gates :: w'.gates[g].users == w.gates[g].users)
      && (forall c <- w.callers :: w'.callers[c].device == w.callers[c].device && w'.callers[c].gate == w.callers[c].gate)
  {
  }

  lemma MoveKeepsShape(w: World, e: Event)
    requires Entries(w) && Registered(w) && Counted(w) && !e.Enter? && !e.Deregister?
    ensures var w' := Step(w, e); Entries(w') && Registered(w') && Counted(w')
  {
    MoveFrame(w, e);
    hide Step;
    var w' := Step(w, e);
    forall id: string ensures UsersOf(w', id) == UsersOf(w, id) {}
  }

  lemma MoveKeepsExclusive(w: World, e: Event)
    requires Entries(w) && Registered(w) && Exclusive(w) && !e.Enter? && !e.Deregister?
    ensures Exclusive(Step(w, e))
  {
    hide Exclusive, Entries, Registered;
    match e
    case TakeToken(c) => TakeKeepsExclusive(w, c);
    case Confirm(c) => ConfirmKeepsExclusive(w, c);
    case PutBack(c) => PutBackKeepsExclusive(w, c);
    case CancelWait(c) => LeaveKeepsExclusive(w, c);
  }

  /** One caller's phase changed; the others own what they owned. */
  lemma OthersOwn(w: World, w': World, c: CallerId)
    requires c in w.callers && c in w'.callers && w'.callers == w.callers[c := w'.callers[c]]
    ensures forall d :: d != c ==> Owns(w', d) == Owns(w, d)
  {
  }

  lemma TakeKeepsExclusive(w: World, c: CallerId)
    requires Entries(w) && Registered(w) && Exclusive(w)
    ensures Exclusive(Step(w, TakeToken(c)))
  {
    var w' := Step(w, TakeToken(c));
    if w' != w {
      var g := w.callers[c].gate;
      OthersOwn(w, w', c);
      forall d <- w.callers | Owns(w, d) ensures w.callers[d].gate != g && w.callers[d].device != w.callers[c].device {
        assert w.entries[w.callers[d].device] == w.callers[d].gate;
      }
      hide Owns;
      assert forall d <- w.callers :: d != c ==> w'.callers[d] == w.callers[d];
      assert forall o <- w.gates :: o != g ==> w'.gates[o] == w.gates[o];
    }
  }

  lemma ConfirmKeepsExclusive(w: World, c: CallerId)
    requires Exclusive(w)
    ensures Exclusive(Step(w, Confirm(c)))
  {
    var w' := Step(w, Confirm(c));
    if w' != w {
      OthersOwn(w, w', c);
      assert Owns(w, c) && Owns(w', c);
      hide Owns;
      assert forall d <- w.callers :: d != c ==> w'.callers[d] == w.callers[d];
    }
  }

  /** A caller that stops owning leaves the others as they were. */
  lemma LeaveKeepsExclusive(w: World, c: CallerId)
    requires Exclusive(w)
    ensures Exclusive(Step(w, CancelWait(c)))
  {
    var w' := Step(w, CancelWait(c));
    if w' != w {
      OthersOwn(w, w', c);
      assert !Owns(w', c);
      hide Owns;
      assert forall d <- w.callers :: d != c ==> w'.callers[d] == w.callers[d];
    }
  }

  lemma PutBackKeepsExclusive(w: World, c: CallerId)
    requires Entries(w) && Registered(w) && Exclusive(w)
    ensures Exclusive(Step(w, PutBack(c)))
  {
    var w' := Step(w, PutBack(c));
    if w' != w {
      var g := w.callers[c].gate;
      OthersOwn(w, w', c);
      assert Owns(w, c) && !Owns(w', c);
      forall d <- w.callers | Owns(w, d) && d != c ensures w.callers[d].gate != g {
        assert w.entries[w.callers[d].device] == w.callers[d].gate;
      }
      hide Owns;
      assert forall d <- w.callers :: d != c ==> w'.callers[d] == w.callers[d];
      assert forall o <- w.gates :: o != g ==> w'.gates[o] == w.gates[o];
    }
  }

  lemma MoveKeepsTokens(w: World, e: Event)
    requires Entries(w) && Registered(w) && Exclusive(w) && TokenKept(w) && !e.Enter? && !e.Deregister?
    ensures TokenKept(Step(w, e))
  {
    var w' := Step(w, e);
    if w' != w {
      var c := e.caller;
      forall id <- w'.entries | !w'.gates[w'.entries[id]].token
        ensures exists d <- w'.callers :: Owns(w', d) && w'.callers[d].device == id
      {
        if id == w.callers[c].device {
          assert e.TakeToken? || e.Confirm? || e.CancelWait?;
        }
        var d :| d in w.callers && w.callers[d].device == id && (Owns(w, d) || (d == c && e.TakeToken?));
        assert d in w'.callers && Owns(w', d) && w'.callers[d].device == id;
      }
    }
  }

  lemma StepKeepsInv(w: World, e: Event)
    requires Inv(w)
    ensures Inv(Step(w, e))
  {
    hide Entries, Registered, Counted, Exclusive, TokenKept, EnterStep, DeregisterStep;
    match e
    case Enter(device) =>
      EnterKeepsEntries(w, device);
      EnterKeepsCounted(w, device);
      EnterKeepsTokens(w, device);
    case Deregister(c) =>
      DeregisterKeepsShape(w, c);
      DeregisterKeepsTokens(w, c);
    case _ =>
      MoveKeepsShape(w, e);
      MoveKeepsExclusive(w, e);
      MoveKeepsTokens(w, e);
  }

  lemma {:induction false} RunKeepsInv(w: World, events: seq<Event>)
    requires Inv(w)
    ensures Inv(Run(w, events))
    decreases |events|
  {
    if events != [] {
      StepKeepsInv(w, events[0]);
      RunKeepsInv(Step(w, events[0]), events[1..]);
    }
  }

  /** Under any interleaving of arrivals, grants, cancellations and releases: at most one caller
      holds a device's gate, everybody concerned with a device shares one entry, the entry exists
      exactly while somebody is concerned, and an entry nobody owns still has its token. */
  lemma GateIsAMutex(events: seq<Event>)
    ensures var w := Run(Empty, events);
      && (forall c <- w.callers, d <- w.callers ::
        w.callers[c].phase == Holding && w.callers[d].phase == Holding && w.callers[c].device == w.callers[d].device ==> c == d)
      && (forall c <- w.callers, d <- w.callers ::
        w.callers[c].device == w.callers[d].device ==> w.callers[c].gate == w.callers[d].gate)
      && (forall id :: id in w.entries <==> exists c <- w.callers :: w.callers[c].device == id)
      && (forall id <- w.entries :: w.entries[id] in w.gates && (w.gates[w.entries[id]].token <==>
        !exists c <- w.callers :: w.callers[c].device == id && Owns(w, c)))
  {
    hide Run;
    assert Inv(Empty) by { NobodyYet(); }
    RunKeepsInv(Empty, events);
    InvMeans(Run(Empty, events));
  }

  lemma NobodyYet()
    ensures Inv(Empty)
  {
  }

  lemma InvMeans(w: World)
    requires Inv(w)
    ensures forall c <- w.callers, d <- w.callers ::
      w.callers[c].phase == Holding && w.callers[d].phase == Holding && w.callers[c].device == w.callers[d].device ==> c == d
    ensures forall c <- w.callers, d <- w.callers ::
      w.callers[c].device == w.callers[d].device ==> w.callers[c].gate == w.callers[d].gate
    ensures forall id :: id in w.entries <==> exists c <- w.callers :: w.callers[c].device == id
    ensures forall id <- w.entries :: w.entries[id] in w.gates && (w.gates[w.entries[id]].token <==>
      !exists c <- w.callers :: w.callers[c].device == id && Owns(w, c))
  {
    HoldersAreOne(w);
    EntriesAreUsed(w);
    TokenMeansFree(w);
    hide TokenKept, Counted, Exclusive, Entries, Owns;
  }

  lemma HoldersAreOne(w: World)
    requires Exclusive(w)
    ensures forall c <- w.callers, d <- w.callers ::
      w.callers[c].phase == Holding && w.callers[d].phase == Holding && w.callers[c].device == w.callers[d].device ==> c == d
  {
    assert forall c <- w.callers :: w.callers[c].phase == Holding ==> Owns(w, c);
  }

  lemma EntriesAreUsed(w: World)
    requires Registered(w) && Counted(w)
    ensures forall id :: id in w.entries <==> exists c <- w.callers :: w.callers[c].device == id
  {
    forall id | id in w.entries ensures exists c <- w.callers :: w.callers[c].device == id {
      var c :| c in UsersOf(w, id);
    }
  }

  lemma TokenMeansFree(w: World)
    requires Inv(w)
    ensures forall id <- w.entries :: w.entries[id] in w.gates && (w.gates[w.entries[id]].token <==>
      !exists c <- w.callers :: w.callers[c].device == id && Owns(w, c))
  {
    hide Counted;
  }

  /** Nobody of the device has its gate. */
  predicate Free(w: World, device: string) {
    forall c <- w.callers :: w.callers[c].device == device ==> w.callers[c].phase != Took && w.callers[c].phase != Holding
  }

  lemma WaitingFacts(w: World, c: CallerId)
    requires Inv(w) && c in w.callers
    ensures w.callers[c].gate in w.gates && (w.gates[w.callers[c].gate].token <==> Free(w, w.callers[c].device))
  {
    TokenMeansFree(w);
    hide TokenKept, Counted, Exclusive;
  }

  /** In every reachable state: whoever arrives waits; who waits gets the gate exactly when nobody of its device has it;
      who holds it can pass it on to anybody waiting; and who stops waiting is gone, with everybody else where
      they were. */
  lemma GateMovesOn(events: seq<Event>, device: string, c: CallerId, d: CallerId)
    ensures var w := Run(Empty, events);
      && var later := Step(w, Enter(device));
         var me := w.nextCaller;
         && me !in w.callers && me in later.callers
         && later.callers[me].device == device && later.callers[me].phase == Waiting
         && forall x <- w.callers :: x in later.callers && later.callers[x] == w.callers[x]
    ensures var w := Run(Empty, events);
      c in w.callers && w.callers[c].phase == Waiting ==>
        var later := Step(Step(w, TakeToken(c)), Confirm(c));
        && c in later.callers && (later.callers[c].phase == Holding <==> Free(w, w.callers[c].device))
        && (later.callers[c].phase == Holding || later == w)
    ensures var w := Run(Empty, events);
      c in w.callers && d in w.callers && w.callers[c].phase == Holding && w.callers[d].phase == Waiting
      && w.callers[c].device == w.callers[d].device ==>
        var later := Step(Step(Step(w, PutBack(c)), TakeToken(d)), Confirm(d));
        d in later.callers && later.callers[d].phase == Holding && c in later.callers && later.callers[c].phase == Leaving
    ensures var w := Run(Empty, events);
      c in w.callers && w.callers[c].phase == Waiting ==>
        Step(Step(w, CancelWait(c)), Deregister(c)).callers == w.callers - {c}
  {
    hide Run;
    NobodyYet();
    RunKeepsInv(Empty, events);
    var w := Run(Empty, events);
    ArrivalWaits(w, device);
    if c in w.callers {
      WaitingFacts(w, c);
      WaiterIsServed(w, c);
      if w.callers[c].phase == Waiting {
        WaiterLeaves(w, c);
      }
      if d in w.callers {
        WaitingFacts(w, d);
        SameGate(w, c, d);
        HolderHandsOn(w, c, d);
      }
    }
    hide Inv, Step, Free;
  }

  lemma SameGate(w: World, c: CallerId, d: CallerId)
    requires Inv(w) && c in w.callers && d in w.callers
    ensures w.callers[c].device == w.callers[d].device ==> w.callers[c].gate == w.callers[d].gate
  {
    hide Entries, Counted, Exclusive, TokenKept;
  }

  lemma ArrivalWaits(w: World, device: string)
    requires Inv(w)
    ensures var later, me := Step(w, Enter(device)), w.nextCaller;
      && me !in w.callers && me in later.callers
      && later.callers[me].device == device && later.callers[me].phase == Waiting
      && forall x <- w.callers :: x in later.callers && later.callers[x] == w.callers[x]
  {
    hide Registered, Counted, Exclusive, TokenKept;
  }

  lemma WaiterIsServed(w: World, c: CallerId)
    requires c in w.callers && w.callers[c].gate in w.gates
    requires w.gates[w.callers[c].gate].token <==> Free(w, w.callers[c].device)
    ensures w.callers[c].phase == Waiting ==>
      var later := Step(Step(w, TakeToken(c)), Confirm(c));
      && c in later.callers && (later.callers[c].phase == Holding <==> Free(w, w.callers[c].device))
      && (later.callers[c].phase == Holding || later == w)
  {
    hide Free;
  }

  lemma WaiterLeaves(w: World, c: CallerId)
    requires c in w.callers && w.callers[c].gate in w.gates && w.callers[c].phase == Waiting
    ensures Step(Step(w, CancelWait(c)), Deregister(c)).callers == w.callers - {c}
  {
  }

  lemma HolderHandsOn(w: World, c: CallerId, d: CallerId)
    requires c in w.callers && d in w.callers && w.callers[c].gate in w.gates && w.callers[d].gate in w.gates
    ensures w.callers[c].phase == Holding && w.callers[d].phase == Waiting && w.callers[c].gate == w.callers[d].gate ==>
      var later := Step(Step(Step(w, PutBack(c)), TakeToken(d)), Confirm(d));
      d in later.callers && later.callers[d].phase == Holding && c in later.callers && later.callers[c].phase == Leaving
  {
  }

  // ----- The same steps on an object ---------------------------------------------------------------

  /** The gates with their entries and the callers that are inside `acquire` or hold a gate. */
  class IdentityGates {
    var entries: map<string, GateRef>
    var gates: map<GateRef, Gate>
    var callers: map<CallerId, Caller>
    var nextGate: GateRef
    var nextCaller: CallerId

    function Now(): World
      reads this
    {
      World(entries, gates, callers, nextGate, nextCaller)
    }

    constructor ()
      ensures Now() == Empty
    {
      entries, gates, callers, nextGate, nextCaller := map[], map[], map[], 0, 0;
    }

    /** The first section of `acquire`: find or create the entry and register with it. */
    method Register(id: string) returns (c: CallerId)
      requires Entries(Now())
      modifies this
      ensures Now() == Step(old(Now()), Enter(id)) && c == old(nextCaller)
    {
      c := nextCaller;
      if id !in entries {
        gates := gates[nextGate := Gate(true, 0)];
        entries := entries[id := nextGate];
        nextGate := nextGate + 1;
      }
      var g := entries[id];
      gates := gates[g := gates[g].(users := gates[g].users + 1)];
      callers := callers[c := Caller(id, g, Waiting)];
      nextCaller := c + 1;
    }

    /** A waiting caller receives the token, if it is there. */
    method Receive(c: CallerId) returns (got: bool)
      modifies this`gates, this`callers
      ensures Now() == Step(old(Now()), TakeToken(c))
      ensures got ==> c in callers && callers[c].phase == Took
    {
      if c !in callers || callers[c].phase != Waiting || callers[c].gate !in gates {
        return false;
      }
      var g := callers[c].gate;
      if !gates[g].token {
        return false;
      }
      gates := gates[g := gates[g].(token := false)];
      callers := callers[c := callers[c].(phase := Took)];
      return true;
    }

    /** With the token in hand: hold the gate, unless the caller's context has ended meanwhile. */
    method Decide(c: CallerId, ended: bool)
      requires c in callers && callers[c].phase == Took && callers[c].gate in gates
      modifies this`gates, this`callers
      ensures Now() == Step(old(Now()), if ended then PutBack(c) else Confirm(c))
    {
      if ended {
        ReturnToken(c);
        return;
      }
      callers := callers[c := callers[c].(phase := Holding)];
    }

    method ReturnToken(c: CallerId)
      modifies this`gates, this`callers
      ensures Now() == Step(old(Now()), PutBack(c))
    {
      if c in callers && (callers[c].phase == Took || callers[c].phase == Holding) && callers[c].gate in gates {
        var g := callers[c].gate;
        gates := gates[g := gates[g].(token := true)];
        callers := callers[c := callers[c].(phase := Leaving)];
      }
    }

    /** A caller whose context ends while it waits. */
    method GiveUp(c: CallerId)
      modifies this`callers
      ensures Now() == Step(old(Now()), CancelWait(c))
    {
      if c in callers && callers[c].phase == Waiting && callers[c].gate in gates {
        callers := callers[c := callers[c].(phase := Leaving)];
      }
    }

    /** `release`: leave the entry, and drop it when this was its last user. */
    method Unregister(c: CallerId)
      modifies this
      ensures Now() == Step(old(Now()), Deregister(c))
    {
      if c !in callers || callers[c].phase != Leaving || callers[c].gate !in gates {
        return;
      }
      var id, g := callers[c].device, callers[c].gate;
      gates := gates[g := gates[g].(users := gates[g].users - 1)];
      callers := callers - {c};
      if gates[g].users == 0 {
        entries := entries - {id};
      }
    }
  }
}
