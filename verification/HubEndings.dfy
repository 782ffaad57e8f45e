/** Nobody is left waiting: whoever a route's end concerns is told. */
module HubEndings {
  import opened Prelude
  import opened Frames
  import opened HubModel
  import opened HubRouting
  import opened HubWire
  import opened HubLease
  import opened HubSteps
  import opened HubHistory
  import opened HubRenewals
  import O = OutboxModel

  /** The frame was put to the connection's outbox between two states. */
  predicate Told(h: Hub, h': Hub, c: Conn, f: Frame, r: string) {
    |h.wire| <= |h'.wire| && exists i | |h.wire| <= i < |h'.wire| ::
      h'.wire[i].conn == c && h'.wire[i].event == O.Send(f) && h'.wire[i].route == r
  }

  lemma PutTells(h: Hub, c: Conn, f: Frame, r: string)
    requires c in h.net
    ensures Told(h, Put(h, c, O.Send(f), r).0, c, f, r)
  {
    PutFields(h, c, O.Send(f), r);
    hide Put, O.Step;
    assert Put(h, c, O.Send(f), r).0.wire[|h.wire|] == Added(h, c, O.Send(f), r);
  }

  lemma ToldLater(a: Hub, b: Hub, c: Hub, k: Conn, f: Frame, r: string)
    requires Told(a, b, k, f, r) && b.wire <= c.wire
    ensures Told(a, c, k, f, r)
  {
    var i :| |a.wire| <= i < |b.wire| && b.wire[i].conn == k && b.wire[i].event == O.Send(f) && b.wire[i].route == r;
    assert c.wire[i] == b.wire[i];
  }

  lemma ToldEarlier(a: Hub, b: Hub, c: Hub, k: Conn, f: Frame, r: string)
    requires a.wire <= b.wire && Told(b, c, k, f, r)
    ensures Told(a, c, k, f, r)
  {
  }

  /** Both ends of a route are connections the router writes to. */
  lemma EndsAreConnected(h: Hub, r: string)
    requires Sane(h) && r in h.inflight
    ensures r in h.issued && h.issued[r].via in h.net && h.issued[r].client in h.net
    ensures h.issued[r].client == h.inflight[r].client && h.issued[r].request == h.inflight[r].request
    ensures h.inflight[r].device in h.devices && h.devices[h.inflight[r].device].conn == Some(h.issued[r].via)
  {
    RouteMeans(h, r);
    hide Inverse, DevicesHeld, IssuesHeld, Counted, GateRoles, Joiners, IssueRoles, Wired;
  }

  lemma MovesAdd(h: Hub, h': Hub)
    requires Moves(h, h')
    ensures h.wire <= h'.wire
  {
    hide Talks;
  }

  lemma CancelOneTells(h: Hub, r: string)
    requires Sane(h) && r in h.inflight
    ensures Told(h, CancelOne(h, r), h.issued[r].via, CancelFrame(r), "")
  {
    EndsAreConnected(h, r);
    PutTells(h, h.issued[r].via, CancelFrame(r), "");
    hide Sane, Put, Finish;
    FinishFields(CancelAtDevice(h, r), r);
  }

  /** A caller that is lost stops its work: for each of its routes a cancellation is put to the very
      connection the invoke went out on. */
  lemma {:induction false} LostCallerStopsItsWork(h: Hub, order: seq<string>, r: string)
    requires Sane(h) && r in order && r in h.inflight
    ensures Told(h, CancelClient(h, order), h.issued[r].via, CancelFrame(r), "")
    decreases |order|
  {
    hide Sane, Moves, CancelOne, CancelClient, Told;
    var h1 := CancelOne(h, order[0]);
    CancelOneMoves(h, order[0]);
    EndsAreConnected(h, r);
    FirstCancelled(h, order);
    if order[0] == r {
      CancelClientMoves(h1, order[1..]);
      CancelOneTells(h, r);
      MovesAdd(h1, CancelClient(h1, order[1..]));
      ToldLater(h, h1, CancelClient(h, order), h.issued[r].via, CancelFrame(r), "");
    } else {
      MovesAdd(h, h1);
      LostCallerStopsItsWork(h1, order[1..], r);
      ToldEarlier(h, h1, CancelClient(h, order), h.issued[r].via, CancelFrame(r), "");
    }
  }

  lemma FirstCancelled(h: Hub, order: seq<string>)
    requires order != []
    ensures CancelClient(h, order) == CancelClient(CancelOne(h, order[0]), order[1..])
  {
  }

  lemma FailOneTells(h: Hub, r: string, code: string)
    requires Sane(h) && r in h.inflight
    ensures Told(h, FailOne(h, r, code), h.issued[r].client, Err(h.issued[r].request, code), r)
  {
    EndsAreConnected(h, r);
    PutTells(h, h.issued[r].client, Err(h.issued[r].request, code), r);
    hide Sane, Put, Finish;
    FinishFields(Answer(h, r, Err(h.inflight[r].request, code)).0, r);
  }

  /** A device that is lost leaves no caller in the dark: each of its routes ends with an error put to the
      route's caller. */
  lemma {:induction false} LostDeviceTellsItsCallers(h: Hub, order: seq<string>, code: string, r: string)
    requires Sane(h) && r in order && r in h.inflight
    ensures Told(h, FailDevice(h, order, code), h.issued[r].client, Err(h.issued[r].request, code), r)
    decreases |order|
  {
    hide Sane, Moves, FailOne, FailDevice, Told;
    var h1 := FailOne(h, order[0], code);
    FailOneMoves(h, order[0], code);
    EndsAreConnected(h, r);
    FirstFailed(h, order, code);
    if order[0] == r {
      FailDeviceMoves(h1, order[1..], code);
      FailOneTells(h, r, code);
      MovesAdd(h1, FailDevice(h1, order[1..], code));
      ToldLater(h, h1, FailDevice(h, order, code), h.issued[r].client, Err(h.issued[r].request, code), r);
    } else {
      MovesAdd(h, h1);
      LostDeviceTellsItsCallers(h1, order[1..], code, r);
      ToldEarlier(h, h1, FailDevice(h, order, code), h.issued[r].client, Err(h.issued[r].request, code), r);
    }
  }

  lemma FirstFailed(h: Hub, order: seq<string>, code: string)
    requires order != []
    ensures FailDevice(h, order, code) == FailDevice(FailOne(h, order[0], code), order[1..], code)
  {
  }

  lemma InvalidateOneTells(h: Hub, r: string)
    requires Sane(h) && r in h.inflight
    ensures Told(h, InvalidateOne(h, r), h.issued[r].via, CancelFrame(r), "")
    ensures Told(h, InvalidateOne(h, r), h.issued[r].client, Err(h.issued[r].request, RESULT_UNKNOWN), r)
  {
    EndsAreConnected(h, r);
    PutTells(h, h.issued[r].via, CancelFrame(r), "");
    CancelAtDeviceMoves(h, r);
    var h1 := CancelAtDevice(h, r);
    FailOneTells(h1, r, RESULT_UNKNOWN);
    FailOneMoves(h1, r, RESULT_UNKNOWN);
    MovesAdd(h, h1);
    MovesAdd(h1, FailOne(h1, r, RESULT_UNKNOWN));
    hide Sane, Moves, Put, FailOne, Told;
    ToldLater(h, h1, InvalidateOne(h, r), h.issued[r].via, CancelFrame(r), "");
    ToldEarlier(h, h1, InvalidateOne(h, r), h.issued[r].client, Err(h.issued[r].request, RESULT_UNKNOWN), r);
  }

  lemma FirstInvalidated(h: Hub, order: seq<string>)
    requires order != []
    ensures InvalidateRoutes(h, order) == InvalidateRoutes(InvalidateOne(h, order[0]), order[1..])
  {
  }

  /** A change of hands tells both sides of every route of the device: a cancellation is put to the
      connection of the invoke, and the unknown result to the caller. */
  lemma {:induction false} ChangeOfHandsTellsBoth(h: Hub, order: seq<string>, r: string)
    requires Sane(h) && r in order && r in h.inflight
    ensures Told(h, InvalidateRoutes(h, order), h.issued[r].via, CancelFrame(r), "")
    ensures Told(h, InvalidateRoutes(h, order), h.issued[r].client, Err(h.issued[r].request, RESULT_UNKNOWN), r)
    decreases |order|
  {
    hide Sane, Moves, InvalidateOne, InvalidateRoutes, Told;
    var h1 := InvalidateOne(h, order[0]);
    var last := InvalidateRoutes(h, order);
    InvalidateOneMoves(h, order[0]);
    EndsAreConnected(h, r);
    FirstInvalidated(h, order);
    var f := Err(h.issued[r].request, RESULT_UNKNOWN);
    if order[0] == r {
      InvalidateRoutesMoves(h1, order[1..]);
      InvalidateOneTells(h, r);
      MovesAdd(h1, last);
      ToldLater(h, h1, last, h.issued[r].via, CancelFrame(r), "");
      ToldLater(h, h1, last, h.issued[r].client, f, r);
    } else {
      MovesAdd(h, h1);
      ChangeOfHandsTellsBoth(h1, order[1..], r);
      ToldEarlier(h, h1, last, h.issued[r].via, CancelFrame(r), "");
      ToldEarlier(h, h1, last, h.issued[r].client, f, r);
    }
  }
}
