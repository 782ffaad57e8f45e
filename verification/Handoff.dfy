/** Durable handoff receipts (internal/handoff): a manager that answers requests from memory, the
    receipt files it rewrites, and the restarts in between.

    One manager uses a data directory at a time: the daemon holds its runtime lock for as long. */
module Handoff {
  import opened Prelude
  import opened Invocation

  const MAX_RECEIPTS := 128
  const MAX_PROOF := 4096

  /** `requestKey` hashes this pair; the hash is taken to be injective. */
  datatype Key = Key(scope: Scope, id: string)

  /** `content` stands for every field that takes part in the fingerprint beside the ID and the
      session, `valid` for the rest of `Request.validate`. */
  datatype Request = Request(id: string, session: string, content: string, valid: bool)
  datatype Fingerprint = Fingerprint(id: string, session: string, content: string)

  datatype State = Received | Accepted | Running | Completed | Failed | Unknown

  datatype Receipt = Receipt(
    id: string, fingerprint: Fingerprint, session: string, state: State, code: string,
    version: string, text: string, truncated: bool)

  datatype Record = Record(scope: Scope, receipt: Receipt)

  type Files = map<Key, Record>

  datatype Worker = Worker(key: Key, cancelled: bool)

  datatype Ticket = Ticket(manager: nat, scope: Scope, generation: nat, proof: string)

  /** What a worker reports about its run. */
  datatype Report = Report(state: State, code: string, version: string, text: string, truncated: bool)

  datatype Refusal = BadIdentity | BadRequest | Unavailable | ContextChanged | IdReused | ForeignSession
                   | TooMany | NoCapacity | NotSaved | NoReceipt

  datatype Reply = Refused(why: Refusal) | Replied(receipt: Receipt)

  datatype View = View(
    items: Files, active: map<string, Worker>, device: DeviceContext, generation: nat,
    failed: bool, closed: bool)

  const NewView := View(map[], map[], DeviceContext("", "", "", "", false), 0, false, false)

  predicate Terminal(s: State) {
    s == Completed || s == Failed || s == Unknown
  }

  predicate Alphanumeric(c: char) {
    'A' <= c <= 'Z' || 'a' <= c <= 'z' || '0' <= c <= '9'
  }

  predicate IsRequestId(id: string) {
    1 <= |id| <= 64 && Alphanumeric(id[0]) && forall c <- id :: Alphanumeric(c) || c == '_' || c == '-'
  }

  /** A UUID in either case. */
  predicate IsSession(s: string) {
    |s| == 36 && forall i | 0 <= i < 36 ::
      if i in {8, 13, 18, 23} then s[i] == '-'
      else '0' <= s[i] <= '9' || 'a' <= s[i] <= 'f' || 'A' <= s[i] <= 'F'
  }

  function LowerChar(c: char): char {
    if 'A' <= c <= 'Z' then c + 32 as char else c
  }

  function Lower(s: string): string {
    seq(|s|, i requires 0 <= i < |s| => LowerChar(s[i]))
  }

  function FingerprintOf(r: Request): Fingerprint {
    Fingerprint(r.id, Lower(r.session), r.content)
  }

  function FirstRecord(scope: Scope, r: Request): Record {
    Record(scope, Receipt(r.id, FingerprintOf(r), Lower(r.session), Received, "", "", "", false))
  }

  predicate OwnsSession(items: Files, scope: Scope, session: string) {
    forall k <- items :: items[k].receipt.session == session ==> items[k].scope == scope
  }

  // ----- Operations on values ----------------------------------------------------------------------

  /** `admitted` is the answer of the job ledger, `w` the fate of the receipt write. The last
      component tells whether a worker was launched. */
  function Submit(me: nat, v: View, files: Files, t: Ticket, r: Request, admitted: bool, w: WriteOutcome)
    : (View, Files, Reply, bool)
  {
    var key := Key(t.scope, r.id);
    var session := Lower(r.session);
    if !t.scope.Valid() || t.proof == "" || |t.proof| > MAX_PROOF then (v, files, Refused(BadIdentity), false)
    else if !IsRequestId(r.id) || !IsSession(r.session) || !r.valid then (v, files, Refused(BadRequest), false)
    else if v.failed || v.closed then (v, files, Refused(Unavailable), false)
    else if t.manager != me || t.generation != v.generation || !v.device.Allows(t.scope) then
      (v, files, Refused(ContextChanged), false)
    else if key in v.items then
      if v.items[key].receipt.fingerprint != FingerprintOf(r) then (v, files, Refused(IdReused), false)
      else (v, files, Replied(v.items[key].receipt), false)
    else if !OwnsSession(v.items, t.scope, session) then (v, files, Refused(ForeignSession), false)
    else if |v.items| >= MAX_RECEIPTS || session in v.active then (v, files, Refused(TooMany), false)
    else if !admitted then (v, files, Refused(NoCapacity), false)
    else
      var record := FirstRecord(t.scope, r);
      var files' := AfterWrite(files, files[key := record], w);
      if w != Written then (v.(failed := true), files', Refused(NotSaved), false)
      else (v.(items := v.items[key := record], active := v.active[session := Worker(key, false)]),
            files', Replied(record.receipt), true)
  }

  function Reported(r: Record, report: Report): Record {
    Record(r.scope, r.receipt.(
      state := report.state, code := report.code, text := report.text, truncated := report.truncated,
      version := if report.version != "" then report.version else r.receipt.version))
  }

  function Update(v: View, files: Files, key: Key, report: Report, w: WriteOutcome): (View, Files, bool) {
    if v.failed || key !in v.items || Terminal(v.items[key].receipt.state) then (v, files, false)
    else
      var record := Reported(v.items[key], report);
      var files' := AfterWrite(files, files[key := record], w);
      if w != Written then (v.(failed := true), files', false)
      else (v.(items := v.items[key := record]), files', true)
  }

  function Get(v: View, scope: Scope, id: string): Reply {
    if !scope.Valid() || !IsRequestId(id) then Refused(BadIdentity)
    else if v.failed then Refused(Unavailable)
    else if !v.device.Allows(scope) then Refused(ContextChanged)
    else if Key(scope, id) !in v.items then Refused(NoReceipt)
    else Replied(v.items[Key(scope, id)].receipt)
  }

  function Interrupt(active: map<string, Worker>, device: DeviceContext): map<string, Worker> {
    map s | s in active :: active[s].(cancelled := active[s].cancelled || !device.Allows(active[s].key.scope))
  }

  function SyncDevice(v: View, device: DeviceContext): View {
    v.(device := device,
       generation := if v.device != device then v.generation + 1 else v.generation,
       active := Interrupt(v.active, device))
  }

  /** One file of the receipt directory as the next manager meets it. `readable` is false when it
      cannot be read or decoded. */
  datatype Entry = Entry(key: Key, readable: bool, write: WriteOutcome)

  predicate Sound(r: Record, key: Key) {
    r.scope.Valid() && IsRequestId(r.receipt.id) && IsSession(r.receipt.session) && key == Key(r.scope, r.receipt.id)
  }

  function Restarted(r: Record): Record {
    if Terminal(r.receipt.state) then r
    else r.(receipt := r.receipt.(state := Unknown, code := "runtime_restarted"))
  }

  /** Reads the entries one by one; the first trouble stops the loading for good. */
  function LoadEntries(v: View, files: Files, entries: seq<Entry>): (View, Files)
    requires forall e <- entries :: e.key in files
    decreases |entries|
  {
    if entries == [] then (v, files) else
    var e := entries[0];
    var r := files[e.key];
    if !e.readable || !Sound(r, e.key) || !OwnsSession(v.items, r.scope, r.receipt.session) then
      (v.(failed := true), files)
    else if Terminal(r.receipt.state) then
      LoadEntries(v.(items := v.items[e.key := r]), files, entries[1..])
    else
      var files' := AfterWrite(files, files[e.key := Restarted(r)], e.write);
      if e.write != Written then (v.(failed := true), files')
      else LoadEntries(v.(items := v.items[e.key := Restarted(r)]), files', entries[1..])
  }

  function Load(files: Files, entries: seq<Entry>, listable: bool): (View, Files)
    requires forall e <- entries :: e.key in files
  {
    if !listable || |entries| > MAX_RECEIPTS then (NewView.(failed := true), files)
    else LoadEntries(NewView, files, entries)
  }

  // ----- The same operations on objects ------------------------------------------------------------

  class Directory {
    var files: Files

    constructor ()
      ensures files == map[]
    {
      files := map[];
    }

    method Persist(r: Record, w: WriteOutcome) returns (ok: bool)
      modifies this
      ensures files == AfterWrite(old(files), old(files)[Key(r.scope, r.receipt.id) := r], w)
      ensures ok == (w == Written)
    {
      if w != FailedBefore {
        files := files[Key(r.scope, r.receipt.id) := r];
      }
      return w == Written;
    }
  }

  class Manager {
    const me: nat
    const directory: Directory
    var items: Files
    var active: map<string, Worker>
    var device: DeviceContext
    var generation: nat
    var failed: bool
    var closed: bool

    function Fields(): View
      reads this
    {
      View(items, active, device, generation, failed, closed)
    }

    /** `New`: an unusable directory leaves a manager that refuses everything. */
    constructor (me: nat, directory: Directory, entries: seq<Entry>, listable: bool)
      requires forall e <- entries :: e.key in directory.files
      modifies directory
      ensures this.me == me && this.directory == directory
      ensures (Fields(), directory.files) == Load(old(directory.files), entries, listable)
    {
      this.me, this.directory := me, directory;
      items, active, device, generation := map[], map[], DeviceContext("", "", "", "", false), 0;
      failed, closed := false, false;
      new;
      if !listable || |entries| > MAX_RECEIPTS {
        failed := true;
        return;
      }
      var i := 0;
      while i < |entries|
        invariant i <= |entries| && directory == this.directory && this.me == me
        invariant forall e <- entries :: e.key in directory.files
        invariant LoadEntries(Fields(), directory.files, entries[i..])
               == LoadEntries(NewView, old(directory.files), entries)
      {
        var e := entries[i];
        assert e in entries && entries[i..][0] == e && entries[i..][1..] == entries[i + 1..];
        var r := directory.files[e.key];
        var owns := false;
        if Sound(r, e.key) {
          owns := SessionIsOwn(r.scope, r.receipt.session);
        }
        if !e.readable || !Sound(r, e.key) || !owns {
          failed := true;
          return;
        }
        if !Terminal(r.receipt.state) {
          r := Restarted(r);
          var ok := directory.Persist(r, e.write);
          if !ok {
            failed := true;
            return;
          }
        }
        items := items[e.key := r];
        i := i + 1;
      }
      assert entries[i..] == [];
    }

    method SessionIsOwn(scope: Scope, session: string) returns (owns: bool)
      ensures owns == OwnsSession(items, scope, session)
    {
      var rest := items.Keys;
      while rest != {}
        invariant rest <= items.Keys
        invariant forall k <- items.Keys - rest :: items[k].receipt.session == session ==> items[k].scope == scope
      {
        var k :| k in rest;
        if items[k].receipt.session == session && items[k].scope != scope {
          return false;
        }
        rest := rest - {k};
      }
      return true;
    }

    method SubmitRequest(t: Ticket, r: Request, admitted: bool, w: WriteOutcome) returns (reply: Reply, launched: bool)
      modifies this, directory
      ensures (Fields(), directory.files, reply, launched)
        == Submit(me, old(Fields()), old(directory.files), t, r, admitted, w)
    {
      var scope := t.scope;
      if !scope.Valid() || t.proof == "" || |t.proof| > MAX_PROOF {
        return Refused(BadIdentity), false;
      }
      if !IsRequestId(r.id) || !IsSession(r.session) || !r.valid {
        return Refused(BadRequest), false;
      }
      var session := Lower(r.session);
      var hash := FingerprintOf(r);
      var key := Key(scope, r.id);
      if failed || closed {
        return Refused(Unavailable), false;
      }
      if t.manager != me || t.generation != generation || !device.Allows(scope) {
        return Refused(ContextChanged), false;
      }
      if key in items {
        if items[key].receipt.fingerprint != hash {
          return Refused(IdReused), false;
        }
        return Replied(items[key].receipt), false;
      }
      var owns := SessionIsOwn(scope, session);
      if !owns {
        return Refused(ForeignSession), false;
      }
      if |items| >= MAX_RECEIPTS || session in active {
        return Refused(TooMany), false;
      }
      if !admitted {
        return Refused(NoCapacity), false;
      }
      var receipt := Receipt(r.id, hash, session, Received, "", "", "", false);
      var stored := Record(scope, receipt);
      var ok := directory.Persist(stored, w);
      if !ok {
        failed := true;
        return Refused(NotSaved), false;
      }
      items := items[key := stored];
      active := active[session := Worker(key, false)];
      return Replied(receipt), true;
    }

    method UpdateReceipt(key: Key, report: Report, w: WriteOutcome) returns (ok: bool)
      requires key in items ==> key == Key(items[key].scope, items[key].receipt.id)
      modifies this, directory
      ensures (Fields(), directory.files, ok)
        == Update(old(Fields()), old(directory.files), key, report, w)
    {
      if failed || key !in items {
        return false;
      }
      var r := items[key];
      if Terminal(r.receipt.state) {
        return false;
      }
      var receipt := r.receipt.(state := report.state, code := report.code);
      if report.version != "" {
        receipt := receipt.(version := report.version);
      }
      r := Record(r.scope, receipt.(text := report.text, truncated := report.truncated));
      ok := directory.Persist(r, w);
      if !ok {
        failed := true;
        return;
      }
      items := items[key := r];
    }

    /** Work already received loses its worker when the device stops allowing its scope. */
    method SyncContext(current: DeviceContext) returns (ok: bool)
      modifies this
      ensures Fields() == SyncDevice(old(Fields()), current)
      ensures ok == current.Valid()
    {
      if device != current {
        generation := generation + 1;
        device := current;
      }
      Interruption(current);
      return current.Valid();
    }

    method Interruption(current: DeviceContext)
      modifies this`active
      ensures active == Interrupt(old(active), current)
    {
      var todo := active.Keys;
      while todo != {}
        invariant todo <= active.Keys && active.Keys == old(active.Keys)
        invariant forall s <- active.Keys :: active[s].key == old(active)[s].key
        invariant forall s <- todo :: active[s] == old(active)[s]
        invariant forall s <- active.Keys - todo ::
          active[s].cancelled == (old(active)[s].cancelled || !current.Allows(active[s].key.scope))
      {
        hide DeviceContext.Allows;
        var s :| s in todo;
        if !current.Allows(active[s].key.scope) {
          active := active[s := active[s].(cancelled := true)];
        }
        todo := todo - {s};
      }
    }

    method LeaveWorker(session: string)
      modifies this
      ensures Fields() == old(Fields()).(active := old(active) - {session})
    {
      active := active - {session};
    }

    method CloseManager()
      modifies this
      ensures Fields() == old(Fields()).(closed := true)
    {
      closed := true;
    }
  }
}
