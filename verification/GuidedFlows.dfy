/** The durable store of pending approvals. A consume is a read followed by a guarded
  * update; between the two, other sessions may replace, clear or purge the row. */
module GuidedFlows {
  import opened Wrappers

  datatype Status = Pending | Consumed

  datatype Flow = Flow(
    id: nat, key: string, kind: string, status: Status, payload: string,
    createdAt: int, expiresAt: Option<int>)

  type Table = seq<Flow>

  function SessionKey(sessionId: Option<string>): string {
    if sessionId.None? || sessionId.value == "" then "anonymous" else sessionId.value
  }

  predicate Matches(f: Flow, key: string, kind: string) {
    f.key == key && f.kind == kind && f.status == Pending
  }

  predicate ExpiredAt(f: Flow, now: int) {
    f.expiresAt.Some? && f.expiresAt.value < now
  }

  function Filter(t: Table, keep: Flow -> bool): Table {
    if t == [] then []
    else
      var rest := Filter(t[..|t| - 1], keep);
      if keep(t[|t| - 1]) then rest + [t[|t| - 1]] else rest
  }

  function NewFlow(id: nat, key: string, kind: string, payload: string, ttl: nat, now: int): Flow {
    Flow(id, key, kind, Pending, payload, now, if ttl == 0 then None else Some(now + ttl))
  }

  function SetSession(t: Table, id: nat, key: string, kind: string, payload: string, ttl: nat, now: int): Table {
    Filter(t, (f: Flow) => !Matches(f, key, kind)) + [NewFlow(id, key, kind, payload, ttl, now)]
  }

  function ClearSession(t: Table, key: string, kind: string): Table {
    Filter(t, (f: Flow) => !(f.key == key && f.kind == kind))
  }

  /** A row without an expiry is never purged. */
  function PurgeSession(t: Table, now: int): Table {
    Filter(t, (f: Flow) => !ExpiredAt(f, now))
  }

  /** The newest pending row for a key and kind. */
  function Newest(t: Table, key: string, kind: string): (r: Option<Flow>)
    ensures r.Some? ==> r.value in t && Matches(r.value, key, kind)
    ensures r.Some? ==> forall f | f in t && Matches(f, key, kind) :: f.createdAt <= r.value.createdAt
    ensures r.None? ==> forall f | f in t :: !Matches(f, key, kind)
  {
    if t == [] then None
    else
      var last := t[|t| - 1];
      var best := Newest(t[..|t| - 1], key, kind);
      assert t == t[..|t| - 1] + [last];
      if Matches(last, key, kind) && (best.None? || best.value.createdAt <= last.createdAt) then Some(last) else best
  }

  /** The reading half of a consume: nothing when the flow is missing or stale. */
  function ReadSession(t: Table, key: string, kind: string, now: int): Option<Flow> {
    var row := Newest(t, key, kind);
    if row.Some? && !ExpiredAt(row.value, now) then row else None
  }

  function FlipAt(t: Table, id: nat): Table {
    seq(|t|, i requires 0 <= i < |t| => if t[i].id == id && t[i].status == Pending then t[i].(status := Consumed) else t[i])
  }

  predicate CanTake(t: Table, id: nat) {
    exists f :: f in t && f.id == id && f.status == Pending
  }

  /** The guarded half: it flips the row only while it is still pending. */
  function TakeSession(t: Table, id: nat): (Table, bool) {
    (FlipAt(t, id), CanTake(t, id))
  }

  /** One more flow is pending, and good for its time to live; of the others, those pending for
    * the same key and kind are gone. */
  ghost predicate Offered(t: Table, t': Table, id: nat, key: string, kind: string, payload: string, ttl: nat, now: int) {
    && |t'| > 0
    && var f := t'[|t'| - 1];
    && f.id == id && Matches(f, key, kind) && f.payload == payload && f.createdAt == now
    && (forall at :: ExpiredAt(f, at) <==> ttl > 0 && now + ttl < at)
    && forall g :: g in t'[..|t'| - 1] <==> g in t && !(g.key == key && g.kind == kind && g.status == Pending)
  }

  lemma {:induction false} SetTells(t: Table, id: nat, key: string, kind: string, payload: string, ttl: nat, now: int)
    ensures Offered(t, SetSession(t, id, key, kind, payload, ttl, now), id, key, kind, payload, ttl, now)
  {
    var keep := (f: Flow) => !Matches(f, key, kind);
    FilterHas(t, keep);
    var t' := SetSession(t, id, key, kind, payload, ttl, now);
    assert t'[..|t'| - 1] == Filter(t, keep);
  }

  class GuidedFlowStore {
    var rows: Table
    var nextId: nat

    constructor ()
      ensures rows == [] && nextId == 0
    {
      rows, nextId := [], 0;
    }

    method Set(sessionId: Option<string>, kind: string, payload: string, ttl: nat, now: int) returns (id: nat)
      modifies this
      ensures id == old(nextId) && nextId == id + 1
      ensures rows == SetSession(old(rows), id, SessionKey(sessionId), kind, payload, ttl, now)
      ensures Offered(old(rows), rows, id, SessionKey(sessionId), kind, payload, ttl, now)
    {
      SetTells(rows, nextId, SessionKey(sessionId), kind, payload, ttl, now);
      id := nextId;
      nextId := nextId + 1;
      var key := SessionKey(sessionId);
      rows := Filter(rows, (f: Flow) => !Matches(f, key, kind));
      rows := rows + [NewFlow(id, key, kind, payload, ttl, now)];
    }

    method Peek(sessionId: Option<string>, kind: string) returns (payload: Option<string>)
      ensures payload.Some? <==> exists f :: f in rows && Matches(f, SessionKey(sessionId), kind)
      ensures payload.Some? ==> exists f :: f in rows && Matches(f, SessionKey(sessionId), kind) && f.payload == payload.value
    {
      var row := Newest(rows, SessionKey(sessionId), kind);
      payload := if row.None? then None else Some(row.value.payload);
    }

    /** With no one in between, a consume returns the payload and spends the flow, or leaves
      * the table alone. */
    method Consume(sessionId: Option<string>, kind: string, now: int) returns (payload: Option<string>)
      modifies this`rows
      ensures var read := ReadSession(old(rows), SessionKey(sessionId), kind, now);
        && payload == (if read.None? then None else Some(read.value.payload))
        && rows == (if read.None? then old(rows) else TakeSession(old(rows), read.value.id).0)
    {
      var row := Newest(rows, SessionKey(sessionId), kind);
      if row.None? {
        return None;
      }
      if row.value.expiresAt.Some? && row.value.expiresAt.value < now {
        return None;
      }
      var claimed := Take(row.value.id);
      payload := if claimed then Some(row.value.payload) else None;
    }

    method Take(id: nat) returns (won: bool)
      modifies this`rows
      ensures (rows, won) == TakeSession(old(rows), id)
    {
      won := exists f :: f in rows && f.id == id && f.status == Pending;
      rows := FlipAt(rows, id);
    }

    method Clear(sessionId: Option<string>, kind: string)
      modifies this`rows
      ensures rows == ClearSession(old(rows), SessionKey(sessionId), kind)
    {
      var key := SessionKey(sessionId);
      rows := Filter(rows, (f: Flow) => !(f.key == key && f.kind == kind));
    }

    method PurgeExpired(now: int) returns (removed: int)
      modifies this`rows
      ensures rows == PurgeSession(old(rows), now) && removed == |old(rows)| - |rows|
    {
      removed := |rows|;
      rows := Filter(rows, (f: Flow) => !ExpiredAt(f, now));
      removed := removed - |rows|;
    }
  }

  // ---- what sessions keep ----

  /** Every row is one of the flows ever set, up to its status; ids are unique; and there is
    * at most one pending row for each key and kind. */
  predicate TableOk(t: Table, born: seq<Flow>) {
    && (forall f | f in t :: f.id < |born| && f.(status := Pending) == born[f.id])
    && (forall i, j | 0 <= i < j < |t| :: t[i].id != t[j].id)
    && (forall i, j | 0 <= i < j < |t| && t[i].status == t[j].status == Pending ::
      !(t[i].key == t[j].key && t[i].kind == t[j].kind))
  }

  lemma {:induction false} FilterHas(t: Table, keep: Flow -> bool)
    ensures forall f :: f in Filter(t, keep) <==> f in t && keep(f)
  {
    if t != [] {
      var n := |t| - 1;
      assert t == t[..n] + [t[n]];
      FilterHas(t[..n], keep);
    }
  }

  lemma {:induction false} FilterKeeps(t: Table, keep: Flow -> bool, born: seq<Flow>)
    requires TableOk(t, born)
    ensures TableOk(Filter(t, keep), born)
  {
    if t != [] {
      var n := |t| - 1;
      var rest := Filter(t[..n], keep);
      FilterHas(t, keep);
      FilterHas(t[..n], keep);
      FilterKeeps(t[..n], keep, born);
      forall i | 0 <= i < |rest|
        ensures rest[i].id != t[n].id
        ensures rest[i].status == t[n].status == Pending ==> !(rest[i].key == t[n].key && rest[i].kind == t[n].kind)
      {
        assert rest[i] in t[..n];
      }
    }
  }

  lemma {:induction false} TakeKeeps(t: Table, id: nat, born: seq<Flow>)
    requires TableOk(t, born)
    ensures TableOk(FlipAt(t, id), born)
    ensures forall f | f in FlipAt(t, id) && f.id == id :: f.status == Consumed
    ensures forall f | f in FlipAt(t, id) && f.status == Pending :: f in t
  {
    var t' := FlipAt(t, id);
    forall f | f in t' ensures f.id < |born| && f.(status := Pending) == born[f.id] {
      var i :| 0 <= i < |t'| && t'[i] == f;
      assert t[i] in t;
    }
  }

  lemma {:induction false} SetKeeps(t: Table, born: seq<Flow>, key: string, kind: string, payload: string, ttl: nat,
                                    now: int)
    requires TableOk(t, born)
    ensures TableOk(SetSession(t, |born|, key, kind, payload, ttl, now), born + [NewFlow(|born|, key, kind, payload, ttl, now)])
    ensures forall f | f in SetSession(t, |born|, key, kind, payload, ttl, now) :: f in t || f.id == |born|
  {
    var keep := (f: Flow) => !Matches(f, key, kind);
    var kept, added := Filter(t, keep), NewFlow(|born|, key, kind, payload, ttl, now);
    FilterHas(t, keep);
    FilterKeeps(t, keep, born);
    forall i | 0 <= i < |kept| ensures kept[i].id < |born| && keep(kept[i]) {
      assert kept[i] in kept;
    }
    forall f | f in kept + [added]
      ensures f.id < |born + [added]| && f.(status := Pending) == (born + [added])[f.id]
    {
      assert f in kept || f == added;
    }
  }
}
