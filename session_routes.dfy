/** The session routes: public and owner-scoped queries and mutations of the session
    collection. Every owner-scoped route scopes its query by the caller's id, which the
    authentication middleware supplies. */
module SessionRoutes {
  import opened Base
  import opened Lists
  import opened SessionSchema

  /** The session collection: documents by `_id`, and the next `_id` the datastore hands out. */
  datatype Db = Db(sessions: map<SessionId, Session>, nextId: SessionId)

  /** Every document is stored under its own `_id`, below `nextId`, and satisfies the schema. */
  predicate Consistent(db: Db) {
    forall k :: k in db.sessions ==>
      k < db.nextId && db.sessions[k].id == k && SessionSchema.Valid(db.sessions[k])
  }

  /** The filter `{ _id: id, created_by: caller }` matches a document. */
  predicate Owns(db: Db, caller: UserId, id: SessionId) {
    id in db.sessions && db.sessions[id].createdBy == caller
  }

  /** Every document some other user owns in `db` is still in `db'`, unchanged. */
  predicate OthersUntouched(db: Db, db': Db, caller: UserId) {
    forall k :: k in db.sessions && db.sessions[k].createdBy != caller ==>
      k in db'.sessions && db'.sessions[k] == db.sessions[k]
  }

  datatype Body = One(session: Session) | Many(list: seq<Session>) | Null | Message(text: string) | ServerError

  /** An HTTP status code with its JSON body. */
  datatype Reply = Reply(code: nat, body: Body)

  const NotFound := Reply(404, Message("Session not found"))
  const Deleted := Reply(200, Message("Session deleted successfully"))
  /** Whatever a handler catches is answered with 500 and the error's message. */
  const Failed := Reply(500, ServerError)

  // ---------------------------------------------------------------- queries

  /** The query filters the two list routes use. */
  datatype Query = StatusIs(status: string) | CreatedBy(owner: UserId)

  predicate Matches(s: Session, q: Query) {
    match q
    case StatusIs(st) => s.status == st
    case CreatedBy(u) => s.createdBy == u
  }

  /** The two descending sort orders the list routes use. */
  datatype SortKey = NewestCreated | NewestUpdated

  function KeyOf(s: Session, k: SortKey): nat {
    match k
    case NewestCreated => s.createdAt
    case NewestUpdated => s.updatedAt
  }

  predicate SortedBy(r: seq<Session>, k: SortKey) {
    forall i, j :: 0 <= i < j < |r| ==> KeyOf(r[i], k) >= KeyOf(r[j], k)
  }

  /** `r` is the result of `find(q).sort(k)`: every stored document matching `q`, each once,
      nothing else, in descending order of `k`. */
  ghost predicate IsListing(r: seq<Session>, db: Db, q: Query, k: SortKey) {
    && (forall x :: x in r <==> x in db.sessions.Values && Matches(x, q))
    && Distinct(r)
    && SortedBy(r, k)
  }

  /** Putting `x` in front of a sorted list whose keys are all at most its own keeps it sorted. */
  lemma ConsSorted(x: Session, t: seq<Session>, k: SortKey)
    requires SortedBy(t, k)
    requires forall y :: y in t ==> KeyOf(x, k) >= KeyOf(y, k)
    ensures SortedBy([x] + t, k)
  {
    var r := [x] + t;
    forall i, j | 0 <= i < j < |r| ensures KeyOf(r[i], k) >= KeyOf(r[j], k) {
      assert r[j] == t[j - 1];
      if i > 0 {
        assert r[i] == t[i - 1];
      }
    }
  }

  /** Putting a new value in front of a duplicate-free list keeps it duplicate-free. */
  lemma ConsDistinct<T>(x: T, t: seq<T>)
    requires Distinct(t) && x !in t
    ensures Distinct([x] + t)
  {
    var r := [x] + t;
    forall i, j | 0 <= i < j < |r| ensures r[i] != r[j] {
      assert r[j] == t[j - 1];
      if i > 0 {
        assert r[i] == t[i - 1];
      }
    }
  }

  /** `s` goes in front of a sorted `r` whose first key is not greater than its own. */
  lemma InsertInFront(r: seq<Session>, s: Session, k: SortKey)
    requires SortedBy(r, k)
    requires r == [] || KeyOf(s, k) >= KeyOf(r[0], k)
    ensures SortedBy([s] + r, k)
    ensures s !in r && Distinct(r) ==> Distinct([s] + r)
  {
    forall y | y in r ensures KeyOf(s, k) >= KeyOf(y, k) {
      var i :| 0 <= i < |r| && r[i] == y;
      assert i == 0 || KeyOf(r[0], k) >= KeyOf(r[i], k);
    }
    ConsSorted(s, r, k);
    if s !in r && Distinct(r) {
      ConsDistinct(s, r);
    }
  }

  /** The tail of a sorted, duplicate-free list is sorted, and duplicate-free. */
  lemma TailFacts(r: seq<Session>, k: SortKey)
    requires r != [] && SortedBy(r, k)
    ensures SortedBy(r[1..], k)
    ensures Distinct(r) ==> Distinct(r[1..]) && r[0] !in r[1..]
  {
    var tail := r[1..];
    forall i, j | 0 <= i < j < |tail| ensures KeyOf(tail[i], k) >= KeyOf(tail[j], k) {
      assert tail[i] == r[i + 1] && tail[j] == r[j + 1];
    }
    if Distinct(r) {
      forall i, j | 0 <= i < j < |tail| ensures tail[i] != tail[j] {
        assert tail[i] == r[i + 1] && tail[j] == r[j + 1];
      }
    }
  }

  /** `r[0]` stays in front of `t`, the tail of `r` with `s` inserted, when `s`'s key is
      smaller than `r[0]`'s. */
  lemma InsertBehind(r: seq<Session>, s: Session, k: SortKey, t: seq<Session>)
    requires r != [] && SortedBy(r, k) && KeyOf(s, k) < KeyOf(r[0], k)
    requires SortedBy(t, k)
    requires forall x :: x in t <==> x in r[1..] || x == s
    requires s !in r[1..] && Distinct(r[1..]) ==> Distinct(t)
    ensures SortedBy([r[0]] + t, k)
    ensures s !in r && Distinct(r) ==> Distinct([r[0]] + t)
  {
    TailFacts(r, k);
    forall y | y in t ensures KeyOf(r[0], k) >= KeyOf(y, k) {
      if y != s {
        var i :| 0 <= i < |r[1..]| && r[1..][i] == y;
        assert r[i + 1] == y;
      }
    }
    ConsSorted(r[0], t, k);
    if s !in r && Distinct(r) {
      assert s !in r[1..];
      ConsDistinct(r[0], t);
    }
  }

  /** Places `s` before the first element whose key is not greater than its own. */
  function Insert(r: seq<Session>, s: Session, k: SortKey): (r': seq<Session>)
    requires SortedBy(r, k)
    ensures SortedBy(r', k)
    ensures |r'| == |r| + 1
    ensures forall x :: x in r' <==> x in r || x == s
    ensures s !in r && Distinct(r) ==> Distinct(r')
  {
    if r == [] || KeyOf(s, k) >= KeyOf(r[0], k) then
      InsertInFront(r, s, k);
      [s] + r
    else
      TailFacts(r, k);
      var t := Insert(r[1..], s, k);
      InsertBehind(r, s, k, t);
      assert r == [r[0]] + r[1..];
      [r[0]] + t
  }

  /** GET /my-sessions/:id: the document only if the caller owns it; otherwise the same 404
      whether the id is unknown or belongs to someone else. */
  function Get(db: Db, caller: UserId, id: SessionId): (r: Reply)
    ensures r.code == 200 <==> Owns(db, caller, id)
    ensures r.code == 200 ==> r.body == One(db.sessions[id])
    ensures r.code != 200 ==> r == NotFound
  {
    if Owns(db, caller, id) then Reply(200, One(db.sessions[id])) else NotFound
  }

  // ---------------------------------------------------------------- mutations

  /** `{ ...req.body, status, created_by: req.user._id }`: the body with the two paths forced. */
  function Stamped(body: Fields, caller: UserId, status: string): (f: Fields)
    ensures f.status == Some(status) && f.createdBy == Some(caller)
    ensures f.(status := body.status, createdBy := body.createdBy) == body
  {
    body.(status := Some(status), createdBy := Some(caller))
  }

  /** POST /my-sessions/save-draft (status "draft") and POST /my-sessions/publish (status
      "published"). Without `_id` the stamped body is saved as a new document. With `_id`, it
      is written over the caller's document with that id; when the caller owns no such
      document nothing is written and the reply is 200 with a null body. Errors are 500. */
  function Upsert(db: Db, caller: UserId, body: Fields, status: string, now: nat): (r: (Db, Reply))
    requires Consistent(db)
    ensures r.1.code == 200 || r.1.code == 500
    ensures r.1.code == 500 ==> r.1 == Failed && r.0 == db
    ensures OthersUntouched(db, r.0, caller)
    ensures Consistent(r.0)
    ensures r.1.body.One? ==>
      && r.1.code == 200
      && r.1.body.session.status == status
      && r.1.body.session.createdBy == caller
      && r.1.body.session.id in r.0.sessions
      && r.0.sessions[r.1.body.session.id] == r.1.body.session
    // without `_id`: insert
    ensures body.id.None? ==>
      (r.1.code == 200 <==> Create(Stamped(body, caller, status), db.nextId, now).Some?)
    ensures body.id.None? && r.1.code == 200 ==>
      && r.1.body == One(Create(Stamped(body, caller, status), db.nextId, now).value)
      && r.1.body.session.id == db.nextId
      && r.0 == Db(db.sessions[db.nextId := r.1.body.session], db.nextId + 1)
    // with an `_id` the caller owns: update in place, same `_id`
    ensures body.id.Some? && Owns(db, caller, body.id.value) ==>
      (r.1.code == 200 <==> UpdateAccepted(Stamped(body, caller, status)))
    ensures body.id.Some? && Owns(db, caller, body.id.value) && r.1.code == 200 ==>
      && r.1.body == One(Apply(db.sessions[body.id.value], Stamped(body, caller, status), now).value)
      && r.1.body.session.id == body.id.value
      && r.0 == db.(sessions := db.sessions[body.id.value := r.1.body.session])
    // with an `_id`, an update the validators refuse is 500 whoever owns the document
    ensures body.id.Some? && !UpdateAccepted(Stamped(body, caller, status)) ==> r == (db, Failed)
    // with an `_id` the caller does not own: nothing written, nothing created
    ensures body.id.Some? && !Owns(db, caller, body.id.value) ==>
      && r.0 == db
      && (r.1 == Reply(200, Null) <==> UpdateAccepted(Stamped(body, caller, status)))
  {
    var data := Stamped(body, caller, status);
    if body.id.None? then Inserted(db, data, now)
    else if !UpdateAccepted(data) then (db, Failed)
    else if !Owns(db, caller, body.id.value) then (db, Reply(200, Null))
    else Overwritten(db, body.id.value, data, now)
  }

  /** Filing a valid document under the next free `_id` keeps the collection consistent. */
  lemma FreshKeepsConsistent(db: Db, s: Session)
    requires Consistent(db) && s.id == db.nextId && SessionSchema.Valid(s)
    ensures db.nextId !in db.sessions
    ensures Consistent(Db(db.sessions[db.nextId := s], db.nextId + 1))
  {
    var db' := Db(db.sessions[db.nextId := s], db.nextId + 1);
    forall k | k in db'.sessions
      ensures k < db'.nextId && db'.sessions[k].id == k && SessionSchema.Valid(db'.sessions[k])
    {
      if k != db.nextId {
        assert k in db.sessions;
      }
    }
  }

  /** `new Session(data).save()` under the next free `_id`. */
  function Inserted(db: Db, data: Fields, now: nat): (r: (Db, Reply))
    requires Consistent(db)
    ensures Consistent(r.0)
    ensures r.1.code == 200 <==> Create(data, db.nextId, now).Some?
    ensures r.1.code != 200 ==> r == (db, Failed)
    ensures r.1.code == 200 ==>
      && r.1 == Reply(200, One(Create(data, db.nextId, now).value))
      && r.0 == Db(db.sessions[db.nextId := r.1.body.session], db.nextId + 1)
      && db.nextId !in db.sessions
  {
    match Create(data, db.nextId, now)
    case Some(s) =>
      FreshKeepsConsistent(db, s);
      (Db(db.sessions[db.nextId := s], db.nextId + 1), Reply(200, One(s)))
    case None => (db, Failed)
  }

  /** `findOneAndUpdate` of an accepted update on the matched document `k`. */
  function Overwritten(db: Db, k: SessionId, data: Fields, now: nat): (r: (Db, Reply))
    requires Consistent(db) && k in db.sessions && UpdateAccepted(data)
    ensures Consistent(r.0)
    ensures r.1.code == 200 <==> data.id.None? || data.id.value == k
    ensures r.1.code != 200 ==> r == (db, Failed)
    ensures r.1.code == 200 ==>
      && r.1 == Reply(200, One(Apply(db.sessions[k], data, now).value))
      && r.0 == db.(sessions := db.sessions[k := r.1.body.session])
      && r.1.body.session.id == k
  {
    match Apply(db.sessions[k], data, now)
    case Some(s) => (db.(sessions := db.sessions[k := s]), Reply(200, One(s)))
    case None => (db, Failed)
  }

  /** PUT /my-sessions/:id: the body's paths are set on the caller's document with that id.
      `status` changes only if the body sets it. No owned match is 404 with nothing changed. */
  function Put(db: Db, caller: UserId, id: SessionId, body: Fields, now: nat): (r: (Db, Reply))
    requires Consistent(db)
    ensures r.1.code == 200 || r.1.code == 404 || r.1.code == 500
    ensures r.1.code != 200 ==> r.0 == db
    ensures OthersUntouched(db, r.0, caller)
    ensures Consistent(r.0)
    ensures !Owns(db, caller, id) ==> r.0 == db && (r.1 == NotFound <==> UpdateAccepted(body))
    ensures !UpdateAccepted(body) ==> r == (db, Failed)
    ensures Owns(db, caller, id) && r.1.code != 200 ==> r == (db, Failed)
    ensures r.1.code == 404 ==> r.1 == NotFound && !Owns(db, caller, id)
    ensures Owns(db, caller, id) ==>
      (r.1.code == 200 <==> UpdateAccepted(body) && (body.id.None? || body.id.value == id))
    ensures r.1.code == 200 ==>
      && Owns(db, caller, id) && r.1.body.One?
      && r.1.body.session.id == id
      && r.1.body.session.status == body.status.GetOr(db.sessions[id].status)
      && r.1.body.session.createdBy == body.createdBy.GetOr(caller)
      && r.1.body.session == Apply(db.sessions[id], body, now).value
      && r.0 == db.(sessions := db.sessions[id := r.1.body.session])
  {
    if !UpdateAccepted(body) then (db, Failed)
    else if !Owns(db, caller, id) then (db, NotFound)
    else Overwritten(db, id, body, now)
  }

  /** PUT passes the request body to the update unfiltered, `created_by` included, so an owner
      can hand a document to another user and lose it: afterwards the by-id route answers 404. */
  lemma PutCanReassignOwner(db: Db, caller: UserId, other: UserId, id: SessionId, now: nat)
    requires Consistent(db) && Owns(db, caller, id) && other != caller
    ensures var body := Fields(None, None, None, None, None, None, None, None, None, None, Some(other));
      var (db', r) := Put(db, caller, id, body, now);
      && r.code == 200
      && id in db'.sessions && db'.sessions[id].createdBy == other
      && Get(db', caller, id) == NotFound
  {
    var body := Fields(None, None, None, None, None, None, None, None, None, None, Some(other));
    assert UpdateAccepted(body);
  }

  /** PUT with `created_by` dropped from the body, as save-draft and publish force it: the
      caller keeps every document it owns, and the one it updates stays its own. */
  function PutKeepingOwner(db: Db, caller: UserId, id: SessionId, body: Fields, now: nat): (r: (Db, Reply))
    requires Consistent(db)
    ensures Consistent(r.0) && OthersUntouched(db, r.0, caller)
    ensures forall k :: Owns(db, caller, k) ==> Owns(r.0, caller, k)
    ensures r.1.code == 200 ==> r.1.body.One? && r.1.body.session.createdBy == caller
    ensures r.1.code == 200 <==> Owns(db, caller, id) && UpdateAccepted(body) && (body.id.None? || body.id.value == id)
  {
    var kept := body.(createdBy := None);
    assert UpdateAccepted(kept) == UpdateAccepted(body) by {
      assert Trimmed(kept) == Trimmed(body).(createdBy := None);
    }
    Put(db, caller, id, kept, now)
  }

  /** DELETE /my-sessions/:id: removes the caller's document with that id and nothing else;
      no owned match is 404 with nothing changed. */
  function Remove(db: Db, caller: UserId, id: SessionId): (r: (Db, Reply))
    requires Consistent(db)
    ensures r.1 == Deleted || r.1 == NotFound
    ensures r.1 == Deleted <==> Owns(db, caller, id)
    ensures r.0.nextId == db.nextId
    ensures r.0.sessions.Keys == if Owns(db, caller, id) then db.sessions.Keys - {id} else db.sessions.Keys
    ensures forall k :: k in r.0.sessions ==> r.0.sessions[k] == db.sessions[k]
    ensures OthersUntouched(db, r.0, caller)
    ensures Consistent(r.0)
  {
    if Owns(db, caller, id) then (db.(sessions := db.sessions - {id}), Deleted) else (db, NotFound)
  }

  // ---------------------------------------------------------------- sequences of requests

  /** One authenticated mutating request. */
  datatype Op =
    | SaveDraft(body: Fields, at: nat)
    | Publish(body: Fields, at: nat)
    | Update(id: SessionId, body: Fields, at: nat)
    | Delete(id: SessionId)

  datatype Request = Request(caller: UserId, op: Op)

  function Handle(db: Db, req: Request): (r: (Db, Reply))
    requires Consistent(db)
    ensures Consistent(r.0)
  {
    match req.op
    case SaveDraft(b, t) => Upsert(db, req.caller, b, "draft", t)
    case Publish(b, t) => Upsert(db, req.caller, b, "published", t)
    case Update(id, b, t) => Put(db, req.caller, id, b, t)
    case Delete(id) => Remove(db, req.caller, id)
  }

  /** The collection after handling `reqs` one after the other. */
  function Run(db: Db, reqs: seq<Request>): Db
    requires Consistent(db)
    decreases |reqs|
  {
    if reqs == [] then db else Run(Handle(db, reqs[0]).0, reqs[1..])
  }

  /** Every document `owner` has is still there and unchanged. */
  predicate KeepsAll(db: Db, db': Db, owner: UserId) {
    forall k :: k in db.sessions && db.sessions[k].createdBy == owner ==>
      k in db'.sessions && db'.sessions[k] == db.sessions[k]
  }

  /** Ownership is never bypassed: however many requests other users make, in whatever order,
      none of them reads as a change to a document of `owner`. */
  lemma {:induction false} OthersCannotTouch(db: Db, reqs: seq<Request>, owner: UserId)
    requires Consistent(db)
    requires forall i :: 0 <= i < |reqs| ==> reqs[i].caller != owner
    ensures KeepsAll(db, Run(db, reqs), owner)
    decreases |reqs|
  {
    if reqs != [] {
      var db1 := Handle(db, reqs[0]).0;
      assert OthersUntouched(db, db1, reqs[0].caller);
      OthersCannotTouch(db1, reqs[1..], owner);
    }
  }

  /** A successful save is read back by its owner from the by-id route. */
  lemma SavedIsReadable(db: Db, caller: UserId, body: Fields, status: string, now: nat)
    requires Consistent(db)
    requires Upsert(db, caller, body, status, now).1.body.One?
    ensures var (db', r) := Upsert(db, caller, body, status, now);
      Get(db', caller, r.body.session.id) == Reply(200, r.body)
  {
  }

  /** Once its owner deletes a document, the by-id route answers 404 to everyone. */
  lemma DeletedIsGone(db: Db, caller: UserId, id: SessionId, anyone: UserId)
    requires Consistent(db)
    requires Owns(db, caller, id)
    ensures Get(Remove(db, caller, id).0, anyone, id) == NotFound
  {
  }

  /** A non-owner learns nothing from the owner-scoped routes: the replies to a document of
      someone else are exactly the replies to an id that does not exist. */
  lemma NonOwnerCannotTell(db: Db, caller: UserId, id: SessionId, body: Fields, now: nat)
    requires Consistent(db)
    requires id in db.sessions && db.sessions[id].createdBy != caller
    ensures var gone := db.(sessions := db.sessions - {id});
      && Get(db, caller, id) == Get(gone, caller, id)
      && Put(db, caller, id, body, now).1 == Put(gone, caller, id, body, now).1
      && Remove(db, caller, id).1 == Remove(gone, caller, id).1
  {
  }

  // ---------------------------------------------------------------- the collection in place

  /** The session collection as the route handlers see it: one shared, mutable store. */
  class SessionStore {
    var sessions: map<SessionId, Session>
    var nextId: SessionId

    function State(): Db
      reads this
    {
      Db(sessions, nextId)
    }

    predicate Valid()
      reads this
    {
      Consistent(State())
    }

    constructor ()
      ensures Valid() && sessions == map[] && nextId == 0
    {
      sessions := map[];
      nextId := 0;
    }

    /** `Session.find(q).sort(k)`, done by visiting each stored document once. */
    method Find(q: Query, k: SortKey) returns (r: seq<Session>)
      requires Valid()
      ensures IsListing(r, State(), q, k)
    {
      r := [];
      var todo := sessions.Keys;
      while todo != {}
        invariant todo <= sessions.Keys
        invariant forall x :: x in r <==> x in sessions.Values && x.id !in todo && Matches(x, q)
        invariant Distinct(r) && SortedBy(r, k)
        decreases todo
      {
        var id :| id in todo;
        var s := sessions[id];
        if Matches(s, q) {
          r := Insert(r, s, k);
        }
        todo := todo - {id};
      }
    }

    /** GET /: every published document, newest first, never a draft. */
    method ListPublished() returns (reply: Reply)
      requires Valid()
      ensures reply.code == 200 && reply.body.Many?
      ensures IsListing(reply.body.list, State(), StatusIs("published"), NewestCreated)
      ensures forall x :: x in reply.body.list ==> x.status == "published" && x.status != "draft"
    {
      var list := Find(StatusIs("published"), NewestCreated);
      reply := Reply(200, Many(list));
    }

    /** GET /my-sessions: every document of the caller, drafts and published, most recently
        updated first. */
    method ListMine(caller: UserId) returns (reply: Reply)
      requires Valid()
      ensures reply.code == 200 && reply.body.Many?
      ensures IsListing(reply.body.list, State(), CreatedBy(caller), NewestUpdated)
    {
      var list := Find(CreatedBy(caller), NewestUpdated);
      reply := Reply(200, Many(list));
    }

    /** The shared body of save-draft and publish. */
    method Save(caller: UserId, body: Fields, status: string, now: nat) returns (reply: Reply)
      requires Valid()
      modifies this
      ensures Valid()
      ensures (State(), reply) == Upsert(old(State()), caller, body, status, now)
    {
      ghost var db := State();
      var data := Stamped(body, caller, status);
      if body.id.None? {
        assert Upsert(db, caller, body, status, now) == Inserted(db, data, now);
        reply := InsertNew(data, now);
      } else if !UpdateAccepted(data) {
        reply := Failed;
      } else if body.id.value in sessions && sessions[body.id.value].createdBy == caller {
        assert Upsert(db, caller, body, status, now) == Overwritten(db, body.id.value, data, now);
        reply := Overwrite(body.id.value, data, now);
      } else {
        reply := Reply(200, Null);
      }
    }

    /** `new Session(data).save()`. */
    method InsertNew(data: Fields, now: nat) returns (reply: Reply)
      requires Valid()
      modifies this
      ensures Valid()
      ensures var created := Create(data, old(nextId), now);
        if created.Some? then
          && sessions == old(sessions)[old(nextId) := created.value] && nextId == old(nextId) + 1
          && reply == Reply(200, One(created.value))
        else
          sessions == old(sessions) && nextId == old(nextId) && reply == Failed
    {
      var created := Create(data, nextId, now);
      if created.Some? {
        FreshKeepsConsistent(State(), created.value);
        sessions := sessions[nextId := created.value];
        nextId := nextId + 1;
        reply := Reply(200, One(created.value));
      } else {
        reply := Failed;
      }
    }

    /** `findOneAndUpdate` on a matched document `k` with an accepted update. */
    method Overwrite(k: SessionId, data: Fields, now: nat) returns (reply: Reply)
      requires Valid() && k in sessions && UpdateAccepted(data)
      modifies this
      ensures Valid()
      ensures nextId == old(nextId)
      ensures var updated := Apply(old(sessions)[k], data, now);
        if updated.Some? then
          sessions == old(sessions)[k := updated.value] && reply == Reply(200, One(updated.value))
        else
          sessions == old(sessions) && reply == Failed
    {
      var updated := Apply(sessions[k], data, now);
      if updated.Some? {
        sessions := sessions[k := updated.value];
        reply := Reply(200, One(updated.value));
      } else {
        reply := Failed;
      }
    }

    method SaveDraft(caller: UserId, body: Fields, now: nat) returns (reply: Reply)
      requires Valid()
      modifies this
      ensures Valid()
      ensures (State(), reply) == Upsert(old(State()), caller, body, "draft", now)
    {
      reply := Save(caller, body, "draft", now);
    }

    method Publish(caller: UserId, body: Fields, now: nat) returns (reply: Reply)
      requires Valid()
      modifies this
      ensures Valid()
      ensures (State(), reply) == Upsert(old(State()), caller, body, "published", now)
    {
      reply := Save(caller, body, "published", now);
    }

    method Update(caller: UserId, id: SessionId, body: Fields, now: nat) returns (reply: Reply)
      requires Valid()
      modifies this
      ensures Valid()
      ensures (State(), reply) == Put(old(State()), caller, id, body, now)
    {
      if !UpdateAccepted(body) {
        reply := Failed;
      } else if id in sessions && sessions[id].createdBy == caller {
        reply := Overwrite(id, body, now);
      } else {
        reply := NotFound;
      }
    }

    method Delete(caller: UserId, id: SessionId) returns (reply: Reply)
      requires Valid()
      modifies this
      ensures Valid()
      ensures (State(), reply) == Remove(old(State()), caller, id)
    {
      if id in sessions && sessions[id].createdBy == caller {
        sessions := sessions - {id};
        reply := Deleted;
      } else {
        reply := NotFound;
      }
    }
  }
}
