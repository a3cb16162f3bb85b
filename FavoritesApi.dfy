/** The favorites endpoint (src/pages/api/favorites.ts): an authenticated
    request handler over the `favorites` document collection, where every
    record belongs to the user whose e-mail it carries.

    The collection is a map from `_id` to record. Its four driver calls
    (`find`, `insertOne`, `deleteOne`, `updateOne`) are methods of
    `FavoritesCollection`; `Reply` states, as a function of the collection
    before the request, what `Handle` answers and what the collection is
    afterwards. */
module FavoritesApi {
  import opened Wrappers

  /** A stored favorite; its `_id` is its key in the collection. */
  datatype Favorite = Favorite(
    userEmail: string,
    strainId: string,
    strainName: string,
    consumptionType: Option<string>,
    dispensary: Option<string>)

  type Docs = map<string, Favorite>

  /** The `$set` document of an update: the four fields a user may change. */
  datatype Changes = Changes(
    strainId: string,
    strainName: string,
    consumptionType: Option<string>,
    dispensary: Option<string>)

  datatype User = User(email: Option<string>)
  datatype Session = Session(user: Option<User>)

  /** The request members the handler reads: the JSON body's fields
      (absent or null is `None`) and the `id` query parameter. */
  datatype Body = Body(
    id: Option<string>,
    strainId: Option<string>,
    strainName: Option<string>,
    consumptionType: Option<string>,
    dispensary: Option<string>)

  datatype Request = Request(verb: string, body: Body, queryId: Option<string>)

  datatype Response =
    | Unauthorized
    | BadRequest(message: string)
    | Listed(favorites: Docs)
    | Created(insertedId: string)
    | Deleted(deletedCount: nat)
    | Updated(matchedCount: nat, modifiedCount: nat)
    | MethodNotAllowed(allow: seq<string>)
  {
    function StatusCode(): int {
      match this
      case Unauthorized => 401
      case BadRequest(_) => 400
      case Listed(_) => 200
      case Created(_) => 201
      case Deleted(_) => 200
      case Updated(_, _) => 200
      case MethodNotAllowed(_) => 405
    }
  }

  const AllowedVerbs: seq<string> := ["GET", "POST", "DELETE", "PUT"]

  /** JavaScript truthiness of an optional string field. */
  predicate Truthy(v: Option<string>) {
    v.Some? && v.value != ""
  }

  /** `v || null` */
  function OrNull(v: Option<string>): (r: Option<string>)
    ensures r.Some? <==> Truthy(v)
    ensures r.Some? ==> r == v
  {
    if Truthy(v) then v else None
  }

  /** The caller's e-mail, when the session, its user and a non-empty
      e-mail are all present. */
  function CallerEmail(session: Option<Session>): (r: Option<string>)
    ensures r.Some? <==> session.Some? && session.value.user.Some? && Truthy(session.value.user.value.email)
    ensures r.Some? ==> r == session.value.user.value.email
  {
    match session
    case None => None
    case Some(s) =>
      match s.user
      case None => None
      case Some(u) => if Truthy(u.email) then u.email else None
  }

  /** The record `id` exists and belongs to `email`: the filter
      `{ _id: id, userEmail: email }` matches it. */
  predicate IsOwned(docs: Docs, id: string, email: string) {
    id in docs && docs[id].userEmail == email
  }

  /** `find({ userEmail })`: exactly the records of `email`. */
  function OwnedBy(docs: Docs, email: string): (r: Docs)
    ensures forall id :: id in r <==> IsOwned(docs, id, email)
    ensures forall id :: id in r ==> id in docs && r[id] == docs[id]
  {
    map id | id in docs && docs[id].userEmail == email :: docs[id]
  }

  /** The record a valid POST inserts: falsy optional fields become null. */
  function NewFavorite(email: string, body: Body): (r: Favorite)
    requires Truthy(body.strainId) && Truthy(body.strainName)
    ensures r.userEmail == email
    ensures r.strainId == body.strainId.value && r.strainName == body.strainName.value
    ensures r.consumptionType == OrNull(body.consumptionType) && r.dispensary == OrNull(body.dispensary)
  {
    Favorite(email, body.strainId.value, body.strainName.value, OrNull(body.consumptionType), OrNull(body.dispensary))
  }

  /** The `$set` document of a valid PUT. */
  function ChangesFrom(body: Body): (c: Changes)
    requires Truthy(body.strainId) && Truthy(body.strainName)
    ensures c.strainId == body.strainId.value && c.strainName == body.strainName.value
    ensures c.consumptionType == OrNull(body.consumptionType) && c.dispensary == OrNull(body.dispensary)
  {
    Changes(body.strainId.value, body.strainName.value, OrNull(body.consumptionType), OrNull(body.dispensary))
  }

  /** Applies `$set`: the owner is never touched. */
  function Rewrite(f: Favorite, c: Changes): (r: Favorite)
    ensures r.userEmail == f.userEmail
    ensures r.strainId == c.strainId && r.strainName == c.strainName
    ensures r.consumptionType == c.consumptionType && r.dispensary == c.dispensary
  {
    f.(strainId := c.strainId, strainName := c.strainName,
       consumptionType := c.consumptionType, dispensary := c.dispensary)
  }

  /** `deleteOne({ _id: id, userEmail: email })` */
  function DeleteOwned(docs: Docs, id: string, email: string): (r: Docs)
    ensures forall k :: k in r <==> k in docs && !(k == id && IsOwned(docs, id, email))
    ensures forall k :: k in r ==> r[k] == docs[k]
  {
    if IsOwned(docs, id, email) then docs - {id} else docs
  }

  /** `updateOne({ _id: id, userEmail: email }, { $set: c })` */
  function UpdateOwned(docs: Docs, id: string, email: string, c: Changes): (r: Docs)
    ensures r.Keys == docs.Keys
    ensures forall k :: k in r && !(k == id && IsOwned(docs, id, email)) ==> r[k] == docs[k]
    ensures IsOwned(docs, id, email) ==> r[id] == Rewrite(docs[id], c)
  {
    if IsOwned(docs, id, email) then docs[id := Rewrite(docs[id], c)] else docs
  }

  datatype Outcome = Outcome(response: Response, docs: Docs)

  /** What the handler answers and leaves in the collection; `newId` is the
      identifier the driver gives an inserted record (used by POST only). */
  function Reply(docs: Docs, session: Option<Session>, req: Request, newId: string): (r: Outcome)
    ensures r.response == Unauthorized <==> CallerEmail(session).None?
    ensures r.response.Created? ==> r.response.insertedId == newId && r.docs.Keys == docs.Keys + {newId}
    ensures !r.response.Created? ==> r.docs.Keys <= docs.Keys
    ensures r.docs != docs ==> CallerEmail(session).Some? && req.verb in ["POST", "DELETE", "PUT"]
    ensures r.response.MethodNotAllowed? <==> CallerEmail(session).Some? && req.verb !in AllowedVerbs
  {
    match CallerEmail(session)
    case None => Outcome(Unauthorized, docs)
    case Some(email) =>
      if req.verb == "GET" then
        Outcome(Listed(OwnedBy(docs, email)), docs)
      else if req.verb == "POST" then
        if !Truthy(req.body.strainId) || !Truthy(req.body.strainName) then
          Outcome(BadRequest("strainId and strainName required"), docs)
        else
          Outcome(Created(newId), docs[newId := NewFavorite(email, req.body)])
      else if req.verb == "DELETE" then
        if !Truthy(req.queryId) then
          Outcome(BadRequest("id required"), docs)
        else
          var id := req.queryId.value;
          Outcome(Deleted(if IsOwned(docs, id, email) then 1 else 0), DeleteOwned(docs, id, email))
      else if req.verb == "PUT" then
        if !Truthy(req.body.id) || !Truthy(req.body.strainId) || !Truthy(req.body.strainName) then
          Outcome(BadRequest("id, strainId, and strainName required"), docs)
        else
          var id, c := req.body.id.value, ChangesFrom(req.body);
          var matched := IsOwned(docs, id, email);
          var modified := matched && Rewrite(docs[id], c) != docs[id];
          Outcome(Updated(if matched then 1 else 0, if modified then 1 else 0), UpdateOwned(docs, id, email, c))
      else
        Outcome(MethodNotAllowed(AllowedVerbs), docs)
  }

  /** Without a session, a user or a non-empty e-mail every request gets
      401 and the collection is neither read nor written. */
  lemma UnauthenticatedRejected(docs: Docs, session: Option<Session>, req: Request, newId: string)
    requires session.None? || session.value.user.None? || !Truthy(session.value.user.value.email)
    ensures Reply(docs, session, req, newId) == Outcome(Unauthorized, docs)
    ensures Reply(docs, session, req, newId).response.StatusCode() == 401
  {
  }

  /** GET lists exactly the caller's records and changes nothing. */
  lemma ListIsCallersRecords(docs: Docs, email: string, req: Request, newId: string)
    requires email != "" && req.verb == "GET"
    ensures var out := Reply(docs, Some(Session(Some(User(Some(email))))), req, newId);
      && out.docs == docs
      && out.response.Listed?
      && (forall id :: id in out.response.favorites <==> id in docs && docs[id].userEmail == email)
      && (forall id :: id in out.response.favorites ==> out.response.favorites[id] == docs[id])
  {
  }

  /** POST without a truthy strainId or strainName is a 400 that changes nothing. */
  lemma PostNeedsStrain(docs: Docs, email: string, req: Request, newId: string)
    requires email != "" && req.verb == "POST"
    requires !Truthy(req.body.strainId) || !Truthy(req.body.strainName)
    ensures Reply(docs, Some(Session(Some(User(Some(email))))), req, newId)
         == Outcome(BadRequest("strainId and strainName required"), docs)
  {
  }

  /** A valid POST adds exactly one record, owned by the caller, with falsy
      optional fields stored as null; every earlier record is untouched and
      the caller's list grows by exactly that record. */
  lemma PostAddsOne(docs: Docs, email: string, req: Request, newId: string)
    requires email != "" && req.verb == "POST"
    requires Truthy(req.body.strainId) && Truthy(req.body.strainName)
    requires newId !in docs
    ensures var out := Reply(docs, Some(Session(Some(User(Some(email))))), req, newId);
      && out.response == Created(newId) && out.response.StatusCode() == 201
      && out.docs.Keys == docs.Keys + {newId}
      && |out.docs| == |docs| + 1
      && (forall id :: id in docs ==> out.docs[id] == docs[id])
      && out.docs[newId].userEmail == email
      && out.docs[newId].strainId == req.body.strainId.value
      && out.docs[newId].strainName == req.body.strainName.value
      && out.docs[newId].consumptionType == OrNull(req.body.consumptionType)
      && out.docs[newId].dispensary == OrNull(req.body.dispensary)
      && (out.docs[newId].consumptionType.None? <==> !Truthy(req.body.consumptionType))
      && (out.docs[newId].dispensary.None? <==> !Truthy(req.body.dispensary))
      && OwnedBy(out.docs, email) == OwnedBy(docs, email)[newId := out.docs[newId]]
  {
    var out := Reply(docs, Some(Session(Some(User(Some(email))))), req, newId);
    var f := NewFavorite(email, req.body);
    assert out.docs == docs[newId := f];
    assert |out.docs.Keys| == |docs.Keys| + 1;
    InsertOwned(docs, newId, f);
  }

  /** Inserting a record under a new key adds exactly that record to its
      owner's records. */
  lemma InsertOwned(docs: Docs, newId: string, f: Favorite)
    requires newId !in docs
    ensures OwnedBy(docs[newId := f], f.userEmail) == OwnedBy(docs, f.userEmail)[newId := f]
  {
    assert OwnedBy(docs[newId := f], f.userEmail).Keys == OwnedBy(docs, f.userEmail)[newId := f].Keys;
  }

  /** DELETE without an id is a 400 that changes nothing. */
  lemma DeleteNeedsId(docs: Docs, email: string, req: Request, newId: string)
    requires email != "" && req.verb == "DELETE" && !Truthy(req.queryId)
    ensures Reply(docs, Some(Session(Some(User(Some(email))))), req, newId)
         == Outcome(BadRequest("id required"), docs)
  {
  }

  /** DELETE removes at most one record, and only one whose id and owner
      both match; every other record, of any user, stays as it was. */
  lemma DeleteRemovesAtMostOwned(docs: Docs, email: string, req: Request, newId: string)
    requires email != "" && req.verb == "DELETE" && Truthy(req.queryId)
    ensures var out := Reply(docs, Some(Session(Some(User(Some(email))))), req, newId);
      var id := req.queryId.value;
      && out.response.StatusCode() == 200
      && out.docs.Keys == (if IsOwned(docs, id, email) then docs.Keys - {id} else docs.Keys)
      && |docs| - |out.docs| == out.response.deletedCount <= 1
      && (forall k :: k in out.docs ==> out.docs[k] == docs[k])
  {
    var id := req.queryId.value;
    if IsOwned(docs, id, email) {
      assert |(docs - {id}).Keys| == |docs.Keys - {id}| == |docs.Keys| - 1;
    }
  }

  /** Repeating a DELETE is a 200 no-op: nothing is left to remove. */
  lemma DeleteIdempotent(docs: Docs, session: Option<Session>, req: Request, newId: string)
    requires req.verb == "DELETE"
    ensures var once := Reply(docs, session, req, newId);
      var twice := Reply(once.docs, session, req, newId);
      && twice.docs == once.docs
      && (CallerEmail(session).Some? && Truthy(req.queryId) ==> twice.response == Deleted(0))
  {
  }

  /** PUT needs id, strainId and strainName (else 400, nothing changes). */
  lemma PutNeedsFields(docs: Docs, email: string, req: Request, newId: string)
    requires email != "" && req.verb == "PUT"
    requires !Truthy(req.body.id) || !Truthy(req.body.strainId) || !Truthy(req.body.strainName)
    ensures Reply(docs, Some(Session(Some(User(Some(email))))), req, newId)
         == Outcome(BadRequest("id, strainId, and strainName required"), docs)
  {
  }

  /** A valid PUT rewrites the four mutable fields of the one record whose
      id and owner match, keeps its owner, and leaves every other record
      alone; on a record of another user or a missing id it is a no-op. */
  lemma PutRewritesOnlyOwned(docs: Docs, email: string, req: Request, newId: string)
    requires email != "" && req.verb == "PUT"
    requires Truthy(req.body.id) && Truthy(req.body.strainId) && Truthy(req.body.strainName)
    ensures var out := Reply(docs, Some(Session(Some(User(Some(email))))), req, newId);
      var id := req.body.id.value;
      && out.docs.Keys == docs.Keys
      && (forall k :: k in docs && k != id ==> out.docs[k] == docs[k])
      && (!IsOwned(docs, id, email) ==> out.docs == docs && out.response == Updated(0, 0))
      && (IsOwned(docs, id, email) ==>
            && out.response.matchedCount == 1
            && out.docs[id].userEmail == email
            && out.docs[id].strainId == req.body.strainId.value
            && out.docs[id].strainName == req.body.strainName.value
            && out.docs[id].consumptionType == OrNull(req.body.consumptionType)
            && out.docs[id].dispensary == OrNull(req.body.dispensary))
  {
  }

  /** Any other verb gets 405 with `Allow: GET, POST, DELETE, PUT`. */
  lemma OtherVerbsNotAllowed(docs: Docs, email: string, req: Request, newId: string)
    requires email != "" && req.verb !in AllowedVerbs
    ensures Reply(docs, Some(Session(Some(User(Some(email))))), req, newId)
         == Outcome(MethodNotAllowed(["GET", "POST", "DELETE", "PUT"]), docs)
  {
  }

  /** Inserting a record of another owner under a new key leaves the
      records of `other` as they were. */
  lemma InsertKeepsOthers(docs: Docs, newId: string, f: Favorite, other: string)
    requires newId !in docs && f.userEmail != other
    ensures OwnedBy(docs[newId := f], other) == OwnedBy(docs, other)
  {
    assert OwnedBy(docs[newId := f], other).Keys == OwnedBy(docs, other).Keys;
  }

  /** A delete filtered on `email` leaves the records of `other` as they were. */
  lemma DeleteKeepsOthers(docs: Docs, id: string, email: string, other: string)
    requires email != other
    ensures OwnedBy(DeleteOwned(docs, id, email), other) == OwnedBy(docs, other)
  {
    assert OwnedBy(DeleteOwned(docs, id, email), other).Keys == OwnedBy(docs, other).Keys;
  }

  /** An update filtered on `email` changes no owner and leaves the records
      of `other` as they were. */
  lemma UpdateKeepsOthers(docs: Docs, id: string, email: string, c: Changes, other: string)
    requires email != other
    ensures OwnedBy(UpdateOwned(docs, id, email, c), other) == OwnedBy(docs, other)
    ensures forall k :: k in docs ==> UpdateOwned(docs, id, email, c)[k].userEmail == docs[k].userEmail
  {
    var after := UpdateOwned(docs, id, email, c);
    assert forall k :: k in docs ==> after[k].userEmail == docs[k].userEmail;
    assert OwnedBy(after, other).Keys == OwnedBy(docs, other).Keys;
  }

  /** Ownership isolation: whatever the request, no record of another user
      is added, removed or changed, and no record changes owner. */
  lemma OthersUntouched(docs: Docs, session: Option<Session>, req: Request, newId: string, other: string)
    requires newId !in docs
    requires CallerEmail(session) != Some(other)
    ensures var out := Reply(docs, session, req, newId);
      && OwnedBy(out.docs, other) == OwnedBy(docs, other)
      && (forall k :: k in docs && k in out.docs ==> out.docs[k].userEmail == docs[k].userEmail)
  {
    var out := Reply(docs, session, req, newId);
    match CallerEmail(session)
    case None =>
      assert out.docs == docs;
    case Some(email) =>
      if req.verb == "POST" && Truthy(req.body.strainId) && Truthy(req.body.strainName) {
        assert out.docs == docs[newId := NewFavorite(email, req.body)];
        InsertKeepsOthers(docs, newId, NewFavorite(email, req.body), other);
      } else if req.verb == "DELETE" && Truthy(req.queryId) {
        assert out.docs == DeleteOwned(docs, req.queryId.value, email);
        DeleteKeepsOthers(docs, req.queryId.value, email, other);
      } else if req.verb == "PUT" && Truthy(req.body.id) && Truthy(req.body.strainId) && Truthy(req.body.strainName) {
        assert out.docs == UpdateOwned(docs, req.body.id.value, email, ChangesFrom(req.body));
        UpdateKeepsOthers(docs, req.body.id.value, email, ChangesFrom(req.body), other);
      } else {
        assert out.docs == docs;
      }
  }

  /** The scenario of a fresh user: after creating "Blue Dream" with no
      optional fields, listing shows one record, with both optional fields
      null. */
  lemma CreateThenList(email: string, newId: string)
    requires email != ""
    ensures
      var session := Some(Session(Some(User(Some(email)))));
      var post := Request("POST", Body(None, Some("s1"), Some("Blue Dream"), None, None), None);
      var created := Reply(map[], session, post, newId);
      var listed := Reply(created.docs, session, Request("GET", post.body, None), newId);
      listed.response == Listed(map[newId := Favorite(email, "s1", "Blue Dream", None, None)])
  {
    var fav := Favorite(email, "s1", "Blue Dream", None, None);
    assert OwnedBy(map[newId := fav], email) == map[newId := fav];
  }

  /** Some string is longer than every string of a finite set. */
  lemma {:induction false} LongerThanAll(used: set<string>) returns (w: string)
    ensures forall k :: k in used ==> |k| < |w|
  {
    if used == {} {
      w := [];
    } else {
      var k :| k in used;
      var w' := LongerThanAll(used - {k});
      w := if |k| < |w'| then w' else k + "x";
    }
  }

  /** The `favorites` collection, as the handler sees it through the driver. */
  class FavoritesCollection {
    var docs: Docs

    constructor (initial: Docs)
      ensures docs == initial
    {
      docs := initial;
    }

    /** `find({ userEmail: email }).toArray()` */
    method Find(email: string) returns (found: Docs)
      ensures found == OwnedBy(docs, email)
    {
      found := map id | id in docs && docs[id].userEmail == email :: docs[id];
    }

    /** `insertOne(f)`: the driver picks an identifier not yet in use. */
    method InsertOne(f: Favorite) returns (insertedId: string)
      modifies this
      ensures insertedId !in old(docs)
      ensures docs == old(docs)[insertedId := f]
    {
      ghost var w := LongerThanAll(docs.Keys);
      assert w !in docs;
      insertedId :| insertedId !in docs;
      docs := docs[insertedId := f];
    }

    /** `deleteOne({ _id: id, userEmail: email })` */
    method DeleteOne(id: string, email: string) returns (deletedCount: nat)
      modifies this
      ensures docs == DeleteOwned(old(docs), id, email)
      ensures deletedCount == if IsOwned(old(docs), id, email) then 1 else 0
    {
      if id in docs && docs[id].userEmail == email {
        docs := docs - {id};
        deletedCount := 1;
      } else {
        deletedCount := 0;
      }
    }

    /** `updateOne({ _id: id, userEmail: email }, { $set: c })` */
    method UpdateOne(id: string, email: string, c: Changes) returns (matchedCount: nat, modifiedCount: nat)
      modifies this
      ensures docs == UpdateOwned(old(docs), id, email, c)
      ensures matchedCount == if IsOwned(old(docs), id, email) then 1 else 0
      ensures modifiedCount == if IsOwned(old(docs), id, email) && Rewrite(old(docs)[id], c) != old(docs)[id] then 1 else 0
    {
      matchedCount, modifiedCount := 0, 0;
      if id in docs && docs[id].userEmail == email {
        matchedCount := 1;
        var updated := Rewrite(docs[id], c);
        if updated != docs[id] {
          modifiedCount := 1;
        }
        docs := docs[id := updated];
      }
    }
  }

  /** The request handler. */
  method Handle(favorites: FavoritesCollection, session: Option<Session>, req: Request) returns (resp: Response)
    modifies favorites
    ensures resp.Created? ==> resp.insertedId !in old(favorites.docs)
    ensures Outcome(resp, favorites.docs)
         == Reply(old(favorites.docs), session, req, if resp.Created? then resp.insertedId else "")
  {
    var caller := CallerEmail(session);
    if caller.None? {
      return Unauthorized;
    }
    var userEmail := caller.value;

    if req.verb == "GET" {
      var found := favorites.Find(userEmail);
      return Listed(found);
    }

    if req.verb == "POST" {
      var body := req.body;
      if !Truthy(body.strainId) || !Truthy(body.strainName) {
        return BadRequest("strainId and strainName required");
      }
      var insertedId := favorites.InsertOne(NewFavorite(userEmail, body));
      return Created(insertedId);
    }

    if req.verb == "DELETE" {
      if !Truthy(req.queryId) {
        return BadRequest("id required");
      }
      var deletedCount := favorites.DeleteOne(req.queryId.value, userEmail);
      return Deleted(deletedCount);
    }

    if req.verb == "PUT" {
      var body := req.body;
      if !Truthy(body.id) || !Truthy(body.strainId) || !Truthy(body.strainName) {
        return BadRequest("id, strainId, and strainName required");
      }
      var matchedCount, modifiedCount := favorites.UpdateOne(body.id.value, userEmail, ChangesFrom(body));
      return Updated(matchedCount, modifiedCount);
    }

    return MethodNotAllowed(AllowedVerbs);
  }
}
