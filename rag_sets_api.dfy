/**
 * `/api/rag/sets`: after the Bearer check, the enriched listing of RAG sets
 * (GET) or the creation of a set with a unique name, a chunking pipeline and
 * group access entries whose failures are ignored (POST); other methods get
 * 405 with `Allow: GET, POST`.
 */
module RagSetsApi {
  import opened Wrappers
  import opened JsString
  import opened Http
  import opened Store
  import opened Jwt
  import opened Listing
  import Login
  import RagApi

  const MsgTokenRequired := "인증 토큰이 필요합니다"
  const MsgInvalidToken := "유효하지 않은 토큰입니다"
  const MsgListed := "RAG 세트 목록 조회 성공"
  const MsgNameRequired := "RAG 세트명은 필수입니다"
  const MsgDuplicateName := "이미 존재하는 RAG 세트명입니다"
  const MsgCreated := "RAG 세트가 생성되었습니다"
  const MsgServerError := "서버 오류가 발생했습니다"
  const DefaultEmbeddingModel := "all-MiniLM-L6-v2"
  const VectorDbRoot := "/vector_db/"

  /** The fixed creator every set is shown with. */
  datatype Creator = Creator(username: string, email: string)
  const Admin := Creator("관리자", "admin@example.com")

  /** A set as both replies show it. */
  datatype SetView = SetView(
    id: string,
    name: string,
    description: Option<string>,
    status: RagStatus,
    embeddingModel: string,
    documentCount: nat,
    vectorCount: nat,
    createdAt: nat,
    creator: Creator,
    ragPermissions: seq<GroupRef>)

  /** A file's chunk count, a missing one counting as 0. */
  function Chunks(f: RagFile): nat { f.chunks.GetOr(0) }

  /** The listing's view: the model name and the creator are constants, the counts come from the files. */
  function Enrich(r: RagSet): SetView {
    SetView(r.id, r.name, r.description, r.status, DefaultEmbeddingModel, |r.files|, SumOf(r.files, Chunks),
            r.createdAt, Admin, r.access)
  }

  /** The listing's views, one per set, in order. */
  function EnrichAll(sets: seq<RagSet>): (r: seq<SetView>)
    ensures |r| == |sets|
    ensures forall i :: 0 <= i < |sets| ==> r[i] == Enrich(sets[i])
  {
    if sets == [] then [] else [Enrich(sets[0])] + EnrichAll(sets[1..])
  }

  /** The POST body; `None` is an absent field, which takes its default. */
  datatype SetsBody = SetsBody(
    name: Option<string>,
    description: Option<string>,
    embeddingModel: Option<string>,
    groupIds: Option<seq<string>>)

  datatype SetsReplyBody =
    | Listed(message: string, ragSets: seq<SetView>)
    | Created(message: string, ragSet: SetView)

  /** The reply and the RAG-set table after the request. */
  datatype SetsResult = SetsResult(reply: Reply<SetsReplyBody>, ragSets: seq<RagSet>)

  /** `/vector_db/` followed by the name with white-space runs turned into `_`, then lower-cased. */
  function VectorDbPath(name: string): string {
    VectorDbRoot + ToLower(ReplaceSpaceRuns(name, "_"))
  }

  /**
   * The two RAG routes derive a set's directory from its name alike: they
   * differ only in the root and in the separator that replaces white space.
   */
  lemma PathsDifferOnlyInRootAndSeparator(name: string)
    ensures VectorDbPath(name) == VectorDbRoot + ReplaceSpaceRuns(ToLower(name), "_")
    ensures RagApi.VectorPath(name) == RagApi.VectorRoot + ReplaceSpaceRuns(ToLower(name), "-")
  {
    LowerCommutesWithReplace(name, "_");
    assert ToLower("_") == "_";
  }

  /** The pipeline a new set records. */
  function NewMetadata(embeddingModel: string): Metadata {
    Pipeline(embeddingModel, "character", 1000, 200, true, true, true)
  }

  /**
   * The access entries a create ends up with: one per group id whose access
   * write succeeded (`link` answers the group the row points to, or None when
   * the write throws), in the order of the ids.
   */
  function Linked(groupIds: seq<string>, link: string -> Option<GroupRef>): (r: seq<GroupRef>)
    ensures |r| <= |groupIds|
    ensures forall g :: g in r ==> exists id :: id in groupIds && link(id) == Some(g)
    ensures forall id :: id in groupIds && link(id).Some? ==> link(id).value in r
  {
    if groupIds == [] then []
    else
      var last := groupIds[|groupIds| - 1];
      var before := Linked(groupIds[..|groupIds| - 1], link);
      assert forall g :: g in before ==> exists id :: id in groupIds && link(id) == Some(g) by {
        forall g | g in before
          ensures exists id :: id in groupIds && link(id) == Some(g)
        {
          var id :| id in groupIds[..|groupIds| - 1] && link(id) == Some(g);
          assert id in groupIds;
        }
      }
      before + (if link(last).Some? then [link(last).value] else [])
  }

  /** A single id gives its entry exactly when its write succeeded. */
  lemma LinkedSingle(id: string, link: string -> Option<GroupRef>)
    ensures Linked([id], link) == if link(id).Some? then [link(id).value] else []
  {
    assert [id][..0] == [];
    assert Linked([], link) == [];
  }

  /** The entries follow the ids: the links of a concatenation are the links of its parts, in order. */
  lemma {:induction false} LinkedInIdOrder(a: seq<string>, b: seq<string>, link: string -> Option<GroupRef>)
    ensures Linked(a + b, link) == Linked(a, link) + Linked(b, link)
    decreases |b|
  {
    if b == [] {
      assert a + b == a;
    } else {
      var init, last := b[..|b| - 1], b[|b| - 1];
      var tail := if link(last).Some? then [link(last).value] else [];
      assert (a + b)[..|a + b| - 1] == a + init;
      assert (a + b)[|a + b| - 1] == last;
      assert Linked(a + b, link) == Linked(a + init, link) + tail;
      assert Linked(b, link) == Linked(init, link) + tail;
      LinkedInIdOrder(a, init, link);
    }
  }

  /** When every write succeeds each id gives its entry; when every write fails there are none. */
  lemma {:induction false} LinkedAllOrNothing(groupIds: seq<string>, link: string -> Option<GroupRef>)
    ensures (forall id :: id in groupIds ==> link(id).Some?) ==> |Linked(groupIds, link)| == |groupIds|
    ensures (forall id :: id in groupIds ==> link(id).None?) ==> Linked(groupIds, link) == []
  {
    if groupIds != [] {
      var init := groupIds[..|groupIds| - 1];
      assert forall id :: id in init ==> id in groupIds;
      LinkedAllOrNothing(init, link);
    }
  }

  /** The row a create writes, with the access entries that were linked. */
  function NewSet(name: string, description: Option<string>, embeddingModel: string,
                  access: seq<GroupRef>, newId: string, now: nat): RagSet
  {
    RagSet(newId, name, description, VectorDbPath(name), Ready, NewMetadata(embeddingModel), [], access, now)
  }

  /** The 201 view: no documents, no vectors and no permissions, whatever was linked. */
  function CreatedView(r: RagSet, embeddingModel: string): SetView {
    SetView(r.id, r.name, r.description, r.status, embeddingModel, 0, 0, r.createdAt, Admin, [])
  }

  /**
   * The route as a function of the request, the table and the oracles; `fault`
   * is a listing, lookup or create call that throws (500).
   */
  function SetsRoute(verb: string, header: Option<string>, body: SetsBody, sets: seq<RagSet>,
                     verify: string -> Option<Claims>, newId: string, now: nat, fault: bool,
                     link: string -> Option<GroupRef>): SetsResult
  {
    match BearerAuth(header, verify)
    case NoToken => SetsResult(Failure(401, MsgTokenRequired), sets)
    case BadToken => SetsResult(Failure(401, MsgInvalidToken), sets)
    case Authorized(_) =>
      if verb == "GET" then
        if fault then SetsResult(Failure(500, MsgServerError), sets)
        else SetsResult(Success(200, Listed(MsgListed, EnrichAll(NewestFirst(sets, RagApi.RagCreatedAt)))), sets)
      else if verb == "POST" then
        if !Truthy(body.name) then SetsResult(Failure(400, MsgNameRequired), sets)
        else if fault then SetsResult(Failure(500, MsgServerError), sets)
        else if FindByKey(sets, RagSetName, body.name.value).Some? then SetsResult(Failure(400, MsgDuplicateName), sets)
        else
          var model := body.embeddingModel.GetOr(DefaultEmbeddingModel);
          var r := NewSet(body.name.value, body.description, model, Linked(body.groupIds.GetOr([]), link), newId, now);
          SetsResult(Success(201, Created(MsgCreated, CreatedView(r, model))), sets + [r])
      else SetsResult(NotAllowed(["GET", "POST"], Login.MsgMethodNotAllowed), sets)
  }

  /** The Bearer check comes before the method: 401 for a missing or rejected token, whatever the method. */
  lemma AuthBeforeDispatch(verb: string, header: Option<string>, body: SetsBody, sets: seq<RagSet>,
                           verify: string -> Option<Claims>, newId: string, now: nat, fault: bool,
                           link: string -> Option<GroupRef>)
    ensures !HasBearer(header) ==>
      SetsRoute(verb, header, body, sets, verify, newId, now, fault, link) == SetsResult(Failure(401, MsgTokenRequired), sets)
    ensures HasBearer(header) && verify(TokenBySubstring(header.value)).None? ==>
      SetsRoute(verb, header, body, sets, verify, newId, now, fault, link) == SetsResult(Failure(401, MsgInvalidToken), sets)
    ensures BearerAuth(header, verify).Authorized? && verb != "GET" && verb != "POST" ==>
      SetsRoute(verb, header, body, sets, verify, newId, now, fault, link)
        == SetsResult(NotAllowed(["GET", "POST"], Login.MsgMethodNotAllowed), sets)
  {
  }

  /**
   * The listing has one view per stored set, newest first, each with the fixed
   * model name and creator.
   */
  lemma ListingEnrichment(header: Option<string>, body: SetsBody, sets: seq<RagSet>,
                          verify: string -> Option<Claims>, newId: string, now: nat,
                          link: string -> Option<GroupRef>)
    requires BearerAuth(header, verify).Authorized?
    ensures var res := SetsRoute("GET", header, body, sets, verify, newId, now, false, link);
      var views := res.reply.body.ragSets;
      && res.reply.Success? && res.reply.status == 200 && res.ragSets == sets
      && |views| == |sets|
      && (forall i, j :: 0 <= i < j < |views| ==> views[i].createdAt >= views[j].createdAt)
      && (forall i :: 0 <= i < |views| ==>
            views[i].embeddingModel == DefaultEmbeddingModel && views[i].creator == Admin)
  {
    var listing := NewestFirst(sets, RagApi.RagCreatedAt);
    var views := EnrichAll(listing);
    NewestFirstIsOrdered(sets, RagApi.RagCreatedAt);
    forall i, j | 0 <= i < j < |views|
      ensures views[i].createdAt >= views[j].createdAt
    {
      assert RagApi.RagCreatedAt(listing[i]) >= RagApi.RagCreatedAt(listing[j]);
    }
  }

  /** Every stored set is listed. */
  lemma StoredSetsListed(header: Option<string>, body: SetsBody, sets: seq<RagSet>,
                         verify: string -> Option<Claims>, newId: string, now: nat,
                         link: string -> Option<GroupRef>, r: RagSet)
    requires BearerAuth(header, verify).Authorized?
    requires r in sets
    ensures Enrich(r) in SetsRoute("GET", header, body, sets, verify, newId, now, false, link).reply.body.ragSets
  {
    var listing := NewestFirst(sets, RagApi.RagCreatedAt);
    Listing.ListedIffStored(sets, RagApi.RagCreatedAt, r);
    var k :| 0 <= k < |listing| && listing[k] == r;
    assert EnrichAll(listing)[k] == Enrich(r);
  }

  /**
   * Every view is a stored set's: its document count is that set's number of
   * files, its vector count the sum of their chunks, and its permissions
   * that set's access groups in order.
   */
  lemma ViewsComeFromStoredSets(header: Option<string>, body: SetsBody, sets: seq<RagSet>,
                                verify: string -> Option<Claims>, newId: string, now: nat,
                                link: string -> Option<GroupRef>, i: nat)
    requires BearerAuth(header, verify).Authorized?
    requires i < |sets|
    ensures var views := SetsRoute("GET", header, body, sets, verify, newId, now, false, link).reply.body.ragSets;
      exists s :: (s in sets && views[i] == Enrich(s) && views[i].documentCount == |s.files|
                   && views[i].vectorCount == SumOf(s.files, Chunks) && views[i].ragPermissions == s.access)
  {
    var listing := NewestFirst(sets, RagApi.RagCreatedAt);
    Listing.ListedIffStored(sets, RagApi.RagCreatedAt, listing[i]);
    assert EnrichAll(listing)[i] == Enrich(listing[i]);
  }

  /** A name already in use is refused with 400 before anything is written. */
  lemma DuplicateRefusedBeforeWrite(header: Option<string>, body: SetsBody, sets: seq<RagSet>,
                                    verify: string -> Option<Claims>, newId: string, now: nat,
                                    link: string -> Option<GroupRef>, k: nat)
    requires BearerAuth(header, verify).Authorized?
    requires Truthy(body.name) && k < |sets| && sets[k].name == body.name.value
    ensures SetsRoute("POST", header, body, sets, verify, newId, now, false, link)
         == SetsResult(Failure(400, MsgDuplicateName), sets)
  {
    assert RagSetName(sets[k]) == body.name.value;
  }

  /** Creates never give two sets the same name. */
  lemma NamesStayDistinct(verb: string, header: Option<string>, body: SetsBody, sets: seq<RagSet>,
                          verify: string -> Option<Claims>, newId: string, now: nat, fault: bool,
                          link: string -> Option<GroupRef>)
    requires DistinctKeys(sets, RagSetName)
    ensures DistinctKeys(SetsRoute(verb, header, body, sets, verify, newId, now, fault, link).ragSets, RagSetName)
  {
  }

  /**
   * A create stores a READY set at the path derived from its name, with the
   * pipeline metadata and the requested (or default) model, linked to the
   * groups whose access write succeeded; the reply is 201 whatever those
   * writes did, and shows zero counts and no permissions.
   */
  lemma CreateDefaults(header: Option<string>, body: SetsBody, sets: seq<RagSet>,
                       verify: string -> Option<Claims>, newId: string, now: nat,
                       link: string -> Option<GroupRef>, link': string -> Option<GroupRef>)
    requires BearerAuth(header, verify).Authorized?
    requires Truthy(body.name) && FindByKey(sets, RagSetName, body.name.value).None?
    ensures var res := SetsRoute("POST", header, body, sets, verify, newId, now, false, link);
      var model := if body.embeddingModel.Some? then body.embeddingModel.value else DefaultEmbeddingModel;
      var stored := res.ragSets[|sets|];
      && |res.ragSets| == |sets| + 1 && res.ragSets[..|sets|] == sets
      && stored.status == Ready && stored.files == []
      && stored.vectorDbLocation == VectorDbRoot + ReplaceSpaceRuns(ToLower(body.name.value), "_")
      && stored.metadata == Pipeline(model, "character", 1000, 200, true, true, true)
      && stored.access == Linked(body.groupIds.GetOr([]), link)
      && res.reply.status == 201
      && res.reply.body.ragSet.documentCount == 0 && res.reply.body.ragSet.vectorCount == 0
      && res.reply.body.ragSet.ragPermissions == []
      && res.reply.body.ragSet.embeddingModel == model
      && SetsRoute("POST", header, body, sets, verify, newId, now, false, link').reply == res.reply
  {
    PathsDifferOnlyInRootAndSeparator(body.name.value);
    var res := SetsRoute("POST", header, body, sets, verify, newId, now, false, link);
    assert res.ragSets[..|sets|] == sets;
  }

  /**
   * The 201 reply says the new set has no permissions, but listing right
   * after shows the groups that were linked.
   */
  lemma CreatedThenListed(header: Option<string>, body: SetsBody, sets: seq<RagSet>,
                          verify: string -> Option<Claims>, newId: string, now: nat,
                          link: string -> Option<GroupRef>)
    requires BearerAuth(header, verify).Authorized?
    requires Truthy(body.name) && FindByKey(sets, RagSetName, body.name.value).None?
    ensures var created := SetsRoute("POST", header, body, sets, verify, newId, now, false, link);
      var stored := created.ragSets[|sets|];
      var listed := SetsRoute("GET", header, body, created.ragSets, verify, newId, now, false, link);
      && created.reply.body.ragSet.ragPermissions == []
      && Enrich(stored) in listed.reply.body.ragSets
      && Enrich(stored).ragPermissions == Linked(body.groupIds.GetOr([]), link)
  {
    CreateDefaults(header, body, sets, verify, newId, now, link, link);
    var created := SetsRoute("POST", header, body, sets, verify, newId, now, false, link);
    var stored := created.ragSets[|sets|];
    StoredSetsListed(header, body, created.ragSets, verify, newId, now, link, stored);
  }

  /** The access writes, one group id after the other; a failed write is skipped. */
  method LinkAccess(db: Db, groupIds: seq<string>, link: string -> Option<GroupRef>)
    requires |db.ragSets| > 0
    modifies db`ragSets
    ensures var last := old(db.ragSets[|db.ragSets| - 1]);
      db.ragSets == old(db.ragSets)[|old(db.ragSets)| - 1 := last.(access := last.access + Linked(groupIds, link))]
  {
    ghost var start := db.ragSets;
    var n := |db.ragSets| - 1;
    var last := db.ragSets[n];
    assert last.access + [] == last.access;
    assert start[n := last] == start;
    for k := 0 to |groupIds|
      invariant |db.ragSets| == |start|
      invariant db.ragSets == start[n := last.(access := last.access + Linked(groupIds[..k], link))]
    {
      var before := Linked(groupIds[..k], link);
      assert groupIds[..k + 1][..k] == groupIds[..k];
      var row := link(groupIds[k]);
      assert Linked(groupIds[..k + 1], link) == before + (if row.Some? then [row.value] else []);
      if row.Some? {
        var r := db.ragSets[n];
        assert r.access + [row.value] == last.access + (before + [row.value]);
        db.ragSets := db.ragSets[n := r.(access := r.access + [row.value])];
      } else {
        assert before + [] == before;
      }
    }
    assert groupIds[..|groupIds|] == groupIds;
  }

  /** The handler: the Bearer check, then the method dispatch. */
  method HandleRagSets(db: Db, verb: string, header: Option<string>, body: SetsBody,
                       verify: string -> Option<Claims>, newId: string, now: nat, fault: bool,
                       link: string -> Option<GroupRef>)
    returns (reply: Reply<SetsReplyBody>)
    modifies db`ragSets
    ensures SetsResult(reply, db.ragSets) == SetsRoute(verb, header, body, old(db.ragSets), verify, newId, now, fault, link)
  {
    if header.None? || !StartsWith(header.value, BearerPrefix) {
      return Failure(401, MsgTokenRequired);
    }
    var decoded := verify(TokenBySubstring(header.value));
    if decoded.None? {
      return Failure(401, MsgInvalidToken);
    }
    if verb == "GET" {
      if fault {
        return Failure(500, MsgServerError);
      }
      var listing := NewestFirst(db.ragSets, RagApi.RagCreatedAt);
      reply := Success(200, Listed(MsgListed, EnrichAll(listing)));
    } else if verb == "POST" {
      if !Truthy(body.name) {
        return Failure(400, MsgNameRequired);
      }
      var name := body.name.value;
      var model := if body.embeddingModel.Some? then body.embeddingModel.value else DefaultEmbeddingModel;
      var groupIds := if body.groupIds.Some? then body.groupIds.value else [];
      if fault {
        return Failure(500, MsgServerError);
      }
      var existing := FindByKey(db.ragSets, RagSetName, name);
      if existing.Some? {
        return Failure(400, MsgDuplicateName);
      }
      var created := RagSet(newId, name, body.description, VectorDbRoot + ToLower(ReplaceSpaceRuns(name, "_")),
                            Ready, NewMetadata(model), [], [], now);
      db.ragSets := db.ragSets + [created];
      LinkAccess(db, groupIds, link);
      assert [] + Linked(groupIds, link) == Linked(groupIds, link);
      reply := Success(201, Created(MsgCreated, CreatedView(created, model)));
    } else {
      reply := NotAllowed(["GET", "POST"], Login.MsgMethodNotAllowed);
    }
  }
}
