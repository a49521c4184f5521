/**
 * `/api/rag`: after the token check, the listing of RAG sets with per-set
 * statistics and a summary (GET), or the creation of a set that starts
 * indexing (POST).
 */
module RagApi {
  import opened Wrappers
  import opened JsString
  import opened Http
  import opened Store
  import opened Jwt
  import opened Listing
  import Login

  const MsgAuthRequired := "인증이 필요합니다"
  const MsgServerError := "서버 오류가 발생했습니다"
  const MsgNameRequired := "RAG 세트 이름은 필수입니다"
  const MsgCreated := "RAG 세트가 성공적으로 생성되었습니다"
  const VectorRoot := "/vector/"

  function RagCreatedAt(r: RagSet): nat { r.createdAt }

  /** A file's size, a missing one counting as 0. */
  function FileSize(f: RagFile): nat { f.size.GetOr(0) }

  function SetFileCount(r: RagSet): nat { |r.files| }
  function SetTotalSize(r: RagSet): nat { SumOf(r.files, FileSize) }

  /** A set as listed: the row plus `fileCount` and `totalSize`. */
  datatype SetStats = SetStats(ragSet: RagSet, fileCount: nat, totalSize: nat)

  function StatsFileCount(s: SetStats): nat { s.fileCount }
  function StatsTotalSize(s: SetStats): nat { s.totalSize }

  function WithStats(r: RagSet): SetStats {
    SetStats(r, SetFileCount(r), SetTotalSize(r))
  }

  /** `ragSets.map(...)`: each set with its statistics, in the same order. */
  function StatsOf(sets: seq<RagSet>): (r: seq<SetStats>)
    ensures |r| == |sets|
    ensures forall i :: 0 <= i < |sets| ==> r[i].ragSet == sets[i]
    ensures forall i :: 0 <= i < |sets| ==>
      r[i].fileCount == |sets[i].files| && r[i].totalSize == SumOf(sets[i].files, FileSize)
  {
    if sets == [] then [] else [WithStats(sets[0])] + StatsOf(sets[1..])
  }

  function ReadyOne(r: RagSet): nat { if r.status == Ready then 1 else 0 }
  function IndexingOne(r: RagSet): nat { if r.status == Indexing then 1 else 0 }
  function ErrorOne(r: RagSet): nat { if r.status == Errored then 1 else 0 }

  datatype Summary = Summary(
    totalSets: nat,
    readySets: nat,
    indexingSets: nat,
    errorSets: nat,
    totalFiles: nat,
    totalSize: nat)

  /** The summary of a listing: counts by status, and totals over the per-set statistics. */
  function Summarize(listing: seq<RagSet>): Summary {
    var stats := StatsOf(listing);
    Summary(|listing|, SumOf(listing, ReadyOne), SumOf(listing, IndexingOne), SumOf(listing, ErrorOne),
            SumOf(stats, StatsFileCount), SumOf(stats, StatsTotalSize))
  }

  /** Every file of every set, set by set. */
  function AllFiles(sets: seq<RagSet>): seq<RagFile> {
    if sets == [] then [] else sets[0].files + AllFiles(sets[1..])
  }

  /** The per-set statistics add up to the per-set sums. */
  lemma {:induction false} StatsSums(sets: seq<RagSet>)
    ensures SumOf(StatsOf(sets), StatsFileCount) == SumOf(sets, SetFileCount)
    ensures SumOf(StatsOf(sets), StatsTotalSize) == SumOf(sets, SetTotalSize)
  {
    if sets != [] {
      StatsSums(sets[1..]);
      assert StatsOf(sets)[1..] == StatsOf(sets[1..]);
    }
  }

  /** The per-set sums are the number, and the total size, of all files taken together. */
  lemma {:induction false} TotalsOverAllFiles(sets: seq<RagSet>)
    ensures SumOf(sets, SetFileCount) == |AllFiles(sets)|
    ensures SumOf(sets, SetTotalSize) == SumOf(AllFiles(sets), FileSize)
  {
    if sets != [] {
      TotalsOverAllFiles(sets[1..]);
      SumOfAppend(sets[0].files, AllFiles(sets[1..]), FileSize);
    }
  }

  /** No set is counted under two statuses, so the three counts never exceed the number of sets. */
  lemma {:induction false} StatusCountsBounded(sets: seq<RagSet>)
    ensures SumOf(sets, ReadyOne) + SumOf(sets, IndexingOne) + SumOf(sets, ErrorOne) <= |sets|
  {
    if sets != [] {
      StatusCountsBounded(sets[1..]);
    }
  }

  /** The summary does not depend on the listing order. */
  lemma SummaryOrderIndependent(sets: seq<RagSet>)
    ensures Summarize(NewestFirst(sets, RagCreatedAt)) == Summarize(sets)
  {
    var listing := NewestFirst(sets, RagCreatedAt);
    StatsSums(listing);
    StatsSums(sets);
    SumOfNewestFirst(sets, RagCreatedAt, SetFileCount);
    SumOfNewestFirst(sets, RagCreatedAt, SetTotalSize);
    SumOfNewestFirst(sets, RagCreatedAt, ReadyOne);
    SumOfNewestFirst(sets, RagCreatedAt, IndexingOne);
    SumOfNewestFirst(sets, RagCreatedAt, ErrorOne);
  }

  /** The POST body. */
  datatype RagBody = RagBody(name: Option<string>, description: Option<string>)

  datatype RagReplyBody =
    | Listed(ragSets: seq<SetStats>, total: nat, summary: Summary)
    | Created(message: string, ragSet: RagSet)

  /** The reply and the RAG-set table after the request. */
  datatype RagResult = RagResult(reply: Reply<RagReplyBody>, ragSets: seq<RagSet>)

  /** `/vector/` followed by the lower-cased name with each white-space run turned into `-`. */
  function VectorPath(name: string): string {
    VectorRoot + ReplaceSpaceRuns(ToLower(name), "-")
  }

  lemma LowerIdempotent(s: string)
    ensures ToLower(ToLower(s)) == ToLower(s)
  {
  }

  /** The path lies under `/vector/`, holds no white space and is already lower case. */
  lemma VectorPathShape(name: string)
    ensures StartsWith(VectorPath(name), VectorRoot)
    ensures NoSpace(VectorPath(name)[|VectorRoot|..])
    ensures ToLower(VectorPath(name)) == VectorPath(name)
  {
    var tail := ReplaceSpaceRuns(ToLower(name), "-");
    assert VectorPath(name)[|VectorRoot|..] == tail;
    ReplaceSpaceRunsNoSpace(ToLower(name), "-");
    LowerCommutesWithReplace(ToLower(name), "-");
    LowerIdempotent(name);
    assert ToLower("-") == "-";
    LowerAppend(VectorRoot, tail);
    assert ToLower(VectorRoot) == VectorRoot;
  }

  /** The row a POST writes: INDEXING, metadata `{}`, no files and no access entries yet. */
  function NewRagSet(body: RagBody, newId: string, now: nat): RagSet
    requires Truthy(body.name)
  {
    RagSet(newId, body.name.value, body.description, VectorPath(body.name.value), Indexing, NoMetadata, [], [], now)
  }

  /** The route as a function of the request and the table; `fault` is a database call that throws. */
  function RagRoute(verb: string, header: Option<string>, body: RagBody, sets: seq<RagSet>,
                    verify: string -> Option<Claims>, newId: string, now: nat, fault: bool): RagResult
  {
    if !VerifyToken(header, verify) then RagResult(Failure(401, MsgAuthRequired), sets)
    else if verb == "GET" then
      if fault then RagResult(Failure(500, MsgServerError), sets)
      else
        var listing := NewestFirst(sets, RagCreatedAt);
        RagResult(Success(200, Listed(StatsOf(listing), |listing|, Summarize(listing))), sets)
    else if verb == "POST" then
      if !Truthy(body.name) then RagResult(Failure(400, MsgNameRequired), sets)
      else if fault then RagResult(Failure(500, MsgServerError), sets)
      else
        var r := NewRagSet(body, newId, now);
        RagResult(Success(201, Created(MsgCreated, r)), sets + [r])
    else RagResult(Failure(405, Login.MsgMethodNotAllowed), sets)
  }

  /** As for agents, the token is checked before the method: 401 whatever the method. */
  lemma UnauthenticatedBeforeDispatch(verb: string, header: Option<string>, body: RagBody, sets: seq<RagSet>,
                                      verify: string -> Option<Claims>, newId: string, now: nat, fault: bool)
    ensures !HasBearer(header) ==>
      RagRoute(verb, header, body, sets, verify, newId, now, fault) == RagResult(Failure(401, MsgAuthRequired), sets)
    ensures HasBearer(header) ==> TokenBySplit(header.value).Some?
    ensures HasBearer(header) && TokenBySplit(header.value).Some? && verify(TokenBySplit(header.value).value).None? ==>
      RagRoute(verb, header, body, sets, verify, newId, now, fault) == RagResult(Failure(401, MsgAuthRequired), sets)
    ensures VerifyToken(header, verify) && verb != "GET" && verb != "POST" ==>
      RagRoute(verb, header, body, sets, verify, newId, now, fault) == RagResult(Failure(405, Login.MsgMethodNotAllowed), sets)
  {
    if HasBearer(header) {
      TokenExtractionsAgree(header.value);
    }
  }

  /**
   * A listing reports every set once, newest first, each with its file count
   * and size; the summary counts the READY, INDEXING and ERROR sets, never
   * more than there are, and its totals are the number and the total size of
   * all files.
   */
  lemma ListingStatistics(header: Option<string>, body: RagBody, sets: seq<RagSet>,
                          verify: string -> Option<Claims>, newId: string, now: nat)
    requires VerifyToken(header, verify)
    ensures var r := RagRoute("GET", header, body, sets, verify, newId, now, false).reply;
      && r.Success? && r.body.Listed?
      && r.body.total == |sets| == |r.body.ragSets|
      && NewestFirstOrder(r.body.ragSets, (s: SetStats) => s.ragSet.createdAt)
      && (forall i :: 0 <= i < |r.body.ragSets| ==>
            r.body.ragSets[i].fileCount == |r.body.ragSets[i].ragSet.files|
            && r.body.ragSets[i].totalSize == SumOf(r.body.ragSets[i].ragSet.files, FileSize))
      && r.body.summary.totalSets == |sets|
      && r.body.summary.readySets == SumOf(sets, ReadyOne)
      && r.body.summary.indexingSets == SumOf(sets, IndexingOne)
      && r.body.summary.errorSets == SumOf(sets, ErrorOne)
      && r.body.summary.readySets + r.body.summary.indexingSets + r.body.summary.errorSets <= |sets|
      && r.body.summary.totalFiles == |AllFiles(sets)|
      && r.body.summary.totalSize == SumOf(AllFiles(sets), FileSize)
  {
    var listing := NewestFirst(sets, RagCreatedAt);
    var stats := StatsOf(listing);
    NewestFirstIsOrdered(sets, RagCreatedAt);
    forall i, j | 0 <= i < j < |stats|
      ensures stats[i].ragSet.createdAt >= stats[j].ragSet.createdAt
    {
      assert stats[i].ragSet == listing[i] && stats[j].ragSet == listing[j];
      assert RagCreatedAt(listing[i]) >= RagCreatedAt(listing[j]);
    }
    SummaryOrderIndependent(sets);
    StatsSums(sets);
    TotalsOverAllFiles(sets);
    StatusCountsBounded(sets);
  }

  /**
   * A POST without a name is 400 and writes nothing; otherwise the new set is
   * appended, INDEXING, with metadata `{}` and its path derived from the name.
   */
  lemma CreateRules(header: Option<string>, body: RagBody, sets: seq<RagSet>,
                    verify: string -> Option<Claims>, newId: string, now: nat)
    requires VerifyToken(header, verify)
    ensures !Truthy(body.name) ==>
      RagRoute("POST", header, body, sets, verify, newId, now, false) == RagResult(Failure(400, MsgNameRequired), sets)
    ensures Truthy(body.name) ==>
      var r := RagRoute("POST", header, body, sets, verify, newId, now, false);
      && r.reply == Success(201, Created(MsgCreated, r.ragSets[|sets|]))
      && r.ragSets[..|sets|] == sets && |r.ragSets| == |sets| + 1
      && r.ragSets[|sets|].status == Indexing && r.ragSets[|sets|].metadata == NoMetadata
      && r.ragSets[|sets|].name == body.name.value
      && r.ragSets[|sets|].vectorDbLocation == VectorRoot + ReplaceSpaceRuns(ToLower(body.name.value), "-")
  {
  }

  /** The handler: the token check, then the method dispatch. */
  method HandleRag(db: Db, verb: string, header: Option<string>, body: RagBody,
                   verify: string -> Option<Claims>, newId: string, now: nat, fault: bool)
    returns (reply: Reply<RagReplyBody>)
    modifies db`ragSets
    ensures RagResult(reply, db.ragSets) == RagRoute(verb, header, body, old(db.ragSets), verify, newId, now, fault)
  {
    if !VerifyToken(header, verify) {
      return Failure(401, MsgAuthRequired);
    }
    if verb == "GET" {
      if fault {
        return Failure(500, MsgServerError);
      }
      var listing := NewestFirst(db.ragSets, RagCreatedAt);
      var stats := StatsOf(listing);
      reply := Success(200, Listed(stats, |listing|, Summarize(listing)));
    } else if verb == "POST" {
      if !Truthy(body.name) {
        return Failure(400, MsgNameRequired);
      }
      if fault {
        return Failure(500, MsgServerError);
      }
      var created := RagSet(newId, body.name.value, body.description, VectorPath(body.name.value),
                            Indexing, NoMetadata, [], [], now);
      db.ragSets := db.ragSets + [created];
      reply := Success(201, Created(MsgCreated, created));
    } else {
      reply := Failure(405, Login.MsgMethodNotAllowed);
    }
  }
}
