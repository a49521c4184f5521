/**
 * `POST /api/chat/send`: guards, then a session (reused or created), a USER
 * message, a templated ASSISTANT reply and, when a RAG set was found, the
 * references of its placeholder documents.
 */
module ChatSend {
  import opened Wrappers
  import opened JsString
  import opened Http
  import opened Store
  import opened Jwt
  import Login

  const MsgTokenRequired := "인증 토큰이 필요합니다"
  const MsgInvalidToken := "유효하지 않은 토큰입니다"
  const MsgMissingFields := "메시지와 에이전트 ID는 필수입니다"
  const MsgAgentNotFound := "에이전트를 찾을 수 없습니다"
  const MsgServerError := "서버 오류가 발생했습니다"
  const MsgSent := "메시지 전송 성공"
  const DefaultSession := "default"
  const VirtualDocId := "virtual-doc-id"

  /** The two documents a found RAG set is said to have retrieved (their relevance scores are left out). */
  const Placeholders: seq<DocRef> := [
    DocRef("예시문서1.pdf", "관련 내용의 일부분..."),
    DocRef("예시문서2.docx", "검색된 텍스트 조각...")]

  datatype SendBody = SendBody(
    message: Option<string>,
    agentId: Option<string>,
    ragSetId: Option<string>,
    sessionId: Option<string>)

  /** The ids the database assigns to the rows a request may create. */
  datatype NewIds = NewIds(session: string, userMessage: string, assistantMessage: string)

  /**
   * Where a database call throws, if anywhere: one of the lookups (before any
   * write), or one of the three creates (the writes before it stay).
   */
  datatype Fault = NoFault | LookupFault | SessionCreateFault | UserMessageFault | AssistantMessageFault

  /** The RAG set as the reply's metadata shows it. */
  datatype RagSummary = RagSummary(name: string, documentCount: nat)

  datatype SendReply = SendReply(
    message: string,
    sessionId: string,
    response: string,
    referencedDocs: seq<DocRef>,
    agentName: string,
    agentModel: string,
    ragSet: Option<RagSummary>)

  /** The chat tables a request writes. */
  datatype ChatTables = ChatTables(sessions: seq<ChatSession>, messages: seq<ChatMessage>, references: seq<RagReference>)

  datatype SendResult = SendResult(reply: Reply<SendReply>, tables: ChatTables)

  // ---------------------------------------------------------------- the answer text

  function RagResponse(message: string, ragSet: RagSet): string {
    "[RAG 세트 \"" + ragSet.name + "\" 기반 응답]\n\n"
    + "질문: \"" + message + "\"\n\n"
    + "RAG 세트의 문서들을 참조하여 다음과 같이 답변드립니다:\n\n"
    + "이는 \"" + ragSet.name + "\" 문서에서 추출한 정보를 바탕으로 한 응답입니다. "
    + NatToString(|ragSet.files|) + "개의 문서에서 관련 정보를 찾았습니다."
  }

  function PlainResponse(message: string, agent: Agent): string {
    "안녕하세요! 질문: \"" + message + "\"\n\n"
    + agent.name + " (" + agent.model + ") 에이전트가 응답드립니다. "
    + "현재 RAG 세트가 연결되지 않아 일반적인 지식으로 답변드립니다."
  }

  /** The template is chosen only by whether a RAG set was found. */
  function Response(message: string, agent: Agent, ragSet: Option<RagSet>): string {
    if ragSet.Some? then RagResponse(message, ragSet.value) else PlainResponse(message, agent)
  }

  /**
   * Both templates quote the question, and their openings tell them apart: a
   * reader of the answer knows whether a RAG set was used.
   */
  lemma ResponseShape(message: string, agent: Agent, ragSet: Option<RagSet>)
    ensures ragSet.Some? ==> StartsWith(Response(message, agent, ragSet), "[RAG 세트 \"" + ragSet.value.name)
    ensures ragSet.None? ==> StartsWith(Response(message, agent, ragSet), "안녕하세요! 질문: \"")
    ensures Includes(Response(message, agent, ragSet), message)
  {
    var r := Response(message, agent, ragSet);
    if ragSet.Some? {
      var head := "[RAG 세트 \"" + ragSet.value.name + "\" 기반 응답]\n\n" + "질문: \"";
      assert r == head + message + (r[|head| + |message|..]);
      assert OccursAt(r, message, |head|);
      assert r[..|"[RAG 세트 \"" + ragSet.value.name|] == "[RAG 세트 \"" + ragSet.value.name;
    } else {
      var head := "안녕하세요! 질문: \"";
      assert r == head + message + (r[|head| + |message|..]);
      assert OccursAt(r, message, |head|);
    }
  }

  // ---------------------------------------------------------------- the guards

  /** What the guards establish for the writes that follow. */
  datatype Plan = Plan(
    userId: string,
    message: string,
    agentId: string,
    agent: Agent,
    ragSet: Option<RagSet>,
    docs: seq<DocRef>,
    reused: Option<ChatSession>)

  datatype Checked = Refused(reply: Reply<SendReply>) | Accepted(plan: Plan)

  /** `sessionId && sessionId !== 'default'`: a session id the route looks up. */
  predicate LooksUpSession(sessionId: Option<string>) {
    Truthy(sessionId) && sessionId.value != DefaultSession
  }

  /** The RAG set named by a truthy `ragSetId`, if it exists. */
  function FoundRagSet(ragSetId: Option<string>, ragSets: seq<RagSet>): (r: Option<RagSet>)
    ensures r.Some? ==> Truthy(ragSetId) && r.value in ragSets && r.value.id == ragSetId.value
  {
    if !Truthy(ragSetId) then None
    else match FindByKey(ragSets, RagSetKey, ragSetId.value)
      case None => None
      case Some(i) => Some(ragSets[i])
  }

  /** The stored session to reuse: only for a looked-up id that exists. */
  function ReusedSession(sessionId: Option<string>, sessions: seq<ChatSession>): (r: Option<ChatSession>)
    ensures r.Some? ==> LooksUpSession(sessionId) && r.value in sessions && r.value.id == sessionId.value
  {
    if !LooksUpSession(sessionId) then None
    else match FindByKey(sessions, SessionKey, sessionId.value)
      case None => None
      case Some(i) => Some(sessions[i])
  }

  /** The guards in source order, and the lookups that decide what is written. */
  function Check(verb: string, header: Option<string>, body: SendBody, agents: seq<Agent>, ragSets: seq<RagSet>,
                 sessions: seq<ChatSession>, verify: string -> Option<Claims>, fault: Fault): Checked
  {
    if verb != "POST" then Refused(Failure(405, Login.MsgMethodNotAllowed))
    else match BearerAuth(header, verify)
      case NoToken => Refused(Failure(401, MsgTokenRequired))
      case BadToken => Refused(Failure(401, MsgInvalidToken))
      case Authorized(claims) =>
        if !Truthy(body.message) || !Truthy(body.agentId) then Refused(Failure(400, MsgMissingFields))
        else if fault == LookupFault then Refused(Failure(500, MsgServerError))
        else match FindByKey(agents, AgentKey, body.agentId.value)
          case None => Refused(Failure(404, MsgAgentNotFound))
          case Some(i) =>
            var ragSet := FoundRagSet(body.ragSetId, ragSets);
            Accepted(Plan(claims.userId, body.message.value, body.agentId.value, agents[i], ragSet,
                          if ragSet.Some? then Placeholders else [], ReusedSession(body.sessionId, sessions)))
  }

  // ---------------------------------------------------------------- the writes

  /** The session a request creates: the caller's, for this agent, with the request's RAG set id (or null). */
  function NewSession(p: Plan, body: SendBody, ids: NewIds): ChatSession {
    ChatSession(ids.session, p.userId, p.agentId, OrNull(body.ragSetId), p.agent.model)
  }

  /**
   * The reference rows for the found set's documents, one per document whose
   * write succeeds (`stored` answers that), in document order.
   */
  function References(messageId: string, ragSet: RagSet, docs: seq<DocRef>, stored: DocRef -> bool): seq<RagReference>
  {
    if docs == [] then []
    else
      var last := docs[|docs| - 1];
      References(messageId, ragSet, docs[..|docs| - 1], stored)
      + (if stored(last) then [RagReference(messageId, ragSet.id, VirtualDocId, last.filename, last.snippet)] else [])
  }

  /** The writes and the reply, once the guards passed. */
  function Persist(p: Plan, body: SendBody, t: ChatTables, ids: NewIds, fault: Fault,
                   stored: DocRef -> bool): SendResult
  {
    if p.reused.None? && fault == SessionCreateFault then SendResult(Failure(500, MsgServerError), t)
    else
      var session := if p.reused.Some? then p.reused.value else NewSession(p, body, ids);
      var sessions := if p.reused.Some? then t.sessions else t.sessions + [session];
      var ragSetId := OrNull(body.ragSetId);
      var userMessage := ChatMessage(ids.userMessage, session.id, UserMessage, p.message, ragSetId, p.agentId, []);
      if fault == UserMessageFault then SendResult(Failure(500, MsgServerError), t.(sessions := sessions))
      else
        var response := Response(p.message, p.agent, p.ragSet);
        var assistant := ChatMessage(ids.assistantMessage, session.id, AssistantMessage, response, ragSetId,
                                     p.agentId, p.docs);
        var messages := t.messages + [userMessage];
        if fault == AssistantMessageFault then SendResult(Failure(500, MsgServerError), ChatTables(sessions, messages, t.references))
        else
          var refs := if p.ragSet.Some? && |p.docs| > 0 then References(ids.assistantMessage, p.ragSet.value, p.docs, stored) else [];
          var summary := if p.ragSet.Some? then Some(RagSummary(p.ragSet.value.name, |p.ragSet.value.files|)) else None;
          SendResult(Success(200, SendReply(MsgSent, session.id, response, p.docs, p.agent.name, p.agent.model, summary)),
                     ChatTables(sessions, messages + [assistant], t.references + refs))
  }

  /** The route as a function of the request, the tables and the oracles. */
  function SendRoute(verb: string, header: Option<string>, body: SendBody, agents: seq<Agent>, ragSets: seq<RagSet>,
                     t: ChatTables, verify: string -> Option<Claims>, ids: NewIds, fault: Fault,
                     stored: DocRef -> bool): SendResult
  {
    match Check(verb, header, body, agents, ragSets, t.sessions, verify, fault)
    case Refused(reply) => SendResult(reply, t)
    case Accepted(p) => Persist(p, body, t, ids, fault, stored)
  }

  // ---------------------------------------------------------------- properties

  /**
   * The method is checked first, then the token, then the two required fields,
   * then the agent; each refusal writes nothing, and an unknown agent is 404.
   */
  lemma GuardOrder(verb: string, header: Option<string>, body: SendBody, agents: seq<Agent>, ragSets: seq<RagSet>,
                   t: ChatTables, verify: string -> Option<Claims>, ids: NewIds, fault: Fault, stored: DocRef -> bool)
    ensures var r := SendRoute(verb, header, body, agents, ragSets, t, verify, ids, fault, stored);
      && (verb != "POST" ==> r == SendResult(Failure(405, Login.MsgMethodNotAllowed), t))
      && (verb == "POST" && !HasBearer(header) ==> r == SendResult(Failure(401, MsgTokenRequired), t))
      && (verb == "POST" && HasBearer(header) && verify(TokenBySubstring(header.value)).None?
          ==> r == SendResult(Failure(401, MsgInvalidToken), t))
      && (verb == "POST" && BearerAuth(header, verify).Authorized? && (!Truthy(body.message) || !Truthy(body.agentId))
          ==> r == SendResult(Failure(400, MsgMissingFields), t))
      && (verb == "POST" && BearerAuth(header, verify).Authorized? && Truthy(body.message) && Truthy(body.agentId)
          && fault != LookupFault && FindByKey(agents, AgentKey, body.agentId.value).None?
          ==> r == SendResult(Failure(404, MsgAgentNotFound), t))
  {
  }

  /** The placeholder documents are attached exactly when a truthy `ragSetId` names a stored set. */
  lemma DocsIffRagSetFound(verb: string, header: Option<string>, body: SendBody, agents: seq<Agent>,
                           ragSets: seq<RagSet>, sessions: seq<ChatSession>, verify: string -> Option<Claims>, fault: Fault)
    requires Check(verb, header, body, agents, ragSets, sessions, verify, fault).Accepted?
    ensures var p := Check(verb, header, body, agents, ragSets, sessions, verify, fault).plan;
      && (p.docs == Placeholders <==> Truthy(body.ragSetId) && FindByKey(ragSets, RagSetKey, body.ragSetId.value).Some?)
      && (p.docs != Placeholders ==> p.docs == [])
  {
  }

  /**
   * A stored session is reused exactly when `sessionId` is truthy, is not
   * `default` and exists; otherwise a new session owned by the caller is added.
   */
  lemma SessionReuseRule(header: Option<string>, body: SendBody, agents: seq<Agent>, ragSets: seq<RagSet>,
                         t: ChatTables, verify: string -> Option<Claims>, ids: NewIds, stored: DocRef -> bool)
    requires SendRoute("POST", header, body, agents, ragSets, t, verify, ids, NoFault, stored).reply.Success?
    ensures var r := SendRoute("POST", header, body, agents, ragSets, t, verify, ids, NoFault, stored);
      var reuse := LooksUpSession(body.sessionId) && FindByKey(t.sessions, SessionKey, body.sessionId.value).Some?;
      && (reuse ==> r.reply.body.sessionId == body.sessionId.value && r.tables.sessions == t.sessions)
      && (!reuse ==> r.reply.body.sessionId == ids.session
                     && r.tables.sessions == t.sessions + [ChatSession(ids.session, BearerAuth(header, verify).claims.userId,
                                                                        body.agentId.value, OrNull(body.ragSetId),
                                                                        r.reply.body.agentModel)])
  {
  }

  /**
   * A successful request stores exactly two messages in the reply's session:
   * the question as USER, then the answer, with the documents, as ASSISTANT.
   */
  lemma TwoMessagesInOrder(header: Option<string>, body: SendBody, agents: seq<Agent>, ragSets: seq<RagSet>,
                           t: ChatTables, verify: string -> Option<Claims>, ids: NewIds, stored: DocRef -> bool)
    requires SendRoute("POST", header, body, agents, ragSets, t, verify, ids, NoFault, stored).reply.Success?
    ensures var r := SendRoute("POST", header, body, agents, ragSets, t, verify, ids, NoFault, stored);
      var m := r.tables.messages;
      && |m| == |t.messages| + 2 && m[..|t.messages|] == t.messages
      && m[|t.messages|].role == UserMessage && m[|t.messages| + 1].role == AssistantMessage
      && m[|t.messages|].sessionId == r.reply.body.sessionId == m[|t.messages| + 1].sessionId
      && Some(m[|t.messages|].content) == body.message
      && m[|t.messages| + 1].content == r.reply.body.response
      && m[|t.messages| + 1].referencedDocs == r.reply.body.referencedDocs
      && m[|t.messages|].referencedDocs == []
  {
    var r := SendRoute("POST", header, body, agents, ragSets, t, verify, ids, NoFault, stored);
    assert r.tables.messages[..|t.messages|] == t.messages;
  }

  /**
   * The answer text depends on the request only through the question, the
   * agent and the found set: which template is used is decided by whether a
   * set was found.
   */
  lemma TemplateByRagSet(header: Option<string>, body: SendBody, agents: seq<Agent>, ragSets: seq<RagSet>,
                         t: ChatTables, verify: string -> Option<Claims>, ids: NewIds, stored: DocRef -> bool)
    requires SendRoute("POST", header, body, agents, ragSets, t, verify, ids, NoFault, stored).reply.Success?
    ensures var r := SendRoute("POST", header, body, agents, ragSets, t, verify, ids, NoFault, stored).reply.body;
      var found := FoundRagSet(body.ragSetId, ragSets);
      && (found.Some? <==> r.ragSet.Some?)
      && (found.Some? ==> StartsWith(r.response, "[RAG 세트 \"" + found.value.name)
                          && r.ragSet.value == RagSummary(found.value.name, |found.value.files|))
      && (found.None? ==> StartsWith(r.response, "안녕하세요! 질문: \""))
      && Includes(r.response, body.message.value)
      && r.response == Response(body.message.value, agents[FindByKey(agents, AgentKey, body.agentId.value).value], found)
  {
    var p := Check("POST", header, body, agents, ragSets, t.sessions, verify, NoFault).plan;
    ResponseShape(p.message, p.agent, p.ragSet);
  }

  /** Each reference row is for the answer message and the found set, from a document that was written. */
  lemma {:induction false} ReferencesAreForTheAnswer(messageId: string, ragSet: RagSet, docs: seq<DocRef>,
                                                     stored: DocRef -> bool)
    ensures var refs := References(messageId, ragSet, docs, stored);
      && |refs| <= |docs|
      && (forall x :: x in refs ==> x.messageId == messageId && x.ragSetId == ragSet.id && x.documentId == VirtualDocId)
      && ((forall d :: d in docs ==> stored(d)) ==> |refs| == |docs|)
      && (forall x :: x in refs ==> exists d :: d in docs && stored(d) && x.documentName == d.filename && x.snippet == d.snippet)
      && (forall d :: d in docs && stored(d) ==> RagReference(messageId, ragSet.id, VirtualDocId, d.filename, d.snippet) in refs)
  {
    if docs != [] {
      var init := docs[..|docs| - 1];
      assert forall d :: d in init ==> d in docs;
      ReferencesAreForTheAnswer(messageId, ragSet, init, stored);
    }
  }

  /**
   * References are written only when a set was found, and failed reference
   * writes do not change the reply.
   */
  lemma ReferencesOnlyWithRagSet(header: Option<string>, body: SendBody, agents: seq<Agent>, ragSets: seq<RagSet>,
                                 t: ChatTables, verify: string -> Option<Claims>, ids: NewIds,
                                 stored: DocRef -> bool, stored': DocRef -> bool)
    requires SendRoute("POST", header, body, agents, ragSets, t, verify, ids, NoFault, stored).reply.Success?
    ensures var r := SendRoute("POST", header, body, agents, ragSets, t, verify, ids, NoFault, stored);
      var found := FoundRagSet(body.ragSetId, ragSets);
      && (found.None? ==> r.tables.references == t.references)
      && (found.Some? ==> r.tables.references == t.references + References(ids.assistantMessage, found.value, Placeholders, stored))
      && SendRoute("POST", header, body, agents, ragSets, t, verify, ids, NoFault, stored').reply == r.reply
  {
  }

  /**
   * A session found by id is reused whoever owns it: the caller's identity is
   * never compared with the session's owner, so the two messages land in
   * another user's session.
   */
  lemma SessionOwnerNotChecked(header: Option<string>, body: SendBody, agents: seq<Agent>, ragSets: seq<RagSet>,
                               t: ChatTables, verify: string -> Option<Claims>, ids: NewIds, stored: DocRef -> bool,
                               k: nat)
    requires Check("POST", header, body, agents, ragSets, t.sessions, verify, NoFault).Accepted?
    requires DistinctKeys(t.sessions, SessionKey)
    requires LooksUpSession(body.sessionId) && k < |t.sessions| && t.sessions[k].id == body.sessionId.value
    requires BearerAuth(header, verify).Authorized? && t.sessions[k].userId != BearerAuth(header, verify).claims.userId
    ensures var r := SendRoute("POST", header, body, agents, ragSets, t, verify, ids, NoFault, stored);
      && r.reply.Success? && r.reply.body.sessionId == t.sessions[k].id
      && r.tables.sessions == t.sessions
      && |r.tables.messages| == |t.messages| + 2
      && r.tables.messages[|t.messages|].sessionId == t.sessions[k].id
      && r.tables.messages[|t.messages| + 1].sessionId == t.sessions[k].id
  {
    assert SessionKey(t.sessions[k]) == body.sessionId.value;
    var found := FindByKey(t.sessions, SessionKey, body.sessionId.value);
    assert found.Some? && found.value <= k;
    assert found == Some(k);
    assert SendRoute("POST", header, body, agents, ragSets, t, verify, ids, NoFault, stored).reply.Success?;
    SessionReuseRule(header, body, agents, ragSets, t, verify, ids, stored);
    TwoMessagesInOrder(header, body, agents, ragSets, t, verify, ids, stored);
  }

  /** A failed answer write leaves the question stored without an answer. */
  lemma AnswerFaultLeavesQuestion(header: Option<string>, body: SendBody, agents: seq<Agent>, ragSets: seq<RagSet>,
                                  t: ChatTables, verify: string -> Option<Claims>, ids: NewIds, stored: DocRef -> bool)
    requires Check("POST", header, body, agents, ragSets, t.sessions, verify, AssistantMessageFault).Accepted?
    ensures var r := SendRoute("POST", header, body, agents, ragSets, t, verify, ids, AssistantMessageFault, stored);
      && r.reply == Failure(500, MsgServerError)
      && |r.tables.messages| == |t.messages| + 1
      && r.tables.messages[|t.messages|].role == UserMessage
      && r.tables.references == t.references
  {
  }

  // ---------------------------------------------------------------- the handler

  /** The reference writes, one document after the other; a failed write is skipped. */
  method StoreReferences(db: Db, messageId: string, ragSet: RagSet, docs: seq<DocRef>, stored: DocRef -> bool)
    modifies db`references
    ensures db.references == old(db.references) + References(messageId, ragSet, docs, stored)
  {
    ghost var start := db.references;
    for k := 0 to |docs|
      invariant db.references == start + References(messageId, ragSet, docs[..k], stored)
    {
      assert docs[..k + 1][..k] == docs[..k];
      if stored(docs[k]) {
        db.references := db.references + [RagReference(messageId, ragSet.id, VirtualDocId, docs[k].filename, docs[k].snippet)];
      }
    }
    assert docs[..|docs|] == docs;
  }

  /** The writes once the guards passed: session, question, answer, references. */
  method Write(db: Db, p: Plan, body: SendBody, ids: NewIds, fault: Fault, stored: DocRef -> bool)
    returns (reply: Reply<SendReply>)
    modifies db`sessions, db`messages, db`references
    ensures SendResult(reply, ChatTables(db.sessions, db.messages, db.references))
         == Persist(p, body, ChatTables(old(db.sessions), old(db.messages), old(db.references)), ids, fault, stored)
  {
    var session: ChatSession;
    if p.reused.Some? {
      session := p.reused.value;
    } else {
      if fault == SessionCreateFault {
        return Failure(500, MsgServerError);
      }
      session := ChatSession(ids.session, p.userId, p.agentId, OrNull(body.ragSetId), p.agent.model);
      db.sessions := db.sessions + [session];
    }
    var ragSetId := OrNull(body.ragSetId);
    if fault == UserMessageFault {
      return Failure(500, MsgServerError);
    }
    db.messages := db.messages + [ChatMessage(ids.userMessage, session.id, UserMessage, p.message, ragSetId, p.agentId, [])];
    var response := Response(p.message, p.agent, p.ragSet);
    if fault == AssistantMessageFault {
      return Failure(500, MsgServerError);
    }
    db.messages := db.messages + [ChatMessage(ids.assistantMessage, session.id, AssistantMessage, response, ragSetId,
                                              p.agentId, p.docs)];
    if p.ragSet.Some? && |p.docs| > 0 {
      StoreReferences(db, ids.assistantMessage, p.ragSet.value, p.docs, stored);
    } else {
      assert db.references + [] == db.references;
    }
    var summary := if p.ragSet.Some? then Some(RagSummary(p.ragSet.value.name, |p.ragSet.value.files|)) else None;
    reply := Success(200, SendReply(MsgSent, session.id, response, p.docs, p.agent.name, p.agent.model, summary));
  }

  /** The handler: the guards, then the writes. */
  method HandleSend(db: Db, verb: string, header: Option<string>, body: SendBody,
                    verify: string -> Option<Claims>, ids: NewIds, fault: Fault, stored: DocRef -> bool)
    returns (reply: Reply<SendReply>)
    modifies db`sessions, db`messages, db`references
    ensures SendResult(reply, ChatTables(db.sessions, db.messages, db.references))
         == SendRoute(verb, header, body, db.agents, db.ragSets,
                      ChatTables(old(db.sessions), old(db.messages), old(db.references)), verify, ids, fault, stored)
  {
    var checked := Check(verb, header, body, db.agents, db.ragSets, db.sessions, verify, fault);
    if checked.Refused? {
      return checked.reply;
    }
    reply := Write(db, checked.plan, body, ids, fault, stored);
  }
}
