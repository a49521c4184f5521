/**
 * `/api/agents`: a token check that comes before everything else, then the
 * listing (GET) or the creation of an agent (POST); any other method is 405.
 */
module AgentsApi {
  import opened Wrappers
  import opened JsString
  import opened Http
  import opened Store
  import opened Jwt
  import opened Listing
  import Login

  const MsgAuthRequired := "인증이 필요합니다"
  const MsgServerError := "서버 오류가 발생했습니다"
  const MsgMissingFields := "필수 필드가 누락되었습니다"
  const MsgCreated := "에이전트가 성공적으로 생성되었습니다"

  /** The POST body; `status` is there to show that it is never read. */
  datatype AgentBody = AgentBody(
    name: Option<string>,
    description: Option<string>,
    model: Option<string>,
    version: Option<string>,
    endpoint: Option<string>,
    configuration: Option<map<string, string>>,
    status: Option<string>)

  datatype AgentsBody =
    | Listed(agents: seq<Agent>, total: nat)
    | Created(message: string, agent: Agent)

  /** The reply and the agent table after the request. */
  datatype AgentsResult = AgentsResult(reply: Reply<AgentsBody>, agents: seq<Agent>)

  function AgentCreatedAt(a: Agent): nat { a.createdAt }

  /** The three required fields are present and non-empty. */
  predicate HasRequiredFields(body: AgentBody) {
    Truthy(body.name) && Truthy(body.model) && Truthy(body.version)
  }

  /** The row the create writes: always INACTIVE, and `{}` when no configuration is given. */
  function NewAgent(body: AgentBody, newId: string, now: nat): Agent
    requires HasRequiredFields(body)
  {
    Agent(newId, body.name.value, body.description, body.model.value, body.version.value, body.endpoint,
          body.configuration.GetOr(map[]), AgentInactive, now)
  }

  /**
   * The route as a function of the request, the table and the oracles; `fault`
   * is a database call that throws (500).
   */
  function AgentsRoute(verb: string, header: Option<string>, body: AgentBody, agents: seq<Agent>,
                       verify: string -> Option<Claims>, newId: string, now: nat, fault: bool): AgentsResult
  {
    if !VerifyToken(header, verify) then AgentsResult(Failure(401, MsgAuthRequired), agents)
    else if verb == "GET" then
      if fault then AgentsResult(Failure(500, MsgServerError), agents)
      else AgentsResult(Success(200, Listed(NewestFirst(agents, AgentCreatedAt), |agents|)), agents)
    else if verb == "POST" then
      if !HasRequiredFields(body) then AgentsResult(Failure(400, MsgMissingFields), agents)
      else if fault then AgentsResult(Failure(500, MsgServerError), agents)
      else
        var agent := NewAgent(body, newId, now);
        AgentsResult(Success(201, Created(MsgCreated, agent)), agents + [agent])
    else AgentsResult(Failure(405, Login.MsgMethodNotAllowed), agents)
  }

  /** The token is checked first: without a valid one every method, even an unsupported one, gets 401. */
  lemma UnauthenticatedBeforeDispatch(verb: string, header: Option<string>, body: AgentBody, agents: seq<Agent>,
                                      verify: string -> Option<Claims>, newId: string, now: nat, fault: bool)
    ensures !HasBearer(header) ==>
      AgentsRoute(verb, header, body, agents, verify, newId, now, fault) == AgentsResult(Failure(401, MsgAuthRequired), agents)
    ensures HasBearer(header) ==> TokenBySplit(header.value).Some?
    ensures HasBearer(header) && TokenBySplit(header.value).Some? && verify(TokenBySplit(header.value).value).None? ==>
      AgentsRoute(verb, header, body, agents, verify, newId, now, fault) == AgentsResult(Failure(401, MsgAuthRequired), agents)
  {
    if HasBearer(header) {
      TokenExtractionsAgree(header.value);
    }
  }

  /** An authenticated request with a method other than GET and POST is 405 and writes nothing. */
  lemma OtherMethodsRefused(verb: string, header: Option<string>, body: AgentBody, agents: seq<Agent>,
                            verify: string -> Option<Claims>, newId: string, now: nat, fault: bool)
    requires VerifyToken(header, verify) && verb != "GET" && verb != "POST"
    ensures AgentsRoute(verb, header, body, agents, verify, newId, now, fault)
         == AgentsResult(Failure(405, Login.MsgMethodNotAllowed), agents)
  {
  }

  /** The listing holds every stored agent once, newest first, and `total` is the table's size. */
  lemma ListingIsNewestFirst(header: Option<string>, body: AgentBody, agents: seq<Agent>,
                             verify: string -> Option<Claims>, newId: string, now: nat)
    requires VerifyToken(header, verify)
    ensures var r := AgentsRoute("GET", header, body, agents, verify, newId, now, false).reply;
      && r.Success? && r.body.Listed?
      && multiset(r.body.agents) == multiset(agents)
      && NewestFirstOrder(r.body.agents, AgentCreatedAt)
      && r.body.total == |agents| == |r.body.agents|
  {
    NewestFirstIsOrdered(agents, AgentCreatedAt);
  }

  /** A POST missing the name, the model or the version is 400 and the table is unchanged. */
  lemma MissingFieldNoWrite(header: Option<string>, body: AgentBody, agents: seq<Agent>,
                            verify: string -> Option<Claims>, newId: string, now: nat, fault: bool)
    requires VerifyToken(header, verify)
    requires !Truthy(body.name) || !Truthy(body.model) || !Truthy(body.version)
    ensures AgentsRoute("POST", header, body, agents, verify, newId, now, fault)
         == AgentsResult(Failure(400, MsgMissingFields), agents)
  {
  }

  /**
   * A created agent is appended to the table and returned; it is INACTIVE
   * whatever the body's `status`, carries the body's fields, and its
   * configuration is the body's or `{}`.
   */
  lemma CreatedAgentDefaults(header: Option<string>, body: AgentBody, agents: seq<Agent>,
                             verify: string -> Option<Claims>, newId: string, now: nat, claimed: Option<string>)
    requires AgentsRoute("POST", header, body, agents, verify, newId, now, false).reply.Success?
    ensures var r := AgentsRoute("POST", header, body, agents, verify, newId, now, false);
      var a := r.reply.body.agent;
      && r.reply.status == 201
      && r.agents == agents + [a]
      && a.status == AgentInactive
      && Some(a.name) == body.name && Some(a.model) == body.model && Some(a.version) == body.version
      && a.description == body.description && a.endpoint == body.endpoint
      && (body.configuration.None? ==> a.configuration == map[])
      && (body.configuration.Some? ==> a.configuration == body.configuration.value)
      && AgentsRoute("POST", header, body.(status := claimed), agents, verify, newId, now, false) == r
  {
  }

  /** The handler: the token check, then the method dispatch. */
  method HandleAgents(db: Db, verb: string, header: Option<string>, body: AgentBody,
                      verify: string -> Option<Claims>, newId: string, now: nat, fault: bool)
    returns (reply: Reply<AgentsBody>)
    modifies db`agents
    ensures AgentsResult(reply, db.agents) == AgentsRoute(verb, header, body, old(db.agents), verify, newId, now, fault)
  {
    if !VerifyToken(header, verify) {
      return Failure(401, MsgAuthRequired);
    }
    if verb == "GET" {
      if fault {
        return Failure(500, MsgServerError);
      }
      var listed := NewestFirst(db.agents, AgentCreatedAt);
      reply := Success(200, Listed(listed, |listed|));
    } else if verb == "POST" {
      if !Truthy(body.name) || !Truthy(body.model) || !Truthy(body.version) {
        return Failure(400, MsgMissingFields);
      }
      if fault {
        return Failure(500, MsgServerError);
      }
      var agent := Agent(newId, body.name.value, body.description, body.model.value, body.version.value,
                         body.endpoint, if body.configuration.Some? then body.configuration.value else map[],
                         AgentInactive, now);
      db.agents := db.agents + [agent];
      reply := Success(201, Created(MsgCreated, agent));
    } else {
      reply := Failure(405, Login.MsgMethodNotAllowed);
    }
  }
}
