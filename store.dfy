/**
 * The persisted records the API routes read and write, and an in-memory
 * database holding one table per model. A unique lookup (`findUnique`,
 * `findFirst`) is `FindByKey`: the first row whose key matches.
 */
module Store {
  import opened Wrappers
  import opened Permissions

  /** Account lifecycle status; `Unrecognized` stands for any value outside the four named ones. */
  datatype Status = Pending | Active | Inactive | Suspended | Unrecognized(name: string)

  /** A user row with its role and group assignments already loaded. */
  datatype Account = Account(
    id: string,
    email: string,
    passwordHash: string,
    username: Option<string>,
    status: Status,
    emailVerified: bool,
    userRoles: seq<Role>,
    userGroups: seq<Group>,
    lastLoginAt: Option<nat>,
    createdAt: nat)

  datatype AgentStatus = AgentActive | AgentInactive | AgentTesting | AgentDeprecated

  datatype Agent = Agent(
    id: string,
    name: string,
    description: Option<string>,
    model: string,
    version: string,
    endpoint: Option<string>,
    configuration: map<string, string>,
    status: AgentStatus,
    createdAt: nat)

  /** A file of a RAG set; `size` and `chunks` may be null. */
  datatype RagFile = RagFile(id: string, name: string, size: Option<nat>, chunks: Option<nat>)

  /** READY, INDEXING, ERROR, or a status outside those three. */
  datatype RagStatus = Ready | Indexing | Errored | OtherRagStatus(name: string)

  /** A group as a RAG set's access list shows it. */
  datatype GroupRef = GroupRef(id: string, name: string)

  /** A RAG set's `metadata`: `{}` or the chunking pipeline the sets API records. */
  datatype Metadata =
    | NoMetadata
    | Pipeline(embeddingModel: string, chunkMethod: string, chunkSize: nat, overlap: nat,
               removeExtraSpaces: bool, normalizeText: bool, extractMetadata: bool)

  datatype RagSet = RagSet(
    id: string,
    name: string,
    description: Option<string>,
    vectorDbLocation: string,
    status: RagStatus,
    metadata: Metadata,
    files: seq<RagFile>,
    access: seq<GroupRef>,
    createdAt: nat)

  datatype ChatSession = ChatSession(id: string, userId: string, agentId: string, ragSetId: Option<string>, model: string)

  datatype MessageRole = UserMessage | AssistantMessage

  /** A retrieved document as the chat API reports it (the relevance score is left out). */
  datatype DocRef = DocRef(filename: string, snippet: string)

  datatype ChatMessage = ChatMessage(
    id: string,
    sessionId: string,
    role: MessageRole,
    content: string,
    ragSetId: Option<string>,
    agentId: string,
    referencedDocs: seq<DocRef>)

  datatype RagReference = RagReference(messageId: string, ragSetId: string, documentId: string, documentName: string, snippet: string)

  function AccountId(a: Account): string { a.id }
  function AccountEmail(a: Account): string { a.email }
  function GroupId(g: Group): string { g.id }
  function GroupName(g: Group): string { g.name }
  function RoleName(r: Role): string { r.name }
  function AgentKey(a: Agent): string { a.id }
  function RagSetKey(r: RagSet): string { r.id }
  function RagSetName(r: RagSet): string { r.name }
  function SessionKey(s: ChatSession): string { s.id }

  /** The position of the first row whose key is `k`, or None when no row has it. */
  function FindByKey<T>(rows: seq<T>, key: T -> string, k: string): (r: Option<nat>)
    ensures r.Some? ==> r.value < |rows| && key(rows[r.value]) == k
    ensures r.Some? ==> forall j :: 0 <= j < r.value ==> key(rows[j]) != k
    ensures r.None? <==> forall j :: 0 <= j < |rows| ==> key(rows[j]) != k
  {
    if rows == [] then None
    else if key(rows[0]) == k then Some(0)
    else
      match FindByKey(rows[1..], key, k)
      case None => None
      case Some(i) => Some(i + 1)
  }

  /** No two rows share a key: the unique constraint of that column. */
  ghost predicate DistinctKeys<T>(rows: seq<T>, key: T -> string) {
    forall i, j :: 0 <= i < j < |rows| ==> key(rows[i]) != key(rows[j])
  }

  /** The names of the user's roles or groups, in assignment order. */
  function Names<T>(xs: seq<T>, name: T -> string): (names: seq<string>)
    ensures |names| == |xs|
    ensures forall i :: 0 <= i < |xs| ==> names[i] == name(xs[i])
  {
    if xs == [] then [] else [name(xs[0])] + Names(xs[1..], name)
  }

  /** The application's database: one table per model. */
  class Db {
    var users: seq<Account>
    var groups: seq<Group>
    var roles: seq<Role>
    var agents: seq<Agent>
    var ragSets: seq<RagSet>
    var sessions: seq<ChatSession>
    var messages: seq<ChatMessage>
    var references: seq<RagReference>

    /** User ids and user emails are unique. */
    ghost predicate Valid()
      reads this
    {
      DistinctKeys(users, AccountId) && DistinctKeys(users, AccountEmail)
    }

    constructor ()
      ensures Valid()
      ensures users == [] && groups == [] && roles == [] && agents == []
      ensures ragSets == [] && sessions == [] && messages == [] && references == []
    {
      users, groups, roles, agents := [], [], [], [];
      ragSets, sessions, messages, references := [], [], [], [];
    }
  }
}
