/** The request, response and record types of backend/app/models (chat.py, journal.py,
    errors.py), with the field constraints pydantic enforces on them. */
module Models {
  import opened Wrappers
  import opened Strings

  // ---------------------------------------------------------------------------
  // Errors (models/errors.py)
  // ---------------------------------------------------------------------------

  /** The four HTTP error classes the backend raises. */
  datatype Error =
    | LLMError(detail: string)
    | StorageError(detail: string)
    | JournalNotFound(journalId: string)
    | ValidationError(detail: string)

  function StatusCode(e: Error): nat {
    match e
    case LLMError(_) => 503
    case StorageError(_) => 500
    case JournalNotFound(_) => 404
    case ValidationError(_) => 422
  }

  /** Each error class maps to its own status code, so a client can tell a missing
      journal or a rejected request from a failing collaborator. */
  lemma StatusCodesDistinguishKinds(a: Error, b: Error)
    ensures StatusCode(a) == StatusCode(b) <==>
              (a.LLMError? == b.LLMError? && a.StorageError? == b.StorageError? && a.JournalNotFound? == b.JournalNotFound?)
    ensures StatusCode(a) in {404, 422, 500, 503}
  {
  }

  // ---------------------------------------------------------------------------
  // Metadata values
  // ---------------------------------------------------------------------------

  /** The JSON-like values stored in metadata dictionaries. */
  datatype Value = Str(s: string) | Int(n: int) | StrList(items: seq<string>)

  type Metadata = map<string, Value>

  /** Python truthiness of a metadata value. */
  predicate Truthy(v: Value) {
    match v
    case Str(s) => s != ""
    case Int(n) => n != 0
    case StrList(l) => l != []
  }

  function QuoteAll(items: seq<string>): seq<string> {
    if |items| == 0 then [] else ["'" + items[0] + "'"] + QuoteAll(items[1..])
  }

  /** What an f-string prints for a value (`str()`; lists as their `repr`). */
  function ValueText(v: Value): string {
    match v
    case Str(s) => s
    case Int(n) => IntToString(n)
    case StrList(l) => "[" + Join(QuoteAll(l), ", ") + "]"
  }

  // ---------------------------------------------------------------------------
  // Messages (models/chat.py)
  // ---------------------------------------------------------------------------

  datatype Role = User | Assistant | System

  function RoleName(r: Role): string {
    match r
    case User => "user"
    case Assistant => "assistant"
    case System => "system"
  }

  /** The `Literal["user", "assistant", "system"]` check on `Message.role`. */
  function ParseRole(s: string): (r: Option<Role>)
    ensures r.Some? <==> s in {"user", "assistant", "system"}
    ensures r.Some? ==> RoleName(r.value) == s
  {
    if s == "user" then Some(User)
    else if s == "assistant" then Some(Assistant)
    else if s == "system" then Some(System)
    else None
  }

  lemma RoleNameRoundTrip(r: Role)
    ensures ParseRole(RoleName(r)) == Some(r)
  {
  }

  /** The speaker label used in transcripts and journals: "User" for a user turn, and
      "Assistant" for every other role, system included. */
  function SpeakerLabel(r: Role): string {
    if r == User then "User" else "Assistant"
  }

  /** A conversation turn; `timestamp` is in whole seconds. */
  datatype Message = Message(id: string, role: Role, content: string, timestamp: int, metadata: Option<Metadata>)

  /** A chunk returned by similarity search. */
  datatype RetrievedContext = RetrievedContext(content: string, metadata: Metadata, similarityScore: real)

  // ---------------------------------------------------------------------------
  // Requests and responses
  // ---------------------------------------------------------------------------

  const MaxMessageLength: nat := 10000

  /** `conversation_history` is not declared on the pydantic class, but the chat router
      reads it; it is modelled as a field defaulting to the empty history. */
  datatype ChatRequest = ChatRequest(message: string, sessionId: string, useRag: bool, stream: bool,
                                     conversationHistory: seq<Message>)

  /** Builds a request the way pydantic validates one: the message must have between
      1 and 10000 characters; `use_rag` defaults to true and `stream` to false. */
  function MakeChatRequest(message: string, sessionId: string, useRag: Option<bool>, stream: Option<bool>,
                           history: Option<seq<Message>>): (r: Result<ChatRequest, Error>)
    ensures r.Success? <==> 1 <= |message| <= MaxMessageLength
    ensures r.Failure? ==> r.error.ValidationError?
    ensures r.Success? ==> r.value.message == message && r.value.sessionId == sessionId
    ensures r.Success? ==> r.value.useRag == useRag.GetOr(true) && r.value.stream == stream.GetOr(false)
    ensures r.Success? ==> r.value.conversationHistory == history.GetOr([])
  {
    if |message| < 1 then Failure(ValidationError("message: at least 1 character"))
    else if |message| > MaxMessageLength then Failure(ValidationError("message: at most 10000 characters"))
    else Success(ChatRequest(message, sessionId, useRag.GetOr(true), stream.GetOr(false), history.GetOr([])))
  }

  /** `auto_saved` is not declared on the pydantic class, but the chat service sets it
      and the router reads it; it is modelled as a field. */
  datatype ChatResponse = ChatResponse(message: Message, retrievedContext: seq<RetrievedContext>,
                                       metadata: Metadata, autoSaved: bool)

  /** A response built from a message alone: no retrieved context and empty metadata. */
  function DefaultChatResponse(message: Message): (r: ChatResponse)
    ensures r.message == message && r.retrievedContext == [] && r.metadata == map[]
  {
    ChatResponse(message, [], map[], false)
  }

  /** One server-sent event of the streaming endpoint. */
  datatype StreamEvent =
    | ContextEvent(contexts: seq<RetrievedContext>)
    | TokenEvent(content: string)
    | DoneEvent(autoSaved: bool, contextChunksRetrieved: nat)
    | ErrorEvent(message: string)

  /** The `type` field of an event. */
  function EventType(e: StreamEvent): (t: string)
    ensures t in {"token", "context", "done", "error"}
  {
    match e
    case ContextEvent(_) => "context"
    case TokenEvent(_) => "token"
    case DoneEvent(_, _) => "done"
    case ErrorEvent(_) => "error"
  }

  // ---------------------------------------------------------------------------
  // Journals (models/journal.py)
  // ---------------------------------------------------------------------------

  datatype Mode = Chat | Write

  function ModeName(m: Mode): string {
    match m
    case Chat => "chat"
    case Write => "write"
  }

  /** `mode` is not a field of the pydantic `JournalMetadata`, which drops the `mode=`
      keyword the database store passes; it is kept here as the database row's mode, and
      the markdown store leaves it `None`. */
  datatype JournalMetadata = JournalMetadata(id: string, filename: string, title: string, date: int,
                                             messageCount: int, durationSeconds: Option<int>, mode: Option<Mode>)

  datatype Journal = Journal(meta: JournalMetadata, messages: seq<Message>, rawContent: string)

  // ---------------------------------------------------------------------------
  // Date and time formatting
  // ---------------------------------------------------------------------------

  /** The `datetime` formatting and parsing the backend uses, as opaque functions of a
      timestamp in seconds:
      `stamp`: "%Y-%m-%d %H:%M:%S UTC", `longDate`: "%B %d, %Y at %I:%M %p",
      `clock`: "%H:%M:%S", `fileStamp`: "%Y-%m-%d_%H-%M-%S", `iso`: `isoformat()`,
      `fromIso`: `fromisoformat`, `None` where it raises. */
  datatype Calendar = Calendar(stamp: int -> string, longDate: int -> string, clock: int -> string,
                               fileStamp: int -> string, iso: int -> string, fromIso: string -> Option<int>)
}
