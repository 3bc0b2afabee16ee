/** The data that the competition server keeps: sockets, games, tasks, the
    directory entries and the messages that reach a client. */
module Types {

  type Uuid = nat
  type GameId = string
  type Channel = nat

  datatype Option<+T> = None | Some(value: T)

  // ---- tasks and grading -------------------------------------------------------------------

  datatype TestCase = TestCase(stdin: string, expected: string, id: nat)

  datatype GameTask = GameTask(taskId: string, question: string,
                               publicCases: seq<TestCase>, privateCases: seq<TestCase>)
  {
    /** What a client is shown of a task: the private cases are never serialised. */
    function Shown(): TaskView {
      TaskView(taskId, question, publicCases)
    }
  }

  datatype TaskView = TaskView(taskId: string, question: string, publicCases: seq<TestCase>)

  /** The answer of the sandbox to one compilation; arbitrary as far as the server knows. */
  datatype SandboxResponse = SandboxResponse(success: bool, stdout: seq<string>, stderr: seq<string>)

  datatype Progress = Progress(testIndex: nat, succeeded: bool, stdout: string, expected: string)

  datatype CompilationResponse = CompilationResponse(
    taskIndex: nat, publicTests: seq<Progress>,
    isDone: bool, publicDone: bool, privateDone: bool, stderr: string)

  // ---- messages ----------------------------------------------------------------------------

  /** The texts that go with some errors, one constructor for each. */
  datatype Reason =
    | ClientAlreadyInGame | ClientNotInGame | ClientNotHost
    | HostMissing | HostNotInSameGame | HostNotInGame | HostNotHost
    | CompilationFailed | InvalidModel

  datatype ClientError =
    | InvalidMessage(reason: Reason)
    | AlreadyInGame(reason: Reason)
    | NotInGame(reason: Reason)
    | InternalServerError(reason: Reason)
    | NotGameHost(reason: Reason)
    | CompilationError(reason: Reason)
    | OutOfRangeTask
    | NoGameWasFound
    | GameNotStarted
    | ClientNotIdentified

  datatype Message =
    // game events
    | ConnectedClient(gameId: GameId, clientId: Uuid, nickname: string)
    | DisconnectedClient(gameId: GameId, clientId: Uuid)
    | StartEvent(taskCount: nat)
    | TaskFinished(task: TaskView, taskIndex: nat, solver: Uuid)
    | ShutdownEvent
    // responses
    | JoinResponse(gameId: GameId, isHost: bool, success: bool)
    | LeaveResponse(success: bool)
    | ShutdownResponse(success: bool)
    | TaskResponse(task: TaskView)
    | CompileResponse(response: CompilationResponse)
    | PingResponse
    | IdentifyResponse(success: bool)
    | CreateResponse(gameId: GameId)
    | ExistsResponse(found: bool)
    // errors
    | ErrorMessage(error: ClientError)

  /** Everything sent so far on each write channel, oldest message first. */
  type Outboxes = map<Channel, seq<Message>>

  // ---- games -------------------------------------------------------------------------------

  /** The copy of a participant that a game keeps. */
  datatype PartialClient = PartialClient(
    id: Uuid, nickname: string, isLocal: bool,
    writeChannel: Option<Channel>, progress: Option<map<nat, bool>>)

  /** Every participant owns one; only the host's has `connected`. */
  datatype Game = Game(
    isHost: bool, gameId: GameId, me: PartialClient, host: PartialClient,
    connected: Option<map<Uuid, PartialClient>>,
    isStarted: bool, public: bool, tasks: seq<GameTask>)
  {
    function Roster(): map<Uuid, PartialClient> {
      if connected.Some? then connected.value else map[]
    }
  }

  // ---- the server --------------------------------------------------------------------------

  /** A `GAME:<id>` key: created but not claimed, or naming its host. */
  datatype Entry = Unclaimed | Live(host: Uuid)

  /** Where the request of a client is between two lock regions, with its local variables. */
  datatype Pc =
    | Idle
    | SawEmpty(gameId: GameId)
    | SawLive(gameId: GameId, host: Uuid, nickname: string)
    | Claimed(gameId: GameId)
    | Registered(gameId: GameId, host: Uuid, hostNickname: string, hostChannel: Channel,
                 accepted: bool, nickname: string)
    | CompileSaw(host: Uuid, code: string, taskIndex: nat)
    // `prepared` is the game whose public cases gave `stdin`: no such local exists in the
    // source, it is recorded to state what the grading is later compared with
    | Running(host: Uuid, code: string, taskIndex: nat, stdin: seq<string>, prepared: GameId)
    | Replying(reply: Message, fails: bool)
    | ExistsSaw(gameId: GameId, found: Option<Entry>)
    | Closed

  datatype Client = Client(nickname: Option<string>, channel: Channel, game: Option<Game>,
                           closing: bool, pc: Pc)

  /** `ids`, `games` and `claims` are history: every client that ever connected, every game id
      ever created, and who ever claimed which game. */
  datatype State = State(
    clients: map<Uuid, Client>, directory: map<GameId, Entry>, outboxes: Outboxes,
    pool: seq<GameTask>,
    ids: set<Uuid>, games: set<GameId>, claims: set<(Uuid, GameId)>)
}
