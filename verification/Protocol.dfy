/** The server as a state machine. One action is one lock region of `handle_message`, or one
    stage of a connection; the actions of other clients may fall between those of one request. */
module Protocol {
  import opened Types
  import opened GameRules

  datatype Action =
    | Connect(c: Uuid, channel: Channel)
    | Malformed(c: Uuid, isModel: bool)
    | JoinRead(c: Uuid, join: Option<GameId>)
    | JoinClaim(c: Uuid)
    | JoinRegister(c: Uuid, order: seq<Uuid>)
    | JoinInstall(c: Uuid)
    | Leave(c: Uuid)
    | Start(c: Uuid, count: Option<nat>, picks: seq<nat>)
    | Task(c: Uuid, index: Option<nat>)
    | CompileRead(c: Uuid, request: Option<(string, nat)>)
    | CompilePrepare(c: Uuid)
    | CompileValidate(c: Uuid, run: Option<SandboxResponse>, privateRun: Option<SandboxResponse>)
    | CompileReply(c: Uuid)
    | Ping(c: Uuid)
    | Identify(c: Uuid, nickname: Option<string>)
    | Create(c: Uuid, parsed: bool, gameId: GameId)
    | ExistsRead(c: Uuid, query: Option<GameId>)
    | ExistsAnswer(c: Uuid)
    | Close(c: Uuid)
    | Remove(c: Uuid)

  // ---- small updates -----------------------------------------------------------------------

  function SetPc(s: State, c: Uuid, pc: Pc): State
    requires c in s.clients
  {
    s.(clients := s.clients[c := s.clients[c].(pc := pc)])
  }

  function SetGame(s: State, c: Uuid, g: Option<Game>): State
    requires c in s.clients
  {
    s.(clients := s.clients[c := s.clients[c].(game := g)])
  }

  function Reply(s: State, c: Uuid, m: Message): State
    requires c in s.clients
  {
    s.(outboxes := Post(s.outboxes, s.clients[c].channel, m))
  }

  /** The handler returned an error or panicked: the read loop stops. */
  function Fail(s: State, c: Uuid): State
    requires c in s.clients
  {
    s.(clients := s.clients[c := s.clients[c].(pc := Idle, closing := true)])
  }

  function FailWith(s: State, c: Uuid, error: ClientError): State
    requires c in s.clients
  {
    Fail(Reply(s, c, ErrorMessage(error)), c)
  }

  function Me(s: State, c: Uuid, nickname: string): PartialClient
    requires c in s.clients
  {
    NewPartial(c, nickname, s.clients[c].channel)
  }

  /** The game object of `c` when there is one. */
  function GameOf(s: State, c: Uuid): Option<Game> {
    if c in s.clients then s.clients[c].game else None
  }

  // ---- Drop for Game -----------------------------------------------------------------------

  /** `c` hosted `g`: everyone is told, and the key goes. */
  function DropHosted(s: State, c: Uuid, g: Game): State
    requires c in s.clients
  {
    SetGame(s, c, None).(outboxes := ShutdownOut(g, s.outboxes), directory := s.directory - {g.gameId})
  }

  /** `c` was a guest: whatever game the host has now is asked to unregister it. */
  function DropJoined(s: State, c: Uuid, g: Game): State
    requires c in s.clients
  {
    var s1 := SetGame(s, c, None);
    if !g.host.isLocal then s1
    else
      var s2 :=
        match GameOf(s1, g.host.id)
        case None => s1
        case Some(hosted) =>
          SetGame(s1, g.host.id, Some(UnregisterGame(hosted, g.me.id)))
          .(outboxes := UnregisterOut(hosted, s1.outboxes, g.me.id));
      s2.(outboxes := Deliver(s2.outboxes, g.me, LeaveResponse(true)))
  }

  function DropGame(s: State, c: Uuid): (r: State)
    requires c in s.clients
  {
    match s.clients[c].game
    case None => s
    case Some(g) => if g.isHost then DropHosted(s, c, g) else DropJoined(s, c, g)
  }

  // ---- join --------------------------------------------------------------------------------

  function DoJoinRead(s: State, c: Uuid, join: Option<GameId>): State
    requires c in s.clients
  {
    if join.None? then Fail(s, c)
    else if s.clients[c].game.Some? then FailWith(s, c, AlreadyInGame(ClientAlreadyInGame))
    else if s.clients[c].nickname.None? then FailWith(s, c, ClientNotIdentified)
    else if join.value !in s.directory then FailWith(s, c, NoGameWasFound)
    else
      match s.directory[join.value]
      case Unclaimed => SetPc(s, c, SawEmpty(join.value))
      case Live(h) => SetPc(s, c, SawLive(join.value, h, s.clients[c].nickname.value))
  }

  function DoJoinClaim(s: State, c: Uuid): State
    requires c in s.clients && s.clients[c].pc.SawEmpty?
  {
    var g := s.clients[c].pc.gameId;
    SetPc(s, c, Claimed(g)).(directory := s.directory[g := Live(c)], claims := s.claims + {(c, g)})
  }

  ghost predicate OrderOk(s: State, c: Uuid, order: seq<Uuid>)
    requires c in s.clients && s.clients[c].pc.SawLive?
  {
    var hosted := GameOf(s, s.clients[c].pc.host);
    hosted.Some? ==> Walks(order, hosted.value.Roster().Keys)
  }

  function NicknameOf(s: State, c: Uuid): string {
    if c in s.clients && s.clients[c].nickname.Some? then s.clients[c].nickname.value else ""
  }

  function DoJoinRegister(s: State, c: Uuid, order: seq<Uuid>): State
    requires c in s.clients && s.clients[c].pc.SawLive? && OrderOk(s, c, order)
  {
    var pc := s.clients[c].pc;
    match GameOf(s, pc.host)
    case None => Fail(s, c).(directory := s.directory - {pc.gameId})
    case Some(hosted) =>
      var p := Me(s, c, pc.nickname);
      var s1 := SetGame(s, pc.host, Some(RegisterGame(hosted, p)))
                .(outboxes := RegisterOut(hosted, s.outboxes, p, order));
      SetPc(s1, c, Registered(pc.gameId, pc.host, NicknameOf(s, pc.host), s.clients[pc.host].channel,
                              Admits(hosted), pc.nickname))
  }

  function HostedBy(s: State, c: Uuid, g: GameId): Game
    requires c in s.clients
  {
    NewGame(true, g, Me(s, c, NicknameOf(s, c)), Me(s, c, NicknameOf(s, c)))
  }

  function JoinedBy(s: State, c: Uuid, pc: Pc): Game
    requires c in s.clients && pc.Registered?
  {
    NewGame(false, pc.gameId, Me(s, c, pc.nickname), NewPartial(pc.host, pc.hostNickname, pc.hostChannel))
  }

  function DoJoinInstall(s: State, c: Uuid): State
    requires c in s.clients && (s.clients[c].pc.Claimed? || s.clients[c].pc.Registered?)
  {
    match s.clients[c].pc
    case Claimed(g) =>
      SetPc(Reply(SetGame(s, c, Some(HostedBy(s, c, g))), c, JoinResponse(g, true, true)), c, Idle)
    case Registered(g, h, hn, hc, accepted, nick) =>
      var s1 := if accepted then SetGame(s, c, Some(JoinedBy(s, c, s.clients[c].pc))) else s;
      SetPc(Reply(s1, c, JoinResponse(g, false, accepted)), c, Idle)
  }

  // ---- leave, start, task ------------------------------------------------------------------

  function DoLeave(s: State, c: Uuid): State
    requires c in s.clients
  {
    if s.clients[c].game.None? then FailWith(s, c, NotInGame(ClientNotInGame))
    else DropGame(s, c)
  }

  function DoStart(s: State, c: Uuid, count: Option<nat>, picks: seq<nat>): State
    requires c in s.clients
    requires count.Some? ==> ValidPicks(s.pool, count.value, picks)
  {
    match s.clients[c].game
    case None => FailWith(s, c, NotInGame(ClientNotInGame))
    case Some(g) =>
      if !g.isHost then FailWith(DropGame(s, c), c, NotGameHost(ClientNotHost))
      else if count.None? then Fail(s, c)
      else
        var tasks := Chosen(s.pool, picks);
        var s1 := SetGame(s, c, Some(StartGame(g, tasks, count.value)))
                  .(outboxes := StartOut(g, s.outboxes, tasks, count.value));
        if StartSucceeds(g, tasks, count.value) then s1 else Fail(s1, c)
  }

  function TaskAt(s: State, h: Uuid, index: nat): Option<TaskView> {
    match GameOf(s, h)
    case None => None
    case Some(g) => if HasTask(g, index) then Some(g.tasks[index].Shown()) else None
  }

  /** Why the game of `h` has no such task. */
  function TaskProblem(s: State, h: Uuid): ClientError {
    if h !in s.clients then InternalServerError(HostMissing)
    else
      match s.clients[h].game
      case None => InternalServerError(HostNotInSameGame)
      case Some(g) => if !g.isStarted then GameNotStarted else OutOfRangeTask
  }

  function DoTask(s: State, c: Uuid, index: Option<nat>): State
    requires c in s.clients
  {
    match s.clients[c].game
    case None => FailWith(s, c, NotInGame(ClientNotInGame))
    case Some(mine) =>
      if index.None? then Fail(s, c)
      else
        match TaskAt(s, mine.host.id, index.value)
        case None => FailWith(s, c, TaskProblem(s, mine.host.id))
        case Some(task) => Reply(s, c, TaskResponse(task))
  }

  // ---- compile -----------------------------------------------------------------------------

  function DoCompileRead(s: State, c: Uuid, request: Option<(string, nat)>): State
    requires c in s.clients
  {
    match s.clients[c].game
    case None => FailWith(s, c, NotInGame(ClientNotInGame))
    case Some(mine) =>
      if request.None? then Fail(s, c)
      else SetPc(s, c, CompileSaw(mine.host.id, request.value.0, request.value.1))
  }

  /** Why the game of the host cannot be used, if it cannot. */
  function HostProblem(s: State, h: Uuid): Option<ClientError> {
    if h !in s.clients then Some(InternalServerError(HostMissing))
    else if s.clients[h].game.None? then Some(InternalServerError(HostNotInGame))
    else if !s.clients[h].game.value.isStarted then Some(GameNotStarted)
    else None
  }

  /** Where a test goes once its host has been looked up: to the sandbox, or to its error. */
  function Planned(s: State, saw: Pc): Pc
    requires saw.CompileSaw?
  {
    var problem := HostProblem(s, saw.host);
    if problem.Some? then Replying(ErrorMessage(problem.value), true)
    else
      var g := s.clients[saw.host].game.value;
      if !g.isHost || !HasTask(g, saw.taskIndex) then
        Replying(ErrorMessage(CompilationError(HostNotHost)), true)
      else
        Running(saw.host, saw.code, saw.taskIndex, Stdins(g.tasks[saw.taskIndex].publicCases), g.gameId)
  }

  function DoCompilePrepare(s: State, c: Uuid): State
    requires c in s.clients && s.clients[c].pc.CompileSaw?
  {
    SetPc(s, c, Planned(s, s.clients[c].pc))
  }

  /** The game of `h` has graded the runs of `c`. */
  function Validated(s: State, h: Uuid, c: Uuid, index: nat, run: SandboxResponse,
                     privateRun: Option<SandboxResponse>): State
    requires h in s.clients && s.clients[h].game.Some?
  {
    var g := s.clients[h].game.value;
    SetGame(s, h, Some(ValidateGame(g, c, index, run, privateRun)))
    .(outboxes := ValidateOut(g, s.outboxes, c, index, run, privateRun))
  }

  function DoCompileValidate(s: State, c: Uuid, run: Option<SandboxResponse>,
                             privateRun: Option<SandboxResponse>): State
    requires c in s.clients && s.clients[c].pc.Running?
  {
    var pc := s.clients[c].pc;
    if run.None? then Fail(s, c)
    else
      var problem := HostProblem(s, pc.host);
      if problem.Some? then SetPc(s, c, Replying(ErrorMessage(problem.value), true))
      else
        var g := s.clients[pc.host].game.value;
        var s1 := Validated(s, pc.host, c, pc.taskIndex, run.value, privateRun);
        match ValidateOutcome(g, c, pc.taskIndex, run.value, privateRun)
        case Answer(r) => SetPc(s1, c, Replying(CompileResponse(r), false))
        case Failed => SetPc(s1, c, Replying(ErrorMessage(CompilationError(CompilationFailed)), true))
        case Panicked => Fail(s1, c)
  }

  function DoCompileReply(s: State, c: Uuid): State
    requires c in s.clients && s.clients[c].pc.Replying?
  {
    var pc := s.clients[c].pc;
    var s1 := Reply(s, c, pc.reply);
    if pc.fails then Fail(s1, c) else SetPc(s1, c, Idle)
  }

  // ---- identify, create, exists ------------------------------------------------------------

  function DoIdentify(s: State, c: Uuid, nickname: Option<string>): State
    requires c in s.clients
  {
    if s.clients[c].nickname.Some? then Reply(s, c, IdentifyResponse(false))
    else if nickname.None? then Fail(s, c)
    else
      Reply(s.(clients := s.clients[c := s.clients[c].(nickname := nickname)]), c, IdentifyResponse(true))
  }

  function DoCreate(s: State, c: Uuid, parsed: bool, g: GameId): State
    requires c in s.clients
  {
    if !parsed then Fail(s, c)
    else Reply(s.(directory := s.directory[g := Unclaimed], games := s.games + {g}), c, CreateResponse(g))
  }

  function DoExistsRead(s: State, c: Uuid, query: Option<GameId>): State
    requires c in s.clients
  {
    if query.None? then Fail(s, c)
    else
      SetPc(s, c, ExistsSaw(query.value,
                            if query.value in s.directory then Some(s.directory[query.value]) else None))
  }

  function DoExistsAnswer(s: State, c: Uuid): State
    requires c in s.clients && s.clients[c].pc.ExistsSaw?
  {
    var pc := s.clients[c].pc;
    var gone := pc.found.Some? && pc.found.value.Live? && pc.found.value.host !in s.clients;
    var s1 := if gone then s.(directory := s.directory - {pc.gameId}) else s;
    SetPc(Reply(s1, c, ExistsResponse(pc.found.Some? && !gone)), c, Idle)
  }

  // ---- connection --------------------------------------------------------------------------

  function DoConnect(s: State, c: Uuid, channel: Channel): State {
    s.(clients := s.clients[c := Client(None, channel, None, false, Idle)],
       outboxes := s.outboxes[channel := []],
       ids := s.ids + {c})
  }

  function DoClose(s: State, c: Uuid): State
    requires c in s.clients
  {
    SetPc(DropGame(s, c), c, Closed)
  }

  function DoRemove(s: State, c: Uuid): State {
    s.(clients := s.clients - {c})
  }

  // ---- the machine -------------------------------------------------------------------------

  /** The read loop of `c` waits for the next message. */
  predicate Ready(s: State, c: Uuid) {
    c in s.clients && s.clients[c].pc.Idle? && !s.clients[c].closing
  }

  ghost predicate Enabled(s: State, a: Action) {
    match a
    case Connect(c, channel) => c !in s.ids && channel !in s.outboxes
    case JoinClaim(c) => c in s.clients && s.clients[c].pc.SawEmpty?
    case JoinRegister(c, order) => c in s.clients && s.clients[c].pc.SawLive? && OrderOk(s, c, order)
    case JoinInstall(c) => c in s.clients && (s.clients[c].pc.Claimed? || s.clients[c].pc.Registered?)
    case Start(c, count, picks) => Ready(s, c) && (count.Some? ==> ValidPicks(s.pool, count.value, picks))
    case CompilePrepare(c) => c in s.clients && s.clients[c].pc.CompileSaw?
    case CompileValidate(c, _, _) => c in s.clients && s.clients[c].pc.Running?
    case CompileReply(c) => c in s.clients && s.clients[c].pc.Replying?
    case Create(c, parsed, g) => Ready(s, c) && g !in s.games
    case ExistsAnswer(c) => c in s.clients && s.clients[c].pc.ExistsSaw?
    case Close(c) => c in s.clients && s.clients[c].pc.Idle?
    case Remove(c) => c in s.clients && s.clients[c].pc.Closed?
    case _ => Ready(s, a.c)
  }

  function Step(s: State, a: Action): State
    requires Enabled(s, a)
  {
    match a
    case Connect(c, channel) => DoConnect(s, c, channel)
    case Malformed(c, isModel) =>
      if isModel then Fail(s, c) else FailWith(s, c, InvalidMessage(InvalidModel))
    case JoinRead(c, join) => DoJoinRead(s, c, join)
    case JoinClaim(c) => DoJoinClaim(s, c)
    case JoinRegister(c, order) => DoJoinRegister(s, c, order)
    case JoinInstall(c) => DoJoinInstall(s, c)
    case Leave(c) => DoLeave(s, c)
    case Start(c, count, picks) => DoStart(s, c, count, picks)
    case Task(c, index) => DoTask(s, c, index)
    case CompileRead(c, request) => DoCompileRead(s, c, request)
    case CompilePrepare(c) => DoCompilePrepare(s, c)
    case CompileValidate(c, run, privateRun) => DoCompileValidate(s, c, run, privateRun)
    case CompileReply(c) => DoCompileReply(s, c)
    case Ping(c) => Reply(s, c, PingResponse)
    case Identify(c, nickname) => DoIdentify(s, c, nickname)
    case Create(c, parsed, g) => DoCreate(s, c, parsed, g)
    case ExistsRead(c, query) => DoExistsRead(s, c, query)
    case ExistsAnswer(c) => DoExistsAnswer(s, c)
    case Close(c) => DoClose(s, c)
    case Remove(c) => DoRemove(s, c)
  }

  function Initial(pool: seq<GameTask>): State {
    State(map[], map[], map[], pool, {}, {}, {})
  }
}
