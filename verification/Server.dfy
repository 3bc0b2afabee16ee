/** The server: sockets, keys and channels, and the handlers that update them in place.
    `Abs` reads the state off the objects; each handler stage is proved to be the step of the
    state machine that carries its name. */
module Server {
  import opened Types
  import opened GameRules
  import opened Protocol
  import opened Objects
  import Invariant
  import Preservation
  import Views

  /** What the unwraps of a game rely on: a host has a roster, local clients have channels, and the
      participants of a game do not share one. */
  ghost predicate SoundGame(c: Uuid, g: Types.Game) {
    && Reachable(g.me) && Reachable(g.host)
    && (if g.isHost then g.connected.Some? && Separate(g) else g.host.id != c)
  }

  ghost predicate Sound(s: State) {
    forall c :: c in s.clients && s.clients[c].game.Some? ==> SoundGame(c, s.clients[c].game.value)
  }

  lemma HostedGameIsSound(s: State, h: Uuid)
    requires Invariant.Inv(s) && Invariant.IsHost(s, h)
    ensures SoundGame(h, s.clients[h].game.value)
  {
    var g := s.clients[h].game.value;
    assert Invariant.GameOk(h, s.clients[h], g);
    Views.AudienceIsExact(s, h, {}, h);
    forall c | c in g.Roster()
      ensures c in s.clients && c != h
      ensures Reachable(g.Roster()[c]) && g.Roster()[c].writeChannel.value == s.clients[c].channel
    {
      assert c in Invariant.RosterOf(s.clients[h]);
    }
  }

  /** Every unwrap is safe in every reachable state. */
  lemma ReachableIsSound(s: State)
    requires Invariant.Inv(s)
    ensures Sound(s)
  {
    forall c | c in s.clients && s.clients[c].game.Some? ensures SoundGame(c, s.clients[c].game.value) {
      if s.clients[c].game.value.isHost {
        HostedGameIsSound(s, c);
      } else {
        Preservation.JoinedGame(s, c);
        assert Invariant.GameOk(c, s.clients[c], s.clients[c].game.value);
      }
    }
  }

  class SocketClient {
    const id: Uuid
    const channel: Channel
    var nickname: Option<string>
    var game: Objects.Game?
    var closing: bool
    var pc: Pc

    constructor (id: Uuid, channel: Channel)
      ensures this.id == id && Value() == Client(None, channel, None, false, Idle)
      ensures game == null
    {
      this.id := id;
      this.channel := channel;
      nickname := None;
      game := null;
      closing := false;
      pc := Idle;
    }

    ghost function Value(): Client
      reads this, game
    {
      Client(nickname, channel, if game == null then None else Some(game.Value()), closing, pc)
    }
  }

  class Service {
    var sockets: map<Uuid, SocketClient>
    const redis: Redis
    const net: Network
    const pool: seq<GameTask>
    ghost var ids: set<Uuid>
    ghost var games: set<GameId>
    ghost var claims: set<(Uuid, GameId)>

    ghost function Objects(): set<object>
      reads this, sockets.Values
    {
      {this, redis, net} + (set c | c in sockets :: sockets[c])
      + (set c | c in sockets && sockets[c].game != null :: sockets[c].game)
    }

    ghost function Abs(): State
      reads Objects()
    {
      State(map c | c in sockets :: sockets[c].Value(), redis.keys, net.out, pool, ids, games, claims)
    }

    /** Sockets and games are distinct objects and share the keys and channels. */
    ghost predicate Shape()
      reads this, sockets.Values
    {
      && (forall c :: c in sockets ==> sockets[c].id == c)
      && (forall c, d :: c in sockets && d in sockets && c != d ==> sockets[c] != sockets[d])
      && (forall c, d :: c in sockets && d in sockets && c != d && sockets[c].game != null ==>
            sockets[c].game != sockets[d].game)
      && (forall c :: c in sockets && sockets[c].game != null ==>
            sockets[c].game.net == net && sockets[c].game.redis == redis)
    }

    ghost predicate Valid()
      reads Objects()
    {
      Shape() && Invariant.Inv(Abs())
    }

    constructor (pool: seq<GameTask>)
      ensures Valid() && Abs() == Initial(pool)
    {
      sockets := map[];
      redis := new Redis();
      net := new Network();
      this.pool := pool;
      ids, games, claims := {}, {}, {};
      new;
      Preservation.InitialOk(pool);
    }

    // ---- small updates ---------------------------------------------------------------------

    method Move(c: Uuid, pc: Pc)
      requires Shape() && c in sockets
      modifies sockets[c]
      ensures Shape() && Abs() == SetPc(old(Abs()), c, pc)
      ensures sockets[c].game == old(sockets[c].game)
    {
      ghost var s := Abs();
      sockets[c].pc := pc;
      assert Abs().clients == s.clients[c := s.clients[c].(pc := pc)];
    }

    method Answer(c: Uuid, m: Message)
      requires Shape() && c in sockets
      modifies net
      ensures Shape() && Abs() == Reply(old(Abs()), c, m)
    {
      ghost var s := Abs();
      net.Send(sockets[c].channel, m);
      assert Abs().clients == s.clients;
    }

    method Stop(c: Uuid)
      requires Shape() && c in sockets
      modifies sockets[c]
      ensures Shape() && Abs() == Fail(old(Abs()), c)
    {
      ghost var s := Abs();
      sockets[c].pc := Idle;
      sockets[c].closing := true;
      assert Abs().clients == s.clients[c := s.clients[c].(pc := Idle, closing := true)];
    }

    method StopWith(c: Uuid, error: ClientError)
      requires Shape() && c in sockets
      modifies net, sockets[c]
      ensures Shape() && Abs() == FailWith(old(Abs()), c, error)
    {
      Answer(c, ErrorMessage(error));
      Stop(c);
    }

    // ---- the game of one client ------------------------------------------------------------

    /** A game object of this server that no socket holds. */
    ghost predicate IsLoose(g: Objects.Game)
      reads this, sockets.Values
    {
      g.net == net && g.redis == redis && forall d :: d in sockets ==> sockets[d].game != g
    }

    lemma KnowSound(h: Uuid)
      requires Sound(Abs()) && h in sockets && sockets[h].game != null
      ensures SoundGame(h, sockets[h].game.Value())
    {
      assert SoundGame(h, Abs().clients[h].game.value);
    }

    method TakeGame(c: Uuid) returns (g: Objects.Game?)
      requires Shape() && c in sockets
      modifies sockets[c]
      ensures g == old(sockets[c].game) && sockets[c].game == null
      ensures Shape() && Abs() == SetGame(old(Abs()), c, None)
      ensures g != null ==> IsLoose(g)
    {
      ghost var s := Abs();
      g := sockets[c].game;
      sockets[c].game := null;
      assert Abs().clients == s.clients[c := s.clients[c].(game := None)];
    }

    /** What it is for the state that only the game object of `h`, keys and channels were touched. */
    twostate lemma OnlyGameChanged(h: Uuid)
      requires old(Shape()) && unchanged(this) && h in sockets && sockets[h].game != null
      requires forall c :: c in sockets ==> unchanged(sockets[c])
      requires forall c :: c in sockets && c != h && sockets[c].game != null ==> unchanged(sockets[c].game)
      ensures Shape()
      ensures Abs() == SetGame(old(Abs()), h, Some(sockets[h].game.Value()))
          .(directory := redis.keys, outboxes := net.out)
    {
      var s := old(Abs());
      assert Abs().clients == s.clients[h := s.clients[h].(game := Some(sockets[h].game.Value()))];
    }

    method UnregisterFrom(h: Uuid, c: Uuid)
      requires Shape() && h in sockets && sockets[h].game != null
      requires sockets[h].game.isHost ==> sockets[h].game.connected.Some? && Separate(sockets[h].game.Value())
      modifies sockets[h].game, net
      ensures Shape()
      ensures var s, g := old(Abs()), old(sockets[h].game.Value());
        Abs() == SetGame(s, h, Some(UnregisterGame(g, c))).(outboxes := UnregisterOut(g, s.outboxes, c))
    {
      sockets[h].game.Unregister(c);
      OnlyGameChanged(h);
    }

    method RegisterWith(h: Uuid, p: PartialClient, order: seq<Uuid>) returns (ok: bool)
      requires Shape() && h in sockets && sockets[h].game != null && Reachable(p)
      requires sockets[h].game.isHost ==> sockets[h].game.connected.Some? && Separate(sockets[h].game.Value())
      requires Walks(order, sockets[h].game.Value().Roster().Keys)
      modifies sockets[h].game, net
      ensures Shape()
      ensures var s, g := old(Abs()), old(sockets[h].game.Value());
        ok == Admits(g) &&
        Abs() == SetGame(s, h, Some(RegisterGame(g, p))).(outboxes := RegisterOut(g, s.outboxes, p, order))
    {
      ok := sockets[h].game.Register(p, order);
      OnlyGameChanged(h);
    }

    method StartWith(c: Uuid, count: nat, picks: seq<nat>) returns (ok: bool)
      requires Shape() && c in sockets && sockets[c].game != null && ValidPicks(pool, count, picks)
      requires sockets[c].game.isHost ==> sockets[c].game.connected.Some? && Separate(sockets[c].game.Value())
      modifies sockets[c].game, net
      ensures Shape()
      ensures var s, g, tasks := old(Abs()), old(sockets[c].game.Value()), Chosen(pool, picks);
        ok == StartSucceeds(g, tasks, count) &&
        Abs() == SetGame(s, c, Some(StartGame(g, tasks, count))).(outboxes := StartOut(g, s.outboxes, tasks, count))
    {
      ok := sockets[c].game.Start(pool, count, picks);
      OnlyGameChanged(c);
    }

    method ValidateWith(h: Uuid, c: Uuid, index: nat, run: SandboxResponse, privateRun: Option<SandboxResponse>)
      returns (o: Outcome)
      requires Shape() && h in sockets && sockets[h].game != null
      requires sockets[h].game.isHost ==> sockets[h].game.connected.Some? && Separate(sockets[h].game.Value())
      modifies sockets[h].game, net
      ensures Shape()
      ensures o == ValidateOutcome(old(sockets[h].game.Value()), c, index, run, privateRun)
      ensures Abs() == Validated(old(Abs()), h, c, index, run, privateRun)
    {
      o := sockets[h].game.ValidateCodeTest(c, index, run, privateRun);
      OnlyGameChanged(h);
    }

    // ---- Drop for Game ---------------------------------------------------------------------

    /** Dropping the game of a host: it is shut down, and the key deleted once more. */
    method DropHost(g: Objects.Game)
      requires Shape() && IsLoose(g) && g.isHost && g.connected.Some? && Separate(g.Value())
      modifies g, net, redis
      ensures Shape()
      ensures var s, v := old(Abs()), old(g.Value());
        Abs() == s.(outboxes := ShutdownOut(v, s.outboxes), directory := s.directory - {v.gameId})
    {
      ghost var s := Abs();
      g.Shutdown();
      redis.keys := redis.keys - {g.gameId};
      assert Abs().clients == s.clients;
    }

    /** Dropping the game of a guest: its host, if it has a game now, unregisters it. */
    method DropGuest(g: Objects.Game)
      requires Shape() && IsLoose(g) && Sound(Abs()) && Reachable(g.me)
      modifies Objects()
      ensures Shape() && sockets == old(sockets)
      ensures var s, v, h := old(Abs()), old(g.Value()), old(g.host.id);
        var s2 := match GameOf(s, h)
          case None => s
          case Some(hosted) =>
            SetGame(s, h, Some(UnregisterGame(hosted, v.me.id)))
                .(outboxes := UnregisterOut(hosted, s.outboxes, v.me.id));
        Abs() == s2.(outboxes := Deliver(s2.outboxes, v.me, LeaveResponse(true)))
    {
      if g.host.id in sockets && sockets[g.host.id].game != null {
        KnowSound(g.host.id);
        UnregisterFrom(g.host.id, g.me.id);
      }
      Farewell(g);
    }

    method EndHosted(c: Uuid)
      requires Shape() && c in sockets && sockets[c].game != null && sockets[c].game.isHost
      requires SoundGame(c, sockets[c].game.Value())
      modifies sockets[c], sockets[c].game, net, redis
      ensures Shape() && Abs() == DropHosted(old(Abs()), c, old(sockets[c].game.Value()))
    {
      var g := TakeGame(c);
      DropHost(g);
    }

    lemma StillSound(s: State, c: Uuid)
      requires Sound(s) && c in s.clients
      ensures Sound(SetGame(s, c, None))
    {
    }

    method LeaveJoined(c: Uuid)
      requires Shape() && Sound(Abs()) && c in sockets && sockets[c].game != null && !sockets[c].game.isHost
      modifies Objects()
      ensures Shape() && sockets == old(sockets) && Abs() == DropJoined(old(Abs()), c, old(sockets[c].game.Value()))
    {
      KnowSound(c);
      StillSound(Abs(), c);
      var g := TakeGame(c);
      if g.host.isLocal {
        DropGuest(g);
      }
    }

    /** The game object of `c`, if any, goes out of scope. */
    method DropGameOf(c: Uuid)
      requires Shape() && Sound(Abs()) && c in sockets
      modifies Objects()
      ensures Shape() && sockets == old(sockets) && Abs() == DropGame(old(Abs()), c)
    {
      if sockets[c].game != null {
        KnowSound(c);
        if sockets[c].game.isHost {
          EndHosted(c);
        } else {
          LeaveJoined(c);
        }
      }
    }

    method Farewell(g: Objects.Game)
      requires Shape() && (g.me.isLocal ==> g.me.writeChannel.Some?)
      modifies net
      ensures Shape() && Abs() == old(Abs()).(outboxes := Deliver(old(Abs()).outboxes, g.me, LeaveResponse(true)))
    {
      ghost var s := Abs();
      net.SendMessage(g.me, LeaveResponse(true));
      assert Abs().clients == s.clients;
    }

    // ---- join, one lock region at a time ---------------------------------------------------

    method JoinRead(c: Uuid, join: Option<GameId>)
      requires Shape() && c in sockets
      modifies net, sockets[c]
      ensures Shape() && Abs() == DoJoinRead(old(Abs()), c, join)
    {
      var me := sockets[c];
      if join.None? {
        Stop(c);
      } else if me.game != null {
        StopWith(c, AlreadyInGame(ClientAlreadyInGame));
      } else if me.nickname.None? {
        StopWith(c, ClientNotIdentified);
      } else if join.value !in redis.keys {
        StopWith(c, NoGameWasFound);
      } else {
        match redis.keys[join.value]
        case Unclaimed => Move(c, SawEmpty(join.value));
        case Live(h) => Move(c, SawLive(join.value, h, me.nickname.value));
      }
    }

    method ClaimKey(c: Uuid, g: GameId)
      requires Shape()
      modifies this`claims, redis
      ensures Shape()
      ensures var s := old(Abs()); Abs() == s.(directory := s.directory[g := Live(c)], claims := s.claims + {(c, g)})
    {
      ghost var s := Abs();
      redis.keys := redis.keys[g := Live(c)];
      claims := claims + {(c, g)};
      assert Abs().clients == s.clients;
    }

    method JoinClaim(c: Uuid)
      requires Shape() && c in sockets && sockets[c].pc.SawEmpty?
      modifies this`claims, redis, sockets[c]
      ensures Shape() && Abs() == DoJoinClaim(old(Abs()), c)
    {
      var g := sockets[c].pc.gameId;
      Move(c, Claimed(g));
      ClaimKey(c, g);
    }

    method DeleteKey(g: GameId)
      requires Shape()
      modifies redis
      ensures Shape() && Abs() == old(Abs()).(directory := old(Abs()).directory - {g})
    {
      ghost var s := Abs();
      redis.keys := redis.keys - {g};
      assert Abs().clients == s.clients;
    }

    method JoinRegister(c: Uuid, order: seq<Uuid>)
      requires Shape() && Sound(Abs()) && c in sockets && sockets[c].pc.SawLive? && OrderOk(Abs(), c, order)
      requires sockets[c].pc.host in sockets ==> sockets[sockets[c].pc.host].nickname.Some?
      modifies Objects()
      ensures Shape() && sockets == old(sockets) && Abs() == DoJoinRegister(old(Abs()), c, order)
    {
      var pc := sockets[c].pc;
      if pc.host !in sockets {
        Stop(c);
        DeleteKey(pc.gameId);
      } else {
        var host := sockets[pc.host];
        var hostNickname := host.nickname.value;
        if host.game == null {
          Stop(c);
          DeleteKey(pc.gameId);
        } else {
          KnowSound(pc.host);
          var ok := RegisterWith(pc.host, NewPartial(c, pc.nickname, sockets[c].channel), order);
          Move(c, Registered(pc.gameId, pc.host, hostNickname, host.channel, ok, pc.nickname));
        }
      }
    }

    method PutGame(c: Uuid, g: Objects.Game)
      requires Shape() && c in sockets && IsLoose(g)
      modifies sockets[c]
      ensures Shape() && Abs() == SetGame(old(Abs()), c, Some(old(g.Value())))
    {
      ghost var s := Abs();
      sockets[c].game := g;
      assert Abs().clients == s.clients[c := s.clients[c].(game := Some(g.Value()))];
    }

    method JoinInstall(c: Uuid)
      requires Shape() && c in sockets && (sockets[c].pc.Claimed? || sockets[c].pc.Registered?)
      requires sockets[c].nickname.Some?
      modifies net, sockets[c]
      ensures Shape() && Abs() == DoJoinInstall(old(Abs()), c)
    {
      var me := sockets[c];
      match me.pc
      case Claimed(g) =>
        var self := NewPartial(c, me.nickname.value, me.channel);
        var game := NewLooseGame(true, g, self, self);
        PutGame(c, game);
        Answer(c, JoinResponse(g, true, true));
        Move(c, Idle);
      case Registered(g, h, hostNickname, hostChannel, accepted, nickname) =>
        if accepted {
          var self, host := NewPartial(c, nickname, me.channel), NewPartial(h, hostNickname, hostChannel);
          var game := NewLooseGame(false, g, self, host);
          PutGame(c, game);
        }
        Answer(c, JoinResponse(g, false, accepted));
        Move(c, Idle);
    }

    method NewLooseGame(isHost: bool, gameId: GameId, me: PartialClient, host: PartialClient) returns (g: Objects.Game)
      requires Shape()
      ensures fresh(g) && IsLoose(g) && g.Value() == NewGame(isHost, gameId, me, host)
      ensures Shape() && Abs() == old(Abs())
    {
      ghost var s := Abs();
      g := new Objects.Game(isHost, gameId, me, host, net, redis);
      assert Abs().clients == s.clients;
    }

    // ---- leave, start, task ----------------------------------------------------------------

    method Leave(c: Uuid)
      requires Shape() && Sound(Abs()) && c in sockets
      modifies Objects()
      ensures Shape() && sockets == old(sockets) && Abs() == DoLeave(old(Abs()), c)
    {
      if sockets[c].game == null {
        StopWith(c, NotInGame(ClientNotInGame));
      } else {
        DropGameOf(c);
      }
    }

    method Start(c: Uuid, count: Option<nat>, picks: seq<nat>)
      requires Shape() && Sound(Abs()) && c in sockets
      requires count.Some? ==> ValidPicks(pool, count.value, picks)
      modifies Objects()
      ensures Shape() && sockets == old(sockets) && Abs() == DoStart(old(Abs()), c, count, picks)
    {
      if sockets[c].game == null {
        StopWith(c, NotInGame(ClientNotInGame));
      } else if !sockets[c].game.isHost {
        DropGameOf(c);
        StopWith(c, NotGameHost(ClientNotHost));
      } else if count.None? {
        Stop(c);
      } else {
        KnowSound(c);
        var ok := StartWith(c, count.value, picks);
        if !ok {
          Stop(c);
        }
      }
    }

    /** The answer of the host's game to a task request. */
    method FindTask(g: Objects.Game, index: nat) returns (task: Option<TaskView>, error: ClientError)
      ensures task == if g.isStarted && index < |g.tasks| then Some(g.tasks[index].Shown()) else None
      ensures error == if g.isStarted then OutOfRangeTask else GameNotStarted
    {
      var found := g.GetTaskIndexed(index);
      match found
      case Found(t) => task, error := Some(t.Shown()), OutOfRangeTask;
      case OutOfRange => task, error := None, OutOfRangeTask;
      case NotStarted => task, error := None, GameNotStarted;
    }

    method LookUp(h: Uuid, index: nat) returns (task: Option<TaskView>, error: ClientError)
      requires Shape()
      ensures task == TaskAt(Abs(), h, index)
      ensures task.None? ==> error == TaskProblem(Abs(), h)
    {
      if h !in sockets {
        task, error := None, InternalServerError(HostMissing);
      } else if sockets[h].game == null {
        task, error := None, InternalServerError(HostNotInSameGame);
      } else {
        task, error := FindTask(sockets[h].game, index);
      }
    }

    method AnswerWith(c: Uuid, task: Option<TaskView>, error: ClientError)
      requires Shape() && c in sockets
      modifies net, sockets[c]
      ensures Shape() && Abs() ==
        if task.Some? then Reply(old(Abs()), c, TaskResponse(task.value)) else FailWith(old(Abs()), c, error)
    {
      if task.Some? {
        Answer(c, TaskResponse(task.value));
      } else {
        StopWith(c, error);
      }
    }

    method Task(c: Uuid, index: Option<nat>)
      requires Shape() && c in sockets
      modifies net, sockets[c]
      ensures Shape() && Abs() == DoTask(old(Abs()), c, index)
    {
      var mine := sockets[c].game;
      if mine == null {
        StopWith(c, NotInGame(ClientNotInGame));
      } else if index.None? {
        Stop(c);
      } else {
        ghost var s := Abs();
        var task, error := LookUp(mine.host.id, index.value);
        assert s == Abs() && mine == sockets[c].game;
        AnswerWith(c, task, error);
      }
    }

    // ---- compile, one lock region at a time ------------------------------------------------

    method CompileRead(c: Uuid, request: Option<(string, nat)>)
      requires Shape() && c in sockets
      modifies net, sockets[c]
      ensures Shape() && Abs() == DoCompileRead(old(Abs()), c, request)
    {
      if sockets[c].game == null {
        StopWith(c, NotInGame(ClientNotInGame));
      } else if request.None? {
        Stop(c);
      } else {
        Move(c, CompileSaw(sockets[c].game.host.id, request.value.0, request.value.1));
      }
    }

    method FindProblem(h: Uuid) returns (problem: Option<ClientError>)
      requires Shape()
      ensures problem == HostProblem(Abs(), h)
    {
      if h !in sockets {
        problem := Some(InternalServerError(HostMissing));
      } else if sockets[h].game == null {
        problem := Some(InternalServerError(HostNotInGame));
      } else if !sockets[h].game.isStarted {
        problem := Some(GameNotStarted);
      } else {
        problem := None;
      }
    }

    /** Where a test of `code` goes from a started game. */
    static method PlanWith(g: Objects.Game, h: Uuid, code: string, index: nat) returns (pc: Pc)
      ensures pc ==
        if !g.isHost || !HasTask(g.Value(), index) then Replying(ErrorMessage(CompilationError(HostNotHost)), true)
        else Running(h, code, index, Stdins(g.tasks[index].publicCases), g.gameId)
    {
      var stdin := g.PrepareCodeTest(index);
      pc := if stdin.None? then Replying(ErrorMessage(CompilationError(HostNotHost)), true)
            else Running(h, code, index, stdin.value, g.gameId);
    }

    method Plan(saw: Pc) returns (pc: Pc)
      requires Shape() && saw.CompileSaw?
      ensures pc == Planned(Abs(), saw)
    {
      var problem := FindProblem(saw.host);
      if problem.Some? {
        pc := Replying(ErrorMessage(problem.value), true);
      } else {
        pc := PlanWith(sockets[saw.host].game, saw.host, saw.code, saw.taskIndex);
      }
    }

    method CompilePrepare(c: Uuid)
      requires Shape() && c in sockets && sockets[c].pc.CompileSaw?
      modifies sockets[c]
      ensures Shape() && Abs() == DoCompilePrepare(old(Abs()), c)
    {
      ghost var s := Abs();
      var pc := Plan(sockets[c].pc);
      assert s == Abs() && pc == Planned(s, s.clients[c].pc);
      Move(c, pc);
    }

    /** What becomes of the request after the game has graded it. */
    method Conclude(c: Uuid, o: Outcome)
      requires Shape() && c in sockets
      modifies sockets[c]
      ensures Shape()
      ensures Abs() == match o
        case Answer(r) => SetPc(old(Abs()), c, Replying(CompileResponse(r), false))
        case Failed => SetPc(old(Abs()), c, Replying(ErrorMessage(CompilationError(CompilationFailed)), true))
        case Panicked => Fail(old(Abs()), c)
    {
      match o
      case Answer(r) => Move(c, Replying(CompileResponse(r), false));
      case Failed => Move(c, Replying(ErrorMessage(CompilationError(CompilationFailed)), true));
      case Panicked => Stop(c);
    }

    method GradeRun(c: Uuid, h: Uuid, index: nat, run: SandboxResponse, privateRun: Option<SandboxResponse>)
      requires Shape() && c in sockets && h in sockets && sockets[h].game != null
      requires SoundGame(h, sockets[h].game.Value())
      modifies Objects()
      ensures Shape() && sockets == old(sockets)
      ensures var s1 := Validated(old(Abs()), h, c, index, run, privateRun);
        Abs() == match ValidateOutcome(old(sockets[h].game.Value()), c, index, run, privateRun)
          case Answer(r) => SetPc(s1, c, Replying(CompileResponse(r), false))
          case Failed => SetPc(s1, c, Replying(ErrorMessage(CompilationError(CompilationFailed)), true))
          case Panicked => Fail(s1, c)
    {
      var o := ValidateWith(h, c, index, run, privateRun);
      Conclude(c, o);
    }

    method CompileValidate(c: Uuid, run: Option<SandboxResponse>, privateRun: Option<SandboxResponse>)
      requires Shape() && Sound(Abs()) && c in sockets && sockets[c].pc.Running?
      modifies Objects()
      ensures Shape() && sockets == old(sockets) && Abs() == DoCompileValidate(old(Abs()), c, run, privateRun)
    {
      var pc := sockets[c].pc;
      if run.None? {
        Stop(c);
      } else {
        ghost var s := Abs();
        var problem := FindProblem(pc.host);
        assert s == Abs() && pc == s.clients[c].pc && problem == HostProblem(s, pc.host);
        if problem.Some? {
          Move(c, Replying(ErrorMessage(problem.value), true));
        } else {
          KnowSound(pc.host);
          GradeRun(c, pc.host, pc.taskIndex, run.value, privateRun);
        }
      }
    }

    method CompileReply(c: Uuid)
      requires Shape() && c in sockets && sockets[c].pc.Replying?
      modifies net, sockets[c]
      ensures Shape() && Abs() == DoCompileReply(old(Abs()), c)
    {
      var pc := sockets[c].pc;
      Answer(c, pc.reply);
      if pc.fails {
        Stop(c);
      } else {
        Move(c, Idle);
      }
    }

    // ---- identify, create, exists ----------------------------------------------------------

    method Identify(c: Uuid, nickname: Option<string>)
      requires Shape() && c in sockets
      modifies net, sockets[c]
      ensures Shape() && Abs() == DoIdentify(old(Abs()), c, nickname)
    {
      if sockets[c].nickname.Some? {
        Answer(c, IdentifyResponse(false));
      } else if nickname.None? {
        Stop(c);
      } else {
        ghost var s := Abs();
        sockets[c].nickname := nickname;
        assert Abs().clients == s.clients[c := s.clients[c].(nickname := nickname)];
        Answer(c, IdentifyResponse(true));
      }
    }

    method Create(c: Uuid, parsed: bool, g: GameId)
      requires Shape() && c in sockets
      modifies this`games, redis, net, sockets[c]
      ensures Shape() && Abs() == DoCreate(old(Abs()), c, parsed, g)
    {
      if !parsed {
        Stop(c);
      } else {
        ghost var s := Abs();
        redis.keys := redis.keys[g := Unclaimed];
        games := games + {g};
        assert Abs().clients == s.clients;
        Answer(c, CreateResponse(g));
      }
    }

    method ExistsRead(c: Uuid, query: Option<GameId>)
      requires Shape() && c in sockets
      modifies sockets[c]
      ensures Shape() && Abs() == DoExistsRead(old(Abs()), c, query)
    {
      if query.None? {
        Stop(c);
      } else {
        Move(c, ExistsSaw(query.value, if query.value in redis.keys then Some(redis.keys[query.value]) else None));
      }
    }

    method ExistsAnswer(c: Uuid)
      requires Shape() && c in sockets && sockets[c].pc.ExistsSaw?
      modifies redis, net, sockets[c]
      ensures Shape() && Abs() == DoExistsAnswer(old(Abs()), c)
    {
      var pc := sockets[c].pc;
      var known := pc.found.Some?;
      if pc.found.Some? && pc.found.value.Live? && pc.found.value.host !in sockets {
        DeleteKey(pc.gameId);
        known := false;
      }
      Answer(c, ExistsResponse(known));
      Move(c, Idle);
    }

    // ---- connection ------------------------------------------------------------------------

    method Connect(c: Uuid, channel: Channel)
      requires Shape() && c !in sockets
      modifies this`sockets, this`ids, net
      ensures Shape() && Abs() == DoConnect(old(Abs()), c, channel)
    {
      AddSocket(c, channel);
      OpenChannel(c, channel);
    }

    method AddSocket(c: Uuid, channel: Channel)
      requires Shape() && c !in sockets
      modifies this`sockets
      ensures Shape()
      ensures var s := old(Abs());
        Abs() == s.(clients := s.clients[c := Client(None, channel, None, false, Idle)])
    {
      ghost var s := Abs();
      var client := new SocketClient(c, channel);
      sockets := sockets[c := client];
      assert Abs().clients == s.clients[c := Client(None, channel, None, false, Idle)];
    }

    method OpenChannel(c: Uuid, channel: Channel)
      requires Shape()
      modifies this`ids, net
      ensures Shape()
      ensures var s := old(Abs());
        Abs() == s.(outboxes := s.outboxes[channel := []], ids := s.ids + {c})
    {
      ghost var s := Abs();
      net.out := net.out[channel := []];
      ids := ids + {c};
      assert Abs().clients == s.clients;
    }

    /** `on_close` takes the game and drops it. */
    method Close(c: Uuid)
      requires Shape() && Sound(Abs()) && c in sockets
      modifies Objects()
      ensures Shape() && sockets == old(sockets) && Abs() == DoClose(old(Abs()), c)
    {
      DropGameOf(c);
      Move(c, Closed);
    }

    method Remove(c: Uuid)
      requires Shape() && c in sockets
      modifies this`sockets
      ensures Shape() && Abs() == DoRemove(old(Abs()), c)
    {
      ghost var s := Abs();
      sockets := sockets - {c};
      assert Abs().clients == s.clients - {c};
    }

    // ---- one step --------------------------------------------------------------------------

    /** The next stage of some request or connection: the step of the state machine, no unwrap
        failing but the one that `Panicked` stands for, and the invariant kept. */
    method Perform(a: Action)
      requires Valid() && Enabled(Abs(), a)
      modifies Objects()
      ensures Valid() && Abs() == Step(old(Abs()), a)
    {
      ghost var s := Abs();
      ReachableIsSound(s);
      HostsAreNamed(s, a);
      if InGame(a) {
        PerformInGame(a);
      } else {
        PerformAside(a);
      }
      Preservation.StepKeeps(s, a);
    }

    static predicate InGame(a: Action) {
      a.JoinRegister? || a.JoinInstall? || a.Leave? || a.Start? || a.CompileValidate? || a.Close?
    }

    method PerformInGame(a: Action)
      requires Shape() && Sound(Abs()) && Enabled(Abs(), a) && InGame(a) && NamesKnown(Abs(), a)
      modifies Objects()
      ensures Shape() && Abs() == Step(old(Abs()), a)
    {
      match a
      case JoinRegister(c, order) => JoinRegister(c, order);
      case JoinInstall(c) => JoinInstall(c);
      case Leave(c) => Leave(c);
      case Start(c, count, picks) => Start(c, count, picks);
      case CompileValidate(c, run, privateRun) => CompileValidate(c, run, privateRun);
      case Close(c) => Close(c);
    }

    method PerformAside(a: Action)
      requires Shape() && Enabled(Abs(), a) && !InGame(a)
      requires a.Connect? ==> a.c !in sockets
      modifies Objects()
      ensures Shape() && Abs() == Step(old(Abs()), a)
    {
      match a
      case Connect(c, channel) => Connect(c, channel);
      case Malformed(c, isModel) => if isModel { Stop(c); } else { StopWith(c, InvalidMessage(InvalidModel)); }
      case JoinRead(c, join) => JoinRead(c, join);
      case JoinClaim(c) => JoinClaim(c);
      case Task(c, index) => Task(c, index);
      case CompileRead(c, request) => CompileRead(c, request);
      case CompilePrepare(c) => CompilePrepare(c);
      case CompileReply(c) => CompileReply(c);
      case Ping(c) => Answer(c, PingResponse);
      case Identify(c, nickname) => Identify(c, nickname);
      case Create(c, parsed, g) => Create(c, parsed, g);
      case ExistsRead(c, query) => ExistsRead(c, query);
      case ExistsAnswer(c) => ExistsAnswer(c);
      case Remove(c) => Remove(c);
    }
  }

  /** The nicknames that a join unwraps are there. */
  ghost predicate NamesKnown(s: State, a: Action)
    requires Enabled(s, a)
  {
    && (a.JoinRegister? ==>
          var h := s.clients[a.c].pc.host; h in s.clients ==> s.clients[h].nickname.Some?)
    && (a.JoinInstall? ==> s.clients[a.c].nickname.Some?)
  }

  lemma HostsAreNamed(s: State, a: Action)
    requires Invariant.Inv(s) && Enabled(s, a)
    ensures NamesKnown(s, a) && (a.Connect? ==> a.c !in s.clients)
  {
    if a.JoinRegister? || a.JoinInstall? {
      assert Invariant.ClientOk(a.c, s.clients[a.c], s.claims, s.games);
    }
  }
}
