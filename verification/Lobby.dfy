/** A simple lobby, and the proof that the server is one: each host has a lobby with a game id,
    members and a phase, and every step of the server is one step of the lobbies or none. */
module Lobby {
  import opened Types
  import opened GameRules
  import opened Protocol
  import opened Invariant
  import opened Preservation

  // ---- the lobbies -------------------------------------------------------------------------

  /** `Stalled` is a game whose start found too few tasks. */
  datatype Phase = Open | Playing(tasks: seq<GameTask>, done: set<nat>) | Stalled(tasks: seq<GameTask>)

  datatype Lobby = Lobby(gameId: GameId, members: map<Uuid, string>, phase: Phase)

  type Lobbies = map<Uuid, Lobby>

  datatype Event =
    | Stutter
    | Opens(h: Uuid, gameId: GameId)
    | Joins(h: Uuid, c: Uuid, nickname: string)
    | Exits(h: Uuid, c: Uuid)
    | Ends(h: Uuid)
    | Begins(h: Uuid, tasks: seq<GameTask>)
    | Stalls(h: Uuid, tasks: seq<GameTask>)
    | Solves(h: Uuid, index: nat)

  ghost predicate IsMember(l: Lobbies, c: Uuid) {
    exists h :: h in l && c in l[h].members
  }

  ghost predicate Allowed(l: Lobbies, e: Event) {
    match e
    case Stutter => true
    case Opens(h, g) => h !in l && !IsMember(l, h)
    case Joins(h, c, n) => h in l && l[h].phase.Open? && c !in l && !IsMember(l, c)
    case Exits(h, c) => h in l && c in l[h].members
    case Ends(h) => h in l
    case Begins(h, tasks) => h in l && l[h].phase.Open?
    case Stalls(h, tasks) => h in l && l[h].phase.Open?
    case Solves(h, i) => h in l && l[h].phase.Playing? && i < |l[h].phase.tasks|
  }

  function Next(l: Lobbies, e: Event): Lobbies
    requires Allowed(l, e)
  {
    match e
    case Stutter => l
    case Opens(h, g) => l[h := Lobby(g, map[], Open)]
    case Joins(h, c, n) => l[h := l[h].(members := l[h].members[c := n])]
    case Exits(h, c) => l[h := l[h].(members := l[h].members - {c})]
    case Ends(h) => l - {h}
    case Begins(h, tasks) => l[h := l[h].(phase := Playing(tasks, {}))]
    case Stalls(h, tasks) => l[h := l[h].(phase := Stalled(tasks))]
    case Solves(h, i) => l[h := l[h].(phase := l[h].phase.(done := l[h].phase.done + {i}))]
  }

  /** Once a competition runs, only members leave and only solved tasks are added. */
  ghost predicate Frozen(a: Lobby, b: Lobby) {
    && b.gameId == a.gameId
    && (!a.phase.Open? ==>
          && b.members.Keys <= a.members.Keys
          && (forall c :: c in b.members ==> b.members[c] == a.members[c])
          && (a.phase.Stalled? ==> b.phase == a.phase)
          && (a.phase.Playing? ==> b.phase.Playing? && b.phase.tasks == a.phase.tasks && a.phase.done <= b.phase.done))
  }

  lemma NextFreezes(l: Lobbies, e: Event, h: Uuid)
    requires Allowed(l, e) && h in l && h in Next(l, e)
    ensures Frozen(l[h], Next(l, e)[h])
  {
  }

  lemma TasksComeByStart(l: Lobbies, e: Event, h: Uuid)
    requires Allowed(l, e) && h in Next(l, e) && !Next(l, e)[h].phase.Open?
    ensures h in l && Next(l, e)[h].gameId == l[h].gameId
    ensures (!l[h].phase.Open? && l[h].phase.tasks == Next(l, e)[h].phase.tasks)
         || e == Begins(h, Next(l, e)[h].phase.tasks) || e == Stalls(h, Next(l, e)[h].phase.tasks)
  {
  }

  lemma DoneComesBySolving(l: Lobbies, e: Event, h: Uuid, i: nat)
    requires Allowed(l, e) && h in Next(l, e) && Next(l, e)[h].phase.Playing? && i in Next(l, e)[h].phase.done
    ensures h in l && Next(l, e)[h].gameId == l[h].gameId
    ensures (l[h].phase.Playing? && i in l[h].phase.done) || e == Solves(h, i)
  {
  }

  // ---- the lobbies of a server state -------------------------------------------------------

  function Done(g: Game): set<nat> {
    if g.host.progress.None? then {} else set i | i in g.host.progress.value && g.host.progress.value[i]
  }

  function PhaseOf(g: Game): Phase {
    if !g.isStarted then Open
    else if g.host.progress.None? then Stalled(g.tasks)
    else Playing(g.tasks, Done(g))
  }

  function LobbyOf(g: Game): Lobby {
    Lobby(g.gameId, Nicknames(g.Roster()), PhaseOf(g))
  }

  function Abs(s: State): Lobbies {
    map h | h in s.clients && IsHost(s, h) :: LobbyOf(s.clients[h].game.value)
  }

  // ---- which lobby event a server step is --------------------------------------------------

  /** Giving up a game ends the lobby of a host, takes a guest out of the lobby that has it,
      and is nothing to anybody when the guest's host has gone on. */
  function DropEvent(s: State, c: Uuid): Event
    requires c in s.clients
  {
    if s.clients[c].game.None? then Stutter
    else
      var g := s.clients[c].game.value;
      if g.isHost then Ends(c)
      else if IsHost(s, g.host.id) && c in s.clients[g.host.id].game.value.Roster() then Exits(g.host.id, c)
      else Stutter
  }

  function StartEvent(s: State, c: Uuid, count: Option<nat>, picks: seq<nat>): Event
    requires c in s.clients && (count.Some? ==> ValidPicks(s.pool, count.value, picks))
  {
    if s.clients[c].game.None? then Stutter
    else
      var g := s.clients[c].game.value;
      if !g.isHost then DropEvent(s, c)
      else if count.None? || g.isStarted then Stutter
      else
        var tasks := Chosen(s.pool, picks);
        if |tasks| == count.value then Begins(c, tasks) else Stalls(c, tasks)
  }

  function ValidateEvent(s: State, c: Uuid, run: Option<SandboxResponse>, privateRun: Option<SandboxResponse>): Event
    requires c in s.clients && s.clients[c].pc.Running?
  {
    var pc := s.clients[c].pc;
    if run.Some? && HostProblem(s, pc.host).None?
       && Credits(s.clients[pc.host].game.value, c, pc.taskIndex, run.value, privateRun)
    then Solves(pc.host, pc.taskIndex) else Stutter
  }

  ghost function EventOf(s: State, a: Action): Event
    requires Enabled(s, a)
  {
    match a
    case JoinRegister(c, _) =>
      var pc := s.clients[c].pc;
      if GameOf(s, pc.host).Some? && Admits(GameOf(s, pc.host).value) then Joins(pc.host, c, pc.nickname) else Stutter
    case JoinInstall(c) =>
      if s.clients[c].pc.Claimed? then Opens(c, s.clients[c].pc.gameId) else Stutter
    case Leave(c) => DropEvent(s, c)
    case Close(c) => DropEvent(s, c)
    case Start(c, count, picks) => StartEvent(s, c, count, picks)
    case CompileValidate(c, run, privateRun) => ValidateEvent(s, c, run, privateRun)
    case _ => Stutter
  }

  // ---- simulation --------------------------------------------------------------------------

  /** Games that look alike to their participants. */
  ghost predicate SameLobby(x: Client, y: Client) {
    && ((x.game.Some? && x.game.value.isHost) <==> (y.game.Some? && y.game.value.isHost))
    && (x.game.Some? && x.game.value.isHost ==> LobbyOf(y.game.value) == LobbyOf(x.game.value))
  }

  lemma SameLobbies(s: State, s': State)
    requires s'.clients.Keys == s.clients.Keys
    requires forall c :: c in s.clients ==> SameLobby(s.clients[c], s'.clients[c])
    ensures Abs(s') == Abs(s)
  {
  }

  lemma OneLobbyChanges(s: State, s': State, h: Uuid, l: Lobby)
    requires s'.clients.Keys == s.clients.Keys && h in s.clients
    requires forall c :: c in s.clients && c != h ==> SameLobby(s.clients[c], s'.clients[c])
    requires IsHost(s', h) && LobbyOf(s'.clients[h].game.value) == l
    ensures Abs(s') == Abs(s)[h := l]
  {
  }

  lemma OneLobbyEnds(s: State, s': State, h: Uuid)
    requires s'.clients.Keys == s.clients.Keys && h in s.clients
    requires forall c :: c in s.clients && c != h ==> SameLobby(s.clients[c], s'.clients[c])
    requires !IsHost(s', h)
    ensures Abs(s') == Abs(s) - {h}
  {
  }

  /** Whoever hosts or is free is in nobody's lobby. */
  lemma NotAMember(s: State, c: Uuid)
    requires RostersOk(Parts(s)) && c in s.clients && !PartOf(s.clients[c]).Linked?
    ensures !IsMember(Abs(s), c)
  {
    forall h | h in Abs(s) ensures c !in Abs(s)[h].members {
      assert Parts(s)[h] == PartOf(s.clients[h]) && Parts(s)[c] == PartOf(s.clients[c]);
      assert c !in Parts(s)[h].members;
    }
  }

  lemma EntersRefines(s: State, s': State, c: Uuid, h: Uuid, p: PartialClient)
    requires ClientsOk(s) && RostersOk(Parts(s)) && Preservation.Enters(s, s', c, h, p)
    ensures Allowed(Abs(s), Joins(h, c, p.nickname)) && Abs(s') == Next(Abs(s), Joins(h, c, p.nickname))
  {
    var g := s.clients[h].game.value;
    assert GameOk(h, s.clients[h], g);
    NotAMember(s, c);
    assert Nicknames(g.Roster()[c := p]) == Nicknames(g.Roster())[c := p.nickname];
    OneLobbyChanges(s, s', h, LobbyOf(g).(members := Nicknames(g.Roster())[c := p.nickname]));
  }

  lemma TurnedAwayRefines(s: State, c: Uuid, order: seq<Uuid>)
    requires c in s.clients && s.clients[c].pc.SawLive? && OrderOk(s, c, order)
    requires var hosted := GameOf(s, s.clients[c].pc.host); hosted.Some? ==> !Admits(hosted.value)
    ensures Abs(DoJoinRegister(s, c, order)) == Abs(s)
  {
    SameLobbies(s, DoJoinRegister(s, c, order));
  }

  lemma RegisterRefines(s: State, c: Uuid, order: seq<Uuid>)
    requires ClientsOk(s) && HistoryOk(s) && RostersOk(Parts(s))
    requires c in s.clients && s.clients[c].pc.SawLive? && OrderOk(s, c, order)
    ensures var e := EventOf(s, JoinRegister(c, order));
      Allowed(Abs(s), e) && Abs(DoJoinRegister(s, c, order)) == Next(Abs(s), e)
  {
    var pc := s.clients[c].pc;
    if GameOf(s, pc.host).Some? && Admits(GameOf(s, pc.host).value) {
      RegisterEnters(s, c, order);
      EntersRefines(s, DoJoinRegister(s, c, order), c, pc.host, Me(s, c, pc.nickname));
    } else {
      TurnedAwayRefines(s, c, order);
    }
  }

  lemma InstallRefines(s: State, c: Uuid)
    requires ClientsOk(s) && RostersOk(Parts(s))
    requires c in s.clients && (s.clients[c].pc.Claimed? || s.clients[c].pc.Registered?)
    ensures var e := EventOf(s, JoinInstall(c));
      Allowed(Abs(s), e) && Abs(DoJoinInstall(s, c)) == Next(Abs(s), e)
  {
    var s' := DoJoinInstall(s, c);
    assert ClientOk(c, s.clients[c], s.claims, s.games);
    assert s.clients[c].game.None?;
    if s.clients[c].pc.Claimed? {
      NotAMember(s, c);
      assert Nicknames(s'.clients[c].game.value.Roster()) == map[];
      OneLobbyChanges(s, s', c, Lobby(s.clients[c].pc.gameId, map[], Open));
    } else {
      SameLobbies(s, s');
    }
  }

  lemma ExitRefines(s: State, s': State, c: Uuid, h: Uuid)
    requires c in s.clients && h != c && IsHost(s, h) && !IsHost(s, c) && c in s.clients[h].game.value.Roster()
    requires s'.clients.Keys == s.clients.Keys && s'.clients[c].game.None?
    requires s'.clients[h].game == Some(UnregisterGame(s.clients[h].game.value, c))
    requires forall d :: d in s.clients && d != c && d != h ==> s'.clients[d].game == s.clients[d].game
    ensures Allowed(Abs(s), Exits(h, c)) && Abs(s') == Next(Abs(s), Exits(h, c))
  {
    var g := s.clients[h].game.value;
    assert Nicknames(UnregisterGame(g, c).Roster()) == Nicknames(g.Roster()) - {c};
    OneLobbyChanges(s, s', h, LobbyOf(g).(members := Nicknames(g.Roster()) - {c}));
  }

  lemma StaleDropRefines(s: State, c: Uuid, mine: Game)
    requires c in s.clients && s.clients[c].game == Some(mine) && !mine.isHost && mine.host.id != c
    requires mine.me.id == c && !(IsHost(s, mine.host.id) && c in s.clients[mine.host.id].game.value.Roster())
    ensures Abs(DropGame(s, c)) == Abs(s)
  {
    SameLobbies(s, DropGame(s, c));
  }

  lemma GuestDropRefines(s: State, c: Uuid, mine: Game)
    requires c in s.clients && s.clients[c].game == Some(mine) && !mine.isHost
    requires mine.host.isLocal && mine.me.id == c && mine.host.id != c
    ensures Allowed(Abs(s), DropEvent(s, c)) && Abs(DropGame(s, c)) == Next(Abs(s), DropEvent(s, c))
  {
    if IsHost(s, mine.host.id) && c in s.clients[mine.host.id].game.value.Roster() {
      ExitRefines(s, DropGame(s, c), c, mine.host.id);
    } else {
      StaleDropRefines(s, c, mine);
    }
  }

  lemma HostDropRefines(s: State, c: Uuid)
    requires IsHost(s, c)
    ensures Allowed(Abs(s), Ends(c)) && Abs(DropGame(s, c)) == Next(Abs(s), Ends(c))
  {
    OneLobbyEnds(s, DropGame(s, c), c);
  }

  lemma DropRefines(s: State, c: Uuid)
    requires ClientsOk(s) && LinksOk(Parts(s), s.claims) && c in s.clients
    ensures Allowed(Abs(s), DropEvent(s, c)) && Abs(DropGame(s, c)) == Next(Abs(s), DropEvent(s, c))
  {
    if s.clients[c].game.Some? {
      var mine := s.clients[c].game.value;
      if mine.isHost {
        HostDropRefines(s, c);
      } else {
        JoinedGame(s, c);
        GuestDropRefines(s, c, mine);
      }
    }
  }

  lemma CloseRefines(s: State, c: Uuid)
    requires ClientsOk(s) && LinksOk(Parts(s), s.claims) && c in s.clients
    ensures var e := DropEvent(s, c); Allowed(Abs(s), e) && Abs(DoClose(s, c)) == Next(Abs(s), e)
  {
    DropRefines(s, c);
    SameLobbies(DropGame(s, c), DoClose(s, c));
  }

  lemma BegunLobby(s: State, c: Uuid, tasks: seq<GameTask>, count: nat)
    requires ClientsOk(s) && IsHost(s, c) && !s.clients[c].game.value.isStarted
    ensures var g := s.clients[c].game.value;
      StartGame(g, tasks, count).isHost &&
      LobbyOf(StartGame(g, tasks, count)) ==
        LobbyOf(g).(phase := if |tasks| == count then Playing(tasks, {}) else Stalled(tasks))
  {
    var g := s.clients[c].game.value;
    var g' := StartGame(g, tasks, count);
    assert GameOk(c, s.clients[c], g);
    StartedGame(g, tasks, count);
    assert Nicknames(g'.Roster()) == Nicknames(g.Roster());
    if |tasks| == count {
      assert Done(g') == {};
    }
  }

  lemma HostStartRefines(s: State, c: Uuid, count: nat, picks: seq<nat>)
    requires ClientsOk(s) && Ready(s, c) && ValidPicks(s.pool, count, picks) && IsHost(s, c)
    ensures var e := StartEvent(s, c, Some(count), picks);
      Allowed(Abs(s), e) && Abs(DoStart(s, c, Some(count), picks)) == Next(Abs(s), e)
  {
    var g := s.clients[c].game.value;
    var s' := DoStart(s, c, Some(count), picks);
    if g.isStarted {
      SameLobbies(s, s');
    } else {
      var tasks := Chosen(s.pool, picks);
      BegunLobby(s, c, tasks, count);
      OneLobbyChanges(s, s', c, LobbyOf(StartGame(g, tasks, count)));
    }
  }

  lemma FailedStartRefines(s: State, c: Uuid, count: Option<nat>, picks: seq<nat>)
    requires Ready(s, c) && (count.Some? ==> ValidPicks(s.pool, count.value, picks))
    requires s.clients[c].game.None? || (s.clients[c].game.value.isHost && count.None?)
    ensures StartEvent(s, c, count, picks) == Stutter && Abs(DoStart(s, c, count, picks)) == Abs(s)
  {
    SameLobbies(s, DoStart(s, c, count, picks));
  }

  lemma StartRefines(s: State, c: Uuid, count: Option<nat>, picks: seq<nat>)
    requires ClientsOk(s) && LinksOk(Parts(s), s.claims)
    requires Ready(s, c) && (count.Some? ==> ValidPicks(s.pool, count.value, picks))
    ensures var e := StartEvent(s, c, count, picks);
      Allowed(Abs(s), e) && Abs(DoStart(s, c, count, picks)) == Next(Abs(s), e)
  {
    if s.clients[c].game.None? || (s.clients[c].game.value.isHost && count.None?) {
      FailedStartRefines(s, c, count, picks);
    } else if s.clients[c].game.value.isHost {
      HostStartRefines(s, c, count.value, picks);
    } else {
      GuestStartRefines(s, c, count, picks);
    }
  }

  lemma GuestStartRefines(s: State, c: Uuid, count: Option<nat>, picks: seq<nat>)
    requires ClientsOk(s) && LinksOk(Parts(s), s.claims)
    requires Ready(s, c) && (count.Some? ==> ValidPicks(s.pool, count.value, picks))
    requires s.clients[c].game.Some? && !s.clients[c].game.value.isHost
    ensures Allowed(Abs(s), DropEvent(s, c)) && Abs(DoStart(s, c, count, picks)) == Next(Abs(s), DropEvent(s, c))
  {
    var s1 := DropGame(s, c);
    DropRefines(s, c);
    JoinedGame(s, c);
    assert DoStart(s, c, count, picks) == FailWith(s1, c, NotGameHost(ClientNotHost));
    SameLobbies(s1, FailWith(s1, c, NotGameHost(ClientNotHost)));
  }

  lemma CreditedLobby(g: Game, c: Uuid, index: nat, run: SandboxResponse, privateRun: Option<SandboxResponse>)
    requires g.isHost && g.isStarted
    ensures LobbyOf(ValidateGame(g, c, index, run, privateRun)) ==
      if Credits(g, c, index, run, privateRun) then LobbyOf(g).(phase := Playing(g.tasks, Done(g) + {index}))
      else LobbyOf(g)
    ensures Credits(g, c, index, run, privateRun) ==> HasTask(g, index) && PhaseOf(g) == Playing(g.tasks, Done(g))
  {
    CreditedGame(g, c, index, run, privateRun);
    var g' := ValidateGame(g, c, index, run, privateRun);
    if Credits(g, c, index, run, privateRun) {
      assert Done(g') == Done(g) + {index};
    }
  }

  lemma ValidatedRefines(s: State, h: Uuid, c: Uuid, index: nat, run: SandboxResponse,
                         privateRun: Option<SandboxResponse>)
    requires IsHost(s, h) && s.clients[h].game.value.isStarted
    ensures var e := if Credits(s.clients[h].game.value, c, index, run, privateRun) then Solves(h, index) else Stutter;
      Allowed(Abs(s), e) && Abs(Validated(s, h, c, index, run, privateRun)) == Next(Abs(s), e)
  {
    var g := s.clients[h].game.value;
    CreditedLobby(g, c, index, run, privateRun);
    CreditedGame(g, c, index, run, privateRun);
    OneLobbyChanges(s, Validated(s, h, c, index, run, privateRun), h,
                    LobbyOf(ValidateGame(g, c, index, run, privateRun)));
    assert Abs(s)[h] == LobbyOf(g);
  }

  lemma UngradedRefines(s: State, c: Uuid, run: Option<SandboxResponse>, privateRun: Option<SandboxResponse>)
    requires c in s.clients && s.clients[c].pc.Running?
    requires run.None? || HostProblem(s, s.clients[c].pc.host).Some?
    ensures Abs(DoCompileValidate(s, c, run, privateRun)) == Abs(s)
  {
    SameLobbies(s, DoCompileValidate(s, c, run, privateRun));
  }

  lemma GradedRefines(s: State, c: Uuid, run: SandboxResponse, privateRun: Option<SandboxResponse>)
    requires c in s.clients && s.clients[c].pc.Running? && HostProblem(s, s.clients[c].pc.host).None?
    ensures Abs(DoCompileValidate(s, c, Some(run), privateRun))
         == Abs(Validated(s, s.clients[c].pc.host, c, s.clients[c].pc.taskIndex, run, privateRun))
  {
    SameLobbies(Validated(s, s.clients[c].pc.host, c, s.clients[c].pc.taskIndex, run, privateRun),
                DoCompileValidate(s, c, Some(run), privateRun));
  }

  lemma ValidateRefines(s: State, c: Uuid, run: Option<SandboxResponse>, privateRun: Option<SandboxResponse>)
    requires ClientsOk(s) && c in s.clients && s.clients[c].pc.Running?
    ensures var e := ValidateEvent(s, c, run, privateRun);
      Allowed(Abs(s), e) && Abs(DoCompileValidate(s, c, run, privateRun)) == Next(Abs(s), e)
  {
    var pc := s.clients[c].pc;
    if run.Some? && HostProblem(s, pc.host).None? {
      assert GameOk(pc.host, s.clients[pc.host], s.clients[pc.host].game.value);
      ValidatedRefines(s, pc.host, c, pc.taskIndex, run.value, privateRun);
      GradedRefines(s, c, run.value, privateRun);
    } else {
      UngradedRefines(s, c, run, privateRun);
    }
  }

  /** Steps that are nothing to the lobbies. */
  predicate IsAnswer(a: Action) {
    a.Malformed? || a.Task? || a.Ping? || a.Identify? || a.Create? || a.ExistsRead? || a.ExistsAnswer?
  }

  predicate IsMove(a: Action) {
    a.JoinRead? || a.JoinClaim? || a.CompileRead? || a.CompilePrepare? || a.CompileReply?
  }

  lemma TaskRefines(s: State, c: Uuid, index: Option<nat>)
    requires Ready(s, c)
    ensures Abs(DoTask(s, c, index)) == Abs(s)
  {
    SameLobbies(s, DoTask(s, c, index));
  }

  lemma AnswerRefines(s: State, a: Action)
    requires Enabled(s, a) && IsAnswer(a)
    ensures EventOf(s, a) == Stutter && Abs(Step(s, a)) == Abs(s)
  {
    if a.Task? {
      TaskRefines(s, a.c, a.index);
    } else {
      SameLobbies(s, Step(s, a));
    }
  }

  lemma MoveRefines(s: State, a: Action)
    requires Enabled(s, a) && IsMove(a)
    ensures EventOf(s, a) == Stutter && Abs(Step(s, a)) == Abs(s)
  {
    SameLobbies(s, Step(s, a));
  }

  lemma ConnectRefines(s: State, c: Uuid, channel: Channel)
    requires c !in s.clients
    ensures Abs(DoConnect(s, c, channel)) == Abs(s)
  {
  }

  lemma RemoveRefines(s: State, c: Uuid)
    requires c in s.clients && s.clients[c].game.None?
    ensures Abs(DoRemove(s, c)) == Abs(s)
  {
  }

  lemma ConnectionRefines(s: State, a: Action)
    requires WiringOk(s) && ClientsOk(s) && Enabled(s, a) && (a.Connect? || a.Remove?)
    ensures EventOf(s, a) == Stutter && Abs(Step(s, a)) == Abs(s)
  {
    if a.Connect? {
      assert a.c !in s.clients;
      ConnectRefines(s, a.c, a.channel);
    } else {
      assert ClientOk(a.c, s.clients[a.c], s.claims, s.games);
      RemoveRefines(s, a.c);
    }
  }

  // ---- the main result ---------------------------------------------------------------------

  /** Every step of the server is allowed as, and has exactly the effect of, one lobby event. */
  lemma StepRefines(s: State, a: Action)
    requires Inv(s) && Enabled(s, a)
    ensures Allowed(Abs(s), EventOf(s, a)) && Abs(Step(s, a)) == Next(Abs(s), EventOf(s, a))
  {
    if IsAnswer(a) {
      AnswerRefines(s, a);
    } else if IsMove(a) {
      MoveRefines(s, a);
    } else if a.Connect? || a.Remove? {
      ConnectionRefines(s, a);
    } else {
      match a
      case JoinRegister(c, order) => RegisterRefines(s, c, order);
      case JoinInstall(c) => InstallRefines(s, c);
      case Leave(c) => LeaveRefines(s, c);
      case Start(c, count, picks) => StartRefines(s, c, count, picks);
      case CompileValidate(c, run, privateRun) => ValidateRefines(s, c, run, privateRun);
      case Close(c) => CloseRefines(s, c);
    }
  }

  lemma LeaveRefines(s: State, c: Uuid)
    requires ClientsOk(s) && LinksOk(Parts(s), s.claims) && c in s.clients
    ensures var e := DropEvent(s, c); Allowed(Abs(s), e) && Abs(DoLeave(s, c)) == Next(Abs(s), e)
  {
    if s.clients[c].game.None? {
      SameLobbies(s, DoLeave(s, c));
    } else {
      DropRefines(s, c);
    }
  }
}
