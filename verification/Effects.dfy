/** What each step sends to each client and changes for it, message by message and field by field. */
module Effects {
  import opened Types
  import opened GameRules
  import opened Protocol
  import opened Invariant
  import opened Preservation
  import opened Views
  import Delivery
  import Grader
  import Runs

  // ---- vocabulary --------------------------------------------------------------------------

  /** `c` is sent `ms` and becomes `cl`; nobody else is sent anything or changed, and no key is. */
  ghost predicate Only(s: State, s': State, c: Uuid, cl: Client, ms: seq<Message>) {
    && c in s.clients && s'.clients == s.clients[c := cl] && cl.channel == s.clients[c].channel
    && s'.directory == s.directory
    && Out(s', c) == Out(s, c) + ms
    && forall d :: d in s.clients && d != c ==> Out(s', d) == Out(s, d)
  }

  /** ... with the error `e`, after which its connection is closed. */
  ghost predicate Refuses(s: State, s': State, c: Uuid, e: ClientError) {
    c in s.clients && Only(s, s', c, s.clients[c].(pc := Idle, closing := true), [ErrorMessage(e)])
  }

  /** ... without a word. */
  ghost predicate HangsUp(s: State, s': State, c: Uuid) {
    c in s.clients && Only(s, s', c, s.clients[c].(pc := Idle, closing := true), [])
  }

  ghost predicate Moves(s: State, s': State, c: Uuid, pc: Pc) {
    c in s.clients && Only(s, s', c, s.clients[c].(pc := pc), [])
  }

  lemma NothingSent(s: State, c: Uuid)
    requires c in s.clients
    ensures Out(s, c) + [] == Out(s, c)
  {
  }

  lemma ReplyReaches(s: State, c: Uuid, m: Message)
    requires WiringOk(s) && c in s.clients
    ensures Only(s, Reply(s, c, m), c, s.clients[c], [m])
  {
    assert s.clients[c := s.clients[c]] == s.clients;
  }

  lemma FailHangsUp(s: State, c: Uuid)
    requires WiringOk(s) && c in s.clients
    ensures HangsUp(s, Fail(s, c), c)
  {
    NothingSent(s, c);
  }

  lemma FailWithRefuses(s: State, c: Uuid, e: ClientError)
    requires WiringOk(s) && c in s.clients
    ensures Refuses(s, FailWith(s, c, e), c, e)
  {
    ReplyReaches(s, c, ErrorMessage(e));
  }

  lemma SetPcMoves(s: State, c: Uuid, pc: Pc)
    requires WiringOk(s) && c in s.clients
    ensures Moves(s, SetPc(s, c, pc), c, pc)
  {
    NothingSent(s, c);
  }

  /** A client that is to be closed makes no other step, and its last request is over. */
  lemma ClosingOnlyCloses(s: State, a: Action)
    requires Inv(s) && Enabled(s, a) && a.c in s.clients && s.clients[a.c].closing
    ensures a.Close? || a.Remove?
  {
    assert ClientOk(a.c, s.clients[a.c], s.claims, s.games);
  }

  // ---- requests that need no game -----------------------------------------------------------

  lemma MalformedIsRefused(s: State, c: Uuid, isModel: bool)
    requires WiringOk(s) && Ready(s, c)
    ensures var s' := Step(s, Malformed(c, isModel));
      if isModel then HangsUp(s, s', c) else Refuses(s, s', c, InvalidMessage(InvalidModel))
  {
    FailHangsUp(s, c);
    FailWithRefuses(s, c, InvalidMessage(InvalidModel));
  }

  lemma PingIsAnswered(s: State, c: Uuid)
    requires WiringOk(s) && Ready(s, c)
    ensures Only(s, Step(s, Ping(c)), c, s.clients[c], [PingResponse])
  {
    ReplyReaches(s, c, PingResponse);
  }

  /** A nickname is taken once. */
  lemma IdentifyTakesOnce(s: State, c: Uuid, nickname: Option<string>)
    requires WiringOk(s) && Ready(s, c)
    ensures var s' := Step(s, Identify(c, nickname));
      if s.clients[c].nickname.Some? then Only(s, s', c, s.clients[c], [IdentifyResponse(false)])
      else if nickname.None? then HangsUp(s, s', c)
      else Only(s, s', c, s.clients[c].(nickname := nickname), [IdentifyResponse(true)])
  {
    if s.clients[c].nickname.Some? {
      ReplyReaches(s, c, IdentifyResponse(false));
    } else if nickname.None? {
      FailHangsUp(s, c);
    } else {
      NamedThenTold(s, c, nickname);
    }
  }

  lemma NamedThenTold(s: State, c: Uuid, nickname: Option<string>)
    requires WiringOk(s) && c in s.clients
    ensures var named := s.(clients := s.clients[c := s.clients[c].(nickname := nickname)]);
      Only(s, Reply(named, c, IdentifyResponse(true)), c, s.clients[c].(nickname := nickname), [IdentifyResponse(true)])
  {
  }

  /** The creator is told the id of a game that nobody has claimed yet. */
  lemma CreateOpensKey(s: State, c: Uuid, parsed: bool, g: GameId)
    requires WiringOk(s) && Ready(s, c) && g !in s.games
    ensures var s' := Step(s, Create(c, parsed, g));
      if !parsed then HangsUp(s, s', c)
      else
        && s'.directory == s.directory[g := Unclaimed]
        && Only(s, s'.(directory := s.directory), c, s.clients[c], [CreateResponse(g)])
  {
    FailHangsUp(s, c);
    ReplyReaches(s, c, CreateResponse(g));
  }

  lemma ExistsReads(s: State, c: Uuid, query: Option<GameId>)
    requires WiringOk(s) && Ready(s, c)
    ensures var s' := Step(s, ExistsRead(c, query));
      if query.None? then HangsUp(s, s', c)
      else
        Moves(s, s', c, ExistsSaw(query.value,
          if query.value in s.directory then Some(s.directory[query.value]) else None))
  {
    if query.None? {
      FailHangsUp(s, c);
    } else {
      SetPcMoves(s, c, DoExistsRead(s, c, query).clients[c].pc);
    }
  }

  /** The game exists if its key was there and did not name a host that is gone by now; the key goes
      exactly in that case. */
  lemma ExistsAnswers(s: State, c: Uuid)
    requires WiringOk(s) && c in s.clients && s.clients[c].pc.ExistsSaw?
    ensures var s' := Step(s, ExistsAnswer(c));
      var found, g := s.clients[c].pc.found, s.clients[c].pc.gameId;
      var gone := found.Some? && found.value.Live? && found.value.host !in s.clients;
      && s'.directory == (if gone then s.directory - {g} else s.directory)
      && Only(s, s'.(directory := s.directory), c, s.clients[c].(pc := Idle), [ExistsResponse(found.Some? && !gone)])
  {
    AnsweredThenIdle(s, c, ExistsResponse(true));
    AnsweredThenIdle(s, c, ExistsResponse(false));
  }

  lemma AnsweredThenIdle(s: State, c: Uuid, m: Message)
    requires WiringOk(s) && c in s.clients
    ensures Only(s, SetPc(Reply(s, c, m), c, Idle), c, s.clients[c].(pc := Idle), [m])
  {
    ReplyReaches(s, c, m);
  }

  /** A socket starts with no name, no game and nothing sent. */
  lemma ConnectAdds(s: State, c: Uuid, channel: Channel, d: Uuid)
    requires Inv(s) && Enabled(s, Connect(c, channel))
    ensures var s' := Step(s, Connect(c, channel));
      && c !in s.clients && s'.clients == s.clients[c := Client(None, channel, None, false, Idle)]
      && s'.directory == s.directory && Out(s', c) == []
      && (d in s.clients ==> Out(s', d) == Out(s, d))
  {
  }

  lemma RemoveTakesOnlyItself(s: State, c: Uuid, d: Uuid)
    requires Inv(s) && Enabled(s, Remove(c))
    ensures var s' := Step(s, Remove(c));
      && s.clients[c].game.None? && s'.clients == s.clients - {c} && s'.directory == s.directory
      && (d in s'.clients ==> Out(s', d) == Out(s, d))
  {
    assert ClientOk(c, s.clients[c], s.claims, s.games);
  }

  // ---- join ----------------------------------------------------------------------------------

  /** What a join reads, and the order in which it is refused. */
  lemma JoinReads(s: State, c: Uuid, join: Option<GameId>)
    requires WiringOk(s) && Ready(s, c)
    ensures var s' := Step(s, JoinRead(c, join));
      if join.None? then HangsUp(s, s', c)
      else if s.clients[c].game.Some? then Refuses(s, s', c, AlreadyInGame(ClientAlreadyInGame))
      else if s.clients[c].nickname.None? then Refuses(s, s', c, ClientNotIdentified)
      else if join.value !in s.directory then Refuses(s, s', c, NoGameWasFound)
      else
        match s.directory[join.value]
        case Unclaimed => Moves(s, s', c, SawEmpty(join.value))
        case Live(h) => Moves(s, s', c, SawLive(join.value, h, s.clients[c].nickname.value))
  {
    if join.None? {
      FailHangsUp(s, c);
    } else if s.clients[c].game.Some? {
      FailWithRefuses(s, c, AlreadyInGame(ClientAlreadyInGame));
    } else if s.clients[c].nickname.None? {
      FailWithRefuses(s, c, ClientNotIdentified);
    } else if join.value !in s.directory {
      FailWithRefuses(s, c, NoGameWasFound);
    } else {
      SetPcMoves(s, c, DoJoinRead(s, c, join).clients[c].pc);
    }
  }

  lemma ClaimTakesKey(s: State, c: Uuid)
    requires WiringOk(s) && c in s.clients && s.clients[c].pc.SawEmpty?
    ensures var s' := Step(s, JoinClaim(c));
      var g := s.clients[c].pc.gameId;
      && s'.directory == s.directory[g := Live(c)]
      && Moves(s, s'.(directory := s.directory), c, Claimed(g))
  {
    NothingSent(s, c);
  }

  lemma {:induction false} IntroductionsAre(g: Game, order: seq<Uuid>)
    requires forall c :: c in order ==> c in g.Roster()
    ensures |Introductions(g, order)| == |order|
    ensures forall i :: 0 <= i < |order| ==>
      Introductions(g, order)[i] == ConnectedClient(g.gameId, order[i], g.Roster()[order[i]].nickname)
  {
    if order != [] {
      IntroductionsAre(g, order[..|order| - 1]);
    }
  }

  /** What a newcomer is sent: every member of the roster, in the order walked, then the host. */
  ghost predicate Introduced(was: seq<Message>, now: seq<Message>, g: Game, order: seq<Uuid>) {
    && |now| == |was| + |order| + 1 && now[..|was|] == was
    && (forall i :: 0 <= i < |order| ==> order[i] in g.Roster())
    && (forall i :: 0 <= i < |order| ==>
          now[|was| + i] == ConnectedClient(g.gameId, order[i], g.Roster()[order[i]].nickname))
    && now[|was| + |order|] == ConnectedClient(g.gameId, g.host.id, g.host.nickname)
  }

  lemma IntroducedBy(was: seq<Message>, g: Game, order: seq<Uuid>)
    requires forall c :: c in order ==> c in g.Roster()
    ensures var now := was + Introductions(g, order) + [ConnectedClient(g.gameId, g.host.id, g.host.nickname)];
      Introduced(was, now, g, order)
  {
    IntroductionsAre(g, order);
  }

  /** The host of the key that was read has a game that is open: the newcomer is entered, and goes on to
      install its own game; nobody else is changed, and no key. */
  lemma OpenGameAdmits(s: State, c: Uuid, order: seq<Uuid>)
    requires Inv(s) && c in s.clients && s.clients[c].pc.SawLive? && OrderOk(s, c, order)
    requires IsHost(s, s.clients[c].pc.host) && !s.clients[s.clients[c].pc.host].game.value.isStarted
    ensures var s' := DoJoinRegister(s, c, order);
      var pc := s.clients[c].pc;
      var host := s.clients[pc.host];
      var g := host.game.value;
      var p := PartialClient(c, pc.nickname, true, Some(s.clients[c].channel), None);
      && pc.host != c && host.nickname.Some? && s'.directory == s.directory
      && s'.clients == s.clients
           [pc.host := host.(game := Some(g.(connected := Some(g.Roster()[c := p]))))]
           [c := s.clients[c].(pc :=
             Registered(pc.gameId, pc.host, host.nickname.value, host.channel, true, pc.nickname))]
  {
    OpenGameIsPublic(s, s.clients[c].pc.host);
    Entering(s, c, order);
  }

  /** It is introduced to everyone ... */
  lemma NewcomerIsIntroduced(s: State, c: Uuid, order: seq<Uuid>)
    requires Inv(s) && c in s.clients && s.clients[c].pc.SawLive? && OrderOk(s, c, order)
    requires IsHost(s, s.clients[c].pc.host) && !s.clients[s.clients[c].pc.host].game.value.isStarted
    ensures var s' := DoJoinRegister(s, c, order);
      var g := s.clients[s.clients[c].pc.host].game.value;
      c in s'.clients && g.host.id == s.clients[c].pc.host && Introduced(Out(s, c), Out(s', c), g, order)
  {
    OpenGameIsPublic(s, s.clients[c].pc.host);
    EnteringSends(s, c, order, c);
    IntroducedBy(Out(s, c), s.clients[s.clients[c].pc.host].game.value, order);
  }

  /** ... everyone is told of it once, and nobody else is told anything. */
  lemma NewcomerIsAnnounced(s: State, c: Uuid, order: seq<Uuid>, d: Uuid)
    requires Inv(s) && c in s.clients && s.clients[c].pc.SawLive? && OrderOk(s, c, order)
    requires IsHost(s, s.clients[c].pc.host) && !s.clients[s.clients[c].pc.host].game.value.isStarted
    requires d in s.clients && d != c
    ensures var s' := DoJoinRegister(s, c, order);
      var h := s.clients[c].pc.host;
      var g := s.clients[h].game.value;
      d in s'.clients && Out(s', d) ==
        if d == h || d in g.Roster() then Out(s, d) + [ConnectedClient(g.gameId, c, s.clients[c].pc.nickname)]
        else Out(s, d)
  {
    OpenGameIsPublic(s, s.clients[c].pc.host);
    EnteringSends(s, c, order, d);
  }

  lemma OpenGameIsPublic(s: State, h: Uuid)
    requires ClientsOk(s) && IsHost(s, h)
    ensures var g := s.clients[h].game.value;
      g.host.id == h && (g.public <==> !g.isStarted) && (Admits(g) <==> !g.isStarted)
  {
    assert GameOk(h, s.clients[h], s.clients[h].game.value);
  }

  lemma Entering(s: State, c: Uuid, order: seq<Uuid>)
    requires ClientsOk(s) && HistoryOk(s) && c in s.clients && s.clients[c].pc.SawLive? && OrderOk(s, c, order)
    requires GameOf(s, s.clients[c].pc.host).Some? && Admits(GameOf(s, s.clients[c].pc.host).value)
    ensures var s' := DoJoinRegister(s, c, order);
      var pc := s.clients[c].pc;
      var host := s.clients[pc.host];
      var g := host.game.value;
      var p := PartialClient(c, pc.nickname, true, Some(s.clients[c].channel), None);
      && pc.host != c && host.nickname.Some? && s'.directory == s.directory
      && s'.clients == s.clients
           [pc.host := host.(game := Some(g.(connected := Some(g.Roster()[c := p]))))]
           [c := s.clients[c].(pc :=
             Registered(pc.gameId, pc.host, host.nickname.value, host.channel, true, pc.nickname))]
  {
    RegisterEnters(s, c, order);
  }

  lemma EnteringSends(s: State, c: Uuid, order: seq<Uuid>, d: Uuid)
    requires Inv(s) && c in s.clients && s.clients[c].pc.SawLive? && OrderOk(s, c, order) && d in s.clients
    requires GameOf(s, s.clients[c].pc.host).Some? && Admits(GameOf(s, s.clients[c].pc.host).value)
    ensures var pc := s.clients[c].pc;
      var g := GameOf(s, pc.host).value;
      d in DoJoinRegister(s, c, order).clients && Out(DoJoinRegister(s, c, order), d) ==
        if d == c then Out(s, c) + Introductions(g, order) + [ConnectedClient(g.gameId, g.host.id, g.host.nickname)]
        else if d == pc.host || d in g.Roster() then Out(s, d) + [ConnectedClient(g.gameId, c, pc.nickname)]
        else Out(s, d)
  {
    var pc := s.clients[c].pc;
    assert ClientOk(c, s.clients[c], s.claims, s.games);
    assert ClientOk(pc.host, s.clients[pc.host], s.claims, s.games);
    RegisterSends(s, c, pc.host, Me(s, c, pc.nickname), order, d);
    KeepsChannel(s, c, order, d);
  }

  lemma KeepsChannel(s: State, c: Uuid, order: seq<Uuid>, d: Uuid)
    requires c in s.clients && s.clients[c].pc.SawLive? && OrderOk(s, c, order) && d in s.clients
    requires GameOf(s, s.clients[c].pc.host).Some?
    ensures var s' := DoJoinRegister(s, c, order);
      && d in s'.clients && s'.clients[d].channel == s.clients[d].channel
      && s'.outboxes == RegisterOut(GameOf(s, s.clients[c].pc.host).value, s.outboxes,
                                    Me(s, c, s.clients[c].pc.nickname), order)
  {
  }

  /** A game that is started, or only a guest's, turns the newcomer away; nobody is told anything yet. */
  lemma ClosedGameTurnsAway(s: State, c: Uuid, order: seq<Uuid>)
    requires Inv(s) && c in s.clients && s.clients[c].pc.SawLive? && OrderOk(s, c, order)
    requires var hosted := GameOf(s, s.clients[c].pc.host);
      hosted.Some? && (!hosted.value.isHost || hosted.value.isStarted)
    ensures var s' := Step(s, JoinRegister(c, order));
      var pc := s.clients[c].pc;
      s.clients[pc.host].nickname.Some? &&
      Moves(s, s', c, Registered(pc.gameId, pc.host, s.clients[pc.host].nickname.value, s.clients[pc.host].channel,
                                 false, pc.nickname))
  {
    var pc := s.clients[c].pc;
    var g := s.clients[pc.host].game.value;
    assert ClientOk(pc.host, s.clients[pc.host], s.claims, s.games);
    assert !Admits(g);
    assert s.clients[pc.host := s.clients[pc.host].(game := Some(g))] == s.clients;
    NothingSent(s, c);
  }

  /** A host that is gone, or has no game, costs the key its existence and the newcomer its connection. */
  lemma MissingHostHangsUp(s: State, c: Uuid, order: seq<Uuid>)
    requires WiringOk(s) && c in s.clients && s.clients[c].pc.SawLive? && OrderOk(s, c, order)
    requires s.clients[c].pc.host !in s.clients || s.clients[s.clients[c].pc.host].game.None?
    ensures var s' := Step(s, JoinRegister(c, order));
      && s'.directory == s.directory - {s.clients[c].pc.gameId}
      && HangsUp(s, s'.(directory := s.directory), c)
  {
    FailHangsUp(s, c);
  }

  /** The claimer becomes the host of an open game without members. */
  lemma InstallMakesHost(s: State, c: Uuid)
    requires Inv(s) && c in s.clients && s.clients[c].pc.Claimed?
    ensures var s' := Step(s, JoinInstall(c));
      var g := s.clients[c].pc.gameId;
      s.clients[c].nickname.Some? &&
      var me := PartialClient(c, s.clients[c].nickname.value, true, Some(s.clients[c].channel), None);
      Only(s, s', c, s.clients[c].(game := Some(Game(true, g, me, me, Some(map[]), false, true, [])), pc := Idle),
           [JoinResponse(g, true, true)])
  {
    assert ClientOk(c, s.clients[c], s.claims, s.games);
    InstalledThenTold(s, c, HostedBy(s, c, s.clients[c].pc.gameId), JoinResponse(s.clients[c].pc.gameId, true, true));
  }

  lemma InstalledThenTold(s: State, c: Uuid, g: Game, m: Message)
    requires WiringOk(s) && c in s.clients
    ensures Only(s, SetPc(Reply(SetGame(s, c, Some(g)), c, m), c, Idle), c,
                 s.clients[c].(game := Some(g), pc := Idle), [m])
  {
  }

  /** Who was admitted gets a game that points at the host; who was not gets none, and is told so. */
  lemma InstallMakesGuest(s: State, c: Uuid)
    requires WiringOk(s) && c in s.clients && s.clients[c].pc.Registered?
    ensures var s' := Step(s, JoinInstall(c));
      var pc := s.clients[c].pc;
      var me := PartialClient(c, pc.nickname, true, Some(s.clients[c].channel), None);
      var host := PartialClient(pc.host, pc.hostNickname, true, Some(pc.hostChannel), None);
      if pc.accepted then
        Only(s, s', c, s.clients[c].(game := Some(Game(false, pc.gameId, me, host, None, false, true, [])), pc := Idle),
             [JoinResponse(pc.gameId, false, true)])
      else Only(s, s', c, s.clients[c].(pc := Idle), [JoinResponse(pc.gameId, false, false)])
  {
    var pc := s.clients[c].pc;
    if pc.accepted {
      InstalledThenTold(s, c, JoinedBy(s, c, pc), JoinResponse(pc.gameId, false, true));
    } else {
      AnsweredThenIdle(s, c, JoinResponse(pc.gameId, false, false));
    }
  }

  // ---- leave and close ---------------------------------------------------------------------

  lemma LeaveWithoutGame(s: State, c: Uuid)
    requires WiringOk(s) && Ready(s, c) && s.clients[c].game.None?
    ensures Refuses(s, Step(s, Leave(c)), c, NotInGame(ClientNotInGame))
  {
    FailWithRefuses(s, c, NotInGame(ClientNotInGame));
  }

  lemma CloseWithoutGame(s: State, c: Uuid)
    requires WiringOk(s) && Enabled(s, Close(c)) && s.clients[c].game.None?
    ensures Moves(s, Step(s, Close(c)), c, Closed)
  {
    SetPcMoves(s, c, Closed);
  }

  /** The clients once the guest `c` has left: it has no game, and is out of the roster if it was in. */
  function WithoutGuest(s: State, c: Uuid): map<Uuid, Client>
    requires c in s.clients && s.clients[c].game.Some?
  {
    var h := s.clients[c].game.value.host.id;
    var left := s.clients[c := s.clients[c].(game := None)];
    if IsHost(s, h) && h != c && c in s.clients[h].game.value.Roster() then
      var g := s.clients[h].game.value;
      left[h := s.clients[h].(game := Some(g.(connected := Some(g.Roster() - {c}))))]
    else left
  }

  lemma GuestDrops(s: State, c: Uuid)
    requires ClientsOk(s) && LinksOk(Parts(s), s.claims) && c in s.clients && s.clients[c].pc.Idle?
    requires s.clients[c].game.Some? && !s.clients[c].game.value.isHost
    ensures DropGame(s, c).clients == WithoutGuest(s, c) && DropGame(s, c).directory == s.directory
  {
    JoinedGame(s, c);
    var mine := s.clients[c].game.value;
    DropUnlists(s, c, mine);
    var s' := DropGame(s, c);
    var h := mine.host.id;
    if h in s.clients && s.clients[h].game.Some? && !(IsHost(s, h) && c in s.clients[h].game.value.Roster()) {
      assert s'.clients[h] == s.clients[h];
    }
    forall d | d in s.clients ensures s'.clients[d] == WithoutGuest(s, c)[d] {}
  }

  /** What the leaving of the guest `c` is to another client. */
  function GuestNews(s: State, c: Uuid, d: Uuid): seq<Message>
    requires c in s.clients && s.clients[c].game.Some?
  {
    var h := s.clients[c].game.value.host.id;
    if HearsOf(s, c, d) then [DisconnectedClient(s.clients[h].game.value.gameId, c)] else []
  }

  lemma GuestGone(s: State, c: Uuid, d: Uuid)
    requires Inv(s) && c in s.clients && s.clients[c].pc.Idle? && d in s.clients
    requires s.clients[c].game.Some? && !s.clients[c].game.value.isHost
    ensures var s' := DropGame(s, c);
      && WiringOk(s') && s'.clients == WithoutGuest(s, c) && s'.clients[c] == s.clients[c].(game := None)
      && s'.directory == s.directory && d in s'.clients
      && Out(s', d) == Out(s, d) + if d == c then [LeaveResponse(true)] else GuestNews(s, c, d)
  {
    GuestDrops(s, c);
    DropKeeps(s, c);
    DropFrees(s, c);
    LeaveSends(s, c, d);
    DropChannels(s, c, d);
  }

  /** A guest that leaves, or closes: it is out of the roster that has it, those who stay are told once,
      and it is told goodbye; the key and everybody else are left alone. */
  lemma GuestLeaves(s: State, a: Action, d: Uuid)
    requires Inv(s) && Enabled(s, a) && (a.Leave? || a.Close?) && d in s.clients
    requires s.clients[a.c].game.Some? && !s.clients[a.c].game.value.isHost
    ensures var s' := Step(s, a);
      var pc := if a.Close? then Closed else Idle;
      && s'.clients == WithoutGuest(s, a.c)[a.c := s.clients[a.c].(game := None, pc := pc)]
      && s'.directory == s.directory
      && Out(s', d) == Out(s, d) + if d == a.c then [LeaveResponse(true)] else GuestNews(s, a.c, d)
  {
    GuestGone(s, a.c, d);
    if a.Close? {
      SetPcMoves(DropGame(s, a.c), a.c, Closed);
    } else {
      assert Step(s, a) == DropGame(s, a.c);
    }
  }

  lemma DropChannels(s: State, c: Uuid, d: Uuid)
    requires Inv(s) && c in s.clients && s.clients[c].pc.Idle? && d in s.clients
    ensures var s' := DropGame(s, c); d in s'.clients && s'.clients[d].channel == s.clients[d].channel
  {
    if s.clients[c].game.Some? && !s.clients[c].game.value.isHost {
      JoinedGame(s, c);
      DropUnlists(s, c, s.clients[c].game.value);
    }
  }

  /** What a host's leaving or closing changes; `Delivery.TeardownIsComplete` says who is told. */
  lemma HostLeaves(s: State, a: Action)
    requires Inv(s) && Enabled(s, a) && (a.Leave? || a.Close?) && IsHost(s, a.c)
    ensures var s' := Step(s, a);
      && s'.clients == s.clients[a.c := s.clients[a.c].(game := None, pc := if a.Close? then Closed else Idle)]
      && s'.directory == s.directory - {s.clients[a.c].game.value.gameId}
  {
  }

  // ---- start ---------------------------------------------------------------------------------

  predicate IsBlank(p: Option<map<nat, bool>>, count: nat) {
    && p.Some?
    && (forall i: nat :: i < count ==> i in p.value && !p.value[i])
    && (forall i :: i in p.value ==> i < count)
  }

  lemma NothingDoneIsBlank(count: nat)
    ensures IsBlank(Some(NothingDone(count)), count)
  {
  }

  /** The tasks are those at the chosen positions of the pool. */
  predicate AreChosen(tasks: seq<GameTask>, pool: seq<GameTask>, picks: seq<nat>) {
    && |tasks| == |picks|
    && forall i :: 0 <= i < |picks| ==> picks[i] < |pool| && tasks[i] == pool[picks[i]]
  }

  /** `g'` is `g` closed to newcomers, started with the chosen tasks, and otherwise the same except for
      records. */
  predicate IsStarted(g: Game, g': Game, pool: seq<GameTask>, picks: seq<nat>) {
    && AreChosen(g'.tasks, pool, picks)
    && g' == g.(isStarted := true, public := false, tasks := g'.tasks, connected := g'.connected,
                host := g.host.(progress := g'.host.progress))
  }

  ghost predicate HaveBlanks(g: Game, g': Game, count: nat) {
    && g'.connected.Some? && g'.Roster().Keys == g.Roster().Keys && IsBlank(g'.host.progress, count)
    && forall m :: m in g.Roster() ==>
         && IsBlank(g'.Roster()[m].progress, count)
         && g'.Roster()[m] == g.Roster()[m].(progress := g'.Roster()[m].progress)
  }

  lemma StartedFully(g: Game, pool: seq<GameTask>, picks: seq<nat>, count: nat)
    requires g.isHost && g.connected.Some? && !g.isStarted && ValidPicks(pool, count, picks)
    ensures var g' := StartGame(g, Chosen(pool, picks), count);
      && IsStarted(g, g', pool, picks)
      && (count <= |pool| ==> HaveBlanks(g, g', count))
      && (count > |pool| ==> g'.connected == g.connected && g'.host == g.host)
  {
    NothingDoneIsBlank(count);
  }

  lemma StartState(s: State, c: Uuid, count: nat, picks: seq<nat>)
    requires ClientsOk(s) && Ready(s, c) && IsHost(s, c) && !s.clients[c].game.value.isStarted
    requires ValidPicks(s.pool, count, picks)
    ensures var s' := DoStart(s, c, Some(count), picks);
      var g := s.clients[c].game.value;
      var g' := StartGame(g, Chosen(s.pool, picks), count);
      && s'.directory == s.directory
      && s'.clients == s.clients[c := s.clients[c].(game := Some(g'), closing := count > |s.pool|)]
      && s'.outboxes == if count <= |s.pool| then SendGlobal(s.outboxes, g, StartEvent(count), {}) else s.outboxes
  {
  }

  /** The first start with enough tasks: the phase is closed, and everyone has a blank record of them. */
  lemma StartSetsTasks(s: State, c: Uuid, count: nat, picks: seq<nat>)
    requires Inv(s) && Ready(s, c) && IsHost(s, c) && !s.clients[c].game.value.isStarted
    requires ValidPicks(s.pool, count, picks) && count <= |s.pool|
    ensures var s' := Step(s, Start(c, Some(count), picks));
      var g := s.clients[c].game.value;
      && IsHost(s', c)
      && var g' := s'.clients[c].game.value;
      && s'.clients == s.clients[c := s.clients[c].(game := Some(g'))] && s'.directory == s.directory
      && |g'.tasks| == count && IsStarted(g, g', s.pool, picks) && HaveBlanks(g, g', count)
  {
    var g := s.clients[c].game.value;
    assert GameOk(c, s.clients[c], g);
    StartedFully(g, s.pool, picks, count);
    StartState(s, c, count, picks);
  }

  /** ... and is told so, once; nobody else is told anything. */
  lemma StartTellsEveryone(s: State, c: Uuid, count: nat, picks: seq<nat>, d: Uuid)
    requires Inv(s) && Ready(s, c) && IsHost(s, c) && !s.clients[c].game.value.isStarted
    requires ValidPicks(s.pool, count, picks) && count <= |s.pool| && d in s.clients
    ensures var s' := Step(s, Start(c, Some(count), picks));
      d in s'.clients && Out(s', d) ==
        if d == c || d in s.clients[c].game.value.Roster() then Out(s, d) + [StartEvent(count)] else Out(s, d)
  {
    StartState(s, c, count, picks);
    Delivery.BroadcastReachesEachOnce(s, c, StartEvent(count), {}, d);
  }

  /** One with too few: the game is started all the same, nobody is told, and the host is closed. */
  lemma ShortStartTellsNobody(s: State, c: Uuid, count: nat, picks: seq<nat>)
    requires Inv(s) && Ready(s, c) && IsHost(s, c) && !s.clients[c].game.value.isStarted
    requires ValidPicks(s.pool, count, picks) && count > |s.pool|
    ensures var s' := Step(s, Start(c, Some(count), picks));
      var g := s.clients[c].game.value;
      && IsHost(s', c)
      && var g' := s'.clients[c].game.value;
      && IsStarted(g, g', s.pool, picks) && g'.connected == g.connected && g'.host == g.host
      && Only(s, s', c, s.clients[c].(game := Some(g'), closing := true), [])
  {
    var g := s.clients[c].game.value;
    assert GameOk(c, s.clients[c], g);
    StartedFully(g, s.pool, picks, count);
    StartState(s, c, count, picks);
    NothingSent(s, c);
  }

  lemma StartWithoutGame(s: State, c: Uuid, count: Option<nat>, picks: seq<nat>)
    requires WiringOk(s) && Ready(s, c) && (count.Some? ==> ValidPicks(s.pool, count.value, picks))
    requires s.clients[c].game.None?
    ensures Refuses(s, Step(s, Start(c, count, picks)), c, NotInGame(ClientNotInGame))
  {
    FailWithRefuses(s, c, NotInGame(ClientNotInGame));
  }

  /** A second start, or one that cannot be read, closes the host and leaves its game as it is. */
  lemma StartAgainHangsUp(s: State, c: Uuid, count: Option<nat>, picks: seq<nat>)
    requires WiringOk(s) && Ready(s, c) && (count.Some? ==> ValidPicks(s.pool, count.value, picks))
    requires IsHost(s, c) && (count.None? || s.clients[c].game.value.isStarted)
    ensures HangsUp(s, Step(s, Start(c, count, picks)), c)
  {
    assert SetGame(s, c, s.clients[c].game) == s;
    FailHangsUp(s, c);
  }

  /** A guest that tries to start the game has left it. */
  lemma GuestStartLeaves(s: State, c: Uuid, count: Option<nat>, picks: seq<nat>, d: Uuid)
    requires Inv(s) && Ready(s, c) && (count.Some? ==> ValidPicks(s.pool, count.value, picks)) && d in s.clients
    requires s.clients[c].game.Some? && !s.clients[c].game.value.isHost
    ensures var s' := DoStart(s, c, count, picks);
      && s'.clients == WithoutGuest(s, c)[c := s.clients[c].(game := None, pc := Idle, closing := true)]
      && s'.directory == s.directory
      && Out(s', d) == Out(s, d) +
           if d == c then [LeaveResponse(true), ErrorMessage(NotGameHost(ClientNotHost))] else GuestNews(s, c, d)
  {
    GuestGone(s, c, c);
    GuestGone(s, c, d);
    GuestStartIs(s, c, count, picks);
    FailWithSends(DropGame(s, c), c, NotGameHost(ClientNotHost), d);
    SentTwice(Out(s, c), LeaveResponse(true), ErrorMessage(NotGameHost(ClientNotHost)));
  }

  lemma SentTwice(was: seq<Message>, a: Message, b: Message)
    ensures was + [a] + [b] == was + [a, b]
  {
  }

  lemma GuestStartIs(s: State, c: Uuid, count: Option<nat>, picks: seq<nat>)
    requires Ready(s, c) && (count.Some? ==> ValidPicks(s.pool, count.value, picks))
    requires s.clients[c].game.Some? && !s.clients[c].game.value.isHost && c in DropGame(s, c).clients
    ensures DoStart(s, c, count, picks) == FailWith(DropGame(s, c), c, NotGameHost(ClientNotHost))
  {
  }

  lemma FailWithSends(s: State, c: Uuid, e: ClientError, d: Uuid)
    requires WiringOk(s) && c in s.clients && d in s.clients
    ensures var s' := FailWith(s, c, e);
      && s'.clients == s.clients[c := s.clients[c].(pc := Idle, closing := true)] && s'.directory == s.directory
      && Out(s', d) == if d == c then Out(s, c) + [ErrorMessage(e)] else Out(s, d)
  {
    FailWithRefuses(s, c, e);
  }

  // ---- task ----------------------------------------------------------------------------------

  /** What a client is shown of a task: everything but its private cases. */
  lemma ShownIsPublic(t: GameTask)
    ensures t.Shown().taskId == t.taskId && t.Shown().question == t.question && t.Shown().publicCases == t.publicCases
  {
  }

  /** The task with the index asked for, or each of the errors exactly when it is due. */
  lemma TaskIsShown(s: State, c: Uuid, index: Option<nat>)
    requires WiringOk(s) && Ready(s, c)
    ensures var s' := Step(s, Task(c, index));
      if s.clients[c].game.None? then Refuses(s, s', c, NotInGame(ClientNotInGame))
      else if index.None? then HangsUp(s, s', c)
      else
        var h := s.clients[c].game.value.host.id;
        if h !in s.clients then Refuses(s, s', c, InternalServerError(HostMissing))
        else if s.clients[h].game.None? then Refuses(s, s', c, InternalServerError(HostNotInSameGame))
        else
          var g := s.clients[h].game.value;
          if !g.isStarted then Refuses(s, s', c, GameNotStarted)
          else if index.value >= |g.tasks| then Refuses(s, s', c, OutOfRangeTask)
          else
            var t := g.tasks[index.value];
            Only(s, s', c, s.clients[c], [TaskResponse(TaskView(t.taskId, t.question, t.publicCases))])
  {
    if s.clients[c].game.None? {
      FailWithRefuses(s, c, NotInGame(ClientNotInGame));
    } else if index.None? {
      FailHangsUp(s, c);
    } else {
      TaskOfHost(s, c, s.clients[c].game.value.host.id, index.value);
    }
  }

  lemma TaskOfHost(s: State, c: Uuid, h: Uuid, i: nat)
    requires WiringOk(s) && c in s.clients
    ensures TaskAt(s, h, i).None? ==> Refuses(s, FailWith(s, c, TaskProblem(s, h)), c, TaskProblem(s, h))
    ensures TaskAt(s, h, i).Some? ==>
      Only(s, Reply(s, c, TaskResponse(TaskAt(s, h, i).value)), c, s.clients[c], [TaskResponse(TaskAt(s, h, i).value)])
  {
    match TaskAt(s, h, i)
    case None => FailWithRefuses(s, c, TaskProblem(s, h));
    case Some(task) => ReplyReaches(s, c, TaskResponse(task));
  }

  // ---- compile -------------------------------------------------------------------------------

  lemma CompileRemembers(s: State, c: Uuid, request: Option<(string, nat)>)
    requires WiringOk(s) && Ready(s, c)
    ensures var s' := Step(s, CompileRead(c, request));
      if s.clients[c].game.None? then Refuses(s, s', c, NotInGame(ClientNotInGame))
      else if request.None? then HangsUp(s, s', c)
      else Moves(s, s', c, CompileSaw(s.clients[c].game.value.host.id, request.value.0, request.value.1))
  {
    if s.clients[c].game.None? {
      FailWithRefuses(s, c, NotInGame(ClientNotInGame));
    } else if request.None? {
      FailHangsUp(s, c);
    } else {
      SetPcMoves(s, c, CompileSaw(s.clients[c].game.value.host.id, request.value.0, request.value.1));
    }
  }

  /** `stdin` are the inputs of the cases, in order. */
  predicate AreInputs(stdin: seq<string>, cases: seq<TestCase>) {
    |stdin| == |cases| && forall j :: 0 <= j < |cases| ==> stdin[j] == cases[j].stdin
  }

  /** The code goes to the sandbox with the inputs of the public cases of the task asked for, exactly
      when the host is there, hosts a started game, and that has the task; otherwise the error that is due
      is to be sent. */
  lemma PrepareRunsTheInputs(s: State, c: Uuid)
    requires Inv(s) && c in s.clients && s.clients[c].pc.CompileSaw?
    ensures var s' := Step(s, CompilePrepare(c));
      var saw := s.clients[c].pc;
      if saw.host !in s.clients then Moves(s, s', c, Replying(ErrorMessage(InternalServerError(HostMissing)), true))
      else if s.clients[saw.host].game.None? then
        Moves(s, s', c, Replying(ErrorMessage(InternalServerError(HostNotInGame)), true))
      else
        var g := s.clients[saw.host].game.value;
        if !g.isStarted then Moves(s, s', c, Replying(ErrorMessage(GameNotStarted), true))
        else if saw.taskIndex >= |g.tasks| then
          Moves(s, s', c, Replying(ErrorMessage(CompilationError(HostNotHost)), true))
        else
          && g.isHost && c in s'.clients && s'.clients[c].pc.Running?
          && var pc := s'.clients[c].pc;
          && Moves(s, s', c, pc)
          && pc.host == saw.host && pc.code == saw.code && pc.taskIndex == saw.taskIndex && pc.prepared == g.gameId
          && AreInputs(pc.stdin, g.tasks[saw.taskIndex].publicCases)
  {
    SetPcMoves(s, c, Planned(s, s.clients[c].pc));
    PlannedInputs(s, s.clients[c].pc);
  }

  lemma PlannedInputs(s: State, saw: Pc)
    requires ClientsOk(s) && saw.CompileSaw?
    ensures HostProblem(s, saw.host).None? ==>
      var g := s.clients[saw.host].game.value;
      && g.isHost
      && (saw.taskIndex < |g.tasks| ==>
            Planned(s, saw).Running? && AreInputs(Planned(s, saw).stdin, g.tasks[saw.taskIndex].publicCases))
  {
    if HostProblem(s, saw.host).None? {
      assert GameOk(saw.host, s.clients[saw.host], s.clients[saw.host].game.value);
    }
  }

  /** `s'` is `s` after the game `g` has graded the runs of `c`: a report on a task that is not solved is
      an answer like any other. Only a solved task changes more than the request, and
      `Delivery.SolvedChangesOneEntry` says what. */
  ghost predicate AnswersGrade(s: State, s': State, c: Uuid, g: Game, i: nat, run: SandboxResponse,
                               privateRun: Option<SandboxResponse>)
  {
    if i >= |g.tasks| then Moves(s, s', c, Replying(ErrorMessage(CompilationError(CompilationFailed)), true))
    else
      match Grader.Grade(g.tasks[i], i, run, privateRun)
      case Refused => Moves(s, s', c, Replying(ErrorMessage(CompilationError(CompilationFailed)), true))
      case Graded(r) =>
        if !r.isDone then Moves(s, s', c, Replying(CompileResponse(r), false))
        else if g.host.progress.None? then HangsUp(s, s', c)
        else c in s'.clients && s'.clients[c].pc == Replying(CompileResponse(r), false)
  }

  /** What a grading answers: the error that is due, or what the task says of the two runs. */
  lemma ValidateAnswersTheGrade(s: State, c: Uuid, run: SandboxResponse, privateRun: Option<SandboxResponse>)
    requires Inv(s) && c in s.clients && s.clients[c].pc.Running?
    ensures var s' := DoCompileValidate(s, c, Some(run), privateRun);
      var pc := s.clients[c].pc;
      if pc.host !in s.clients then Moves(s, s', c, Replying(ErrorMessage(InternalServerError(HostMissing)), true))
      else if s.clients[pc.host].game.None? then
        Moves(s, s', c, Replying(ErrorMessage(InternalServerError(HostNotInGame)), true))
      else
        var g := s.clients[pc.host].game.value;
        if !g.isStarted then Moves(s, s', c, Replying(ErrorMessage(GameNotStarted), true))
        else AnswersGrade(s, s', c, g, pc.taskIndex, run, privateRun)
  {
    if HostProblem(s, s.clients[c].pc.host).Some? {
      UngradedReplies(s, c, run, privateRun);
    } else {
      GradeOfHost(s, c, run, privateRun);
    }
  }

  lemma UngradedReplies(s: State, c: Uuid, run: SandboxResponse, privateRun: Option<SandboxResponse>)
    requires WiringOk(s) && c in s.clients && s.clients[c].pc.Running?
    requires HostProblem(s, s.clients[c].pc.host).Some?
    ensures Moves(s, DoCompileValidate(s, c, Some(run), privateRun), c,
                  Replying(ErrorMessage(HostProblem(s, s.clients[c].pc.host).value), true))
  {
    SetPcMoves(s, c, Replying(ErrorMessage(HostProblem(s, s.clients[c].pc.host).value), true));
  }

  lemma GradeOfHost(s: State, c: Uuid, run: SandboxResponse, privateRun: Option<SandboxResponse>)
    requires WiringOk(s) && ClientsOk(s) && c in s.clients && s.clients[c].pc.Running?
    requires HostProblem(s, s.clients[c].pc.host).None?
    ensures var pc := s.clients[c].pc;
      AnswersGrade(s, DoCompileValidate(s, c, Some(run), privateRun), c, s.clients[pc.host].game.value, pc.taskIndex,
                   run, privateRun)
  {
    var pc := s.clients[c].pc;
    var g := s.clients[pc.host].game.value;
    assert GameOk(pc.host, s.clients[pc.host], g);
    var o := ValidateOutcome(g, c, pc.taskIndex, run, privateRun);
    if !Credits(g, c, pc.taskIndex, run, privateRun) {
      Delivery.UncreditedIsIdle(s, pc.host, c, pc.taskIndex, run, privateRun);
      match o
      case Answer(r) => SetPcMoves(s, c, Replying(CompileResponse(r), false));
      case Failed => SetPcMoves(s, c, Replying(ErrorMessage(CompilationError(CompilationFailed)), true));
      case Panicked => FailHangsUp(s, c);
    }
  }

  /** All that a solved task changes besides the outboxes: one entry of the host's record, and where the
      request is. */
  lemma SolvedChangesRecord(s: State, c: Uuid, run: SandboxResponse, privateRun: Option<SandboxResponse>)
    requires Inv(s) && Delivery.SolvesNow(s, c, Some(run), privateRun)
    ensures var s' := DoCompileValidate(s, c, Some(run), privateRun);
      var h, i := s.clients[c].pc.host, s.clients[c].pc.taskIndex;
      var g := s.clients[h].game.value;
      var credited := g.(host := g.host.(progress := Some(g.host.progress.value[i := true])));
      var mid := s.clients[h := s.clients[h].(game := Some(credited))];
      && s'.directory == s.directory && c in s'.clients
      && s'.clients == mid[c := mid[c].(pc := s'.clients[c].pc)]
  {
    var h, i := s.clients[c].pc.host, s.clients[c].pc.taskIndex;
    var g := s.clients[h].game.value;
    assert GameOk(h, s.clients[h], g);
    Delivery.CreditedWhenSolved(g, c, i, run, privateRun);
    CreditedGame(g, c, i, run, privateRun);
    Delivery.SolvedState(s, c, run, privateRun);
  }

  lemma SandboxFailureHangsUp(s: State, c: Uuid, privateRun: Option<SandboxResponse>)
    requires WiringOk(s) && c in s.clients && s.clients[c].pc.Running?
    ensures HangsUp(s, Step(s, CompileValidate(c, None, privateRun)), c)
  {
    FailHangsUp(s, c);
  }

  /** The pending answer goes out, to its client alone, and an error closes it. */
  lemma ReplyIsSent(s: State, c: Uuid)
    requires WiringOk(s) && c in s.clients && s.clients[c].pc.Replying?
    ensures var s' := Step(s, CompileReply(c));
      var pc := s.clients[c].pc;
      Only(s, s', c, s.clients[c].(pc := Idle, closing := s.clients[c].closing || pc.fails), [pc.reply])
  {
    ReplyReaches(s, c, s.clients[c].pc.reply);
  }

  // ---- every answer comes through -------------------------------------------------------------

  ghost predicate RepliesAt(r: Runs.Run, i: nat, c: Uuid)
    requires i < |r.actions|
  {
    r.actions[i] == CompileReply(c)
  }

  /** A pending answer waits, whatever other clients do. */
  lemma AnswerStays(s: State, a: Action, c: Uuid)
    requires WiringOk(s) && Enabled(s, a) && a != CompileReply(c) && c in s.clients && s.clients[c].pc.Replying?
    ensures c in Step(s, a).clients && Step(s, a).clients[c].pc == s.clients[c].pc
  {
    Runs.StepWaits(s, a);
  }

  lemma {:induction false} AnswerIsPending(r: Runs.Run, pool: seq<GameTask>, j: nat, k: nat, c: Uuid)
    requires Runs.IsRun(r, pool) && j <= k < |r.states|
    requires c in r.states[j].clients && r.states[j].clients[c].pc.Replying?
    requires forall i :: j <= i < k ==> !RepliesAt(r, i, c)
    ensures c in r.states[k].clients && r.states[k].clients[c].pc == r.states[j].clients[c].pc
    decreases k
  {
    if j < k {
      AnswerIsPending(r, pool, j, k - 1, c);
      Runs.RunIsOk(r, pool, k - 1);
      assert Runs.StepAt(r, k - 1) && !RepliesAt(r, k - 1, c);
      AnswerStays(r.states[k - 1], r.actions[k - 1], c);
    }
  }

  /** Whatever a grading of `c` answers is what `c` is sent when it next replies, however many steps of
      others fall between; a failure is sent too, and then closes it. */
  lemma AnswersComeThrough(r: Runs.Run, pool: seq<GameTask>, j: nat, k: nat, c: Uuid)
    requires Runs.IsRun(r, pool) && j < k < |r.actions| && r.actions[j].CompileValidate? && r.actions[j].c == c
    requires c in r.states[j + 1].clients && r.states[j + 1].clients[c].pc.Replying?
    requires RepliesAt(r, k, c) && forall i :: j < i < k ==> !RepliesAt(r, i, c)
    ensures var pc := r.states[j + 1].clients[c].pc;
      && c in r.states[k].clients && c in r.states[k + 1].clients
      && Out(r.states[k + 1], c) == Out(r.states[k], c) + [pc.reply]
      && r.states[k + 1].clients[c].closing == pc.fails
  {
    AnswerIsPending(r, pool, j + 1, k, c);
    Runs.RunIsOk(r, pool, k);
    assert Runs.StepAt(r, k);
    var s := r.states[k];
    assert ClientOk(c, s.clients[c], s.claims, s.games);
    ReplyIsSent(s, c);
  }
}
