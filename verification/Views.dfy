/** What a client makes of the events it is sent: the set of the others in a game.
    In every reachable state it is the truth, for hosts and for the members of their rosters. */
module Views {
  import opened Types
  import opened GameRules
  import opened Protocol
  import opened Invariant
  import opened Preservation

  /** The game of whoever is sent this is over: a guest has left, a host has left, or the host of a
      guest has. */
  predicate EndsGame(m: Message) {
    m.LeaveResponse? || m.ShutdownResponse? || m.ShutdownEvent?
  }

  /** What one more message does to the view of game `g`. */
  function Apply(v: map<Uuid, string>, m: Message, g: GameId): map<Uuid, string> {
    if m.ConnectedClient? && m.gameId == g then v[m.clientId := m.nickname]
    else if m.DisconnectedClient? && m.gameId == g then v - {m.clientId}
    else if EndsGame(m) then map[]
    else v
  }

  /** Fold the connect and disconnect events of one game, afresh whenever a game is over. */
  function View(ms: seq<Message>, g: GameId): map<Uuid, string> {
    if ms == [] then map[] else Apply(View(ms[..|ms| - 1], g), ms[|ms| - 1], g)
  }

  predicate IsNews(m: Message) {
    m.ConnectedClient? || m.DisconnectedClient? || EndsGame(m)
  }

  function Out(s: State, c: Uuid): seq<Message>
    requires c in s.clients
  {
    if s.clients[c].channel in s.outboxes then s.outboxes[s.clients[c].channel] else []
  }

  /** The participants of a game, by nickname. */
  function Everyone(g: Game): map<Uuid, string> {
    Nicknames(g.Roster())[g.host.id := g.host.nickname]
  }

  // ---- the invariant on views --------------------------------------------------------------

  /** `h`, whose part is `p`, hosts `g`, and `c` takes part. */
  predicate Plays(p: Part, h: Uuid, c: Uuid, g: GameId) {
    p.Hosting? && p.gameId == g && (c == h || c in p.members)
  }

  /** `c` neither hosts a game `g` nor is in the roster of one. */
  ghost predicate IsStranger(parts: map<Uuid, Part>, c: Uuid, g: GameId) {
    forall h :: h in parts ==> !Plays(parts[h], h, c, g)
  }

  /** A stranger to a game knows nobody in it. */
  ghost predicate StrangersOk(s: State) {
    forall c, g :: c in s.clients && IsStranger(Parts(s), c, g) ==> View(Out(s, c), g) == map[]
  }

  ghost predicate HostViewOk(s: State, h: Uuid)
    requires IsHost(s, h)
  {
    var g := s.clients[h].game.value;
    View(Out(s, h), g.gameId) == Everyone(g) - {h}
  }

  ghost predicate MemberViewOk(s: State, h: Uuid, d: Uuid)
    requires IsHost(s, h) && d in s.clients
  {
    var g := s.clients[h].game.value;
    View(Out(s, d), g.gameId) == Everyone(g) - {d}
  }

  ghost predicate HostsSee(s: State) {
    forall h :: IsHost(s, h) ==> HostViewOk(s, h)
  }

  ghost predicate MembersSee(s: State) {
    forall h, d :: IsHost(s, h) && d in s.clients && d in s.clients[h].game.value.Roster() ==> MemberViewOk(s, h, d)
  }

  ghost predicate ViewsOk(s: State) {
    StrangersOk(s) && HostsSee(s) && MembersSee(s)
  }

  // ---- who is sent what --------------------------------------------------------------------

  lemma ViewAppends(ms: seq<Message>, m: Message, g: GameId)
    ensures View(ms + [m], g) == Apply(View(ms, g), m, g)
  {
    assert (ms + [m])[..|ms|] == ms;
  }

  /** A roster and its host are on distinct channels, and a host is not in its own roster. */
  lemma AudienceIsExact(s: State, h: Uuid, skip: set<Uuid>, d: Uuid)
    requires Inv(s) && IsHost(s, h) && d in s.clients
    ensures var g := s.clients[h].game.value;
      && h !in g.Roster()
      && (s.clients[d].channel in RosterChannels(g, skip) <==> d in g.Roster() && d !in skip)
      && (s.clients[d].channel in Audience(g, skip) <==> (d in g.Roster() || d == h) && d !in skip)
  {
    var g := s.clients[h].game.value;
    assert GameOk(h, s.clients[h], g);
    assert RosterOf(s.clients[h]) == g.Roster();
    assert h !in Parts(s)[h].members;
    if d in g.Roster() && d !in skip {
      assert TrueCopy(g.Roster()[d], d, s.clients[d]);
    }
    if s.clients[d].channel in RosterChannels(g, skip) {
      var e :| e in g.Roster() && e !in skip && Reachable(g.Roster()[e])
               && g.Roster()[e].writeChannel.value == s.clients[d].channel;
      assert TrueCopy(g.Roster()[e], e, s.clients[e]);
    }
  }

  // ---- steps without news ------------------------------------------------------------------

  ghost predicate SilentOut(out: Outboxes, out': Outboxes) {
    && out'.Keys == out.Keys
    && forall ch, g :: ch in out ==> View(out'[ch], g) == View(out[ch], g)
  }

  lemma PostIsSilent(out: Outboxes, channel: Channel, m: Message)
    requires !IsNews(m)
    ensures SilentOut(out, Post(out, channel, m))
  {
    forall g | channel in out ensures View(out[channel] + [m], g) == View(out[channel], g) {
      ViewAppends(out[channel], m, g);
    }
  }

  lemma PostOnceIsSilent(out: Outboxes, channels: set<Channel>, m: Message)
    requires !IsNews(m)
    ensures SilentOut(out, PostOnce(out, channels, m))
  {
    forall ch, g | ch in out ensures View(out[ch] + [m], g) == View(out[ch], g) {
      ViewAppends(out[ch], m, g);
    }
  }

  lemma SendGlobalIsSilent(out: Outboxes, g: Game, m: Message, skip: set<Uuid>)
    requires !IsNews(m)
    ensures SilentOut(out, SendGlobal(out, g, m, skip))
  {
    PostOnceIsSilent(out, Audience(g, skip), m);
  }

  /** `y` takes the place of `x` with the same part and the same participants. */
  ghost predicate Calm(x: Client, y: Client) {
    && y.channel == x.channel && PartOf(y) == PartOf(x)
    && (x.game.Some? && x.game.value.isHost ==>
          && y.game.Some? && y.game.value.isHost
          && SameCopies(x.game.value.Roster(), y.game.value.Roster())
          && y.game.value.host == x.game.value.host.(progress := y.game.value.host.progress))
  }

  lemma CalmEveryone(x: Client, y: Client)
    requires Calm(x, y) && x.game.Some? && x.game.value.isHost
    ensures y.game.value.gameId == x.game.value.gameId && Everyone(y.game.value) == Everyone(x.game.value)
    ensures y.game.value.Roster().Keys == x.game.value.Roster().Keys
  {
    assert Nicknames(y.game.value.Roster()) == Nicknames(x.game.value.Roster());
  }

  ghost predicate Wired(s: State) {
    forall d :: d in s.clients ==> s.clients[d].channel in s.outboxes
  }

  ghost predicate Silent(s: State, s': State) {
    && s'.claims == s.claims && s'.clients.Keys == s.clients.Keys
    && SilentOut(s.outboxes, s'.outboxes)
    && Wired(s) && Wired(s')
    && forall d :: d in s.clients ==> Calm(s.clients[d], s'.clients[d])
  }

  lemma SilentParts(s: State, s': State)
    requires Silent(s, s')
    ensures Parts(s') == Parts(s)
  {
  }

  lemma SilentKeeps(s: State, s': State)
    requires ViewsOk(s) && Silent(s, s')
    ensures ViewsOk(s')
  {
    SilentParts(s, s');
    forall h | IsHost(s', h) ensures HostViewOk(s', h) {
      assert IsHost(s, h) && HostViewOk(s, h);
      CalmEveryone(s.clients[h], s'.clients[h]);
    }
    forall h, d | IsHost(s', h) && d in s'.clients && d in s'.clients[h].game.value.Roster()
      ensures MemberViewOk(s', h, d)
    {
      assert IsHost(s, h);
      CalmEveryone(s.clients[h], s'.clients[h]);
      assert MemberViewOk(s, h, d);
    }
  }

  // ---- the silent steps --------------------------------------------------------------------

  lemma SilentTwice(s: State, s1: State, s2: State)
    requires Silent(s, s1) && Silent(s1, s2)
    ensures Silent(s, s2)
  {
  }

  lemma ReplyIsSilent(s: State, c: Uuid, m: Message)
    requires Wired(s) && c in s.clients && !IsNews(m)
    ensures Silent(s, Reply(s, c, m))
  {
    PostIsSilent(s.outboxes, s.clients[c].channel, m);
  }

  lemma ReplaceIsSilent(s: State, s': State, c: Uuid)
    requires Wired(s) && c in s.clients && s'.outboxes == s.outboxes && s'.claims == s.claims
    requires c in s'.clients && s'.clients == s.clients[c := s'.clients[c]] && Calm(s.clients[c], s'.clients[c])
    ensures Silent(s, s')
  {
  }

  lemma FailIsSilent(s: State, c: Uuid)
    requires Wired(s) && c in s.clients && !s.clients[c].pc.Claimed? && !s.clients[c].pc.Registered?
    ensures Silent(s, Fail(s, c))
  {
    ReplaceIsSilent(s, Fail(s, c), c);
  }

  lemma FailWithIsSilent(s: State, c: Uuid, e: ClientError)
    requires Wired(s) && c in s.clients && !s.clients[c].pc.Claimed? && !s.clients[c].pc.Registered?
    ensures Silent(s, FailWith(s, c, e))
  {
    ReplyIsSilent(s, c, ErrorMessage(e));
    FailIsSilent(Reply(s, c, ErrorMessage(e)), c);
    SilentTwice(s, Reply(s, c, ErrorMessage(e)), FailWith(s, c, e));
  }

  lemma JoinReadIsSilent(s: State, c: Uuid, join: Option<GameId>)
    requires Wired(s) && Ready(s, c)
    ensures Silent(s, DoJoinRead(s, c, join))
  {
    if join.None? {
      FailIsSilent(s, c);
    } else if s.clients[c].game.Some? {
      FailWithIsSilent(s, c, AlreadyInGame(ClientAlreadyInGame));
    } else if s.clients[c].nickname.None? {
      FailWithIsSilent(s, c, ClientNotIdentified);
    } else if join.value !in s.directory {
      FailWithIsSilent(s, c, NoGameWasFound);
    } else {
      ReplaceIsSilent(s, DoJoinRead(s, c, join), c);
    }
  }

  lemma TaskIsSilent(s: State, c: Uuid, index: Option<nat>)
    requires Wired(s) && Ready(s, c)
    ensures Silent(s, DoTask(s, c, index))
  {
    if s.clients[c].game.None? {
      FailWithIsSilent(s, c, NotInGame(ClientNotInGame));
    } else if index.None? {
      FailIsSilent(s, c);
    } else {
      var h := s.clients[c].game.value.host.id;
      if h !in s.clients {
        FailWithIsSilent(s, c, InternalServerError(HostMissing));
      } else if s.clients[h].game.None? {
        FailWithIsSilent(s, c, InternalServerError(HostNotInSameGame));
      } else if !s.clients[h].game.value.isStarted {
        FailWithIsSilent(s, c, GameNotStarted);
      } else if index.value >= |s.clients[h].game.value.tasks| {
        FailWithIsSilent(s, c, OutOfRangeTask);
      } else {
        ReplyIsSilent(s, c, TaskResponse(s.clients[h].game.value.tasks[index.value].Shown()));
      }
    }
  }

  lemma CompileIsSilent(s: State, a: Action)
    requires Wired(s) && Enabled(s, a) && (a.CompileRead? || a.CompilePrepare?)
    ensures Silent(s, Step(s, a))
  {
    if a.CompileRead? && s.clients[a.c].game.None? {
      FailWithIsSilent(s, a.c, NotInGame(ClientNotInGame));
    } else {
      ReplaceIsSilent(s, Step(s, a), a.c);
    }
  }

  lemma CompileReplyIsSilent(s: State, c: Uuid)
    requires Wired(s) && ClientsOk(s) && c in s.clients && s.clients[c].pc.Replying?
    ensures Silent(s, DoCompileReply(s, c))
  {
    var s1 := Reply(s, c, s.clients[c].pc.reply);
    assert ClientOk(c, s.clients[c], s.claims, s.games);
    ReplyIsSilent(s, c, s.clients[c].pc.reply);
    ReplaceIsSilent(s1, DoCompileReply(s, c), c);
    SilentTwice(s, s1, DoCompileReply(s, c));
  }

  /** One game is changed in its progress, tasks and phase only, and everyone may be told. */
  lemma SetGameIsSilent(s: State, h: Uuid, g': Game, out: Outboxes)
    requires Wired(s) && IsHost(s, h) && SilentOut(s.outboxes, out)
    requires Calm(s.clients[h], s.clients[h].(game := Some(g')))
    ensures Silent(s, SetGame(s, h, Some(g')).(outboxes := out))
  {
  }

  lemma ValidatedIsSilent(s: State, h: Uuid, c: Uuid, index: nat, run: SandboxResponse,
                          privateRun: Option<SandboxResponse>)
    requires Wired(s) && IsHost(s, h) && s.clients[h].game.value.isStarted
    ensures Silent(s, Validated(s, h, c, index, run, privateRun))
  {
    var g := s.clients[h].game.value;
    CreditedGame(g, c, index, run, privateRun);
    if Credits(g, c, index, run, privateRun) {
      SendGlobalIsSilent(s.outboxes, g, TaskFinished(g.tasks[index].Shown(), index, c), {c});
    }
    SetGameIsSilent(s, h, ValidateGame(g, c, index, run, privateRun),
                    ValidateOut(g, s.outboxes, c, index, run, privateRun));
  }

  lemma PcMoveIsSilent(s: State, s1: State, c: Uuid, pc: Pc)
    requires Silent(s, s1) && c in s1.clients && s1.clients[c].pc.Running?
    requires !pc.Claimed? && !pc.Registered?
    ensures Silent(s, SetPc(s1, c, pc)) && Silent(s, Fail(s1, c))
  {
    ReplaceIsSilent(s1, SetPc(s1, c, pc), c);
    SilentTwice(s, s1, SetPc(s1, c, pc));
    FailIsSilent(s1, c);
    SilentTwice(s, s1, Fail(s1, c));
  }

  /** What follows a grading is a reply or the end of the request. */
  lemma GradedMoves(s: State, c: Uuid, run: SandboxResponse, privateRun: Option<SandboxResponse>)
    requires c in s.clients && s.clients[c].pc.Running? && HostProblem(s, s.clients[c].pc.host).None?
    ensures var s1 := Validated(s, s.clients[c].pc.host, c, s.clients[c].pc.taskIndex, run, privateRun);
      var s' := DoCompileValidate(s, c, Some(run), privateRun);
      && c in s1.clients && c in s'.clients && s1.clients[c].pc == s.clients[c].pc
      && (s' == Fail(s1, c) || (s'.clients[c].pc.Replying? && s' == SetPc(s1, c, s'.clients[c].pc)))
  {
  }

  lemma GradedIsSilent(s: State, c: Uuid, run: SandboxResponse, privateRun: Option<SandboxResponse>)
    requires Wired(s) && ClientsOk(s) && c in s.clients && s.clients[c].pc.Running?
    requires HostProblem(s, s.clients[c].pc.host).None?
    ensures Silent(s, DoCompileValidate(s, c, Some(run), privateRun))
  {
    var pc := s.clients[c].pc;
    var s' := DoCompileValidate(s, c, Some(run), privateRun);
    assert GameOk(pc.host, s.clients[pc.host], s.clients[pc.host].game.value);
    ValidatedIsSilent(s, pc.host, c, pc.taskIndex, run, privateRun);
    GradedMoves(s, c, run, privateRun);
    var reply := if s'.clients[c].pc.Replying? then s'.clients[c].pc else Idle;
    PcMoveIsSilent(s, Validated(s, pc.host, c, pc.taskIndex, run, privateRun), c, reply);
  }

  lemma ValidateIsSilent(s: State, c: Uuid, run: Option<SandboxResponse>, privateRun: Option<SandboxResponse>)
    requires Wired(s) && ClientsOk(s) && c in s.clients && s.clients[c].pc.Running?
    ensures Silent(s, DoCompileValidate(s, c, run, privateRun))
  {
    var problem := HostProblem(s, s.clients[c].pc.host);
    if run.None? {
      FailIsSilent(s, c);
    } else if problem.Some? {
      var s' := SetPc(s, c, Replying(ErrorMessage(problem.value), true));
      assert s' == DoCompileValidate(s, c, run, privateRun);
      ReplaceIsSilent(s, s', c);
    } else {
      GradedIsSilent(s, c, run.value, privateRun);
    }
  }

  lemma StartIsSilent(s: State, c: Uuid, count: nat, picks: seq<nat>)
    requires Wired(s) && ClientsOk(s) && Ready(s, c) && ValidPicks(s.pool, count, picks) && IsHost(s, c)
    ensures Silent(s, DoStart(s, c, Some(count), picks))
  {
    var s' := DoStart(s, c, Some(count), picks);
    var g := s.clients[c].game.value;
    var tasks := Chosen(s.pool, picks);
    var g' := StartGame(g, tasks, count);
    var out := StartOut(g, s.outboxes, tasks, count);
    var s1 := SetGame(s, c, Some(g')).(outboxes := out);
    assert GameOk(c, s.clients[c], g);
    if !g.isStarted {
      StartedGame(g, tasks, count);
    }
    SendGlobalIsSilent(s.outboxes, g, StartEvent(count), {});
    SetGameIsSilent(s, c, g', out);
    if !StartSucceeds(g, tasks, count) {
      FailIsSilent(s1, c);
      SilentTwice(s, s1, s');
    }
  }

  lemma CreateIsSilent(s: State, c: Uuid, parsed: bool, g: GameId)
    requires Wired(s) && Ready(s, c)
    ensures Silent(s, DoCreate(s, c, parsed, g))
  {
    FailIsSilent(s, c);
    ReplyIsSilent(s, c, CreateResponse(g));
  }

  lemma ExistsReadIsSilent(s: State, c: Uuid, query: Option<GameId>)
    requires Wired(s) && Ready(s, c)
    ensures Silent(s, DoExistsRead(s, c, query))
  {
    FailIsSilent(s, c);
    if query.Some? {
      ReplaceIsSilent(s, DoExistsRead(s, c, query), c);
    }
  }

  lemma IdentifyIsSilent(s: State, c: Uuid, nickname: Option<string>)
    requires Wired(s) && Ready(s, c)
    ensures Silent(s, DoIdentify(s, c, nickname))
  {
    ReplyIsSilent(s, c, IdentifyResponse(true));
    ReplyIsSilent(s, c, IdentifyResponse(false));
    FailIsSilent(s, c);
  }

  lemma ExistsAnswerIsSilent(s: State, c: Uuid)
    requires Wired(s) && c in s.clients && s.clients[c].pc.ExistsSaw?
    ensures Silent(s, DoExistsAnswer(s, c))
  {
    var s' := DoExistsAnswer(s, c);
    var s1 := s'.(clients := s.clients);
    PostIsSilent(s.outboxes, s.clients[c].channel, ExistsResponse(true));
    PostIsSilent(s.outboxes, s.clients[c].channel, ExistsResponse(false));
    ReplaceIsSilent(s1, s', c);
  }

  lemma GuestInstallIsSilent(s: State, c: Uuid)
    requires Wired(s) && ClientsOk(s) && c in s.clients && s.clients[c].pc.Registered?
    ensures Silent(s, DoJoinInstall(s, c))
  {
    var pc := s.clients[c].pc;
    assert GameOf(s, c).None?;
    var s1 := Reply(s, c, JoinResponse(pc.gameId, false, pc.accepted));
    ReplyIsSilent(s, c, JoinResponse(pc.gameId, false, pc.accepted));
    ReplaceIsSilent(s1, DoJoinInstall(s, c), c);
    SilentTwice(s, s1, DoJoinInstall(s, c));
  }

  // ---- steps that change a part, without news ----------------------------------------------

  /** A client that is linked to nobody is a stranger to every game that it does not host. */
  lemma UnlinkedStranger(s: State, c: Uuid, g: GameId)
    requires RostersOk(Parts(s)) && c in s.clients && !PartOf(s.clients[c]).Linked?
    requires PartOf(s.clients[c]).Hosting? ==> PartOf(s.clients[c]).gameId != g
    ensures IsStranger(Parts(s), c, g)
  {
    assert Parts(s)[c] == PartOf(s.clients[c]);
  }

  lemma StrangerBefore(parts: map<Uuid, Part>, parts': map<Uuid, Part>, c: Uuid, g: GameId)
    requires IsStranger(parts', c, g)
    requires forall h :: h in parts && Plays(parts[h], h, c, g) ==> h in parts' && Plays(parts'[h], h, c, g)
    ensures IsStranger(parts, c, g)
  {
  }

  lemma ClaimKeepsViews(s: State, c: Uuid)
    requires ClientsOk(s) && ViewsOk(s) && c in s.clients && s.clients[c].pc.SawEmpty?
    ensures ViewsOk(DoJoinClaim(s, c))
  {
    var s' := DoJoinClaim(s, c);
    ClaimKeepsClients(s, c);
    forall d, g | d in s'.clients && IsStranger(Parts(s'), d, g) ensures View(Out(s', d), g) == map[] {
      StrangerBefore(Parts(s), Parts(s'), d, g);
    }
    forall h, d | IsHost(s', h) && d in s'.clients && d in s'.clients[h].game.value.Roster()
      ensures MemberViewOk(s', h, d)
    {
      assert MemberViewOk(s, h, d);
    }
    forall h | IsHost(s', h) ensures HostViewOk(s', h) {
      assert HostViewOk(s, h);
    }
  }

  lemma InstallShows(s: State, c: Uuid, d: Uuid, g: GameId)
    requires WiringOk(s) && c in s.clients && s.clients[c].pc.Claimed? && d in s.clients
    ensures var s' := DoJoinInstall(s, c);
      d in s'.clients && View(Out(s', d), g) == View(Out(s, d), g)
  {
    PostIsSilent(s.outboxes, s.clients[c].channel, JoinResponse(s.clients[c].pc.gameId, true, true));
  }

  lemma InstallHostIs(s: State, c: Uuid)
    requires c in s.clients && s.clients[c].pc.Claimed?
    ensures var host := HostedBy(s, c, s.clients[c].pc.gameId);
      DoJoinInstall(s, c).clients == s.clients[c := s.clients[c].(game := Some(host), pc := Idle)]
  {
  }

  lemma InstallKeepsViews(s: State, c: Uuid)
    requires WiringOk(s) && ClientsOk(s) && RostersOk(Parts(s)) && ViewsOk(s)
    requires c in s.clients && s.clients[c].pc.Claimed?
    ensures ViewsOk(DoJoinInstall(s, c))
  {
    var s' := DoJoinInstall(s, c);
    assert ClientOk(c, s.clients[c], s.claims, s.games);
    InstallHostIs(s, c);
    InstallHostParts(s, c);
    UnlinkedStranger(s, c, s.clients[c].pc.gameId);
    forall d, g | d in s.clients ensures View(Out(s', d), g) == View(Out(s, d), g) {
      InstallShows(s, c, d, g);
    }
    InstalledKeepsViews(s, s', c);
  }

  lemma InstalledKeepsViews(s: State, s': State, c: Uuid)
    requires ViewsOk(s) && c in s.clients && s.clients[c].pc.Claimed? && s.clients[c].game.None?
    requires var g := s.clients[c].pc.gameId;
      && s'.clients == s.clients[c := s.clients[c].(game := Some(HostedBy(s, c, g)), pc := Idle)]
      && Parts(s)[c] == Claiming(g) && Parts(s') == Parts(s)[c := Hosting(g, {})] && IsStranger(Parts(s), c, g)
    requires forall d, g :: d in s.clients ==> View(Out(s', d), g) == View(Out(s, d), g)
    ensures ViewsOk(s')
  {
    forall d, g | d in s'.clients && IsStranger(Parts(s'), d, g) ensures View(Out(s', d), g) == map[] {
      StrangerBefore(Parts(s), Parts(s'), d, g);
    }
    forall h | IsHost(s', h) ensures HostViewOk(s', h) {
      if h == c {
        assert Everyone(s'.clients[c].game.value) - {c} == map[];
      } else {
        assert HostViewOk(s, h);
      }
    }
    forall h, d | IsHost(s', h) && d in s'.clients && d in s'.clients[h].game.value.Roster()
      ensures MemberViewOk(s', h, d)
    {
      assert h != c && MemberViewOk(s, h, d);
    }
  }

  /** What the ending of a hosted game sends: its host is answered, and each member told. */
  lemma EndSends(s: State, h: Uuid, d: Uuid)
    requires Inv(s) && IsHost(s, h) && d in s.clients
    ensures var g := s.clients[h].game.value;
      var out := ShutdownOut(g, s.outboxes);
      s.clients[d].channel in out && out[s.clients[d].channel] ==
        if d == h then Out(s, d) + [ShutdownResponse(true)]
        else if d in g.Roster() then Out(s, d) + [ShutdownEvent]
        else Out(s, d)
  {
    assert GameOk(h, s.clients[h], s.clients[h].game.value);
    AudienceIsExact(s, h, {}, d);
    AudienceIsExact(s, h, {}, h);
  }

  lemma ViewEnds(was: seq<Message>, now: seq<Message>, m: Message, g: GameId)
    requires now == was + [m] && EndsGame(m)
    ensures View(now, g) == map[]
  {
    ViewAppends(was, m, g);
  }

  lemma EndedOut(s: State, h: Uuid, d: Uuid)
    requires Inv(s) && IsHost(s, h) && d in s.clients
    ensures var s' := DropHosted(s, h, s.clients[h].game.value);
      && d in s'.clients
      && Out(s', d) ==
           if d == h then Out(s, d) + [ShutdownResponse(true)]
           else if d in s.clients[h].game.value.Roster() then Out(s, d) + [ShutdownEvent]
           else Out(s, d)
  {
    EndSends(s, h, d);
  }

  lemma EndShows(s: State, h: Uuid, d: Uuid, g: GameId)
    requires Inv(s) && IsHost(s, h) && d in s.clients
    ensures var s' := DropHosted(s, h, s.clients[h].game.value);
      d in s'.clients && View(Out(s', d), g) ==
        if d == h || d in s.clients[h].game.value.Roster() then map[] else View(Out(s, d), g)
  {
    var now := Out(DropHosted(s, h, s.clients[h].game.value), d);
    EndedOut(s, h, d);
    if d == h {
      ViewEnds(Out(s, d), now, ShutdownResponse(true), g);
    } else if d in s.clients[h].game.value.Roster() {
      ViewEnds(Out(s, d), now, ShutdownEvent, g);
    }
  }

  lemma EndKeepsViews(s: State, c: Uuid)
    requires Inv(s) && ViewsOk(s) && IsHost(s, c) && s.clients[c].pc.Idle?
    ensures ViewsOk(DropHosted(s, c, s.clients[c].game.value))
  {
    var s' := DropHosted(s, c, s.clients[c].game.value);
    forall d, g | d in s.clients
      ensures d in s'.clients && View(Out(s', d), g) ==
        if d == c || d in s.clients[c].game.value.Roster() then map[] else View(Out(s, d), g)
    {
      EndShows(s, c, d, g);
    }
    DropHostedIs(s, c, s.clients[c].game.value);
    EndedKeepsViews(s, s', c);
  }

  lemma EndedKeepsViews(s: State, s': State, c: Uuid)
    requires RostersOk(Parts(s)) && ViewsOk(s) && IsHost(s, c) && Parts(s') == Parts(s)[c := Free]
    requires s'.clients == s.clients[c := s.clients[c].(game := None)]
    requires forall d, g :: d in s.clients ==>
      View(Out(s', d), g) ==
        if d == c || d in s.clients[c].game.value.Roster() then map[] else View(Out(s, d), g)
    ensures ViewsOk(s')
  {
    assert Parts(s)[c] == PartOf(s.clients[c]);
    forall d, g | d in s'.clients && IsStranger(Parts(s'), d, g) ensures View(Out(s', d), g) == map[] {
      if d != c && d !in s.clients[c].game.value.Roster() {
        StrangerBefore(Parts(s), Parts(s'), d, g);
      }
    }
    forall h, d | IsHost(s', h) && d in s'.clients && d in s'.clients[h].game.value.Roster()
      ensures MemberViewOk(s', h, d)
    {
      OneRoster(s, c, h, d);
      assert IsHost(s, h) && MemberViewOk(s, h, d);
    }
    forall h | IsHost(s', h) ensures HostViewOk(s', h) {
      NotInAnyRoster(s, c, h);
      assert HostViewOk(s, h);
    }
  }

  lemma ConnectKeepsOut(s: State, c: Uuid, channel: Channel, d: Uuid)
    requires WiringOk(s) && c !in s.clients && channel !in s.outboxes && d in s.clients
    ensures Out(DoConnect(s, c, channel), d) == Out(s, d)
  {
  }

  lemma ConnectKeepsViews(s: State, c: Uuid, channel: Channel)
    requires WiringOk(s) && ClientsOk(s) && RosterCopiesOk(s) && ViewsOk(s) && c !in s.ids && channel !in s.outboxes
    ensures ViewsOk(DoConnect(s, c, channel))
  {
    var s' := DoConnect(s, c, channel);
    ConnectAddsFree(s, c, channel);
    forall d | d in s.clients ensures Out(s', d) == Out(s, d) {
      ConnectKeepsOut(s, c, channel, d);
    }
    ConnectedKeepsViews(s, s', c, s'.clients[c]);
  }

  lemma ConnectedKeepsViews(s: State, s': State, c: Uuid, cl: Client)
    requires RosterCopiesOk(s) && ViewsOk(s) && c !in s.clients && c !in Parts(s)
    requires s'.clients == s.clients[c := cl] && cl.game.None? && Out(s', c) == [] && Parts(s') == Parts(s)[c := Free]
    requires forall d :: d in s.clients ==> Out(s', d) == Out(s, d)
    ensures ViewsOk(s')
  {
    forall d, g | d in s'.clients && IsStranger(Parts(s'), d, g) ensures View(Out(s', d), g) == map[] {
      if d != c {
        StrangerBefore(Parts(s), Parts(s'), d, g);
      }
    }
    forall h, d | IsHost(s', h) && d in s'.clients && d in s'.clients[h].game.value.Roster()
      ensures MemberViewOk(s', h, d)
    {
      assert IsHost(s, h) && d in RosterOf(s.clients[h]);
      assert MemberViewOk(s, h, d);
    }
    forall h | IsHost(s', h) ensures HostViewOk(s', h) {
      assert HostViewOk(s, h);
    }
  }

  lemma RemoveParts(s: State, c: Uuid)
    ensures Parts(DoRemove(s, c)) == Parts(s) - {c}
  {
  }

  lemma RemoveKeepsViews(s: State, c: Uuid)
    requires ClientsOk(s) && ViewsOk(s) && c in s.clients && s.clients[c].pc.Closed?
    ensures ViewsOk(DoRemove(s, c))
  {
    var s' := DoRemove(s, c);
    RemoveParts(s, c);
    assert ClientOk(c, s.clients[c], s.claims, s.games);
    assert Parts(s)[c].Free?;
    forall d, g | d in s'.clients && IsStranger(Parts(s'), d, g) ensures View(Out(s', d), g) == map[] {
      StrangerBefore(Parts(s), Parts(s'), d, g);
    }
    forall h, d | IsHost(s', h) && d in s'.clients && d in s'.clients[h].game.value.Roster()
      ensures MemberViewOk(s', h, d)
    {
      assert MemberViewOk(s, h, d);
    }
    forall h | IsHost(s', h) ensures HostViewOk(s', h) {
      assert HostViewOk(s, h);
    }
  }

  // ---- register ----------------------------------------------------------------------------

  lemma {:induction false} IntroductionsShowRoster(g: Game, order: seq<Uuid>, ms: seq<Message>)
    requires forall c :: c in order ==> c in g.Roster()
    ensures var v := View(ms + Introductions(g, order), g.gameId);
      && (forall c :: c in v <==> c in order || c in View(ms, g.gameId))
      && (forall c :: c in v ==> v[c] == if c in order then g.Roster()[c].nickname else View(ms, g.gameId)[c])
  {
    if order == [] {
      assert ms + Introductions(g, order) == ms;
    } else {
      var n := |order| - 1;
      IntroductionsShowRoster(g, order[..n], ms);
      var m := ConnectedClient(g.gameId, order[n], g.Roster()[order[n]].nickname);
      assert ms + Introductions(g, order) == (ms + Introductions(g, order[..n])) + [m];
      ViewAppends(ms + Introductions(g, order[..n]), m, g.gameId);
      assert forall c :: c in order <==> c in order[..n] || c == order[n];
    }
  }

  lemma {:induction false} DeliverAllIs(out: Outboxes, p: PartialClient, ms: seq<Message>)
    requires Reachable(p) && p.writeChannel.value in out
    ensures DeliverAll(out, p, ms) == out[p.writeChannel.value := out[p.writeChannel.value] + ms]
  {
    var sent := out[p.writeChannel.value];
    if ms == [] {
      assert sent + ms == sent;
    } else {
      DeliverAllIs(out, p, ms[..|ms| - 1]);
      assert sent + ms == sent + ms[..|ms| - 1] + [ms[|ms| - 1]];
    }
  }

  /** What a registration sends: everyone to the newcomer, the newcomer to everyone. */
  lemma RegisterSends(s: State, c: Uuid, h: Uuid, p: PartialClient, order: seq<Uuid>, d: Uuid)
    requires Inv(s) && IsHost(s, h) && s.clients[h].game.value.public
    requires c in s.clients && TrueCopy(p, c, s.clients[c]) && c != h && PartOf(s.clients[c]).Free?
    requires Walks(order, s.clients[h].game.value.Roster().Keys) && d in s.clients
    ensures var g := s.clients[h].game.value;
      var out := RegisterOut(g, s.outboxes, p, order);
      c !in g.Roster() && s.clients[d].channel in out &&
      out[s.clients[d].channel] ==
        if d == c then Out(s, c) + Introductions(g, order) + [ConnectedClient(g.gameId, h, g.host.nickname)]
        else if d == h || d in g.Roster() then Out(s, d) + [ConnectedClient(g.gameId, c, p.nickname)]
        else Out(s, d)
  {
    var g := s.clients[h].game.value;
    AudienceIsExact(s, h, {}, c);
    AudienceIsExact(s, h, {}, d);
    assert GameOk(h, s.clients[h], g);
    NotInAnyRoster(s, h, c);
    DeliverAllIs(s.outboxes, p, Introductions(g, order));
  }

  /** A free client is in no roster. */
  lemma NotInAnyRoster(s: State, h: Uuid, c: Uuid)
    requires RostersOk(Parts(s)) && IsHost(s, h) && c in s.clients && !PartOf(s.clients[c]).Linked?
    ensures c !in s.clients[h].game.value.Roster()
  {
    assert Parts(s)[h] == PartOf(s.clients[h]) && Parts(s)[c] == PartOf(s.clients[c]);
    assert c !in Parts(s)[h].members;
  }

  ghost predicate MayEnter(s: State, c: Uuid, h: Uuid, p: PartialClient, order: seq<Uuid>) {
    && IsHost(s, h) && s.clients[h].game.value.public
    && c in s.clients && TrueCopy(p, c, s.clients[c]) && c != h && PartOf(s.clients[c]).Free?
    && Walks(order, s.clients[h].game.value.Roster().Keys)
  }

  /** A newcomer is introduced to everyone, on top of what it knew before. */
  lemma NewcomerSees(s: State, c: Uuid, h: Uuid, p: PartialClient, order: seq<Uuid>)
    requires Inv(s) && MayEnter(s, c, h, p, order)
    ensures var g := s.clients[h].game.value;
      View(RegisterOut(g, s.outboxes, p, order)[s.clients[c].channel], g.gameId)
          == View(Out(s, c), g.gameId) + Everyone(g)
  {
    var g := s.clients[h].game.value;
    RegisterSends(s, c, h, p, order, c);
    HostIsItself(s, h);
    IntroducedToAll(g, order, Out(s, c));
  }

  lemma IntroducedToRoster(g: Game, order: seq<Uuid>, ms: seq<Message>)
    requires Walks(order, g.Roster().Keys)
    ensures View(ms + Introductions(g, order), g.gameId) == View(ms, g.gameId) + Nicknames(g.Roster())
  {
    IntroductionsShowRoster(g, order, ms);
  }

  lemma IntroducedToAll(g: Game, order: seq<Uuid>, ms: seq<Message>)
    requires Walks(order, g.Roster().Keys)
    ensures View(ms + Introductions(g, order) + [ConnectedClient(g.gameId, g.host.id, g.host.nickname)], g.gameId)
         == View(ms, g.gameId) + Everyone(g)
  {
    IntroducedToRoster(g, order, ms);
    ViewAppends(ms + Introductions(g, order), ConnectedClient(g.gameId, g.host.id, g.host.nickname), g.gameId);
  }

  lemma {:induction false} IntroducedElsewhere(g: Game, order: seq<Uuid>, ms: seq<Message>, g': GameId)
    requires (forall c :: c in order ==> c in g.Roster()) && g' != g.gameId
    ensures View(ms + Introductions(g, order), g') == View(ms, g')
  {
    if order == [] {
      assert ms + Introductions(g, order) == ms;
    } else {
      var front, last := order[..|order| - 1], order[|order| - 1];
      var m := ConnectedClient(g.gameId, last, g.Roster()[last].nickname);
      IntroducedElsewhere(g, front, ms, g');
      assert ms + Introductions(g, order) == (ms + Introductions(g, front)) + [m];
      ViewAppends(ms + Introductions(g, front), m, g');
    }
  }

  /** ... and hears nothing of other games. */
  lemma NewcomerSeesNoOther(s: State, c: Uuid, h: Uuid, p: PartialClient, order: seq<Uuid>, g': GameId)
    requires Inv(s) && MayEnter(s, c, h, p, order) && g' != s.clients[h].game.value.gameId
    ensures s.clients[c].channel in s.outboxes
    ensures var g := s.clients[h].game.value;
      View(RegisterOut(g, s.outboxes, p, order)[s.clients[c].channel], g') == View(Out(s, c), g')
  {
    var g := s.clients[h].game.value;
    RegisterSends(s, c, h, p, order, c);
    IntroducedElsewhere(g, order, Out(s, c), g');
    ViewAppends(Out(s, c) + Introductions(g, order), ConnectedClient(g.gameId, h, g.host.nickname), g');
  }

  lemma HostIsItself(s: State, h: Uuid)
    requires ClientsOk(s) && IsHost(s, h)
    ensures s.clients[h].game.value.host.id == h
  {
    assert GameOk(h, s.clients[h], s.clients[h].game.value);
  }

  lemma OthersSee(s: State, c: Uuid, h: Uuid, p: PartialClient, order: seq<Uuid>, d: Uuid, g': GameId)
    requires Inv(s) && MayEnter(s, c, h, p, order) && d in s.clients && d != c
    ensures s.clients[d].channel in s.outboxes
    ensures var g := s.clients[h].game.value;
      View(RegisterOut(g, s.outboxes, p, order)[s.clients[d].channel], g') ==
        if g' == g.gameId && (d == h || d in g.Roster()) then View(Out(s, d), g')[c := p.nickname]
        else View(Out(s, d), g')
  {
    var g := s.clients[h].game.value;
    RegisterSends(s, c, h, p, order, d);
    ViewJoins(Out(s, d), RegisterOut(g, s.outboxes, p, order)[s.clients[d].channel], d == h || d in g.Roster(),
              g.gameId, c, p.nickname, g');
  }

  lemma ViewJoins(was: seq<Message>, now: seq<Message>, told: bool, at: GameId, c: Uuid, nickname: string, g: GameId)
    requires now == if told then was + [ConnectedClient(at, c, nickname)] else was
    ensures View(now, g) == if g == at && told then View(was, g)[c := nickname] else View(was, g)
  {
    ViewAppends(was, ConnectedClient(at, c, nickname), g);
  }

  /** What a registration does to the views. */
  ghost predicate Entered(s: State, s': State, c: Uuid, h: Uuid, p: PartialClient)
    requires Enters(s, s', c, h, p)
  {
    var g := s.clients[h].game.value;
    && g.host.id == h && (h, g.gameId) in s.claims
    && View(Out(s', c), g.gameId) == View(Out(s, c), g.gameId) + Everyone(g)
    && (forall g' :: g' != g.gameId ==> View(Out(s', c), g') == View(Out(s, c), g'))
    && forall d, g' :: d in s.clients && d != c ==>
         View(Out(s', d), g') ==
           if g' == g.gameId && (d == h || d in g.Roster()) then View(Out(s, d), g')[c := p.nickname]
           else View(Out(s, d), g')
  }

  lemma RegisterIsEntered(s: State, s': State, c: Uuid, h: Uuid, p: PartialClient, order: seq<Uuid>)
    requires Inv(s) && MayEnter(s, c, h, p, order) && Enters(s, s', c, h, p)
    requires s'.outboxes == RegisterOut(s.clients[h].game.value, s.outboxes, p, order)
    ensures Entered(s, s', c, h, p)
  {
    var g := s.clients[h].game.value;
    HostIsItself(s, h);
    assert Parts(s)[h] == PartOf(s.clients[h]);
    NewcomerSees(s, c, h, p, order);
    forall g' | g' != g.gameId ensures View(Out(s', c), g') == View(Out(s, c), g') {
      NewcomerSeesNoOther(s, c, h, p, order, g');
    }
    forall d, g' | d in s.clients && d != c
      ensures View(Out(s', d), g') ==
           if g' == g.gameId && (d == h || d in g.Roster()) then View(Out(s, d), g')[c := p.nickname]
           else View(Out(s, d), g')
    {
      OthersSee(s, c, h, p, order, d, g');
    }
  }

  lemma EveryoneGrows(g: Game, c: Uuid, p: PartialClient)
    requires c != g.host.id
    ensures Everyone(g.(connected := Some(g.Roster()[c := p]))) == Everyone(g)[c := p.nickname]
    ensures (Everyone(g)[c := p.nickname]) - {c} == Everyone(g) - {c}
    ensures forall d :: d != c ==> (Everyone(g) - {d})[c := p.nickname] == Everyone(g)[c := p.nickname] - {d}
  {
    assert Nicknames(g.Roster()[c := p]) == Nicknames(g.Roster())[c := p.nickname];
  }

  /** Who plays goes on playing, and the newcomer plays too. */
  lemma EnteredPlays(s: State, s': State, c: Uuid, h: Uuid, p: PartialClient, d: Uuid, g: GameId)
    requires Enters(s, s', c, h, p) && IsStranger(Parts(s'), d, g)
    ensures IsStranger(Parts(s), d, g)
    ensures g == s.clients[h].game.value.gameId ==> d != c && d != h && d !in s.clients[h].game.value.Roster()
  {
    EntersParts(s, s', c, h, p);
    assert Parts(s)[h] == PartOf(s.clients[h]);
    assert !Plays(Parts(s')[h], h, d, g);
    StrangerBefore(Parts(s), Parts(s'), d, g);
  }

  lemma EnteredStrangers(s: State, s': State, c: Uuid, h: Uuid, p: PartialClient)
    requires StrangersOk(s) && Enters(s, s', c, h, p) && Entered(s, s', c, h, p)
    ensures StrangersOk(s')
  {
    forall d, g | d in s'.clients && IsStranger(Parts(s'), d, g) ensures View(Out(s', d), g) == map[] {
      EnteredPlays(s, s', c, h, p, d, g);
    }
  }

  lemma EnteredHost(s: State, s': State, c: Uuid, h: Uuid, p: PartialClient, k: Uuid)
    requires RostersOk(Parts(s)) && Enters(s, s', c, h, p) && Entered(s, s', c, h, p)
    requires IsHost(s, k) && k != c && HostViewOk(s, k)
    ensures IsHost(s', k) && HostViewOk(s', k)
  {
    NotInAnyRoster(s, h, k);
    if k == h {
      EveryoneGrows(s.clients[h].game.value, c, p);
    }
  }

  lemma EnteredMember(s: State, s': State, c: Uuid, h: Uuid, p: PartialClient, k: Uuid, d: Uuid)
    requires RostersOk(Parts(s)) && Enters(s, s', c, h, p) && Entered(s, s', c, h, p)
    requires IsHost(s, k) && k != c && d in s.clients && d != c
    requires d in s.clients[k].game.value.Roster() && MemberViewOk(s, k, d)
    ensures IsHost(s', k) && MemberViewOk(s', k, d)
  {
    OneRoster(s, h, k, d);
    if k == h {
      EveryoneGrows(s.clients[h].game.value, c, p);
    }
  }

  lemma EnteredNewcomer(s: State, s': State, c: Uuid, h: Uuid, p: PartialClient)
    requires Enters(s, s', c, h, p) && Entered(s, s', c, h, p) && RostersOk(Parts(s)) && StrangersOk(s)
    ensures IsHost(s', h) && MemberViewOk(s', h, c)
  {
    var g := s.clients[h].game.value;
    NotInAnyRoster(s, h, c);
    UnlinkedStranger(s, c, g.gameId);
    EveryoneGrows(g, c, p);
    assert Everyone(g) - {c} == Everyone(g);
  }

  lemma EnteredKeepsViews(s: State, s': State, c: Uuid, h: Uuid, p: PartialClient)
    requires RostersOk(Parts(s)) && ViewsOk(s) && Enters(s, s', c, h, p) && Entered(s, s', c, h, p)
    ensures ViewsOk(s')
  {
    EnteredStrangers(s, s', c, h, p);
    forall k | IsHost(s', k) ensures HostViewOk(s', k) {
      assert IsHost(s, k) && k != c;
      EnteredHost(s, s', c, h, p, k);
    }
    forall k, d | IsHost(s', k) && d in s'.clients && d in s'.clients[k].game.value.Roster()
      ensures MemberViewOk(s', k, d)
    {
      assert IsHost(s, k) && k != c;
      if d != c {
        EnteredMember(s, s', c, h, p, k, d);
      } else {
        NotInAnyRoster(s, k, c);
        EnteredNewcomer(s, s', c, h, p);
      }
    }
  }

  /** Nobody is in two rosters. */
  lemma OneRoster(s: State, h: Uuid, k: Uuid, d: Uuid)
    requires RostersOk(Parts(s)) && IsHost(s, h) && IsHost(s, k)
    requires d in s.clients[k].game.value.Roster()
    ensures d in s.clients[h].game.value.Roster() ==> h == k
    ensures d != h
  {
    assert Parts(s)[h] == PartOf(s.clients[h]) && Parts(s)[k] == PartOf(s.clients[k]);
    assert d in Parts(s)[k].members;
    assert d in Parts(s) && Parts(s)[d].Linked? && Parts(s)[d].host == k;
  }

  lemma RegisterKeepsViews(s: State, c: Uuid, order: seq<Uuid>)
    requires Inv(s) && ViewsOk(s) && c in s.clients && s.clients[c].pc.SawLive? && OrderOk(s, c, order)
    ensures ViewsOk(DoJoinRegister(s, c, order))
  {
    var pc := s.clients[c].pc;
    var s' := DoJoinRegister(s, c, order);
    var p := Me(s, c, pc.nickname);
    assert ClientOk(c, s.clients[c], s.claims, s.games);
    if GameOf(s, pc.host).None? {
      FailIsSilent(s, c);
      SilentKeeps(s, s');
    } else if Admits(GameOf(s, pc.host).value) {
      RegisterEnters(s, c, order);
      RegisterIsEntered(s, s', c, pc.host, p, order);
      EnteredKeepsViews(s, s', c, pc.host, p);
    } else {
      TurnedAwayIsSilent(s, c, order);
      SilentKeeps(s, s');
    }
  }

  lemma TurnedAwayIsSilent(s: State, c: Uuid, order: seq<Uuid>)
    requires Wired(s) && c in s.clients && s.clients[c].pc.SawLive? && OrderOk(s, c, order)
    requires s.clients[c].game.None?
    requires GameOf(s, s.clients[c].pc.host).Some? && !Admits(GameOf(s, s.clients[c].pc.host).value)
    ensures Silent(s, DoJoinRegister(s, c, order))
  {
    var h := s.clients[s.clients[c].pc.host];
    assert s.clients[s.clients[c].pc.host := h.(game := Some(h.game.value))] == s.clients;
    ReplaceIsSilent(s, DoJoinRegister(s, c, order), c);
  }

  // ---- a guest leaves ----------------------------------------------------------------------

  /** Whether the leaving of `c` is news to `d`. */
  predicate HearsOf(s: State, c: Uuid, d: Uuid)
    requires c in s.clients && s.clients[c].game.Some?
  {
    var h := s.clients[c].game.value.host.id;
    && IsHost(s, h) && c in s.clients[h].game.value.Roster()
    && (d == h || d in s.clients[h].game.value.Roster())
  }

  lemma UnregisterSends(s: State, c: Uuid, h: Uuid, d: Uuid)
    requires Inv(s) && IsHost(s, h) && c in s.clients && d in s.clients && c != h
    requires c in s.clients[h].game.value.Roster()
    ensures var g := s.clients[h].game.value;
      var out := UnregisterOut(g, s.outboxes, c);
      s.clients[d].channel in out && out[s.clients[d].channel] ==
        if d != c && (d == h || d in g.Roster()) then Out(s, d) + [DisconnectedClient(g.gameId, c)] else Out(s, d)
  {
    var g := s.clients[h].game.value;
    HostIsItself(s, h);
    AudienceIsExact(s, h, {c}, d);
    SmallerAudience(g, c);
  }

  /** What a guest's leaving sends: the news to those who stay, and goodbye to itself. */
  lemma LeaveSends(s: State, c: Uuid, d: Uuid)
    requires Inv(s) && c in s.clients && s.clients[c].pc.Idle? && d in s.clients
    requires s.clients[c].game.Some? && !s.clients[c].game.value.isHost
    ensures var h := s.clients[c].game.value.host.id;
      var out := DropGame(s, c).outboxes;
      s.clients[d].channel in out && out[s.clients[d].channel] ==
        if d == c then Out(s, c) + [LeaveResponse(true)]
        else if HearsOf(s, c, d) then Out(s, d) + [DisconnectedClient(s.clients[h].game.value.gameId, c)]
        else Out(s, d)
  {
    var mine := s.clients[c].game.value;
    var h := mine.host.id;
    JoinedGame(s, c);
    assert GameOk(c, s.clients[c], mine);
    if IsHost(s, h) && c in s.clients[h].game.value.Roster() {
      UnregisterSends(s, c, h, c);
      UnregisterSends(s, c, h, d);
    }
  }

  lemma SmallerAudience(g: Game, c: Uuid)
    requires g.isHost && c in g.Roster() && c != g.host.id
    ensures Audience(UnregisterGame(g, c), {}) == Audience(g, {c})
  {
    var g' := UnregisterGame(g, c);
    assert g'.Roster() == g.Roster() - {c};
    assert forall d :: d in g'.Roster() ==> g'.Roster()[d] == g.Roster()[d];
    assert RosterChannels(g', {}) == RosterChannels(g, {c});
  }

  /** The state after the guest `c` of `h` has left, as far as views go. */
  ghost predicate Left(s: State, s': State, c: Uuid, h: Uuid) {
    && c in s.clients && h != c && s'.claims == s.claims && s'.clients.Keys == s.clients.Keys
    && s.clients[c].game.Some? && !s.clients[c].game.value.isHost && s.clients[c].game.value.host.id == h
    && s.clients[c].pc.Idle? && s'.clients[c] == s.clients[c].(game := None)
    && (forall d :: d in s.clients && d != c && d != h ==> s'.clients[d] == s.clients[d])
    && (h in s.clients ==>
          if s.clients[h].game.None? then s'.clients[h] == s.clients[h]
          else s'.clients[h] == s.clients[h].(game := Some(UnregisterGame(s.clients[h].game.value, c))))
    && forall d, g :: d in s.clients ==>
         View(Out(s', d), g) ==
           if d == c then map[]
           else if HearsOf(s, c, d) && g == s.clients[h].game.value.gameId then View(Out(s, d), g) - {c}
           else View(Out(s, d), g)
  }

  lemma ViewLeaves(was: seq<Message>, now: seq<Message>, told: bool, at: GameId, c: Uuid, g: GameId)
    requires now == if told then was + [DisconnectedClient(at, c)] else was
    ensures View(now, g) == if g == at && told then View(was, g) - {c} else View(was, g)
  {
    ViewAppends(was, DisconnectedClient(at, c), g);
  }

  lemma LeaveShows(s: State, c: Uuid, d: Uuid, g: GameId)
    requires Inv(s) && c in s.clients && s.clients[c].pc.Idle? && d in s.clients
    requires s.clients[c].game.Some? && !s.clients[c].game.value.isHost
    ensures var out := DropGame(s, c).outboxes;
      s.clients[d].channel in out && View(out[s.clients[d].channel], g) ==
        if d == c then map[]
        else if HearsOf(s, c, d) && g == s.clients[s.clients[c].game.value.host.id].game.value.gameId
        then View(Out(s, d), g) - {c}
        else View(Out(s, d), g)
  {
    LeaveSends(s, c, d);
    var now := DropGame(s, c).outboxes[s.clients[d].channel];
    if d == c {
      ViewAppends(Out(s, c), LeaveResponse(true), g);
    } else if HearsOf(s, c, d) {
      ViewLeaves(Out(s, d), now, true, s.clients[s.clients[c].game.value.host.id].game.value.gameId, c, g);
    }
  }

  lemma DropUnlists(s: State, c: Uuid, mine: Game)
    requires c in s.clients && s.clients[c].pc.Idle? && s.clients[c].game == Some(mine) && !mine.isHost
    requires mine.host.isLocal && mine.me.id == c && mine.host.id != c
    ensures var s' := DropGame(s, c);
      var h := mine.host.id;
      && s'.claims == s.claims && s'.clients.Keys == s.clients.Keys
      && s'.clients[c] == s.clients[c].(game := None)
      && (forall d :: d in s.clients && d != c && d != h ==> s'.clients[d] == s.clients[d])
      && (h in s.clients ==>
            if s.clients[h].game.None? then s'.clients[h] == s.clients[h]
            else s'.clients[h] == s.clients[h].(game := Some(UnregisterGame(s.clients[h].game.value, c))))
      && forall d :: d in s.clients ==> s'.clients[d].channel == s.clients[d].channel
  {
  }

  lemma DropIsLeft(s: State, c: Uuid)
    requires Inv(s) && c in s.clients && s.clients[c].pc.Idle?
    requires s.clients[c].game.Some? && !s.clients[c].game.value.isHost
    ensures Left(s, DropGame(s, c), c, s.clients[c].game.value.host.id)
  {
    var s' := DropGame(s, c);
    var h := s.clients[c].game.value.host.id;
    JoinedGame(s, c);
    DropUnlists(s, c, s.clients[c].game.value);
    forall d, g | d in s.clients
      ensures View(Out(s', d), g) ==
           if d == c then map[]
           else if HearsOf(s, c, d) && g == s.clients[h].game.value.gameId then View(Out(s, d), g) - {c}
           else View(Out(s, d), g)
    {
      LeaveShows(s, c, d, g);
    }
  }

  lemma EveryoneShrinks(g: Game, c: Uuid, d: Uuid)
    requires g.isHost && c != g.host.id
    ensures Everyone(UnregisterGame(g, c)) - {d} == (Everyone(g) - {d}) - {c}
    ensures UnregisterGame(g, c).Roster().Keys == g.Roster().Keys - {c}
    ensures c !in g.Roster() ==> UnregisterGame(g, c) == g
  {
    if c in g.Roster() {
      assert Nicknames(g.Roster() - {c}) == Nicknames(g.Roster()) - {c};
    } else {
      assert g.Roster().Keys - {c} == g.Roster().Keys;
    }
  }

  /** Who stays goes on playing. */
  lemma StayerPlays(s: State, s': State, c: Uuid, h: Uuid, d: Uuid, g: GameId, k: Uuid)
    requires Left(s, s', c, h) && d in s.clients && d != c && k in Parts(s)
    ensures Plays(Parts(s)[k], k, d, g) ==> k in Parts(s') && Plays(Parts(s')[k], k, d, g)
  {
    assert Parts(s)[k] == PartOf(s.clients[k]) && Parts(s')[k] == PartOf(s'.clients[k]);
  }

  lemma LeftPlays(s: State, s': State, c: Uuid, h: Uuid, d: Uuid, g: GameId)
    requires Left(s, s', c, h) && d in s.clients && d != c && IsStranger(Parts(s'), d, g)
    ensures IsStranger(Parts(s), d, g)
    ensures HearsOf(s, c, d) ==> g != s.clients[h].game.value.gameId
  {
    forall k | k in Parts(s) ensures !Plays(Parts(s)[k], k, d, g) {
      StayerPlays(s, s', c, h, d, g, k);
    }
    if HearsOf(s, c, d) {
      assert !Plays(Parts(s)[h], h, d, g);
    }
  }

  lemma LeftStrangers(s: State, s': State, c: Uuid, h: Uuid)
    requires StrangersOk(s) && Left(s, s', c, h)
    ensures StrangersOk(s')
  {
    forall d, g | d in s'.clients && IsStranger(Parts(s'), d, g) ensures View(Out(s', d), g) == map[] {
      if d != c {
        LeftPlays(s, s', c, h, d, g);
      }
    }
  }

  lemma LeftHost(s: State, s': State, c: Uuid, h: Uuid, k: Uuid)
    requires RostersOk(Parts(s)) && ClientsOk(s) && Left(s, s', c, h)
    requires IsHost(s', k) && IsHost(s, k) && k != c && HostViewOk(s, k)
    ensures HostViewOk(s', k)
  {
    var g := s.clients[k].game.value;
    HostIsItself(s, k);
    if k == h {
      EveryoneShrinks(g, c, k);
      if c !in g.Roster() {
        assert s'.clients[h].game == s.clients[h].game;
      }
    } else if HearsOf(s, c, k) {
      NotInAnyRoster(s, h, k);
    }
  }

  lemma LeftMember(s: State, s': State, c: Uuid, h: Uuid, k: Uuid, d: Uuid)
    requires RostersOk(Parts(s)) && ClientsOk(s) && Left(s, s', c, h)
    requires IsHost(s', k) && IsHost(s, k) && k != c && d in s.clients
    requires d in s'.clients[k].game.value.Roster()
    requires d in s.clients[k].game.value.Roster() ==> MemberViewOk(s, k, d)
    ensures MemberViewOk(s', k, d)
  {
    var g := s.clients[k].game.value;
    HostIsItself(s, k);
    if k == h {
      EveryoneShrinks(g, c, d);
      assert d in g.Roster() && d != c;
    } else {
      if IsHost(s, h) {
        OneRoster(s, h, k, d);
      }
      NotInOtherRoster(s, k, c);
    }
  }

  lemma NotInOtherRoster(s: State, k: Uuid, c: Uuid)
    requires RostersOk(Parts(s)) && IsHost(s, k) && c in s.clients
    requires s.clients[c].game.Some? && !s.clients[c].game.value.isHost && s.clients[c].game.value.host.id != k
    ensures c !in s.clients[k].game.value.Roster()
  {
    assert Parts(s)[k] == PartOf(s.clients[k]) && Parts(s)[c] == PartOf(s.clients[c]);
    assert c !in Parts(s)[k].members;
  }

  lemma LeaveKeepsViews(s: State, c: Uuid)
    requires Inv(s) && ViewsOk(s) && c in s.clients && s.clients[c].pc.Idle?
    requires s.clients[c].game.Some? && !s.clients[c].game.value.isHost
    ensures ViewsOk(DropGame(s, c))
  {
    DropIsLeft(s, c);
    LeftKeepsViews(s, DropGame(s, c), c, s.clients[c].game.value.host.id);
  }

  lemma LeftKeepsViews(s: State, s': State, c: Uuid, h: Uuid)
    requires RostersOk(Parts(s)) && LinksOk(Parts(s), s.claims) && ClientsOk(s) && ViewsOk(s) && Left(s, s', c, h)
    ensures ViewsOk(s')
  {
    LeftStrangers(s, s', c, h);
    forall k | IsHost(s', k) ensures HostViewOk(s', k) {
      assert IsHost(s, k) && k != c;
      LeftHost(s, s', c, h, k);
    }
    forall k, d | IsHost(s', k) && d in s'.clients && d in s'.clients[k].game.value.Roster()
      ensures MemberViewOk(s', k, d)
    {
      assert IsHost(s, k) && k != c;
      LeftMember(s, s', c, h, k, d);
    }
  }

  lemma DropKeepsViews(s: State, c: Uuid)
    requires Inv(s) && ViewsOk(s) && c in s.clients && s.clients[c].pc.Idle?
    ensures ViewsOk(DropGame(s, c))
  {
    if s.clients[c].game.Some? {
      if s.clients[c].game.value.isHost {
        EndKeepsViews(s, c);
      } else {
        LeaveKeepsViews(s, c);
      }
    }
  }

  lemma CloseKeepsViews(s: State, c: Uuid)
    requires Inv(s) && ViewsOk(s) && c in s.clients && s.clients[c].pc.Idle?
    ensures ViewsOk(DoClose(s, c))
  {
    var s1 := DropGame(s, c);
    DropKeepsViews(s, c);
    DropKeeps(s, c);
    DropFrees(s, c);
    ReplaceIsSilent(s1, DoClose(s, c), c);
    SilentKeeps(s1, DoClose(s, c));
  }

  lemma LeaveRequestKeepsViews(s: State, c: Uuid)
    requires Inv(s) && ViewsOk(s) && Ready(s, c)
    ensures ViewsOk(DoLeave(s, c))
  {
    if s.clients[c].game.None? {
      FailWithIsSilent(s, c, NotInGame(ClientNotInGame));
      SilentKeeps(s, DoLeave(s, c));
    } else {
      DropKeepsViews(s, c);
    }
  }

  lemma StartRequestKeepsViews(s: State, c: Uuid, count: Option<nat>, picks: seq<nat>)
    requires Inv(s) && ViewsOk(s) && Ready(s, c) && (count.Some? ==> ValidPicks(s.pool, count.value, picks))
    ensures ViewsOk(DoStart(s, c, count, picks))
  {
    if s.clients[c].game.None? {
      FailWithIsSilent(s, c, NotInGame(ClientNotInGame));
      SilentKeeps(s, DoStart(s, c, count, picks));
    } else if !s.clients[c].game.value.isHost {
      var s1 := DropGame(s, c);
      DropKeepsViews(s, c);
      DropKeeps(s, c);
      DropFrees(s, c);
      FailWithIsSilent(s1, c, NotGameHost(ClientNotHost));
      SilentKeeps(s1, DoStart(s, c, count, picks));
    } else if count.None? {
      FailIsSilent(s, c);
      SilentKeeps(s, DoStart(s, c, count, picks));
    } else {
      StartIsSilent(s, c, count.value, picks);
      SilentKeeps(s, DoStart(s, c, count, picks));
    }
  }

  /** Requests that neither take part in a game nor leave one. */
  predicate IsAside(a: Action) {
    a.Malformed? || a.JoinRead? || a.Task? || a.Ping? || a.Identify? || a.Create? || a.ExistsRead? || a.ExistsAnswer?
  }

  predicate IsCompile(a: Action) {
    a.CompileRead? || a.CompilePrepare? || a.CompileValidate? || a.CompileReply?
  }

  lemma MalformedIsSilent(s: State, c: Uuid, isModel: bool)
    requires Wired(s) && Ready(s, c)
    ensures Silent(s, Step(s, Malformed(c, isModel)))
  {
    if isModel {
      FailIsSilent(s, c);
    } else {
      FailWithIsSilent(s, c, InvalidMessage(InvalidModel));
    }
  }

  lemma ReplyingIsSilent(s: State, a: Action)
    requires Wired(s) && Enabled(s, a) && (a.Malformed? || a.JoinRead? || a.Task? || a.Ping?)
    ensures Silent(s, Step(s, a))
  {
    match a
    case Malformed(c, isModel) => MalformedIsSilent(s, c, isModel);
    case JoinRead(c, join) => JoinReadIsSilent(s, c, join);
    case Task(c, index) => TaskIsSilent(s, c, index);
    case Ping(c) => ReplyIsSilent(s, c, PingResponse);
  }

  lemma AsideIsSilent(s: State, a: Action)
    requires Wired(s) && Enabled(s, a) && IsAside(a)
    ensures Silent(s, Step(s, a))
  {
    if a.Malformed? || a.JoinRead? || a.Task? || a.Ping? {
      ReplyingIsSilent(s, a);
      return;
    }
    match a
    case Identify(c, nickname) => IdentifyIsSilent(s, c, nickname);
    case Create(c, parsed, g) => CreateIsSilent(s, c, parsed, g);
    case ExistsRead(c, query) => ExistsReadIsSilent(s, c, query);
    case ExistsAnswer(c) => ExistsAnswerIsSilent(s, c);
  }

  lemma CompileStepIsSilent(s: State, a: Action)
    requires Wired(s) && ClientsOk(s) && Enabled(s, a) && IsCompile(a)
    ensures Silent(s, Step(s, a))
  {
    match a
    case CompileRead(_, _) => CompileIsSilent(s, a);
    case CompilePrepare(_) => CompileIsSilent(s, a);
    case CompileValidate(c, run, privateRun) => ValidateIsSilent(s, c, run, privateRun);
    case CompileReply(c) => CompileReplyIsSilent(s, c);
  }

  lemma JoinInstallKeepsViews(s: State, c: Uuid)
    requires Inv(s) && ViewsOk(s) && c in s.clients && (s.clients[c].pc.Claimed? || s.clients[c].pc.Registered?)
    ensures ViewsOk(DoJoinInstall(s, c))
  {
    if s.clients[c].pc.Claimed? {
      InstallKeepsViews(s, c);
    } else {
      GuestInstallIsSilent(s, c);
      SilentKeeps(s, DoJoinInstall(s, c));
    }
  }

  // ---- the main result ---------------------------------------------------------------------

  lemma StepKeepsViews(s: State, a: Action)
    requires Inv(s) && ViewsOk(s) && Enabled(s, a)
    ensures ViewsOk(Step(s, a))
  {
    if IsAside(a) {
      AsideIsSilent(s, a);
      SilentKeeps(s, Step(s, a));
    } else if IsCompile(a) {
      CompileStepIsSilent(s, a);
      SilentKeeps(s, Step(s, a));
    } else {
      match a
      case Connect(c, channel) => ConnectKeepsViews(s, c, channel);
      case JoinClaim(c) => ClaimKeepsViews(s, c);
      case JoinRegister(c, order) => RegisterKeepsViews(s, c, order);
      case JoinInstall(c) => JoinInstallKeepsViews(s, c);
      case Leave(c) => LeaveRequestKeepsViews(s, c);
      case Start(c, count, picks) => StartRequestKeepsViews(s, c, count, picks);
      case Close(c) => CloseKeepsViews(s, c);
      case Remove(c) => RemoveKeepsViews(s, c);
    }
  }
}
