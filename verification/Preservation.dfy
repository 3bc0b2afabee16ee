/** Every step of the machine keeps the invariant. */
module Preservation {
  import opened Types
  import opened GameRules
  import opened Protocol
  import opened Invariant
  import Grader

  // ---- requests that only move along -------------------------------------------------------

  /** The clients are untouched; keys may go, and fresh games may appear. */
  ghost predicate SameClients(s: State, s': State) {
    && s'.clients == s.clients && s'.ids == s.ids && s'.claims == s.claims
    && s'.outboxes.Keys == s.outboxes.Keys && s.games <= s'.games
    && forall g :: g in s'.directory ==>
         if g in s.games then g in s.directory && s'.directory[g] == s.directory[g]
         else g in s'.games && s'.directory[g].Unclaimed?
  }

  lemma SameClientsShared(s: State, s': State)
    requires WiringOk(s) && HistoryOk(s) && PartsOk(Parts(s), s.directory, s.claims) && SameClients(s, s')
    ensures WiringOk(s') && HistoryOk(s') && PartsOk(Parts(s'), s'.directory, s'.claims)
  {
    assert Parts(s') == Parts(s);
    assert EntriesOk(Parts(s), s'.directory);
  }

  lemma SameClientsLocal(s: State, s': State)
    requires ClientsOk(s) && RosterCopiesOk(s) && HostCopiesOk(s) && SameClients(s, s')
    ensures ClientsOk(s') && RosterCopiesOk(s') && HostCopiesOk(s')
  {
    forall c | c in s'.clients ensures ClientOk(c, s'.clients[c], s'.claims, s'.games) {
      assert ClientOk(c, s.clients[c], s.claims, s.games);
    }
  }

  lemma SameClientsKeeps(s: State, s': State)
    requires Inv(s) && SameClients(s, s')
    ensures Inv(s')
  {
    SameClientsShared(s, s');
    SameClientsLocal(s, s');
  }

  lemma OutboxKeeps(s: State, s': State)
    requires Inv(s) && s'.outboxes.Keys == s.outboxes.Keys && s' == s.(outboxes := s'.outboxes)
    ensures Inv(s')
  {
    SameClientsKeeps(s, s');
  }

  lemma QuietPcKeeps(s: State, c: Uuid, pc: Pc)
    requires Inv(s) && c in s.clients && !s.clients[c].pc.Claimed? && !s.clients[c].pc.Registered?
    requires !s.clients[c].pc.Closed?
    requires pc.Idle? || (!s.clients[c].closing && (pc.CompileSaw? || pc.Replying? || pc.ExistsSaw?))
    requires pc.Replying? ==> pc.reply.CompileResponse? || pc.reply.ErrorMessage?
    ensures Inv(SetPc(s, c, pc))
  {
    ReplaceKeeps(s, SetPc(s, c, pc), c, s.clients[c].(pc := pc));
  }

  lemma FailKeeps(s: State, c: Uuid)
    requires Inv(s) && c in s.clients && !s.clients[c].pc.Claimed? && !s.clients[c].pc.Registered?
    requires !s.clients[c].pc.Closed?
    ensures Inv(Fail(s, c))
  {
    ReplaceKeeps(s, Fail(s, c), c, s.clients[c].(pc := Idle, closing := true));
  }

  lemma FailWithKeeps(s: State, c: Uuid, error: ClientError)
    requires Inv(s) && c in s.clients && !s.clients[c].pc.Claimed? && !s.clients[c].pc.Registered?
    requires !s.clients[c].pc.Closed?
    ensures Inv(FailWith(s, c, error))
  {
    OutboxKeeps(s, Reply(s, c, ErrorMessage(error)));
    FailKeeps(Reply(s, c, ErrorMessage(error)), c);
  }

  lemma ShrinkKeeps(s: State, g: GameId)
    requires Inv(s)
    ensures Inv(s.(directory := s.directory - {g}))
  {
    SameClientsKeeps(s, s.(directory := s.directory - {g}));
  }

  lemma SawKeeps(s: State, c: Uuid, pc: Pc)
    requires Inv(s) && Ready(s, c) && s.clients[c].game.None?
    requires pc.SawEmpty? || pc.SawLive?
    requires PcOk(c, s.clients[c].(pc := pc), s.claims, s.games)
    ensures Inv(SetPc(s, c, pc))
  {
    ReplaceKeeps(s, SetPc(s, c, pc), c, s.clients[c].(pc := pc));
  }

  /** An unidentified client, or one that hosts or has claimed the game, never gets here. */
  lemma SeenEntry(s: State, c: Uuid, g: GameId)
    requires Inv(s) && Ready(s, c) && s.clients[c].game.None? && g in s.directory
    ensures s.directory[g].Unclaimed? ==> g in s.games && (c, g) !in s.claims
    ensures s.directory[g].Live? ==> s.directory[g].host != c && (s.directory[g].host, g) in s.claims
  {
    assert Parts(s)[c] == Free;
  }

  lemma JoinReadKeeps(s: State, c: Uuid, join: Option<GameId>)
    requires Inv(s) && Ready(s, c)
    ensures Inv(DoJoinRead(s, c, join))
  {
    if join.None? {
      FailKeeps(s, c);
    } else if s.clients[c].game.Some? {
      FailWithKeeps(s, c, AlreadyInGame(ClientAlreadyInGame));
    } else if s.clients[c].nickname.None? {
      FailWithKeeps(s, c, ClientNotIdentified);
    } else if join.value !in s.directory {
      FailWithKeeps(s, c, NoGameWasFound);
    } else {
      SeenEntry(s, c, join.value);
      if s.directory[join.value].Unclaimed? {
        SawKeeps(s, c, SawEmpty(join.value));
      } else {
        SawKeeps(s, c, SawLive(join.value, s.directory[join.value].host, s.clients[c].nickname.value));
      }
    }
  }

  lemma TaskKeeps(s: State, c: Uuid, index: Option<nat>)
    requires Inv(s) && Ready(s, c)
    ensures Inv(DoTask(s, c, index))
  {
    if s.clients[c].game.None? {
      FailWithKeeps(s, c, NotInGame(ClientNotInGame));
    } else if index.None? {
      FailKeeps(s, c);
    } else {
      var h := s.clients[c].game.value.host.id;
      match TaskAt(s, h, index.value)
      case None => FailWithKeeps(s, c, TaskProblem(s, h));
      case Some(task) => OutboxKeeps(s, Reply(s, c, TaskResponse(task)));
    }
  }

  lemma CompileReadKeeps(s: State, c: Uuid, request: Option<(string, nat)>)
    requires Inv(s) && Ready(s, c)
    ensures Inv(DoCompileRead(s, c, request))
  {
    var s' := DoCompileRead(s, c, request);
    if s'.clients[c].closing {
      FailKeeps(s, c);
      FailWithKeeps(s, c, NotInGame(ClientNotInGame));
    } else {
      QuietPcKeeps(s, c, s'.clients[c].pc);
    }
  }

  lemma CompilePrepareKeeps(s: State, c: Uuid)
    requires Inv(s) && c in s.clients && s.clients[c].pc.CompileSaw?
    ensures Inv(DoCompilePrepare(s, c))
  {
    var s' := DoCompilePrepare(s, c);
    var pc := s'.clients[c].pc;
    ReplaceKeeps(s, s', c, s.clients[c].(pc := pc));
  }

  lemma CompileReplyKeeps(s: State, c: Uuid)
    requires Inv(s) && c in s.clients && s.clients[c].pc.Replying?
    ensures Inv(DoCompileReply(s, c))
  {
    var s1 := Reply(s, c, s.clients[c].pc.reply);
    OutboxKeeps(s, s1);
    if s.clients[c].pc.fails {
      FailKeeps(s1, c);
    } else {
      QuietPcKeeps(s1, c, Idle);
    }
  }

  lemma IdentifyKeeps(s: State, c: Uuid, nickname: Option<string>)
    requires Inv(s) && Ready(s, c)
    ensures Inv(DoIdentify(s, c, nickname))
  {
    var s' := DoIdentify(s, c, nickname);
    if s.clients[c].nickname.Some? {
      OutboxKeeps(s, s');
    } else if nickname.None? {
      FailKeeps(s, c);
    } else {
      ReplaceKeeps(s, s', c, s.clients[c].(nickname := nickname));
    }
  }

  lemma ExistsReadKeeps(s: State, c: Uuid, query: Option<GameId>)
    requires Inv(s) && Ready(s, c)
    ensures Inv(DoExistsRead(s, c, query))
  {
    if query.None? {
      FailKeeps(s, c);
    } else {
      QuietPcKeeps(s, c, DoExistsRead(s, c, query).clients[c].pc);
    }
  }

  lemma ExistsAnswerKeeps(s: State, c: Uuid)
    requires Inv(s) && c in s.clients && s.clients[c].pc.ExistsSaw?
    ensures Inv(DoExistsAnswer(s, c))
  {
    var s' := DoExistsAnswer(s, c);
    ReplaceKeeps(s, s', c, s.clients[c].(pc := Idle));
  }

  // ---- connections -------------------------------------------------------------------------

  lemma FreePartJoins(parts: map<Uuid, Part>, directory: map<GameId, Entry>, claims: set<(Uuid, GameId)>, c: Uuid)
    requires PartsOk(parts, directory, claims) && c !in parts
    ensures PartsOk(parts[c := Free], directory, claims)
  {
  }

  lemma FreePartGoes(parts: map<Uuid, Part>, directory: map<GameId, Entry>, claims: set<(Uuid, GameId)>, c: Uuid)
    requires PartsOk(parts, directory, claims) && c in parts && parts[c].Free?
    ensures PartsOk(parts - {c}, directory, claims)
  {
  }

  /** The id that a client has for a host is one that connected before. */
  lemma CopiedHostConnected(s: State, d: Uuid)
    requires Inv(s) && d in s.clients && HostCopy(s.clients[d]).Some?
    ensures HostCopy(s.clients[d]).value.id in s.ids
  {
    assert Parts(s)[d] == PartOf(s.clients[d]);
  }

  lemma ConnectKeepsCopies(s: State, c: Uuid, channel: Channel)
    requires Inv(s) && c !in s.ids
    ensures var s' := DoConnect(s, c, channel); RosterCopiesOk(s') && HostCopiesOk(s')
  {
    forall d | d in s.clients && HostCopy(s.clients[d]).Some?
      ensures HostCopy(s.clients[d]).value.id != c
    {
      CopiedHostConnected(s, d);
    }
  }

  lemma ConnectKeeps(s: State, c: Uuid, channel: Channel)
    requires Inv(s) && c !in s.ids && channel !in s.outboxes
    ensures Inv(DoConnect(s, c, channel))
  {
    ConnectKeepsCopies(s, c, channel);
    ConnectKeepsHistory(s, c, channel);
    ConnectAddsFree(s, c, channel);
    FreePartJoins(Parts(s), s.directory, s.claims, c);
  }

  lemma ConnectAddsFree(s: State, c: Uuid, channel: Channel)
    requires WiringOk(s) && ClientsOk(s) && c !in s.ids
    ensures c !in Parts(s) && Parts(DoConnect(s, c, channel)) == Parts(s)[c := Free]
    ensures ClientsOk(DoConnect(s, c, channel))
  {
  }

  lemma ConnectKeepsHistory(s: State, c: Uuid, channel: Channel)
    requires WiringOk(s) && HistoryOk(s) && c !in s.ids && channel !in s.outboxes
    ensures var s' := DoConnect(s, c, channel); WiringOk(s') && HistoryOk(s')
  {
    assert forall g :: (c, g) !in s.claims;
  }

  lemma RemoveKeeps(s: State, c: Uuid)
    requires Inv(s) && c in s.clients && s.clients[c].pc.Closed?
    ensures Inv(DoRemove(s, c))
  {
    var s' := DoRemove(s, c);
    assert Parts(s)[c] == Free;
    FreePartGoes(Parts(s), s.directory, s.claims, c);
    assert Parts(s') == Parts(s) - {c};
    RemoveKeepsCopies(s, c);
  }

  lemma RemoveKeepsCopies(s: State, c: Uuid)
    requires RosterCopiesOk(s) && HostCopiesOk(s) && RostersOk(Parts(s))
    requires c in s.clients && PartOf(s.clients[c]).Free?
    ensures var s' := DoRemove(s, c); RosterCopiesOk(s') && HostCopiesOk(s')
  {
    forall h, d | h in s.clients && d in RosterOf(s.clients[h]) ensures d != c {
      assert Parts(s)[h].Hosting? && d in Parts(s)[h].members;
      assert Parts(s)[d].Linked?;
      assert Parts(s)[c].Free?;
    }
  }

  lemma CreateKeeps(s: State, c: Uuid, parsed: bool, g: GameId)
    requires Inv(s) && Ready(s, c) && g !in s.games
    ensures Inv(DoCreate(s, c, parsed, g))
  {
    if !parsed {
      FailKeeps(s, c);
    } else {
      SameClientsKeeps(s, DoCreate(s, c, parsed, g));
    }
  }

  // ---- start and validate ------------------------------------------------------------------

  lemma StartedGame(g: Game, tasks: seq<GameTask>, count: nat)
    requires g.isHost && g.connected.Some? && !g.isStarted
    ensures var g' := StartGame(g, tasks, count);
      && g'.isHost && g'.connected.Some? && g'.isStarted && !g'.public && g'.gameId == g.gameId
      && g'.me == g.me && g'.host == g.host.(progress := g'.host.progress)
      && SameCopies(g.Roster(), g'.Roster())
      && (|tasks| == count ==>
            FullProgress(g'.host, |g'.tasks|) &&
            forall d :: d in g'.Roster() ==> FullProgress(g'.Roster()[d], |g'.tasks|))
  {
  }

  lemma StartAgainKeeps(s: State, c: Uuid, count: nat, picks: seq<nat>)
    requires Inv(s) && Ready(s, c) && ValidPicks(s.pool, count, picks) && IsHost(s, c)
    requires s.clients[c].game.value.isStarted
    ensures Inv(DoStart(s, c, Some(count), picks))
  {
    var g := s.clients[c].game.value;
    assert SetGame(s, c, Some(g)) == s;
    assert DoStart(s, c, Some(count), picks) == Fail(SetGame(s, c, Some(g)).(outboxes := s.outboxes), c);
    FailKeeps(s, c);
  }

  lemma StartReplaces(s: State, c: Uuid, count: nat, picks: seq<nat>)
    requires ClientsOk(s) && Ready(s, c) && ValidPicks(s.pool, count, picks) && IsHost(s, c)
    requires !s.clients[c].game.value.isStarted
    ensures var s' := DoStart(s, c, Some(count), picks);
      && c in s'.clients && s'.clients == s.clients[c := s'.clients[c]] && Frame(s, s')
      && Replaces(s.clients[c], s'.clients[c]) && ClientOk(c, s'.clients[c], s.claims, s.games)
  {
    assert ClientOk(c, s.clients[c], s.claims, s.games);
    StartedGame(s.clients[c].game.value, Chosen(s.pool, picks), count);
  }

  lemma StartKeeps(s: State, c: Uuid, count: nat, picks: seq<nat>)
    requires Inv(s) && Ready(s, c) && ValidPicks(s.pool, count, picks) && IsHost(s, c)
    ensures Inv(DoStart(s, c, Some(count), picks))
  {
    if s.clients[c].game.value.isStarted {
      StartAgainKeeps(s, c, count, picks);
    } else {
      var s' := DoStart(s, c, Some(count), picks);
      StartReplaces(s, c, count, picks);
      ReplaceKeeps(s, s', c, s'.clients[c]);
    }
  }

  lemma CreditKeeps(s: State, h: Uuid, g': Game, out: Outboxes)
    requires Inv(s) && h in s.clients && s.clients[h].game.Some? && out.Keys == s.outboxes.Keys
    requires var g := s.clients[h].game.value;
      g.isHost && g.isStarted && g' == g.(host := g.host.(progress := g'.host.progress))
      && (FullProgress(g.host, |g.tasks|) ==> FullProgress(g'.host, |g.tasks|))
      && (g'.host.progress.Some? ==> g.host.progress.Some?)
    ensures Inv(SetGame(s, h, Some(g')).(outboxes := out))
  {
    ReplaceKeeps(s, SetGame(s, h, Some(g')).(outboxes := out), h, s.clients[h].(game := Some(g')));
  }

  lemma ValidateKeeps(s: State, c: Uuid, run: Option<SandboxResponse>, privateRun: Option<SandboxResponse>)
    requires Inv(s) && c in s.clients && s.clients[c].pc.Running?
    ensures Inv(DoCompileValidate(s, c, run, privateRun))
  {
    var pc := s.clients[c].pc;
    if run.None? {
      FailKeeps(s, c);
    } else if HostProblem(s, pc.host).Some? {
      QuietPcKeeps(s, c, Replying(ErrorMessage(HostProblem(s, pc.host).value), true));
    } else {
      var g := s.clients[pc.host].game.value;
      var g' := ValidateGame(g, c, pc.taskIndex, run.value, privateRun);
      var out := ValidateOut(g, s.outboxes, c, pc.taskIndex, run.value, privateRun);
      var s1 := Validated(s, pc.host, c, pc.taskIndex, run.value, privateRun);
      assert g.isHost;
      CreditedGame(g, c, pc.taskIndex, run.value, privateRun);
      CreditKeeps(s, pc.host, g', out);
      match ValidateOutcome(g, c, pc.taskIndex, run.value, privateRun)
      case Answer(r) => QuietPcKeeps(s1, c, Replying(CompileResponse(r), false));
      case Failed => QuietPcKeeps(s1, c, Replying(ErrorMessage(CompilationError(CompilationFailed)), true));
      case Panicked => FailKeeps(s1, c);
    }
  }

  lemma CreditedGame(g: Game, c: Uuid, index: nat, run: SandboxResponse, privateRun: Option<SandboxResponse>)
    requires g.isHost && g.isStarted
    ensures var g' := ValidateGame(g, c, index, run, privateRun);
      && g' == g.(host := g.host.(progress := g'.host.progress))
      && (FullProgress(g.host, |g.tasks|) ==> FullProgress(g'.host, |g.tasks|))
      && (g'.host.progress.Some? ==> g.host.progress.Some?)
      && (Credits(g, c, index, run, privateRun) ==>
            HasTask(g, index) && g.host.progress.Some?
            && Grader.Solves(g.tasks[index], run, privateRun)
            && g'.host.progress == Some(g.host.progress.value[index := true]))
  {
    if HasTask(g, index) {
      Grader.GradeVerdict(g.tasks[index], index, run, privateRun);
    }
  }

  // ---- join: claim, register, install ------------------------------------------------------

  lemma PartClaims(parts: map<Uuid, Part>, directory: map<GameId, Entry>, claims: set<(Uuid, GameId)>,
                   c: Uuid, g: GameId)
    requires PartsOk(parts, directory, claims) && c in parts && parts[c].Free? && (c, g) !in claims
    ensures PartsOk(parts[c := Claiming(g)], directory[g := Live(c)], claims + {(c, g)})
  {
  }

  lemma ClaimKeepsHistory(s: State, c: Uuid)
    requires WiringOk(s) && HistoryOk(s) && ClientsOk(s) && c in s.clients && s.clients[c].pc.SawEmpty?
    ensures var s' := DoJoinClaim(s, c); WiringOk(s') && HistoryOk(s')
  {
  }

  lemma ClaimKeepsCopies(s: State, c: Uuid)
    requires RosterCopiesOk(s) && HostCopiesOk(s)
    requires c in s.clients && s.clients[c].pc.SawEmpty? && s.clients[c].game.None?
    ensures var s' := DoJoinClaim(s, c); RosterCopiesOk(s') && HostCopiesOk(s')
  {
  }

  lemma ClaimKeepsClients(s: State, c: Uuid)
    requires ClientsOk(s) && c in s.clients && s.clients[c].pc.SawEmpty?
    ensures s.clients[c].game.None? && ClientsOk(DoJoinClaim(s, c))
    ensures var g := s.clients[c].pc.gameId;
      Parts(s)[c].Free? && (c, g) !in s.claims && Parts(DoJoinClaim(s, c)) == Parts(s)[c := Claiming(g)]
  {
    assert s.clients[c].game.None?;
  }

  lemma ClaimKeeps(s: State, c: Uuid)
    requires Inv(s) && c in s.clients && s.clients[c].pc.SawEmpty?
    ensures Inv(DoJoinClaim(s, c))
  {
    ClaimKeepsClients(s, c);
    ClaimKeepsHistory(s, c);
    ClaimKeepsCopies(s, c);
    PartClaims(Parts(s), s.directory, s.claims, c, s.clients[c].pc.gameId);
  }

  lemma PartRegisters(parts: map<Uuid, Part>, directory: map<GameId, Entry>, claims: set<(Uuid, GameId)>,
                      c: Uuid, h: Uuid, g: GameId)
    requires PartsOk(parts, directory, claims) && h != c && (h, g) in claims
    requires c in parts && parts[c].Free? && h in parts && parts[h].Hosting?
    ensures PartsOk(parts[h := Hosting(parts[h].gameId, parts[h].members + {c})][c := Linked(h, g)], directory, claims)
  {
  }

  /** `x` is the host with `p` entered in its roster, `y` the newcomer waiting to install its game. */
  ghost predicate Enters(s: State, s': State, c: Uuid, h: Uuid, p: PartialClient) {
    && c in s.clients && h in s.clients && h != c && Frame(s, s')
    && var x, y := s.clients[h], s.clients[c];
    && x.game.Some? && x.game.value.isHost && !x.game.value.isStarted && !InJoin(x.pc)
    && y.game.None? && y.pc.SawLive? && TrueCopy(p, c, y)
    && x.nickname.Some?
    && s'.clients == s.clients
         [h := x.(game := Some(x.game.value.(connected := Some(x.game.value.Roster()[c := p]))))]
         [c := y.(pc := Registered(y.pc.gameId, h, x.nickname.value, x.channel, true, y.pc.nickname))]
  }

  lemma RegisterEnters(s: State, c: Uuid, order: seq<Uuid>)
    requires ClientsOk(s) && HistoryOk(s) && c in s.clients && s.clients[c].pc.SawLive? && OrderOk(s, c, order)
    requires GameOf(s, s.clients[c].pc.host).Some? && Admits(GameOf(s, s.clients[c].pc.host).value)
    ensures var pc := s.clients[c].pc;
      (pc.host, pc.gameId) in s.claims
      && Enters(s, DoJoinRegister(s, c, order), c, pc.host, Me(s, c, pc.nickname))
  {
    var pc := s.clients[c].pc;
    assert ClientOk(c, s.clients[c], s.claims, s.games);
    assert ClientOk(pc.host, s.clients[pc.host], s.claims, s.games);
  }

  lemma EntersParts(s: State, s': State, c: Uuid, h: Uuid, p: PartialClient)
    requires Enters(s, s', c, h, p)
    ensures Parts(s)[c].Free? && Parts(s)[h].Hosting?
    ensures Parts(s') == Parts(s)[h := Hosting(Parts(s)[h].gameId, Parts(s)[h].members + {c})]
                                 [c := Linked(h, s.clients[c].pc.gameId)]
  {
    var roster := s.clients[h].game.value.Roster();
    assert roster[c := p].Keys == roster.Keys + {c};
  }

  lemma EntersHistory(s: State, s': State, c: Uuid, h: Uuid, p: PartialClient)
    requires Enters(s, s', c, h, p) && WiringOk(s) && HistoryOk(s)
    ensures WiringOk(s') && HistoryOk(s')
  {
  }

  lemma EntersRosterCopies(s: State, s': State, c: Uuid, h: Uuid, p: PartialClient)
    requires Enters(s, s', c, h, p) && RosterCopiesOk(s)
    ensures RosterCopiesOk(s')
  {
    forall k, d | k in s'.clients && d in RosterOf(s'.clients[k])
      ensures d in s'.clients && TrueCopy(RosterOf(s'.clients[k])[d], d, s'.clients[d])
    {
      if k != h || d != c {
        assert d in RosterOf(s.clients[k]);
      }
    }
  }

  lemma EntersHostCopies(s: State, s': State, c: Uuid, h: Uuid, p: PartialClient)
    requires Enters(s, s', c, h, p) && HostCopiesOk(s)
    ensures HostCopiesOk(s')
  {
    forall d | d in s'.clients && HostCopy(s'.clients[d]).Some?
      ensures var q := HostCopy(s'.clients[d]).value; q.id in s'.clients ==> TrueCopy(q, q.id, s'.clients[q.id])
    {
      if d != c {
        assert HostCopy(s'.clients[d]) == HostCopy(s.clients[d]);
      }
    }
  }

  lemma EntersClients(s: State, s': State, c: Uuid, h: Uuid, p: PartialClient)
    requires Enters(s, s', c, h, p) && ClientsOk(s)
    ensures ClientsOk(s')
  {
  }

  lemma EntersKeeps(s: State, s': State, c: Uuid, h: Uuid, p: PartialClient)
    requires Inv(s) && Enters(s, s', c, h, p) && (h, s.clients[c].pc.gameId) in s.claims
    ensures Inv(s')
  {
    EntersParts(s, s', c, h, p);
    EntersHistory(s, s', c, h, p);
    EntersRosterCopies(s, s', c, h, p);
    EntersHostCopies(s, s', c, h, p);
    EntersClients(s, s', c, h, p);
    PartRegisters(Parts(s), s.directory, s.claims, c, h, s.clients[c].pc.gameId);
    assert EntriesOk(Parts(s'), s'.directory);
  }

  lemma RegisterKeeps(s: State, c: Uuid, order: seq<Uuid>)
    requires Inv(s) && c in s.clients && s.clients[c].pc.SawLive? && OrderOk(s, c, order)
    ensures Inv(DoJoinRegister(s, c, order))
  {
    var pc := s.clients[c].pc;
    var s' := DoJoinRegister(s, c, order);
    if GameOf(s, pc.host).None? {
      FailKeeps(s, c);
      ShrinkKeeps(Fail(s, c), pc.gameId);
    } else if Admits(GameOf(s, pc.host).value) {
      RegisterEnters(s, c, order);
      EntersKeeps(s, s', c, pc.host, Me(s, c, pc.nickname));
    } else {
      TurnedAwayKeeps(s, c, order);
    }
  }

  lemma TurnedAwayKeeps(s: State, c: Uuid, order: seq<Uuid>)
    requires Inv(s) && c in s.clients && s.clients[c].pc.SawLive? && OrderOk(s, c, order)
    requires GameOf(s, s.clients[c].pc.host).Some? && !Admits(GameOf(s, s.clients[c].pc.host).value)
    ensures Inv(DoJoinRegister(s, c, order))
  {
    var pc := s.clients[c].pc;
    var s' := DoJoinRegister(s, c, order);
    var h := s.clients[pc.host];
    assert s.clients[pc.host := h.(game := Some(h.game.value))] == s.clients;
    var y := s.clients[c].(pc := Registered(pc.gameId, pc.host, NicknameOf(s, pc.host), h.channel, false, pc.nickname));
    assert s'.clients == s.clients[c := y];
    ReplaceKeeps(s, s', c, y);
  }

  lemma PartInstalls(parts: map<Uuid, Part>, directory: map<GameId, Entry>, claims: set<(Uuid, GameId)>, c: Uuid)
    requires PartsOk(parts, directory, claims) && c in parts && parts[c].Claiming?
    ensures PartsOk(parts[c := Hosting(parts[c].gameId, {})], directory, claims)
  {
  }

  lemma InstallHostParts(s: State, c: Uuid)
    requires c in s.clients && s.clients[c].pc.Claimed? && s.clients[c].game.None?
    ensures Parts(s)[c] == Claiming(s.clients[c].pc.gameId)
    ensures Parts(DoJoinInstall(s, c)) == Parts(s)[c := Hosting(s.clients[c].pc.gameId, {})]
    ensures RosterCopiesOk(s) ==> RosterCopiesOk(DoJoinInstall(s, c))
  {
    var y := DoJoinInstall(s, c).clients[c];
    assert RosterOf(y) == map[];
    assert PartOf(y) == Hosting(s.clients[c].pc.gameId, {});
  }

  lemma InstallHostRest(s: State, c: Uuid)
    requires c in s.clients && s.clients[c].pc.Claimed? && s.clients[c].game.None?
    ensures HostCopiesOk(s) ==> HostCopiesOk(DoJoinInstall(s, c))
    ensures ClientsOk(s) ==> ClientsOk(DoJoinInstall(s, c))
  {
  }

  lemma InstallHostShared(s: State, c: Uuid)
    requires WiringOk(s) && HistoryOk(s) && c in s.clients && s.clients[c].pc.Claimed?
    ensures var s' := DoJoinInstall(s, c);
      WiringOk(s') && HistoryOk(s') && s'.directory == s.directory && s'.claims == s.claims
  {
  }

  lemma InstallHostKeeps(s: State, c: Uuid)
    requires Inv(s) && c in s.clients && s.clients[c].pc.Claimed?
    ensures Inv(DoJoinInstall(s, c))
  {
    assert ClientOk(c, s.clients[c], s.claims, s.games);
    InstallHostShared(s, c);
    InstallHostParts(s, c);
    InstallHostRest(s, c);
    PartInstalls(Parts(s), s.directory, s.claims, c);
  }

  lemma InstallGuestKeeps(s: State, c: Uuid)
    requires Inv(s) && c in s.clients && s.clients[c].pc.Registered?
    ensures Inv(DoJoinInstall(s, c))
  {
    var s' := DoJoinInstall(s, c);
    InstallGuestReplaces(s, c);
    ReplaceKeeps(s, s', c, s'.clients[c]);
  }

  lemma InstallGuestReplaces(s: State, c: Uuid)
    requires ClientsOk(s) && HostCopiesOk(s) && LinksOk(Parts(s), s.claims)
    requires c in s.clients && s.clients[c].pc.Registered?
    ensures var s' := DoJoinInstall(s, c);
      && c in s'.clients && s'.clients == s.clients[c := s'.clients[c]] && Frame(s, s')
      && Replaces(s.clients[c], s'.clients[c]) && ClientOk(c, s'.clients[c], s.claims, s.games)
  {
    assert ClientOk(c, s.clients[c], s.claims, s.games);
  }

  // ---- Drop for Game -----------------------------------------------------------------------

  lemma PartEnds(parts: map<Uuid, Part>, directory: map<GameId, Entry>, claims: set<(Uuid, GameId)>, c: Uuid)
    requires PartsOk(parts, directory, claims) && c in parts && parts[c].Hosting?
    ensures PartsOk(parts[c := Free], directory - {parts[c].gameId}, claims)
  {
  }

  lemma PartLeaves(parts: map<Uuid, Part>, directory: map<GameId, Entry>, claims: set<(Uuid, GameId)>, c: Uuid)
    requires PartsOk(parts, directory, claims) && c in parts && parts[c].Linked?
    ensures var h := parts[c].host;
      if h in parts && parts[h].Hosting?
      then PartsOk(parts[c := Free][h := Hosting(parts[h].gameId, parts[h].members - {c})], directory, claims)
      else PartsOk(parts[c := Free], directory, claims)
  {
  }

  /** `c` without its game. */
  function Without(s: State, c: Uuid): map<Uuid, Client>
    requires c in s.clients
  {
    s.clients[c := s.clients[c].(game := None)]
  }

  lemma DropKeepsHistory(s: State, s': State, c: Uuid)
    requires WiringOk(s) && HistoryOk(s) && Frame(s, s')
    requires c in s.clients && s'.clients == Without(s, c)
    ensures WiringOk(s') && HistoryOk(s')
  {
  }

  lemma DropKeepsLocal(s: State, s': State, c: Uuid)
    requires Frame(s, s')
    requires c in s.clients && s.clients[c].pc.Idle? && s'.clients == Without(s, c)
    ensures ClientsOk(s) ==> ClientsOk(s')
    ensures RosterCopiesOk(s) ==> RosterCopiesOk(s')
    ensures HostCopiesOk(s) ==> HostCopiesOk(s')
  {
  }

  lemma DropHostedIs(s: State, c: Uuid, g: Game)
    requires c in s.clients && s.clients[c].pc.Idle? && s.clients[c].game == Some(g) && g.isHost
    ensures var s' := DropHosted(s, c, g);
      && Frame(s, s') && s'.clients == Without(s, c)
      && Parts(s)[c].Hosting? && Parts(s') == Parts(s)[c := Free]
      && s'.directory == s.directory - {Parts(s)[c].gameId}
  {
  }

  lemma DropHostedKeeps(s: State, c: Uuid, g: Game)
    requires Inv(s) && c in s.clients && s.clients[c].pc.Idle? && s.clients[c].game == Some(g) && g.isHost
    ensures Inv(DropHosted(s, c, g))
  {
    var s' := DropHosted(s, c, g);
    DropHostedIs(s, c, g);
    DropKeepsHistory(s, s', c);
    DropKeepsLocal(s, s', c);
    PartEnds(Parts(s), s.directory, s.claims, c);
  }

  /** The host's game without `c` in its roster. */
  ghost predicate Forgets(s: State, s': State, c: Uuid, h: Uuid) {
    && c in s.clients && h in s.clients && h != c && Frame(s, s') && s.clients[h].game.Some?
    && s.clients[c].game.Some? && !s.clients[c].game.value.isHost && s.clients[c].pc.Idle?
    && s'.clients == s.clients[c := s.clients[c].(game := None)]
                              [h := s.clients[h].(game := Some(UnregisterGame(s.clients[h].game.value, c)))]
  }

  lemma ForgetsRosterCopies(s: State, s': State, c: Uuid, h: Uuid)
    requires Forgets(s, s', c, h) && RosterCopiesOk(s)
    ensures RosterCopiesOk(s')
  {
    forall k, d | k in s'.clients && d in RosterOf(s'.clients[k])
      ensures d in s'.clients && TrueCopy(RosterOf(s'.clients[k])[d], d, s'.clients[d])
    {
      assert d in RosterOf(s.clients[k]);
    }
  }

  lemma ForgetsHostCopies(s: State, s': State, c: Uuid, h: Uuid)
    requires Forgets(s, s', c, h) && HostCopiesOk(s)
    ensures HostCopiesOk(s')
  {
    forall d | d in s'.clients && HostCopy(s'.clients[d]).Some?
      ensures var q := HostCopy(s'.clients[d]).value; q.id in s'.clients ==> TrueCopy(q, q.id, s'.clients[q.id])
    {
      assert HostCopy(s'.clients[d]) == HostCopy(s.clients[d]);
    }
  }

  lemma ForgetsClients(s: State, s': State, c: Uuid, h: Uuid)
    requires Forgets(s, s', c, h) && ClientsOk(s)
    ensures ClientsOk(s')
  {
    assert ClientOk(h, s.clients[h], s.claims, s.games);
    assert ClientOk(h, s'.clients[h], s'.claims, s'.games);
  }

  lemma ForgetsParts(s: State, s': State, c: Uuid, h: Uuid)
    requires Forgets(s, s', c, h)
    ensures Parts(s') ==
      if Parts(s)[h].Hosting?
      then Parts(s)[c := Free][h := Hosting(Parts(s)[h].gameId, Parts(s)[h].members - {c})]
      else Parts(s)[c := Free]
  {
    var roster := s.clients[h].game.value.Roster();
    assert (roster - {c}).Keys == roster.Keys - {c};
    assert c !in roster ==> roster.Keys - {c} == roster.Keys;
    var p := Parts(s)[c := Free];
    if Parts(s)[h].Hosting? {
      assert PartOf(s'.clients[h]) == Hosting(Parts(s)[h].gameId, Parts(s)[h].members - {c});
    } else {
      assert PartOf(s'.clients[h]) == Parts(s)[h];
    }
  }

  lemma ForgetsHistory(s: State, s': State, c: Uuid, h: Uuid)
    requires Forgets(s, s', c, h) && WiringOk(s) && HistoryOk(s)
    ensures WiringOk(s') && HistoryOk(s')
  {
  }

  lemma ForgetsKeeps(s: State, s': State, c: Uuid, h: Uuid)
    requires Inv(s) && Forgets(s, s', c, h) && PartOf(s.clients[c]).host == h && s'.directory == s.directory
    ensures Inv(s')
  {
    ForgetsRosterCopies(s, s', c, h);
    ForgetsHostCopies(s, s', c, h);
    ForgetsClients(s, s', c, h);
    ForgetsHistory(s, s', c, h);
    ForgetsParts(s, s', c, h);
    PartLeaves(Parts(s), s.directory, s.claims, c);
  }

  lemma DropJoinedIs(s: State, c: Uuid, g: Game)
    requires c in s.clients && s.clients[c].pc.Idle? && s.clients[c].game == Some(g) && !g.isHost
    requires g.host.isLocal && g.me.id == c && g.host.id != c
    ensures var s' := DropJoined(s, c, g);
      && Parts(s)[c] == Linked(g.host.id, g.gameId)
      && Frame(s, s') && s'.directory == s.directory
      && s'.clients[c] == s.clients[c].(game := None) && s'.clients.Keys == s.clients.Keys
      && (if GameOf(s, g.host.id).Some? then Forgets(s, s', c, g.host.id)
          else
            && s'.clients == Without(s, c) && Parts(s') == Parts(s)[c := Free]
            && (g.host.id in Parts(s) ==> !Parts(s)[g.host.id].Hosting?))
  {
  }

  /** The host is gone or between games: nobody is left to tell. */
  lemma StaleLeaveKeeps(s: State, s': State, c: Uuid)
    requires Inv(s) && c in s.clients && s.clients[c].pc.Idle? && Frame(s, s') && s'.directory == s.directory
    requires Parts(s)[c].Linked? && s'.clients == Without(s, c) && Parts(s') == Parts(s)[c := Free]
    requires Parts(s)[c].host in Parts(s) ==> !Parts(s)[Parts(s)[c].host].Hosting?
    ensures Inv(s')
  {
    DropKeepsHistory(s, s', c);
    DropKeepsLocal(s, s', c);
    PartLeaves(Parts(s), s.directory, s.claims, c);
  }

  lemma DropJoinedKeeps(s: State, c: Uuid, g: Game)
    requires Inv(s) && c in s.clients && s.clients[c].pc.Idle? && s.clients[c].game == Some(g) && !g.isHost
    requires g.host.isLocal && g.me.id == c && g.host.id != c
    ensures Inv(DropJoined(s, c, g))
  {
    DropJoinedIs(s, c, g);
    if GameOf(s, g.host.id).Some? {
      ForgetsKeeps(s, DropJoined(s, c, g), c, g.host.id);
    } else {
      StaleLeaveKeeps(s, DropJoined(s, c, g), c);
    }
  }

  /** A guest game is its owner's, and points at somebody else. */
  lemma JoinedGame(s: State, c: Uuid)
    requires ClientsOk(s) && LinksOk(Parts(s), s.claims) && c in s.clients
    requires s.clients[c].game.Some? && !s.clients[c].game.value.isHost
    ensures var g := s.clients[c].game.value; g.host.isLocal && g.me.id == c && g.host.id != c
  {
    assert Parts(s)[c].Linked?;
  }

  lemma DropKeeps(s: State, c: Uuid)
    requires Inv(s) && c in s.clients && s.clients[c].pc.Idle?
    ensures Inv(DropGame(s, c))
  {
    if s.clients[c].game.Some? {
      var g := s.clients[c].game.value;
      if g.isHost {
        DropHostedKeeps(s, c, g);
      } else {
        JoinedGame(s, c);
        DropJoinedKeeps(s, c, g);
      }
    }
  }

  lemma DropFrees(s: State, c: Uuid)
    requires Inv(s) && c in s.clients && s.clients[c].pc.Idle?
    ensures var s' := DropGame(s, c);
      s'.clients.Keys == s.clients.Keys && s'.clients[c] == s.clients[c].(game := None)
  {
    if s.clients[c].game.Some? && !s.clients[c].game.value.isHost {
      JoinedGame(s, c);
    }
  }

  lemma LeaveKeeps(s: State, c: Uuid)
    requires Inv(s) && Ready(s, c)
    ensures Inv(DoLeave(s, c))
  {
    if s.clients[c].game.None? {
      FailWithKeeps(s, c, NotInGame(ClientNotInGame));
    } else {
      DropKeeps(s, c);
    }
  }

  lemma StartRequestKeeps(s: State, c: Uuid, count: Option<nat>, picks: seq<nat>)
    requires Inv(s) && Ready(s, c) && (count.Some? ==> ValidPicks(s.pool, count.value, picks))
    ensures Inv(DoStart(s, c, count, picks))
  {
    if s.clients[c].game.None? {
      FailWithKeeps(s, c, NotInGame(ClientNotInGame));
    } else if !s.clients[c].game.value.isHost {
      DropKeeps(s, c);
      DropFrees(s, c);
      FailWithKeeps(DropGame(s, c), c, NotGameHost(ClientNotHost));
    } else if count.None? {
      FailKeeps(s, c);
    } else {
      StartKeeps(s, c, count.value, picks);
    }
  }

  lemma CloseKeeps(s: State, c: Uuid)
    requires Inv(s) && c in s.clients && s.clients[c].pc.Idle?
    ensures Inv(DoClose(s, c))
  {
    DropKeeps(s, c);
    DropFrees(s, c);
    var s1 := DropGame(s, c);
    ReplaceKeeps(s1, DoClose(s, c), c, s1.clients[c].(pc := Closed));
  }

  // ---- the main results --------------------------------------------------------------------

  lemma CompileStepKeeps(s: State, a: Action)
    requires Inv(s) && Enabled(s, a)
    requires a.CompileRead? || a.CompilePrepare? || a.CompileValidate? || a.CompileReply?
    ensures Inv(Step(s, a))
  {
    match a
    case CompileRead(c, request) => CompileReadKeeps(s, c, request);
    case CompilePrepare(c) => CompilePrepareKeeps(s, c);
    case CompileValidate(c, run, privateRun) => ValidateKeeps(s, c, run, privateRun);
    case CompileReply(c) => CompileReplyKeeps(s, c);
  }

  lemma MalformedKeeps(s: State, c: Uuid, isModel: bool)
    requires Inv(s) && Ready(s, c)
    ensures Inv(Step(s, Malformed(c, isModel)))
  {
    if isModel {
      FailKeeps(s, c);
    } else {
      FailWithKeeps(s, c, InvalidMessage(InvalidModel));
    }
  }

  lemma AnswerKeeps(s: State, a: Action)
    requires Inv(s) && Enabled(s, a)
    requires a.Malformed? || a.Task? || a.Ping? || a.Identify? || a.Create? || a.ExistsRead? || a.ExistsAnswer?
    ensures Inv(Step(s, a))
  {
    if a.Malformed? || a.Task? || a.Ping? {
      ReplyKeeps(s, a);
    } else {
      match a
      case Identify(c, nickname) => IdentifyKeeps(s, c, nickname);
      case Create(c, parsed, g) => CreateKeeps(s, c, parsed, g);
      case ExistsRead(c, query) => ExistsReadKeeps(s, c, query);
      case ExistsAnswer(c) => ExistsAnswerKeeps(s, c);
    }
  }

  lemma ReplyKeeps(s: State, a: Action)
    requires Inv(s) && Enabled(s, a) && (a.Malformed? || a.Task? || a.Ping?)
    ensures Inv(Step(s, a))
  {
    match a
    case Malformed(c, isModel) => MalformedKeeps(s, c, isModel);
    case Task(c, index) => TaskKeeps(s, c, index);
    case Ping(c) => OutboxKeeps(s, Reply(s, c, PingResponse));
  }

  lemma InstallKeeps(s: State, c: Uuid)
    requires Inv(s) && c in s.clients && (s.clients[c].pc.Claimed? || s.clients[c].pc.Registered?)
    ensures Inv(DoJoinInstall(s, c))
  {
    if s.clients[c].pc.Claimed? {
      InstallHostKeeps(s, c);
    } else {
      InstallGuestKeeps(s, c);
    }
  }

  predicate IsJoin(a: Action) {
    a.JoinRead? || a.JoinClaim? || a.JoinRegister? || a.JoinInstall?
  }

  lemma JoinStepKeeps(s: State, a: Action)
    requires Inv(s) && Enabled(s, a) && IsJoin(a)
    ensures Inv(Step(s, a))
  {
    match a
    case JoinRead(c, join) => JoinReadKeeps(s, c, join);
    case JoinClaim(c) => ClaimKeeps(s, c);
    case JoinRegister(c, order) => RegisterKeeps(s, c, order);
    case JoinInstall(c) => InstallKeeps(s, c);
  }

  predicate IsCourse(a: Action) {
    a.Connect? || a.Leave? || a.Start? || a.Close? || a.Remove?
  }

  lemma CourseStepKeeps(s: State, a: Action)
    requires Inv(s) && Enabled(s, a) && IsCourse(a)
    ensures Inv(Step(s, a))
  {
    match a
    case Connect(c, channel) => ConnectKeeps(s, c, channel);
    case Leave(c) => LeaveKeeps(s, c);
    case Start(c, count, picks) => StartRequestKeeps(s, c, count, picks);
    case Close(c) => CloseKeeps(s, c);
    case Remove(c) => RemoveKeeps(s, c);
  }

  /** The invariant is inductive: every step keeps it, whatever steps came between. */
  lemma StepKeeps(s: State, a: Action)
    requires Inv(s) && Enabled(s, a)
    ensures Inv(Step(s, a))
  {
    if IsJoin(a) {
      JoinStepKeeps(s, a);
    } else if IsCourse(a) {
      CourseStepKeeps(s, a);
    } else if a.CompileRead? || a.CompilePrepare? || a.CompileValidate? || a.CompileReply? {
      CompileStepKeeps(s, a);
    } else {
      AnswerKeeps(s, a);
    }
  }

  lemma InitialOk(pool: seq<GameTask>)
    ensures Inv(Initial(pool))
  {
  }
}
