/** Who is credited, and who may be graded. The source means to credit the submitter, but takes the
    host's branch whenever the game object is the host's, which it always is. */
module Records {
  import opened Types
  import opened GameRules
  import opened Protocol
  import opened Invariant
  import opened Preservation
  import Views
  import Lobby
  import Runs
  import Atomic

  predicate Blank(p: PartialClient) {
    p.progress.Some? ==> forall i :: i in p.progress.value ==> !p.progress.value[i]
  }

  /** No member of the roster has a finished task. */
  ghost predicate MembersBlank(g: Game) {
    forall d :: d in g.Roster() ==> Blank(g.Roster()[d])
  }

  /** A test in flight goes to the host that the game of its client names. */
  predicate AsksItsHost(cl: Client) {
    cl.pc.CompileSaw? || cl.pc.Running? ==> cl.game.Some? && cl.game.value.host.id == cl.pc.host
  }

  ghost predicate TidyClient(cl: Client) {
    AsksItsHost(cl) && (cl.game.Some? ==> MembersBlank(cl.game.value))
  }

  ghost predicate Tidy(s: State) {
    forall c :: c in s.clients ==> TidyClient(s.clients[c])
  }

  // ---- games -------------------------------------------------------------------------------

  lemma GamesStayBlank(g: Game, p: PartialClient, c: Uuid)
    requires MembersBlank(g) && p.progress.None?
    ensures MembersBlank(RegisterGame(g, p)) && RegisterGame(g, p).host == g.host
    ensures MembersBlank(UnregisterGame(g, c)) && UnregisterGame(g, c).host == g.host
  {
  }

  lemma StartStaysBlank(g: Game, tasks: seq<GameTask>, count: nat)
    requires MembersBlank(g)
    ensures MembersBlank(StartGame(g, tasks, count)) && StartGame(g, tasks, count).host.id == g.host.id
  {
    var g' := StartGame(g, tasks, count);
    forall d | d in g'.Roster() ensures Blank(g'.Roster()[d]) {
      assert g'.Roster()[d].progress == g.Roster()[d].progress || g'.Roster()[d].progress == Some(NothingDone(count));
    }
  }

  lemma ValidateStaysBlank(g: Game, c: Uuid, index: nat, run: SandboxResponse, privateRun: Option<SandboxResponse>)
    requires MembersBlank(g) && g.isHost && g.isStarted
    ensures var g' := ValidateGame(g, c, index, run, privateRun); MembersBlank(g') && g'.host.id == g.host.id
  {
    CreditedGame(g, c, index, run, privateRun);
    assert ValidateGame(g, c, index, run, privateRun).Roster() == g.Roster();
  }

  // ---- steps -------------------------------------------------------------------------------

  lemma OneChanges(s: State, s': State, c: Uuid)
    requires Tidy(s) && c in s'.clients && s'.clients == s.clients[c := s'.clients[c]] && TidyClient(s'.clients[c])
    ensures Tidy(s')
  {
  }

  lemma AnswerChanges(s: State, a: Action)
    requires Enabled(s, a) && Lobby.IsAnswer(a) && !a.Task?
    ensures var s' := Step(s, a);
      && a.c in s.clients && a.c in s'.clients && s'.clients == s.clients[a.c := s'.clients[a.c]]
      && s'.clients[a.c].game == s.clients[a.c].game
      && !s'.clients[a.c].pc.CompileSaw? && !s'.clients[a.c].pc.Running?
  {
  }

  lemma TaskChanges(s: State, c: Uuid, index: Option<nat>)
    requires Ready(s, c)
    ensures var s' := DoTask(s, c, index);
      && c in s'.clients && s'.clients == s.clients[c := s'.clients[c]]
      && s'.clients[c].game == s.clients[c].game && s'.clients[c].pc.Idle?
  {
  }

  lemma AnswerIsTidy(s: State, a: Action)
    requires Tidy(s) && Enabled(s, a) && Lobby.IsAnswer(a)
    ensures Tidy(Step(s, a))
  {
    if a.Task? {
      TaskChanges(s, a.c, a.index);
    } else {
      AnswerChanges(s, a);
    }
    assert TidyClient(s.clients[a.c]);
    OneChanges(s, Step(s, a), a.c);
  }

  lemma MoveChanges(s: State, a: Action)
    requires Enabled(s, a) && Lobby.IsMove(a)
    ensures var s' := Step(s, a);
      && a.c in s.clients && a.c in s'.clients && s'.clients == s.clients[a.c := s'.clients[a.c]]
      && s'.clients[a.c].game == s.clients[a.c].game
      && (AsksItsHost(s.clients[a.c]) ==> AsksItsHost(s'.clients[a.c]))
  {
  }

  lemma MoveIsTidy(s: State, a: Action)
    requires Tidy(s) && Enabled(s, a) && Lobby.IsMove(a)
    ensures Tidy(Step(s, a))
  {
    MoveChanges(s, a);
    assert TidyClient(s.clients[a.c]);
    OneChanges(s, Step(s, a), a.c);
  }

  lemma RegisterIsTidy(s: State, c: Uuid, order: seq<Uuid>)
    requires Tidy(s) && c in s.clients && s.clients[c].pc.SawLive? && OrderOk(s, c, order)
    ensures Tidy(DoJoinRegister(s, c, order))
  {
    var pc := s.clients[c].pc;
    if GameOf(s, pc.host).Some? {
      assert TidyClient(s.clients[pc.host]);
      GamesStayBlank(GameOf(s, pc.host).value, Me(s, c, pc.nickname), c);
    }
  }

  lemma JoinIsTidy(s: State, a: Action)
    requires Tidy(s) && Enabled(s, a) && (a.JoinInstall? || a.Connect? || a.Remove?)
    ensures Tidy(Step(s, a))
  {
  }

  lemma DropIsTidy(s: State, c: Uuid)
    requires Tidy(s) && c in s.clients && s.clients[c].pc.Idle?
    ensures Tidy(DropGame(s, c)) && DropGame(s, c).clients.Keys == s.clients.Keys
  {
    if s.clients[c].game.Some? && !s.clients[c].game.value.isHost {
      var mine := s.clients[c].game.value;
      var s1 := SetGame(s, c, None);
      OneChanges(s, s1, c);
      if GameOf(s1, mine.host.id).Some? {
        var hosted := GameOf(s1, mine.host.id).value;
        assert TidyClient(s1.clients[mine.host.id]);
        GamesStayBlank(hosted, NewPartial(0, "", 0), mine.me.id);
        OneChanges(s1, SetGame(s1, mine.host.id, Some(UnregisterGame(hosted, mine.me.id))), mine.host.id);
      }
    }
  }

  lemma StartIsTidy(s: State, c: Uuid, count: Option<nat>, picks: seq<nat>)
    requires Tidy(s) && Ready(s, c) && (count.Some? ==> ValidPicks(s.pool, count.value, picks))
    ensures Tidy(DoStart(s, c, count, picks))
  {
    assert TidyClient(s.clients[c]);
    if s.clients[c].game.Some? && s.clients[c].game.value.isHost && count.Some? {
      StartStaysBlank(s.clients[c].game.value, Chosen(s.pool, picks), count.value);
    } else {
      DropIsTidy(s, c);
    }
  }

  lemma ValidateIsTidy(s: State, c: Uuid, run: Option<SandboxResponse>, privateRun: Option<SandboxResponse>)
    requires Tidy(s) && ClientsOk(s) && c in s.clients && s.clients[c].pc.Running?
    ensures Tidy(DoCompileValidate(s, c, run, privateRun))
  {
    var pc := s.clients[c].pc;
    assert TidyClient(s.clients[c]);
    if run.Some? && HostProblem(s, pc.host).None? {
      var g := s.clients[pc.host].game.value;
      assert GameOk(pc.host, s.clients[pc.host], g) && TidyClient(s.clients[pc.host]);
      ValidateStaysBlank(g, c, pc.taskIndex, run.value, privateRun);
      ValidateSets(s, c, run.value, privateRun);
      var s1 := Validated(s, pc.host, c, pc.taskIndex, run.value, privateRun);
      OneChanges(s, s1, pc.host);
      OneChanges(s1, DoCompileValidate(s, c, run, privateRun), c);
    }
  }

  lemma ValidateSets(s: State, c: Uuid, run: SandboxResponse, privateRun: Option<SandboxResponse>)
    requires c in s.clients && s.clients[c].pc.Running? && HostProblem(s, s.clients[c].pc.host).None?
    ensures var s1 := Validated(s, s.clients[c].pc.host, c, s.clients[c].pc.taskIndex, run, privateRun);
      var s' := DoCompileValidate(s, c, Some(run), privateRun);
      && c in s1.clients && c in s'.clients && s'.clients == s1.clients[c := s'.clients[c]]
      && s'.clients[c].game == s1.clients[c].game
      && !s'.clients[c].pc.CompileSaw? && !s'.clients[c].pc.Running?
  {
  }

  lemma EndIsTidy(s: State, a: Action)
    requires Tidy(s) && Enabled(s, a) && (a.Leave? || a.Close?)
    ensures Tidy(Step(s, a))
  {
    DropIsTidy(s, a.c);
  }

  lemma StepIsTidy(s: State, a: Action)
    requires ClientsOk(s) && Tidy(s) && Enabled(s, a)
    ensures Tidy(Step(s, a))
  {
    if Lobby.IsAnswer(a) {
      AnswerIsTidy(s, a);
    } else if Lobby.IsMove(a) {
      MoveIsTidy(s, a);
    } else if a.Leave? || a.Close? {
      EndIsTidy(s, a);
    } else {
      match a
      case Start(c, count, picks) => StartIsTidy(s, c, count, picks);
      case CompileValidate(c, run, privateRun) => ValidateIsTidy(s, c, run, privateRun);
      case JoinRegister(c, order) => RegisterIsTidy(s, c, order);
      case _ => JoinIsTidy(s, a);
    }
  }

  lemma ClientsAreOk(r: Runs.Run, pool: seq<GameTask>, n: nat)
    requires Runs.IsRun(r, pool) && n < |r.states|
    ensures ClientsOk(r.states[n])
  {
    Runs.RunIsOk(r, pool, n);
  }

  lemma {:induction false} RunIsTidy(r: Runs.Run, pool: seq<GameTask>, n: nat)
    requires Runs.IsRun(r, pool) && n < |r.states|
    ensures Tidy(r.states[n])
  {
    if n > 0 {
      RunIsTidy(r, pool, n - 1);
      ClientsAreOk(r, pool, n - 1);
      assert Runs.StepAt(r, n - 1);
      StepIsTidy(r.states[n - 1], r.actions[n - 1]);
    }
  }

  /** Whatever the members solve, their own records stay blank: in no reachable state has a member
      of a roster a finished task. */
  lemma MemberRecordsStayBlank(r: Runs.Run, pool: seq<GameTask>, n: nat, h: Uuid, g: GameId, d: Uuid, i: nat)
    requires Runs.IsRun(r, pool) && n < |r.states| && Runs.Hosts(r.states[n], h, g)
    requires d in Runs.Game(r.states[n], h).Roster()
    ensures var p := Runs.Game(r.states[n], h).Roster()[d].progress;
      p.Some? && i in p.value ==> !p.value[i]
  {
    RunIsTidy(r, pool, n);
    assert TidyClient(r.states[n].clients[h]);
  }

  /** Whoever is credited in a game is its host, is in its roster, or points at an earlier game of
      the same host, one that is over for good: what a guest still points at when its host has left. */
  lemma SolversTakePart(r: Runs.Run, pool: seq<GameTask>, n: nat, h: Uuid, g: GameId, i: nat)
    requires Runs.IsRun(r, pool) && n < |r.actions| && Runs.SolvesAt(r, n, h, g, i)
    ensures var s, c := r.states[n], r.actions[n].c;
      && c in s.clients && s.clients[c].game.Some?
      && var mine := s.clients[c].game.value;
      && mine.host.id == h
      && (c == h || c in Runs.Game(s, h).Roster() || (mine.gameId != g && Runs.IsOver(s, h, mine.gameId)))
  {
    var s, c := r.states[n], r.actions[n].c;
    RunIsTidy(r, pool, n);
    Runs.RunIsOk(r, pool, n);
    assert TidyClient(s.clients[c]);
    var mine := s.clients[c].game.value;
    if mine.isHost {
      Views.HostIsItself(s, c);
    } else {
      Runs.PointerCompleteness(r, pool, n, c);
      PointsAtClaim(s, c);
      HostIsBusy(s, h);
    }
  }

  lemma PointsAtClaim(s: State, c: Uuid)
    requires LinksOk(Parts(s), s.claims) && c in s.clients
    requires s.clients[c].game.Some? && !s.clients[c].game.value.isHost
    ensures (s.clients[c].game.value.host.id, s.clients[c].game.value.gameId) in s.claims
  {
    assert Parts(s)[c] == PartOf(s.clients[c]);
  }

  lemma HostIsBusy(s: State, h: Uuid)
    requires ClientsOk(s) && IsHost(s, h)
    ensures s.clients[h].game.Some? && !s.clients[h].pc.Claimed?
  {
    assert GameOk(h, s.clients[h], s.clients[h].game.value);
  }

  /** With one request at a time, whoever is credited in a game takes part in it if and only if its own
      game object carries the id of that game: the comparison that the requests do not make. */
  lemma SolversTakePartByGame(r: Runs.Run, pool: seq<GameTask>, n: nat, h: Uuid, g: GameId, i: nat)
    requires Atomic.IsAtomicRun(r, pool) && n < |r.actions| && Runs.SolvesAt(r, n, h, g, i)
    ensures var s, c := r.states[n], r.actions[n].c;
      && c in s.clients && s.clients[c].game.Some?
      && (c == h || c in Runs.Game(s, h).Roster() <==> s.clients[c].game.value.gameId == g)
  {
    var s, c := r.states[n], r.actions[n].c;
    SolversTakePart(r, pool, n, h, g, i);
    Runs.RunIsOk(r, pool, n);
    Atomic.MembersNameTheirGame(r, pool, n, h, g, c);
    if s.clients[c].game.value.isHost {
      Views.HostIsItself(s, c);
    } else {
      assert c != h;
    }
  }
}
