/** Whole runs of the server, from no clients at all, with requests interleaved at will. */
module Runs {
  import opened Types
  import opened GameRules
  import opened Protocol
  import opened Invariant
  import opened Preservation
  import Views
  import Delivery
  import Lobby
  import Grader

  datatype Run = Run(states: seq<State>, actions: seq<Action>)

  ghost predicate StepAt(r: Run, i: nat)
    requires i + 1 < |r.states| && i < |r.actions|
  {
    Enabled(r.states[i], r.actions[i]) && r.states[i + 1] == Step(r.states[i], r.actions[i])
  }

  ghost predicate IsRun(r: Run, pool: seq<GameTask>) {
    && |r.states| == |r.actions| + 1
    && r.states[0] == Initial(pool)
    && forall i :: 0 <= i < |r.actions| ==> StepAt(r, i)
  }

  predicate Hosts(s: State, h: Uuid, g: GameId) {
    h in s.clients && s.clients[h].game.Some? && s.clients[h].game.value.isHost && s.clients[h].game.value.gameId == g
  }

  /** The game that `h` has, when it has one. */
  function Game(s: State, h: Uuid): Game
    requires h in s.clients && s.clients[h].game.Some?
  {
    s.clients[h].game.value
  }

  lemma {:induction false} RunIsOk(r: Run, pool: seq<GameTask>, n: nat)
    requires IsRun(r, pool) && n < |r.states|
    ensures Inv(r.states[n]) && Views.ViewsOk(r.states[n])
  {
    if n == 0 {
      InitialOk(pool);
    } else {
      RunIsOk(r, pool, n - 1);
      assert StepAt(r, n - 1);
      StepKeeps(r.states[n - 1], r.actions[n - 1]);
      Views.StepKeepsViews(r.states[n - 1], r.actions[n - 1]);
    }
  }

  // ---- what every reachable state satisfies ------------------------------------------------

  /** Roster soundness: a rostered client is connected, is not the host, points at the host by its
      own game or is between register and install, and is in no other roster. */
  lemma RosterSoundness(r: Run, pool: seq<GameTask>, n: nat, h: Uuid, g: GameId, d: Uuid)
    requires IsRun(r, pool) && n < |r.states| && Hosts(r.states[n], h, g)
    requires d in Game(r.states[n], h).Roster()
    ensures var s := r.states[n];
      && d in s.clients && d != h
      && (if s.clients[d].game.Some? then !s.clients[d].game.value.isHost && s.clients[d].game.value.host.id == h
          else s.clients[d].pc.Registered? && s.clients[d].pc.accepted && s.clients[d].pc.host == h)
      && forall k, g' :: Hosts(s, k, g') && d in Game(s, k).Roster() ==> k == h
  {
    var s := r.states[n];
    RunIsOk(r, pool, n);
    Views.OneRoster(s, h, h, d);
    forall k, g' | Hosts(s, k, g') && d in Game(s, k).Roster() ensures k == h {
      Views.OneRoster(s, h, k, d);
    }
    PartOfMember(s, h, d);
  }

  lemma PartOfMember(s: State, h: Uuid, d: Uuid)
    requires RostersOk(Parts(s)) && IsHost(s, h) && d in s.clients[h].game.value.Roster()
    ensures d in s.clients && PartOf(s.clients[d]).Linked? && PartOf(s.clients[d]).host == h
  {
    assert Parts(s)[h] == PartOf(s.clients[h]);
    assert d in Parts(s)[h].members;
    assert d in Parts(s) && Parts(s)[d].Linked?;
  }

  /** Pointer completeness: a guest whose host hosts the very game it names is in that roster. */
  lemma PointerCompleteness(r: Run, pool: seq<GameTask>, n: nat, c: Uuid)
    requires IsRun(r, pool) && n < |r.states| && c in r.states[n].clients
    requires r.states[n].clients[c].game.Some? && !Game(r.states[n], c).isHost
    ensures var s := r.states[n];
      var mine := Game(s, c);
      Hosts(s, mine.host.id, mine.gameId) ==> c in Game(s, mine.host.id).Roster()
  {
    var s := r.states[n];
    RunIsOk(r, pool, n);
    assert Parts(s)[c] == PartOf(s.clients[c]);
    var h := Game(s, c).host.id;
    if h in s.clients {
      assert Parts(s)[h] == PartOf(s.clients[h]);
    }
  }

  /** No dangling entry: a live key names a connected client that hosts the game or has claimed it
      and not yet installed it, whatever claims and deletions have raced. */
  lemma NoDanglingEntry(r: Run, pool: seq<GameTask>, n: nat, g: GameId)
    requires IsRun(r, pool) && n < |r.states|
    requires g in r.states[n].directory && r.states[n].directory[g].Live?
    ensures var s := r.states[n];
      var h := s.directory[g].host;
      Hosts(s, h, g) || (h in s.clients && s.clients[h].pc == Claimed(g))
  {
    var s := r.states[n];
    RunIsOk(r, pool, n);
    var h := s.directory[g].host;
    assert Parts(s)[h] == PartOf(s.clients[h]);
  }

  /** Every copy of a participant is true while the participant is connected. */
  lemma CachedCopiesAreTrue(r: Run, pool: seq<GameTask>, n: nat, c: Uuid)
    requires IsRun(r, pool) && n < |r.states| && c in r.states[n].clients && r.states[n].clients[c].game.Some?
    ensures var s := r.states[n];
      var g := Game(s, c);
      && TrueCopy(g.me, c, s.clients[c])
      && (g.host.id in s.clients ==> TrueCopy(g.host, g.host.id, s.clients[g.host.id]))
      && (forall d :: d in g.Roster() ==> d in s.clients && TrueCopy(g.Roster()[d], d, s.clients[d]))
      && (g.connected.Some? <==> g.isHost)
  {
    var s := r.states[n];
    RunIsOk(r, pool, n);
    var g := Game(s, c);
    assert GameOk(c, s.clients[c], g);
    if !g.isHost {
      assert HostCopy(s.clients[c]) == Some(g.host);
    } else {
      assert RosterOf(s.clients[c]) == g.Roster();
    }
  }

  /** View convergence. A host and every rostered guest has been told of exactly the others in the
      game, by their live nicknames, whatever joins, leaves and rejoins have gone before. */
  lemma ViewConvergence(r: Run, pool: seq<GameTask>, n: nat, h: Uuid, g: GameId, d: Uuid)
    requires IsRun(r, pool) && n < |r.states| && Hosts(r.states[n], h, g)
    requires d == h || d in Game(r.states[n], h).Roster()
    ensures var s := r.states[n];
      && d in s.clients
      && var v := Views.View(Views.Out(s, d), g);
      && (forall c :: c in v <==> (c == h || c in Game(s, h).Roster()) && c != d)
      && (forall c :: c in v ==> c in s.clients && s.clients[c].nickname == Some(v[c]))
  {
    RunIsOk(r, pool, n);
    CachedCopiesAreTrue(r, pool, n, h);
    ViewsShow(r.states[n], h, g, d);
  }

  lemma ViewsShow(s: State, h: Uuid, g: GameId, d: Uuid)
    requires Views.HostsSee(s) && Views.MembersSee(s) && Hosts(s, h, g) && TrueCopy(Game(s, h).host, h, s.clients[h])
    requires forall c :: c in Game(s, h).Roster() ==>
      c in s.clients && TrueCopy(Game(s, h).Roster()[c], c, s.clients[c])
    requires d == h || d in Game(s, h).Roster()
    ensures var v := Views.View(Views.Out(s, d), g);
      && (forall c :: c in v <==> (c == h || c in Game(s, h).Roster()) && c != d)
      && (forall c :: c in v ==> c in s.clients && s.clients[c].nickname == Some(v[c]))
  {
    if d == h {
      assert Views.HostViewOk(s, h);
    } else {
      assert Views.MemberViewOk(s, h, d);
    }
  }

  /** ... and everybody else of nobody: who neither hosts a game nor is in its roster knows no one in
      it, be it free, a member of another game, or a guest whose game is over. */
  lemma StrangersKnowNobody(r: Run, pool: seq<GameTask>, n: nat, g: GameId, d: Uuid)
    requires IsRun(r, pool) && n < |r.states| && d in r.states[n].clients
    requires !Hosts(r.states[n], d, g)
    requires forall h :: Hosts(r.states[n], h, g) ==> d !in Game(r.states[n], h).Roster()
    ensures Views.View(Views.Out(r.states[n], d), g) == map[]
  {
    var s := r.states[n];
    RunIsOk(r, pool, n);
    forall h | h in Parts(s) ensures !Views.Plays(Parts(s)[h], h, d, g) {
      assert Parts(s)[h] == PartOf(s.clients[h]);
      assert Parts(s)[h].Hosting? && Parts(s)[h].gameId == g ==> Hosts(s, h, g);
    }
    assert Views.IsStranger(Parts(s), d, g);
  }

  /** Progress maps of a started game cover its tasks, for the host and for every member, unless the
      host has none and is closing. */
  lemma ProgressShape(r: Run, pool: seq<GameTask>, n: nat, h: Uuid, g: GameId)
    requires IsRun(r, pool) && n < |r.states| && Hosts(r.states[n], h, g) && Game(r.states[n], h).isStarted
    ensures var game := Game(r.states[n], h);
      if game.host.progress.None? then r.states[n].clients[h].closing
      else
        && FullProgress(game.host, |game.tasks|)
        && forall d :: d in game.Roster() ==> FullProgress(game.Roster()[d], |game.tasks|)
  {
    RunIsOk(r, pool, n);
    assert ClientOk(h, r.states[n].clients[h], r.states[n].claims, r.states[n].games);
  }

  // ---- the course of a game ----------------------------------------------------------------

  /** `h` hosts `g`, or has claimed it and not yet installed it. */
  predicate Committed(s: State, h: Uuid, g: GameId) {
    Hosts(s, h, g) || (h in s.clients && s.clients[h].game.None? && s.clients[h].pc == Claimed(g))
  }

  /** `h` has hosted `g`, or claimed it, and is through with it. */
  ghost predicate IsOver(s: State, h: Uuid, g: GameId) {
    (h, g) in s.claims && !Committed(s, h, g)
  }

  /** A step of `c` leaves the requests of the others where they are, claims a game for `c` only after
      it has read the key as unclaimed, and runs its code only after it has looked up the host.
      Claims are never forgotten, and the pool never changes. */
  ghost predicate Waits(s: State, s': State, c: Uuid) {
    && s'.pool == s.pool && s.claims <= s'.claims
    && (forall d :: d in s.clients && d != c ==> d in s'.clients && s'.clients[d].pc == s.clients[d].pc)
    && (forall d :: d in s'.clients && d != c ==> d in s.clients)
    && (c in s'.clients && s'.clients[c].pc.Claimed? ==>
          c in s.clients && s.clients[c].pc == SawEmpty(s'.clients[c].pc.gameId))
    && (c in s'.clients && s'.clients[c].pc.Running? ==> c in s.clients && s.clients[c].pc.CompileSaw?)
  }

  lemma TaskWaits(s: State, c: Uuid, index: Option<nat>)
    requires Ready(s, c)
    ensures Waits(s, DoTask(s, c, index), c)
  {
  }

  lemma IdentifyWaits(s: State, c: Uuid, nickname: Option<string>)
    requires Ready(s, c)
    ensures Waits(s, DoIdentify(s, c, nickname), c)
  {
  }

  lemma ExistsWaits(s: State, c: Uuid)
    requires c in s.clients && s.clients[c].pc.ExistsSaw?
    ensures Waits(s, DoExistsAnswer(s, c), c)
  {
  }

  lemma AnswerWaits(s: State, a: Action)
    requires Enabled(s, a) && Lobby.IsAnswer(a)
    ensures Waits(s, Step(s, a), a.c)
  {
    match a
    case Task(c, index) => TaskWaits(s, c, index);
    case Identify(c, nickname) => IdentifyWaits(s, c, nickname);
    case ExistsAnswer(c) => ExistsWaits(s, c);
    case _ =>
  }

  lemma JoinReadWaits(s: State, c: Uuid, join: Option<GameId>)
    requires Ready(s, c)
    ensures Waits(s, DoJoinRead(s, c, join), c)
  {
  }

  lemma CompileReadWaits(s: State, c: Uuid, request: Option<(string, nat)>)
    requires Ready(s, c)
    ensures Waits(s, DoCompileRead(s, c, request), c)
  {
  }

  lemma CompileReplyWaits(s: State, c: Uuid)
    requires c in s.clients && s.clients[c].pc.Replying?
    ensures Waits(s, DoCompileReply(s, c), c)
  {
  }

  lemma MoveWaits(s: State, a: Action)
    requires Enabled(s, a) && Lobby.IsMove(a)
    ensures Waits(s, Step(s, a), a.c)
  {
    match a
    case JoinRead(c, join) => JoinReadWaits(s, c, join);
    case CompileRead(c, request) => CompileReadWaits(s, c, request);
    case CompileReply(c) => CompileReplyWaits(s, c);
    case _ =>
  }

  lemma JoinWaits(s: State, a: Action)
    requires Enabled(s, a) && (a.JoinRegister? || a.JoinInstall? || a.Connect? || a.Remove?)
    ensures Waits(s, Step(s, a), a.c)
  {
  }

  lemma DropWaits(s: State, c: Uuid)
    requires c in s.clients && s.clients[c].pc.Idle?
    ensures Waits(s, DropGame(s, c), c) && DropGame(s, c).clients.Keys == s.clients.Keys
    ensures DropGame(s, c).clients[c].pc == Idle
  {
    if s.clients[c].game.Some? && !s.clients[c].game.value.isHost {
      var mine := s.clients[c].game.value;
      var s1 := SetGame(s, c, None);
      SetGameWaits(s, c, c, None);
      if GameOf(s1, mine.host.id).Some? {
        SetGameWaits(s1, mine.host.id, c, Some(UnregisterGame(GameOf(s1, mine.host.id).value, mine.me.id)));
      }
    }
  }

  lemma SetGameWaits(s: State, h: Uuid, c: Uuid, g: Option<Types.Game>)
    requires h in s.clients && c in s.clients && s.clients[c].pc.Idle?
    ensures Waits(s, SetGame(s, h, g), c) && SetGame(s, h, g).clients.Keys == s.clients.Keys
    ensures SetGame(s, h, g).clients[c].pc == Idle
  {
  }

  lemma StartWaits(s: State, c: Uuid, count: Option<nat>, picks: seq<nat>)
    requires Ready(s, c) && (count.Some? ==> ValidPicks(s.pool, count.value, picks))
    ensures Waits(s, DoStart(s, c, count, picks), c)
  {
    DropWaits(s, c);
  }

  lemma EndWaits(s: State, a: Action)
    requires Enabled(s, a) && (a.Leave? || a.Start? || a.Close?)
    ensures Waits(s, Step(s, a), a.c)
  {
    match a
    case Start(c, count, picks) => StartWaits(s, c, count, picks);
    case _ => DropWaits(s, a.c);
  }

  lemma ValidatedWaits(s: State, h: Uuid, c: Uuid, index: nat, run: SandboxResponse,
                       privateRun: Option<SandboxResponse>)
    requires h in s.clients && s.clients[h].game.Some?
    ensures var s' := Validated(s, h, c, index, run, privateRun);
      s'.clients.Keys == s.clients.Keys && forall d :: d in s.clients ==> s'.clients[d].pc == s.clients[d].pc
  {
  }

  lemma ValidateWaits(s: State, c: Uuid, run: Option<SandboxResponse>, privateRun: Option<SandboxResponse>)
    requires c in s.clients && s.clients[c].pc.Running?
    ensures Waits(s, DoCompileValidate(s, c, run, privateRun), c)
  {
    var pc := s.clients[c].pc;
    if run.Some? && HostProblem(s, pc.host).None? {
      ValidatedWaits(s, pc.host, c, pc.taskIndex, run.value, privateRun);
      var s1 := Validated(s, pc.host, c, pc.taskIndex, run.value, privateRun);
      var s' := DoCompileValidate(s, c, run, privateRun);
      assert s' == Fail(s1, c) || s' == SetPc(s1, c, s'.clients[c].pc);
    }
  }

  lemma StepWaits(s: State, a: Action)
    requires Enabled(s, a)
    ensures Waits(s, Step(s, a), a.c)
  {
    if Lobby.IsAnswer(a) {
      AnswerWaits(s, a);
    } else if Lobby.IsMove(a) {
      MoveWaits(s, a);
    } else if a.CompileValidate? {
      ValidateWaits(s, a.c, a.run, a.privateRun);
    } else if a.Leave? || a.Start? || a.Close? {
      EndWaits(s, a);
    } else {
      JoinWaits(s, a);
    }
  }

  lemma HostedWasClaimed(s: State, h: Uuid, g: GameId)
    requires LinksOk(Parts(s), s.claims) && ClientsOk(s) && Hosts(s, h, g)
    ensures (h, g) in s.claims && !InJoin(s.clients[h].pc)
  {
    assert Parts(s)[h] == PartOf(s.clients[h]);
    assert GameOk(h, s.clients[h], Game(s, h));
  }

  lemma ClaimIsNew(s: State, a: Action, h: Uuid, g: GameId)
    requires ClientsOk(s) && Enabled(s, a) && h in Step(s, a).clients && Step(s, a).clients[h].pc == Claimed(g)
    ensures h in s.clients && s.clients[h].game.None?
    ensures s.clients[h].pc == Claimed(g) || (h, g) !in s.claims
  {
    StepWaits(s, a);
    assert ClientOk(h, s.clients[h], s.claims, s.games);
  }

  lemma HostComes(s: State, a: Action, h: Uuid, g: GameId)
    requires Inv(s) && Enabled(s, a) && Hosts(Step(s, a), h, g)
    ensures Committed(s, h, g)
  {
    var l, l' := Lobby.Abs(s), Lobby.Abs(Step(s, a));
    Lobby.StepRefines(s, a);
    assert h in l' && l'[h].gameId == g;
    if h in l {
      Lobby.NextFreezes(l, Lobby.EventOf(s, a), h);
      LobbyHost(s, h, g);
    } else {
      assert Lobby.EventOf(s, a) == Lobby.Opens(h, g);
      OpensByInstall(s, a, h, g);
    }
  }

  lemma OpensByInstall(s: State, a: Action, h: Uuid, g: GameId)
    requires ClientsOk(s) && Enabled(s, a) && Lobby.EventOf(s, a) == Lobby.Opens(h, g)
    ensures Committed(s, h, g)
  {
    assert ClientOk(a.c, s.clients[a.c], s.claims, s.games);
  }

  lemma OverStays(s: State, a: Action, h: Uuid, g: GameId)
    requires Inv(s) && Enabled(s, a) && IsOver(s, h, g)
    ensures IsOver(Step(s, a), h, g)
  {
    var s' := Step(s, a);
    StepWaits(s, a);
    if Hosts(s', h, g) {
      HostComes(s, a, h, g);
    }
    if h in s'.clients && s'.clients[h].pc == Claimed(g) {
      ClaimIsNew(s, a, h, g);
    }
  }

  lemma HostStays(s: State, a: Action, h: Uuid, g: GameId)
    requires Inv(s) && Enabled(s, a) && Hosts(s, h, g)
    ensures Hosts(Step(s, a), h, g) || IsOver(Step(s, a), h, g)
  {
    HostedWasClaimed(s, h, g);
    StepWaits(s, a);
    var s' := Step(s, a);
    if h in s'.clients && s'.clients[h].pc == Claimed(g) {
      ClaimIsNew(s, a, h, g);
    }
  }

  lemma HostedGoesOn(s: State, a: Action, h: Uuid, g: GameId)
    requires Inv(s) && Enabled(s, a) && (Hosts(s, h, g) || IsOver(s, h, g))
    ensures Hosts(Step(s, a), h, g) || IsOver(Step(s, a), h, g)
  {
    if Hosts(s, h, g) {
      HostStays(s, a, h, g);
    } else {
      OverStays(s, a, h, g);
    }
  }

  lemma {:induction false} HostedOrOver(r: Run, pool: seq<GameTask>, i: nat, j: nat, h: Uuid, g: GameId)
    requires IsRun(r, pool) && i <= j < |r.states| && Hosts(r.states[i], h, g)
    ensures Hosts(r.states[j], h, g) || IsOver(r.states[j], h, g)
    decreases j
  {
    if i < j {
      HostedOrOver(r, pool, i, j - 1, h, g);
      RunIsOk(r, pool, j - 1);
      assert StepAt(r, j - 1);
      HostedGoesOn(r.states[j - 1], r.actions[j - 1], h, g);
    }
  }

  lemma {:induction false} OverForGood(r: Run, pool: seq<GameTask>, i: nat, j: nat, h: Uuid, g: GameId)
    requires IsRun(r, pool) && i <= j < |r.states| && IsOver(r.states[i], h, g)
    ensures !Hosts(r.states[j], h, g) && IsOver(r.states[j], h, g)
    decreases j
  {
    if i < j {
      OverForGood(r, pool, i, j - 1, h, g);
      RunIsOk(r, pool, j - 1);
      assert StepAt(r, j - 1);
      OverStays(r.states[j - 1], r.actions[j - 1], h, g);
    }
  }

  /** Nobody hosts the same game twice: between two moments of hosting it is hosted throughout. */
  lemma HostedInOnePiece(r: Run, pool: seq<GameTask>, i: nat, k: nat, j: nat, h: Uuid, g: GameId)
    requires IsRun(r, pool) && i <= k <= j < |r.states|
    requires Hosts(r.states[i], h, g) && Hosts(r.states[j], h, g)
    ensures Hosts(r.states[k], h, g)
  {
    HostedOrOver(r, pool, i, k, h, g);
    if !Hosts(r.states[k], h, g) {
      OverForGood(r, pool, k, j, h, g);
    }
  }

  lemma StepFreezes(s: State, a: Action, h: Uuid, g: GameId)
    requires Inv(s) && Enabled(s, a) && Hosts(s, h, g) && Hosts(Step(s, a), h, g)
    ensures Lobby.Frozen(Lobby.LobbyOf(Game(s, h)), Lobby.LobbyOf(Game(Step(s, a), h)))
  {
    var l, l' := Lobby.Abs(s), Lobby.Abs(Step(s, a));
    assert l[h] == Lobby.LobbyOf(Game(s, h)) && l'[h] == Lobby.LobbyOf(Game(Step(s, a), h));
    Lobby.StepRefines(s, a);
    Lobby.NextFreezes(l, Lobby.EventOf(s, a), h);
  }

  lemma FrozenTwice(a: Lobby.Lobby, b: Lobby.Lobby, c: Lobby.Lobby)
    requires Lobby.Frozen(a, b) && Lobby.Frozen(b, c)
    ensures Lobby.Frozen(a, c)
  {
  }

  lemma FrozenItself(a: Lobby.Lobby)
    ensures Lobby.Frozen(a, a)
  {
  }

  /** The lobby of `h` at a moment at which it hosts. */
  function LobbyAt(r: Run, i: nat, h: Uuid, g: GameId): Lobby.Lobby
    requires i < |r.states| && Hosts(r.states[i], h, g)
  {
    Lobby.LobbyOf(Game(r.states[i], h))
  }

  lemma FrozenNext(r: Run, pool: seq<GameTask>, j: nat, h: Uuid, g: GameId)
    requires IsRun(r, pool) && j + 1 < |r.states| && Hosts(r.states[j], h, g) && Hosts(r.states[j + 1], h, g)
    ensures Lobby.Frozen(LobbyAt(r, j, h, g), LobbyAt(r, j + 1, h, g))
  {
    RunIsOk(r, pool, j);
    assert StepAt(r, j);
    StepFreezes(r.states[j], r.actions[j], h, g);
  }

  /** Frozen competition: once started, for as long as it is hosted, members only leave, the tasks
      are the same, and a solved task stays solved. */
  lemma {:induction false} FrozenCompetition(r: Run, pool: seq<GameTask>, i: nat, j: nat, h: Uuid, g: GameId)
    requires IsRun(r, pool) && i <= j < |r.states| && Hosts(r.states[i], h, g) && Hosts(r.states[j], h, g)
    ensures Lobby.Frozen(LobbyAt(r, i, h, g), LobbyAt(r, j, h, g))
    decreases j
  {
    if i == j {
      FrozenItself(LobbyAt(r, i, h, g));
    } else {
      HostedInOnePiece(r, pool, i, j - 1, j, h, g);
      FrozenCompetition(r, pool, i, j - 1, h, g);
      FrozenNext(r, pool, j - 1, h, g);
      FrozenTwice(LobbyAt(r, i, h, g), LobbyAt(r, j - 1, h, g), LobbyAt(r, j, h, g));
    }
  }

  // ---- what a grading was prepared from ----------------------------------------------------

  /** The test `pc` of `c` is made from a task that the game `pc.prepared` of its host has. */
  ghost predicate Prepares(s: State, a: Action, c: Uuid, pc: Pc)
    requires pc.Running?
  {
    && a == CompilePrepare(c) && Hosts(s, pc.host, pc.prepared) && HasTask(Game(s, pc.host), pc.taskIndex)
    && pc.stdin == Stdins(Game(s, pc.host).tasks[pc.taskIndex].publicCases)
  }

  lemma RunningComes(s: State, a: Action, c: Uuid)
    requires Enabled(s, a) && c in Step(s, a).clients && Step(s, a).clients[c].pc.Running?
    ensures var pc := Step(s, a).clients[c].pc;
      (c in s.clients && s.clients[c].pc == pc) || Prepares(s, a, c, pc)
  {
    StepWaits(s, a);
    if a.c == c {
      assert a == CompilePrepare(c);
    }
  }

  ghost predicate PreparesAt(r: Run, k: nat, c: Uuid, pc: Pc)
    requires k < |r.states| && k < |r.actions| && pc.Running?
  {
    Prepares(r.states[k], r.actions[k], c, pc)
  }

  lemma {:induction false} PreparedEarlier(r: Run, pool: seq<GameTask>, n: nat, c: Uuid)
    requires IsRun(r, pool) && n < |r.states| && c in r.states[n].clients && r.states[n].clients[c].pc.Running?
    ensures exists k: nat :: k < n && PreparesAt(r, k, c, r.states[n].clients[c].pc)
  {
    assert n > 0;
    assert StepAt(r, n - 1);
    RunningComes(r.states[n - 1], r.actions[n - 1], c);
    if !PreparesAt(r, n - 1, c, r.states[n].clients[c].pc) {
      PreparedEarlier(r, pool, n - 1, c);
    }
  }

  /** A test in flight was made by an earlier step from a task of the game that it names. If its host
      still hosts that game, the tasks it is graded against are those, whatever steps fell between. */
  lemma GradedAsPrepared(r: Run, pool: seq<GameTask>, n: nat, c: Uuid)
    requires IsRun(r, pool) && n < |r.states| && c in r.states[n].clients && r.states[n].clients[c].pc.Running?
    ensures var s := r.states[n];
      var pc := s.clients[c].pc;
      exists k: nat :: k < n && PreparesAt(r, k, c, pc)
        && (Hosts(s, pc.host, pc.prepared) ==>
              Game(s, pc.host).isStarted && Game(s, pc.host).tasks == Game(r.states[k], pc.host).tasks)
  {
    var pc := r.states[n].clients[c].pc;
    PreparedEarlier(r, pool, n, c);
    var k: nat :| k < n && PreparesAt(r, k, c, pc);
    if Hosts(r.states[n], pc.host, pc.prepared) {
      FrozenCompetition(r, pool, k, n, pc.host, pc.prepared);
      FrozenTasks(Game(r.states[k], pc.host), Game(r.states[n], pc.host));
    }
  }

  // ---- every success is justified ----------------------------------------------------------

  /** The step grades runs of `c` against task `i` of the game `g` of `h`, and they match everywhere. */
  ghost predicate Solving(s: State, a: Action, h: Uuid, g: GameId, i: nat, c: Uuid) {
    && a.CompileValidate? && a.c == c && c in s.clients
    && s.clients[c].pc.Running? && s.clients[c].pc.host == h && s.clients[c].pc.taskIndex == i
    && Hosts(s, h, g) && HasTask(Game(s, h), i)
    && a.run.Some? && Grader.Solves(Game(s, h).tasks[i], a.run.value, a.privateRun)
  }

  /** How often `m` has been sent on `ch`. */
  function Copies(out: Outboxes, ch: Channel, m: Message): nat {
    if ch in out then multiset(out[ch])[m] else 0
  }

  /** The step announces to `ch` what `m` says: a task of a game has just been solved, and `ch` is the
      channel of a participant of that game other than the solver. */
  ghost predicate Announces(s: State, a: Action, ch: Channel, m: Message)
    requires m.TaskFinished?
  {
    exists h, g :: Solving(s, a, h, g, m.taskIndex, m.solver)
      && Game(s, h).tasks[m.taskIndex].Shown() == m.task && Game(s, h).host.progress.Some?
      && IsForeign(s, h, m.solver, ch)
  }

  /** `ch` belongs to a participant of the game of `h` other than `c`. */
  ghost predicate IsForeign(s: State, h: Uuid, c: Uuid, ch: Channel)
    requires h in s.clients && s.clients[h].game.Some?
  {
    exists d :: d in s.clients && s.clients[d].channel == ch && d != c && (d == h || d in Game(s, h).Roster())
  }

  /** The outboxes hold the same TaskFinished events. */
  ghost predicate NoneSolved(out: Outboxes, out': Outboxes) {
    forall ch, m: Message :: m.TaskFinished? ==> Copies(out', ch, m) == Copies(out, ch, m)
  }

  lemma PostNotSolved(out: Outboxes, ch: Channel, m: Message)
    requires !m.TaskFinished?
    ensures NoneSolved(out, Post(out, ch, m))
  {
  }

  lemma PostOnceNotSolved(out: Outboxes, chs: set<Channel>, m: Message)
    requires !m.TaskFinished?
    ensures NoneSolved(out, PostOnce(out, chs, m))
  {
  }

  lemma {:induction false} IntroductionsNotSolved(g: Game, order: seq<Uuid>, m: Message)
    requires forall c :: c in order ==> c in g.Roster()
    ensures m in Introductions(g, order) ==> m.ConnectedClient?
  {
    if order != [] {
      IntroductionsNotSolved(g, order[..|order| - 1], m);
    }
  }

  lemma {:induction false} DeliverAllNotSolved(out: Outboxes, p: PartialClient, ms: seq<Message>)
    requires forall m: Message :: m in ms ==> !m.TaskFinished?
    ensures NoneSolved(out, DeliverAll(out, p, ms))
  {
    if ms != [] {
      DeliverAllNotSolved(out, p, ms[..|ms| - 1]);
      if p.isLocal && p.writeChannel.Some? {
        PostNotSolved(DeliverAll(out, p, ms[..|ms| - 1]), p.writeChannel.value, ms[|ms| - 1]);
      }
    }
  }

  lemma RegisterNotSolved(g: Game, out: Outboxes, p: PartialClient, order: seq<Uuid>)
    requires Walks(order, g.Roster().Keys)
    ensures NoneSolved(out, RegisterOut(g, out, p, order))
  {
    if Admits(g) {
      var ms := Introductions(g, order);
      forall m | m in ms ensures !m.TaskFinished? { IntroductionsNotSolved(g, order, m); }
      DeliverAllNotSolved(out, p, ms);
      var out1 := DeliverAll(out, p, ms);
      var hello := ConnectedClient(g.gameId, g.host.id, g.host.nickname);
      var out2 := Deliver(out1, p, hello);
      if p.isLocal && p.writeChannel.Some? {
        PostNotSolved(out1, p.writeChannel.value, hello);
      }
      PostOnceNotSolved(out2, Audience(g, {}), ConnectedClient(g.gameId, p.id, p.nickname));
    }
  }

  lemma ReplyNotSolved(s: State, c: Uuid, m: Message)
    requires c in s.clients && !m.TaskFinished?
    ensures NoneSolved(s.outboxes, Reply(s, c, m).outboxes)
  {
    PostNotSolved(s.outboxes, s.clients[c].channel, m);
  }

  lemma TaskNotSolved(s: State, c: Uuid, index: Option<nat>)
    requires Ready(s, c)
    ensures NoneSolved(s.outboxes, DoTask(s, c, index).outboxes)
  {
    if s.clients[c].game.None? {
      ReplyNotSolved(s, c, ErrorMessage(NotInGame(ClientNotInGame)));
    } else if index.Some? {
      var h := s.clients[c].game.value.host.id;
      match TaskAt(s, h, index.value)
      case None => ReplyNotSolved(s, c, ErrorMessage(TaskProblem(s, h)));
      case Some(task) => ReplyNotSolved(s, c, TaskResponse(task));
    }
  }

  lemma IdentifyNotSolved(s: State, c: Uuid, nickname: Option<string>)
    requires Ready(s, c)
    ensures NoneSolved(s.outboxes, DoIdentify(s, c, nickname).outboxes)
  {
    ReplyNotSolved(s, c, IdentifyResponse(true));
    ReplyNotSolved(s, c, IdentifyResponse(false));
  }

  lemma ExistsNotSolved(s: State, c: Uuid)
    requires c in s.clients && s.clients[c].pc.ExistsSaw?
    ensures NoneSolved(s.outboxes, DoExistsAnswer(s, c).outboxes)
  {
    ReplyNotSolved(s, c, ExistsResponse(true));
    ReplyNotSolved(s, c, ExistsResponse(false));
  }

  lemma AnswerNotSolved(s: State, a: Action)
    requires Enabled(s, a) && Lobby.IsAnswer(a)
    ensures NoneSolved(s.outboxes, Step(s, a).outboxes)
  {
    match a
    case Malformed(c, _) => ReplyNotSolved(s, c, ErrorMessage(InvalidMessage(InvalidModel)));
    case Task(c, index) => TaskNotSolved(s, c, index);
    case Ping(c) => ReplyNotSolved(s, c, PingResponse);
    case Identify(c, nickname) => IdentifyNotSolved(s, c, nickname);
    case Create(c, _, g) => ReplyNotSolved(s, c, CreateResponse(g));
    case ExistsRead(_, _) =>
    case ExistsAnswer(c) => ExistsNotSolved(s, c);
  }

  lemma ReadNotSolved(s: State, c: Uuid, join: Option<GameId>)
    requires Ready(s, c)
    ensures NoneSolved(s.outboxes, DoJoinRead(s, c, join).outboxes)
  {
    ReplyNotSolved(s, c, ErrorMessage(AlreadyInGame(ClientAlreadyInGame)));
    ReplyNotSolved(s, c, ErrorMessage(ClientNotIdentified));
    ReplyNotSolved(s, c, ErrorMessage(NoGameWasFound));
  }

  lemma MoveNotSolved(s: State, a: Action)
    requires ClientsOk(s) && Enabled(s, a) && Lobby.IsMove(a)
    ensures NoneSolved(s.outboxes, Step(s, a).outboxes)
  {
    match a
    case JoinRead(c, join) => ReadNotSolved(s, c, join);
    case CompileRead(c, _) => ReplyNotSolved(s, c, ErrorMessage(NotInGame(ClientNotInGame)));
    case CompileReply(c) =>
      assert ClientOk(c, s.clients[c], s.claims, s.games);
      ReplyNotSolved(s, c, s.clients[c].pc.reply);
    case _ =>
  }

  lemma JoinNotSolved(s: State, a: Action)
    requires Enabled(s, a) && (a.JoinRegister? || a.JoinInstall? || a.Connect? || a.Remove?)
    ensures NoneSolved(s.outboxes, Step(s, a).outboxes)
  {
    if a.JoinRegister? {
      var pc := s.clients[a.c].pc;
      if GameOf(s, pc.host).Some? {
        RegisterNotSolved(GameOf(s, pc.host).value, s.outboxes, Me(s, a.c, pc.nickname), a.order);
      }
    }
  }

  lemma DeliverNotSolved(out: Outboxes, p: PartialClient, m: Message)
    requires !m.TaskFinished?
    ensures NoneSolved(out, Deliver(out, p, m))
  {
    if p.isLocal && p.writeChannel.Some? {
      PostNotSolved(out, p.writeChannel.value, m);
    }
  }

  lemma UnregisterNotSolved(out: Outboxes, g: Game, c: Uuid)
    ensures NoneSolved(out, UnregisterOut(g, out, c))
  {
    PostOnceNotSolved(out, Audience(UnregisterGame(g, c), {}), DisconnectedClient(g.gameId, c));
  }

  lemma DropNotSolved(s: State, c: Uuid)
    requires c in s.clients
    ensures NoneSolved(s.outboxes, DropGame(s, c).outboxes)
  {
    if s.clients[c].game.Some? {
      var g := s.clients[c].game.value;
      if g.isHost {
        PostOnceNotSolved(s.outboxes, RosterChannels(g, {}), ShutdownEvent);
        DeliverNotSolved(PostOnce(s.outboxes, RosterChannels(g, {}), ShutdownEvent), g.host, ShutdownResponse(true));
      } else {
        var hosted := GameOf(SetGame(s, c, None), g.host.id);
        if hosted.Some? {
          UnregisterNotSolved(s.outboxes, hosted.value, g.me.id);
          DeliverNotSolved(UnregisterOut(hosted.value, s.outboxes, g.me.id), g.me, LeaveResponse(true));
        } else {
          DeliverNotSolved(s.outboxes, g.me, LeaveResponse(true));
        }
      }
    }
  }

  lemma StartNotSolved(s: State, c: Uuid, count: Option<nat>, picks: seq<nat>)
    requires Ready(s, c) && (count.Some? ==> ValidPicks(s.pool, count.value, picks))
    ensures NoneSolved(s.outboxes, DoStart(s, c, count, picks).outboxes)
  {
    if s.clients[c].game.None? {
      ReplyNotSolved(s, c, ErrorMessage(NotInGame(ClientNotInGame)));
    } else if !s.clients[c].game.value.isHost {
      DropNotSolved(s, c);
      PostNotSolved(DropGame(s, c).outboxes, DropGame(s, c).clients[c].channel,
          ErrorMessage(NotGameHost(ClientNotHost)));
    } else if count.Some? {
      PostOnceNotSolved(s.outboxes, Audience(s.clients[c].game.value, {}), StartEvent(count.value));
    }
  }

  lemma EndNotSolved(s: State, a: Action)
    requires Enabled(s, a) && (a.Leave? || a.Start? || a.Close?)
    ensures NoneSolved(s.outboxes, Step(s, a).outboxes)
  {
    match a
    case Start(c, count, picks) => StartNotSolved(s, c, count, picks);
    case _ =>
      DropNotSolved(s, a.c);
      ReplyNotSolved(s, a.c, ErrorMessage(NotInGame(ClientNotInGame)));
  }

  /** The audience of a broadcast is the participants, as far as they are not skipped. */
  lemma AudienceIsForeign(s: State, h: Uuid, c: Uuid, ch: Channel)
    requires Inv(s) && IsHost(s, h)
    ensures ch in Audience(Game(s, h), {c}) <==> IsForeign(s, h, c, ch)
  {
    var g := Game(s, h);
    assert GameOk(h, s.clients[h], g);
    if ch in RosterChannels(g, {c}) {
      var e :| e in g.Roster() && e !in {c} && Reachable(g.Roster()[e]) && g.Roster()[e].writeChannel.value == ch;
      Delivery.RosterCopy(s, h, e);
    }
    if IsForeign(s, h, c, ch) {
      var d :| d in s.clients && s.clients[d].channel == ch && d != c && (d == h || d in g.Roster());
      Views.AudienceIsExact(s, h, {c}, d);
    }
  }

  /** What the game of `h`, asked to grade, puts on a channel. */
  lemma GradingAnnounces(s: State, a: Action, h: Uuid, g: Game, i: nat, ch: Channel, m: Message)
    requires Inv(s) && a.CompileValidate? && a.run.Some? && m.TaskFinished?
    requires a.c in s.clients && s.clients[a.c].pc.Running?
    requires s.clients[a.c].pc.host == h && s.clients[a.c].pc.taskIndex == i
    requires IsHost(s, h) && s.clients[h].game == Some(g)
    ensures Copies(ValidateOut(g, s.outboxes, a.c, i, a.run.value, a.privateRun), ch, m)
         == Copies(s.outboxes, ch, m) + if Announces(s, a, ch, m) then 1 else 0
  {
    Delivery.CreditedWhenSolved(g, a.c, i, a.run.value, a.privateRun);
    AudienceIsForeign(s, h, a.c, ch);
    ForeignIsWired(s, h, a.c, ch);
    if Credits(g, a.c, i, a.run.value, a.privateRun) {
      var sent := TaskFinished(g.tasks[i].Shown(), i, a.c);
      CopiesOfBroadcast(s.outboxes, Audience(g, {a.c}), sent, ch, m);
      assert Solving(s, a, h, g.gameId, i, a.c);
      assert Announces(s, a, ch, m) <==> m == sent && IsForeign(s, h, a.c, ch);
    } else {
      assert !Announces(s, a, ch, m);
    }
  }

  lemma ForeignIsWired(s: State, h: Uuid, c: Uuid, ch: Channel)
    requires WiringOk(s) && IsHost(s, h)
    ensures s.clients[h].game.value.isHost && (IsForeign(s, h, c, ch) ==> ch in s.outboxes)
  {
  }

  /** A grading announces the task it solves, once on each channel that is to hear of it. */
  lemma ValidateAnnounces(s: State, a: Action, ch: Channel, m: Message)
    requires Inv(s) && Enabled(s, a) && a.CompileValidate? && m.TaskFinished?
    ensures Copies(Step(s, a).outboxes, ch, m) == Copies(s.outboxes, ch, m) + if Announces(s, a, ch, m) then 1 else 0
  {
    var pc := s.clients[a.c].pc;
    if a.run.Some? && HostProblem(s, pc.host).None? {
      var g := s.clients[pc.host].game.value;
      assert GameOk(pc.host, s.clients[pc.host], g);
      assert Step(s, a).outboxes == ValidateOut(g, s.outboxes, a.c, pc.taskIndex, a.run.value, a.privateRun);
      GradingAnnounces(s, a, pc.host, g, pc.taskIndex, ch, m);
    } else {
      UngradedAnnouncesNothing(s, a, ch, m);
    }
  }

  lemma UngradedAnnouncesNothing(s: State, a: Action, ch: Channel, m: Message)
    requires ClientsOk(s) && Enabled(s, a) && a.CompileValidate? && m.TaskFinished?
    requires a.run.None? || HostProblem(s, s.clients[a.c].pc.host).Some?
    ensures !Announces(s, a, ch, m) && Step(s, a).outboxes == s.outboxes
  {
  }

  lemma CopiesOfBroadcast(out: Outboxes, channels: set<Channel>, sent: Message, ch: Channel, m: Message)
    ensures Copies(PostOnce(out, channels, sent), ch, m)
         == Copies(out, ch, m) + if ch in out && ch in channels && m == sent then 1 else 0
  {
  }

  lemma StepAnnounces(s: State, a: Action, ch: Channel, m: Message)
    requires Inv(s) && Enabled(s, a) && m.TaskFinished?
    ensures Copies(Step(s, a).outboxes, ch, m) == Copies(s.outboxes, ch, m) + if Announces(s, a, ch, m) then 1 else 0
  {
    if a.CompileValidate? {
      ValidateAnnounces(s, a, ch, m);
    } else if Lobby.IsAnswer(a) {
      AnswerNotSolved(s, a);
    } else if Lobby.IsMove(a) {
      MoveNotSolved(s, a);
    } else if a.Leave? || a.Start? || a.Close? {
      EndNotSolved(s, a);
    } else {
      JoinNotSolved(s, a);
    }
  }

  ghost predicate AnnouncesAt(r: Run, j: nat, ch: Channel, m: Message)
    requires j < |r.states| && j < |r.actions| && m.TaskFinished?
  {
    Announces(r.states[j], r.actions[j], ch, m)
  }

  /** How many of the first `n` steps announce `m` to `ch`. */
  ghost function Announcements(r: Run, n: nat, ch: Channel, m: Message): nat
    requires n <= |r.actions| && n <= |r.states| && m.TaskFinished?
  {
    if n == 0 then 0 else Announcements(r, n - 1, ch, m) + if AnnouncesAt(r, n - 1, ch, m) then 1 else 0
  }

  /** Justified success, counted: every channel holds exactly as many copies of a TaskFinished event as
      there were gradings that solved that task, by that solver, in a game in which the owner of the
      channel took part and was not the solver. */
  lemma {:induction false} AnnouncedTasksWereSolved(r: Run, pool: seq<GameTask>, n: nat, ch: Channel, m: Message)
    requires IsRun(r, pool) && n < |r.states| && m.TaskFinished?
    ensures Copies(r.states[n].outboxes, ch, m) == Announcements(r, n, ch, m)
  {
    if n > 0 {
      AnnouncedTasksWereSolved(r, pool, n - 1, ch, m);
      RunIsOk(r, pool, n - 1);
      assert StepAt(r, n - 1);
      StepAnnounces(r.states[n - 1], r.actions[n - 1], ch, m);
    }
  }

  lemma {:induction false} AnnouncementIsThere(r: Run, n: nat, ch: Channel, m: Message)
    requires n <= |r.actions| && n <= |r.states| && m.TaskFinished? && Announcements(r, n, ch, m) > 0
    ensures exists j: nat :: j < n && AnnouncesAt(r, j, ch, m)
  {
    if !AnnouncesAt(r, n - 1, ch, m) {
      AnnouncementIsThere(r, n - 1, ch, m);
    }
  }

  /** So behind every TaskFinished event there is an earlier grading that justifies it. */
  lemma SuccessIsJustified(r: Run, pool: seq<GameTask>, n: nat, ch: Channel, m: Message)
    requires IsRun(r, pool) && n < |r.states| && m.TaskFinished?
    requires ch in r.states[n].outboxes && m in r.states[n].outboxes[ch]
    ensures exists j: nat :: j < n && AnnouncesAt(r, j, ch, m)
  {
    AnnouncedTasksWereSolved(r, pool, n, ch, m);
    assert m in multiset(r.states[n].outboxes[ch]);
    AnnouncementIsThere(r, n, ch, m);
  }

  /** The step starts the game `g` of `h` with `tasks`. */
  ghost predicate Starting(s: State, a: Action, h: Uuid, g: GameId, tasks: seq<GameTask>) {
    && a.Start? && a.c == h && a.count.Some? && Hosts(s, h, g) && !Game(s, h).isStarted
    && ValidPicks(s.pool, a.count.value, a.picks) && tasks == Chosen(s.pool, a.picks)
  }

  lemma StartEvents(s: State, a: Action, h: Uuid, g: GameId, tasks: seq<GameTask>)
    requires Enabled(s, a) && Hosts(s, h, g)
    requires Lobby.EventOf(s, a) == Lobby.Begins(h, tasks) || Lobby.EventOf(s, a) == Lobby.Stalls(h, tasks)
    ensures Starting(s, a, h, g, tasks)
  {
  }

  lemma SolveEvents(s: State, a: Action, h: Uuid, g: GameId, i: nat)
    requires ClientsOk(s) && Enabled(s, a) && Hosts(s, h, g) && Lobby.EventOf(s, a) == Lobby.Solves(h, i)
    ensures Solving(s, a, h, g, i, a.c)
  {
    assert GameOk(h, s.clients[h], Game(s, h));
    CreditedGame(Game(s, h), a.c, i, a.run.value, a.privateRun);
  }

  lemma LobbyFacts(s: State, h: Uuid, g: GameId)
    requires ClientsOk(s) && Hosts(s, h, g)
    ensures var l := Lobby.Abs(s);
      && h in l && l[h].gameId == g
      && (Game(s, h).isStarted <==> !l[h].phase.Open?)
      && (!l[h].phase.Open? ==> l[h].phase.tasks == Game(s, h).tasks)
      && forall i: nat :: Solved(s, h, i) <==> l[h].phase.Playing? && i in l[h].phase.done
  {
    assert GameOk(h, s.clients[h], Game(s, h));
  }

  lemma LobbyHost(s: State, h: Uuid, g: GameId)
    requires h in Lobby.Abs(s) && Lobby.Abs(s)[h].gameId == g
    ensures Hosts(s, h, g)
  {
  }

  /** What a step does to the tasks of a game that is started after it. */
  lemma TasksAreSetByStart(s: State, a: Action, h: Uuid, g: GameId)
    requires Inv(s) && Enabled(s, a)
    requires Hosts(Step(s, a), h, g) && Game(Step(s, a), h).isStarted
    ensures Hosts(s, h, g)
    ensures (Game(s, h).isStarted && Game(s, h).tasks == Game(Step(s, a), h).tasks)
         || Starting(s, a, h, g, Game(Step(s, a), h).tasks)
  {
    var l, e := Lobby.Abs(s), Lobby.EventOf(s, a);
    var tasks := Game(Step(s, a), h).tasks;
    StepKeeps(s, a);
    LobbyFacts(Step(s, a), h, g);
    Lobby.StepRefines(s, a);
    Lobby.TasksComeByStart(l, e, h);
    LobbyHost(s, h, g);
    LobbyFacts(s, h, g);
    if e == Lobby.Begins(h, tasks) || e == Lobby.Stalls(h, tasks) {
      StartEvents(s, a, h, g, tasks);
    }
  }

  /** A step at `k` that starts the game `g` of `h` with `tasks`. */
  ghost predicate StartsAt(r: Run, k: nat, h: Uuid, g: GameId, tasks: seq<GameTask>)
    requires k < |r.states| && k < |r.actions|
  {
    Starting(r.states[k], r.actions[k], h, g, tasks)
  }

  /** The tasks of a started game are the ones that its start chose. */
  lemma {:induction false} TasksFixedAtStart(r: Run, pool: seq<GameTask>, n: nat, h: Uuid, g: GameId)
    requires IsRun(r, pool) && n < |r.states| && Hosts(r.states[n], h, g) && Game(r.states[n], h).isStarted
    ensures exists k: nat :: k < n && StartsAt(r, k, h, g, Game(r.states[n], h).tasks)
  {
    assert n > 0;
    RunIsOk(r, pool, n - 1);
    assert StepAt(r, n - 1);
    TasksAreSetByStart(r.states[n - 1], r.actions[n - 1], h, g);
    if StartsAt(r, n - 1, h, g, Game(r.states[n], h).tasks) {
    } else {
      TasksFixedAtStart(r, pool, n - 1, h, g);
    }
  }

  lemma {:induction false} PoolIsFixed(r: Run, pool: seq<GameTask>, n: nat)
    requires IsRun(r, pool) && n < |r.states|
    ensures r.states[n].pool == pool
  {
    if n > 0 {
      PoolIsFixed(r, pool, n - 1);
      assert StepAt(r, n - 1);
      StepWaits(r.states[n - 1], r.actions[n - 1]);
    }
  }

  lemma StartedLobby(s: State, c: Uuid, count: nat, picks: seq<nat>)
    requires ClientsOk(s) && Ready(s, c) && ValidPicks(s.pool, count, picks) && IsHost(s, c)
    requires !Game(s, c).isStarted
    ensures var s' := DoStart(s, c, Some(count), picks);
      && Hosts(s', c, Game(s, c).gameId)
      && Lobby.LobbyOf(Game(s', c)).phase ==
           if count <= |s.pool| then Lobby.Playing(Chosen(s.pool, picks), {}) else Lobby.Stalled(Chosen(s.pool, picks))
  {
    Lobby.BegunLobby(s, c, Chosen(s.pool, picks), count);
  }

  lemma StartsALobby(r: Run, pool: seq<GameTask>, k: nat, h: Uuid, g: GameId, tasks: seq<GameTask>)
    requires IsRun(r, pool) && k < |r.actions| && StartsAt(r, k, h, g, tasks)
    ensures Hosts(r.states[k + 1], h, g)
    ensures LobbyAt(r, k + 1, h, g).phase ==
      if r.actions[k].count.value <= |pool| then Lobby.Playing(tasks, {}) else Lobby.Stalled(tasks)
  {
    var s, a := r.states[k], r.actions[k];
    RunIsOk(r, pool, k);
    PoolIsFixed(r, pool, k);
    assert StepAt(r, k);
    StartedLobby(s, h, a.count.value, a.picks);
  }

  lemma PhaseShows(g: Game)
    requires !Lobby.PhaseOf(g).Open?
    ensures g.isStarted && g.tasks == Lobby.PhaseOf(g).tasks && (g.host.progress.None? <==> Lobby.PhaseOf(g).Stalled?)
  {
  }

  /** What a start decides, for as long as the game is hosted: its tasks, and whether there are records.
      They are missing if and only if it asked for more tasks than there are. */
  lemma StartDecidesRecords(r: Run, pool: seq<GameTask>, k: nat, n: nat, h: Uuid, g: GameId, tasks: seq<GameTask>)
    requires IsRun(r, pool) && k < n < |r.states| && StartsAt(r, k, h, g, tasks) && Hosts(r.states[n], h, g)
    ensures var game := Game(r.states[n], h);
      && game.isStarted && game.tasks == tasks
      && (game.host.progress.None? <==> r.actions[k].count.value > |pool|)
  {
    StartsALobby(r, pool, k, h, g, tasks);
    FrozenCompetition(r, pool, k + 1, n, h, g);
    PhaseShows(Game(r.states[n], h));
  }

  /** A started game lacks records exactly when the start that opened it was short of tasks. */
  lemma RecordsMissingByShortStart(r: Run, pool: seq<GameTask>, n: nat, h: Uuid, g: GameId)
    requires IsRun(r, pool) && n < |r.states| && Hosts(r.states[n], h, g) && Game(r.states[n], h).isStarted
    ensures exists k: nat ::
      && k < n && StartsAt(r, k, h, g, Game(r.states[n], h).tasks)
      && (Game(r.states[n], h).host.progress.None? <==> r.actions[k].count.value > |pool|)
  {
    TasksFixedAtStart(r, pool, n, h, g);
    var tasks := Game(r.states[n], h).tasks;
    var k: nat :| k < n && StartsAt(r, k, h, g, tasks);
    StartDecidesRecords(r, pool, k, n, h, g, tasks);
  }

  /** A true entry of the host's record. */
  predicate Solved(s: State, h: Uuid, i: nat)
    requires h in s.clients && s.clients[h].game.Some?
  {
    var p := Game(s, h).host.progress;
    p.Some? && i in p.value && p.value[i]
  }

  lemma EntriesAreSetBySolving(s: State, a: Action, h: Uuid, g: GameId, i: nat)
    requires Inv(s) && Enabled(s, a) && Hosts(Step(s, a), h, g) && Solved(Step(s, a), h, i)
    ensures Hosts(s, h, g)
    ensures Solved(s, h, i) || Solving(s, a, h, g, i, a.c)
  {
    var l, e := Lobby.Abs(s), Lobby.EventOf(s, a);
    StepKeeps(s, a);
    LobbyFacts(Step(s, a), h, g);
    Lobby.StepRefines(s, a);
    Lobby.DoneComesBySolving(l, e, h, i);
    LobbyHost(s, h, g);
    LobbyFacts(s, h, g);
    if e == Lobby.Solves(h, i) {
      SolveEvents(s, a, h, g, i);
    }
  }

  /** A grading at step `j` that solves task `i` of the game `g` of `h`. */
  ghost predicate SolvesAt(r: Run, j: nat, h: Uuid, g: GameId, i: nat)
    requires j < |r.states| && j < |r.actions|
  {
    Solving(r.states[j], r.actions[j], h, g, i, r.actions[j].c)
  }

  lemma RecordGoesBack(r: Run, pool: seq<GameTask>, j: nat, h: Uuid, g: GameId, i: nat)
    requires IsRun(r, pool) && j + 1 < |r.states| && Hosts(r.states[j + 1], h, g) && Solved(r.states[j + 1], h, i)
    ensures Hosts(r.states[j], h, g) && (Solved(r.states[j], h, i) || SolvesAt(r, j, h, g, i))
  {
    RunIsOk(r, pool, j);
    assert StepAt(r, j);
    EntriesAreSetBySolving(r.states[j], r.actions[j], h, g, i);
  }

  /** Justified record: behind every true entry of a host's record there is an earlier grading that
      solved that task, of the tasks the game was started with and still has. */
  lemma {:induction false} RecordedTasksWereSolved(r: Run, pool: seq<GameTask>, n: nat, h: Uuid, g: GameId, i: nat)
    requires IsRun(r, pool) && n < |r.states| && Hosts(r.states[n], h, g) && Solved(r.states[n], h, i)
    ensures exists j: nat ::
      j < n && SolvesAt(r, j, h, g, i) && Game(r.states[j], h).tasks == Game(r.states[n], h).tasks
  {
    assert n > 0;
    RecordGoesBack(r, pool, n - 1, h, g, i);
    SameTasks(r, pool, n - 1, h, g, i);
    if Solved(r.states[n - 1], h, i) {
      RecordedTasksWereSolved(r, pool, n - 1, h, g, i);
    } else {
      assert SolvesAt(r, n - 1, h, g, i);
    }
  }

  lemma FrozenTasks(g: Game, g': Game)
    requires Lobby.Frozen(Lobby.LobbyOf(g), Lobby.LobbyOf(g')) && g.isStarted
    ensures g'.isStarted && g'.tasks == g.tasks
  {
  }

  lemma SolvedIsStarted(s: State, h: Uuid, g: GameId, i: nat)
    requires ClientsOk(s) && Hosts(s, h, g) && Solved(s, h, i)
    ensures Game(s, h).isStarted
  {
    assert GameOk(h, s.clients[h], Game(s, h));
  }

  lemma SameTasks(r: Run, pool: seq<GameTask>, j: nat, h: Uuid, g: GameId, i: nat)
    requires IsRun(r, pool) && j + 1 < |r.states| && Hosts(r.states[j], h, g) && Hosts(r.states[j + 1], h, g)
    requires Solved(r.states[j], h, i) || SolvesAt(r, j, h, g, i)
    ensures Game(r.states[j + 1], h).tasks == Game(r.states[j], h).tasks
  {
    RunIsOk(r, pool, j);
    if Solved(r.states[j], h, i) {
      SolvedIsStarted(r.states[j], h, g, i);
    }
    FrozenNext(r, pool, j, h, g);
    FrozenTasks(Game(r.states[j], h), Game(r.states[j + 1], h));
  }
}
