/** Who receives what: broadcasts reach every participant once, a game that ends tells everyone
    once, and a grading changes nothing but what it announces. */
module Delivery {
  import opened Types
  import opened GameRules
  import opened Protocol
  import opened Invariant
  import opened Preservation
  import opened Views
  import Grader

  predicate TakesPart(s: State, h: Uuid, d: Uuid)
    requires IsHost(s, h)
  {
    d == h || d in s.clients[h].game.value.Roster()
  }

  /** Exactly-once broadcast. */
  lemma BroadcastReachesEachOnce(s: State, h: Uuid, m: Message, skip: set<Uuid>, d: Uuid)
    requires Inv(s) && IsHost(s, h) && d in s.clients
    ensures var out := SendGlobal(s.outboxes, s.clients[h].game.value, m, skip);
      s.clients[d].channel in out && out[s.clients[d].channel] ==
        if TakesPart(s, h, d) && d !in skip then Out(s, d) + [m] else Out(s, d)
  {
    assert GameOk(h, s.clients[h], s.clients[h].game.value);
    AudienceIsExact(s, h, skip, d);
  }

  /** ... and no channel of anybody else. */
  lemma BroadcastReachesNobodyElse(s: State, h: Uuid, m: Message, skip: set<Uuid>, ch: Channel)
    requires Inv(s) && IsHost(s, h) && ch in s.outboxes
    requires forall d :: d in s.clients && TakesPart(s, h, d) && d !in skip ==> s.clients[d].channel != ch
    ensures SendGlobal(s.outboxes, s.clients[h].game.value, m, skip)[ch] == s.outboxes[ch]
  {
    var g := s.clients[h].game.value;
    assert GameOk(h, s.clients[h], g);
    if ch in RosterChannels(g, skip) {
      var e :| e in g.Roster() && e !in skip && Reachable(g.Roster()[e]) && g.Roster()[e].writeChannel.value == ch;
      RosterCopy(s, h, e);
    }
  }

  lemma RosterCopy(s: State, h: Uuid, e: Uuid)
    requires RosterCopiesOk(s) && IsHost(s, h) && e in s.clients[h].game.value.Roster()
    ensures e in s.clients && TrueCopy(s.clients[h].game.value.Roster()[e], e, s.clients[e])
  {
    assert RosterOf(s.clients[h]) == s.clients[h].game.value.Roster();
  }

  /** Complete teardown: when a host leaves or closes, each member is told once, the host is
      answered once, nobody else hears anything, the key is gone, and no game refers to the roster. */
  lemma TeardownIsComplete(s: State, a: Action, d: Uuid)
    requires Inv(s) && Enabled(s, a) && (a.Leave? || a.Close?) && IsHost(s, a.c) && d in s.clients
    ensures var s' := Step(s, a);
      && !IsHost(s', a.c) && s'.clients[a.c].game.None?
      && s'.directory == s.directory - {s.clients[a.c].game.value.gameId}
      && d in s'.clients && s'.clients[d].channel == s.clients[d].channel
      && (d != a.c ==> s'.clients[d] == s.clients[d])
      && Out(s', d) ==
           if d == a.c then Out(s, d) + [ShutdownResponse(true)]
           else if TakesPart(s, a.c, d) then Out(s, d) + [ShutdownEvent]
           else Out(s, d)
  {
    EndSends(s, a.c, d);
  }

  // ---- gradings ----------------------------------------------------------------------------

  /** The game that a grading of `c` would now be made by, when it can be. */
  predicate CanGrade(s: State, c: Uuid) {
    c in s.clients && s.clients[c].pc.Running? && HostProblem(s, s.clients[c].pc.host).None?
  }

  ghost predicate SolvesNow(s: State, c: Uuid, run: Option<SandboxResponse>, privateRun: Option<SandboxResponse>) {
    && CanGrade(s, c) && run.Some?
    && var g := s.clients[s.clients[c].pc.host].game.value;
    && HasTask(g, s.clients[c].pc.taskIndex) && g.host.progress.Some?
    && Grader.Solves(g.tasks[s.clients[c].pc.taskIndex], run.value, privateRun)
  }

  /** A grading is credited exactly when there is a record and both runs match everywhere. */
  lemma CreditedWhenSolved(g: Game, c: Uuid, index: nat, run: SandboxResponse, privateRun: Option<SandboxResponse>)
    requires g.isHost
    ensures Credits(g, c, index, run, privateRun) <==>
      HasTask(g, index) && g.host.progress.Some? && Grader.Solves(g.tasks[index], run, privateRun)
  {
    if HasTask(g, index) {
      Grader.GradeVerdict(g.tasks[index], index, run, privateRun);
    }
  }

  /** Nothing changes but where the request of `c` is. */
  ghost predicate OnlyMoves(s: State, s': State, c: Uuid)
    requires c in s.clients
  {
    && s'.outboxes == s.outboxes && s'.directory == s.directory && s'.clients.Keys == s.clients.Keys
    && s'.clients[c].game == s.clients[c].game
    && forall d :: d in s.clients && d != c ==> s'.clients[d] == s.clients[d]
  }

  /** Grading frame, refused or unsolved. */
  lemma UnsolvedChangesNothing(s: State, c: Uuid, run: Option<SandboxResponse>, privateRun: Option<SandboxResponse>)
    requires Inv(s) && c in s.clients && s.clients[c].pc.Running? && !SolvesNow(s, c, run, privateRun)
    ensures OnlyMoves(s, DoCompileValidate(s, c, run, privateRun), c)
  {
    if run.Some? && CanGrade(s, c) {
      var pc := s.clients[c].pc;
      var g := s.clients[pc.host].game.value;
      assert GameOk(pc.host, s.clients[pc.host], g);
      CreditedWhenSolved(g, c, pc.taskIndex, run.value, privateRun);
      UncreditedMoves(s, c, run.value, privateRun);
    }
  }

  lemma UncreditedMoves(s: State, c: Uuid, run: SandboxResponse, privateRun: Option<SandboxResponse>)
    requires CanGrade(s, c)
    requires !Credits(s.clients[s.clients[c].pc.host].game.value, c, s.clients[c].pc.taskIndex, run, privateRun)
    ensures OnlyMoves(s, DoCompileValidate(s, c, Some(run), privateRun), c)
  {
    var pc := s.clients[c].pc;
    UncreditedIsIdle(s, pc.host, c, pc.taskIndex, run, privateRun);
  }

  lemma UncreditedIsIdle(s: State, h: Uuid, c: Uuid, index: nat, run: SandboxResponse,
                         privateRun: Option<SandboxResponse>)
    requires h in s.clients && s.clients[h].game.Some?
    requires !Credits(s.clients[h].game.value, c, index, run, privateRun)
    ensures Validated(s, h, c, index, run, privateRun) == s
  {
    assert s.clients[h := s.clients[h].(game := Some(s.clients[h].game.value))] == s.clients;
  }

  /** Grading frame, solved: one entry of the host's record becomes true, and everyone in the game
      but the solver is told once; the solver is answered by a later step. */
  lemma SolvedChangesOneEntry(s: State, c: Uuid, run: Option<SandboxResponse>,
                              privateRun: Option<SandboxResponse>, d: Uuid)
    requires Inv(s) && SolvesNow(s, c, run, privateRun) && d in s.clients
    ensures var s' := DoCompileValidate(s, c, run, privateRun);
      var h := s.clients[c].pc.host;
      var i := s.clients[c].pc.taskIndex;
      var g := s.clients[h].game.value;
      && IsHost(s, h) && s'.directory == s.directory && s'.clients.Keys == s.clients.Keys
      && s'.clients[c].pc.Replying? && s'.clients[c].pc.reply.CompileResponse?
      && s'.clients[c].pc.reply.response.isDone && s'.clients[c].pc.reply.response.taskIndex == i
      && s'.clients[h].game == Some(g.(host := g.host.(progress := Some(g.host.progress.value[i := true]))))
      && (d != h ==> s'.clients[d].game == s.clients[d].game)
      && s'.clients[d].channel == s.clients[d].channel
      && Out(s', d) ==
           if TakesPart(s, h, d) && d != c then Out(s, d) + [TaskFinished(g.tasks[i].Shown(), i, c)]
           else Out(s, d)
  {
    var h := s.clients[c].pc.host;
    var i := s.clients[c].pc.taskIndex;
    var g := s.clients[h].game.value;
    assert GameOk(h, s.clients[h], g);
    CreditedWhenSolved(g, c, i, run.value, privateRun);
    CreditedGame(g, c, i, run.value, privateRun);
    Grader.GradeVerdict(g.tasks[i], i, run.value, privateRun);
    BroadcastReachesEachOnce(s, h, TaskFinished(g.tasks[i].Shown(), i, c), {c}, d);
    SolvedState(s, c, run.value, privateRun);
  }

  lemma SolvedState(s: State, c: Uuid, run: SandboxResponse, privateRun: Option<SandboxResponse>)
    requires CanGrade(s, c)
    requires Credits(s.clients[s.clients[c].pc.host].game.value, c, s.clients[c].pc.taskIndex, run, privateRun)
    ensures var pc := s.clients[c].pc;
      var g := s.clients[pc.host].game.value;
      DoCompileValidate(s, c, Some(run), privateRun) ==
        SetPc(Validated(s, pc.host, c, pc.taskIndex, run, privateRun), c,
              Replying(CompileResponse(ValidateOutcome(g, c, pc.taskIndex, run, privateRun).response), false))
  {
  }

  /** The only unwrap that can fail: a solved task with no record to enter it in. It fails exactly
      when the progress map is missing, and then the start of that game came up short and its
      host is about to be closed. */
  lemma PanicsWithoutRecord(s: State, c: Uuid, run: SandboxResponse, privateRun: Option<SandboxResponse>)
    requires Inv(s) && CanGrade(s, c)
    ensures var h := s.clients[c].pc.host;
      var i := s.clients[c].pc.taskIndex;
      var g := s.clients[h].game.value;
      && (ValidateOutcome(g, c, i, run, privateRun).Panicked? <==>
            HasTask(g, i) && Grader.Solves(g.tasks[i], run, privateRun) && g.host.progress.None?)
      && (g.host.progress.None? ==> s.clients[h].closing)
  {
    var h := s.clients[c].pc.host;
    var i := s.clients[c].pc.taskIndex;
    var g := s.clients[h].game.value;
    assert ClientOk(h, s.clients[h], s.claims, s.games);
    if HasTask(g, i) {
      Grader.GradeVerdict(g.tasks[i], i, run, privateRun);
    }
  }

  /** A start that asks for more tasks than there are leaves a started game without records, and
      its host closing; any other first start fills every record. */
  lemma ShortStart(s: State, c: Uuid, count: nat, picks: seq<nat>)
    requires Inv(s) && Ready(s, c) && IsHost(s, c) && !s.clients[c].game.value.isStarted
    requires ValidPicks(s.pool, count, picks)
    ensures var s' := DoStart(s, c, Some(count), picks);
      && IsHost(s', c) && s'.clients[c].game.value.isStarted
      && (count > |s.pool| <==> s'.clients[c].closing)
      && (count > |s.pool| <==> s'.clients[c].game.value.host.progress.None?)
  {
    var g := s.clients[c].game.value;
    assert GameOk(c, s.clients[c], g);
    StartedGame(g, Chosen(s.pool, picks), count);
  }

  /** Install never overwrites a game, and a client that installs one has a nickname. */
  lemma InstallOverwritesNothing(s: State, c: Uuid)
    requires Inv(s) && c in s.clients && (s.clients[c].pc.Claimed? || s.clients[c].pc.Registered?)
    ensures s.clients[c].game.None? && s.clients[c].nickname.Some? && !s.clients[c].closing
  {
    assert ClientOk(c, s.clients[c], s.claims, s.games);
  }
}
