/** Where the code falls short of what is expected of it, and exactly when. */
module Findings {
  import opened Types
  import opened GameRules
  import opened Protocol
  import opened Invariant
  import opened Preservation
  import Views
  import Runs
  import Atomic

  // ---- keys --------------------------------------------------------------------------------

  /** The step claims or deletes a key although it names somebody else: a join that has read the key
      before it was claimed, or a cleanup for a host that is gone, or has not installed its game yet. */
  ghost predicate Misfires(s: State, a: Action) {
    && Enabled(s, a)
    && match a
       case JoinClaim(c) => ClaimMisfires(s, s.clients[c].pc)
       case JoinRegister(c, _) => RegisterMisfires(s, s.clients[c].pc)
       case ExistsAnswer(c) => ExistsMisfires(s, s.clients[c].pc)
       case _ => false
  }

  predicate ClaimMisfires(s: State, pc: Pc) {
    pc.SawEmpty? && IsLive(s, pc.gameId)
  }

  predicate RegisterMisfires(s: State, pc: Pc) {
    pc.SawLive? && GameOf(s, pc.host).None? && IsLive(s, pc.gameId)
  }

  predicate ExistsMisfires(s: State, pc: Pc) {
    pc.ExistsSaw? && pc.found.Some? && pc.found.value.Live? && pc.found.value.host !in s.clients && IsLive(s, pc.gameId)
  }

  predicate IsLive(s: State, g: GameId) {
    g in s.directory && s.directory[g].Live?
  }

  /** Every host, and every claimer, is the one that the key of its game names. */
  ghost predicate KeysAgree(s: State) {
    Atomic.KeysOk(Parts(s), s.directory)
  }

  lemma ClaimOfFreeKey(s: State, c: Uuid)
    requires ClientsOk(s) && EntriesOk(Parts(s), s.directory) && KeysAgree(s)
    requires c in s.clients && s.clients[c].pc.SawEmpty?
    ensures KeysAgree(DoJoinClaim(s, c)) <==> !ClaimMisfires(s, s.clients[c].pc)
  {
    var g := s.clients[c].pc.gameId;
    ClaimKeepsClients(s, c);
    if IsLive(s, g) {
      var h := s.directory[g].host;
      assert Parts(s)[h].gameId == g && Parts(s)[c].Free?;
    }
  }

  lemma DeletionOfFreeKey(s: State, s': State, g: GameId)
    requires EntriesOk(Parts(s), s.directory) && KeysAgree(s)
    requires Parts(s') == Parts(s) && s'.directory == s.directory - {g}
    ensures KeysAgree(s') <==> !IsLive(s, g)
  {
    if IsLive(s, g) {
      assert Parts(s)[s.directory[g].host].gameId == g;
    }
  }

  lemma RegisterAtNoGame(s: State, c: Uuid, order: seq<Uuid>)
    requires c in s.clients && s.clients[c].pc.SawLive? && s.clients[c].game.None? && OrderOk(s, c, order)
    requires GameOf(s, s.clients[c].pc.host).None?
    ensures Parts(DoJoinRegister(s, c, order)) == Parts(s)
  {
    assert PartOf(DoJoinRegister(s, c, order).clients[c]) == Free;
  }

  /** Hosting in `after` was hosting the same game, or claiming it, in `before`. */
  ghost predicate NoNewHosts(before: map<Uuid, Part>, after: map<Uuid, Part>) {
    forall h :: h in after && (after[h].Claiming? || after[h].Hosting?) ==>
      h in before && (before[h].Claiming? || before[h].Hosting?) && before[h].gameId == after[h].gameId
  }

  lemma NoNewHostsKeepKeys(s: State, s': State)
    requires KeysAgree(s) && NoNewHosts(Parts(s), Parts(s')) && s'.directory == s.directory
    ensures KeysAgree(s')
  {
  }

  lemma RegisterAtGame(s: State, c: Uuid, order: seq<Uuid>)
    requires ClientsOk(s) && HistoryOk(s) && KeysAgree(s)
    requires c in s.clients && s.clients[c].pc.SawLive? && OrderOk(s, c, order)
    requires GameOf(s, s.clients[c].pc.host).Some? && Admits(GameOf(s, s.clients[c].pc.host).value)
    ensures KeysAgree(DoJoinRegister(s, c, order))
  {
    var pc := s.clients[c].pc;
    RegisterEnters(s, c, order);
    EntersParts(s, DoJoinRegister(s, c, order), c, pc.host, Me(s, c, pc.nickname));
    assert NoNewHosts(Parts(s), Parts(DoJoinRegister(s, c, order)));
    NoNewHostsKeepKeys(s, DoJoinRegister(s, c, order));
  }

  lemma TurnedAwayKeys(s: State, c: Uuid, order: seq<Uuid>)
    requires ClientsOk(s) && Views.Wired(s) && KeysAgree(s) && c in s.clients && s.clients[c].pc.SawLive?
        && OrderOk(s, c, order)
    requires GameOf(s, s.clients[c].pc.host).Some? && !Admits(GameOf(s, s.clients[c].pc.host).value)
    ensures KeysAgree(DoJoinRegister(s, c, order))
  {
    assert ClientOk(c, s.clients[c], s.claims, s.games);
    Views.TurnedAwayIsSilent(s, c, order);
    Views.SilentParts(s, DoJoinRegister(s, c, order));
  }

  lemma RegisterKeys(s: State, c: Uuid, order: seq<Uuid>)
    requires Inv(s) && KeysAgree(s) && c in s.clients && s.clients[c].pc.SawLive? && OrderOk(s, c, order)
    ensures KeysAgree(DoJoinRegister(s, c, order)) <==> !RegisterMisfires(s, s.clients[c].pc)
  {
    var hosted := GameOf(s, s.clients[c].pc.host);
    if hosted.Some? && Admits(hosted.value) {
      RegisterAtGame(s, c, order);
    } else if hosted.Some? {
      TurnedAwayKeys(s, c, order);
    } else {
      assert ClientOk(c, s.clients[c], s.claims, s.games);
      RegisterAtNoGame(s, c, order);
      DeletionOfFreeKey(s, DoJoinRegister(s, c, order), s.clients[c].pc.gameId);
    }
  }

  lemma ExistsParts(s: State, c: Uuid)
    requires c in s.clients && s.clients[c].pc.ExistsSaw?
    ensures Parts(DoExistsAnswer(s, c)) == Parts(s)
  {
  }

  lemma ExistsKeys(s: State, c: Uuid)
    requires EntriesOk(Parts(s), s.directory) && KeysAgree(s) && c in s.clients && s.clients[c].pc.ExistsSaw?
    ensures KeysAgree(DoExistsAnswer(s, c)) <==> !ExistsMisfires(s, s.clients[c].pc)
  {
    var pc := s.clients[c].pc;
    ExistsParts(s, c);
    if pc.found.Some? && pc.found.value.Live? && pc.found.value.host !in s.clients {
      DeletionOfFreeKey(s, DoExistsAnswer(s, c), pc.gameId);
    }
  }

  lemma InstallKeys(s: State, c: Uuid)
    requires Inv(s) && KeysAgree(s) && c in s.clients && (s.clients[c].pc.Claimed? || s.clients[c].pc.Registered?)
    ensures KeysAgree(DoJoinInstall(s, c))
  {
    if s.clients[c].pc.Claimed? {
      assert ClientOk(c, s.clients[c], s.claims, s.games);
      InstallHostParts(s, c);
    } else {
      Views.GuestInstallIsSilent(s, c);
      Views.SilentParts(s, DoJoinInstall(s, c));
    }
  }

  lemma DropKeys(s: State, c: Uuid)
    requires ClientsOk(s) && LinksOk(Parts(s), s.claims) && KeysAgree(s) && c in s.clients && s.clients[c].pc.Idle?
    ensures KeysAgree(DropGame(s, c))
  {
    if s.clients[c].game.Some? {
      var g := s.clients[c].game.value;
      if g.isHost {
        DropHostedIs(s, c, g);
      } else {
        JoinedGame(s, c);
        LeaveDropKeys(s, c, g);
      }
    }
  }

  lemma LeaveDropKeys(s: State, c: Uuid, g: Game)
    requires KeysAgree(s) && c in s.clients && s.clients[c].pc.Idle? && s.clients[c].game == Some(g) && !g.isHost
    requires g.host.isLocal && g.me.id == c && g.host.id != c
    ensures KeysAgree(DropGame(s, c))
  {
    var s' := DropGame(s, c);
    DropJoinedIs(s, c, g);
    if GameOf(s, g.host.id).Some? {
      ForgetsParts(s, s', c, g.host.id);
    }
    assert NoNewHosts(Parts(s), Parts(s'));
    NoNewHostsKeepKeys(s, s');
  }

  lemma EndKeys(s: State, a: Action)
    requires Inv(s) && KeysAgree(s) && Enabled(s, a) && (a.Leave? || a.Close?)
    ensures KeysAgree(Step(s, a))
  {
    DropKeys(s, a.c);
    DropFrees(s, a.c);
    if a.Close? {
      Atomic.ClosedSameStanding(DropGame(s, a.c), a.c);
    } else {
      Atomic.FailSameStanding(DropGame(s, a.c), a.c, NotInGame(ClientNotInGame));
    }
  }

  lemma StartKeys(s: State, c: Uuid, count: Option<nat>, picks: seq<nat>)
    requires Inv(s) && KeysAgree(s) && Ready(s, c) && (count.Some? ==> ValidPicks(s.pool, count.value, picks))
    ensures KeysAgree(DoStart(s, c, count, picks))
  {
    if s.clients[c].game.Some? && s.clients[c].game.value.isHost && count.Some? {
      Views.StartIsSilent(s, c, count.value, picks);
      Views.SilentParts(s, DoStart(s, c, count, picks));
      Atomic.HostStartIs(s, c, count.value, picks);
    } else if s.clients[c].game.Some? && !s.clients[c].game.value.isHost {
      DropKeys(s, c);
      DropFrees(s, c);
      Atomic.FailSameStanding(DropGame(s, c), c, NotGameHost(ClientNotHost));
    } else {
      Atomic.FailSameStanding(s, c, NotInGame(ClientNotInGame));
    }
  }

  lemma ConnectionKeys(s: State, a: Action)
    requires Inv(s) && KeysAgree(s) && Enabled(s, a) && (a.Connect? || a.Remove?)
    ensures KeysAgree(Step(s, a))
  {
    if a.Connect? {
      ConnectAddsFree(s, a.c, a.channel);
    } else {
      Views.RemoveParts(s, a.c);
    }
    NoNewHostsKeepKeys(s, Step(s, a));
  }

  lemma AsideKeys(s: State, a: Action)
    requires Inv(s) && KeysAgree(s) && Enabled(s, a)
    requires a.Malformed? || a.JoinRead? || a.Task? || a.Ping? || a.Identify? || a.ExistsRead? || Views.IsCompile(a)
    ensures KeysAgree(Step(s, a))
  {
    Atomic.AsideKeepsDirectory(s, a);
    if Views.IsCompile(a) {
      Views.CompileStepIsSilent(s, a);
    } else {
      Views.AsideIsSilent(s, a);
    }
    Views.SilentParts(s, Step(s, a));
  }

  lemma CreateKeys(s: State, c: Uuid, parsed: bool, g: GameId)
    requires Inv(s) && KeysAgree(s) && Ready(s, c) && g !in s.games
    ensures KeysAgree(DoCreate(s, c, parsed, g))
  {
    Views.CreateIsSilent(s, c, parsed, g);
    Views.SilentParts(s, DoCreate(s, c, parsed, g));
    assert g !in s.directory;
  }

  /** As long as every host is named by the key of its game, it stays so if and only if the next step
      does not misfire. */
  lemma KeysBreakExactlyByMisfires(s: State, a: Action)
    requires Inv(s) && KeysAgree(s) && Enabled(s, a)
    ensures KeysAgree(Step(s, a)) <==> !Misfires(s, a)
  {
    if a.JoinClaim? {
      ClaimOfFreeKey(s, a.c);
    } else if a.JoinRegister? {
      RegisterKeys(s, a.c, a.order);
    } else if a.ExistsAnswer? {
      ExistsKeys(s, a.c);
    } else {
      OthersKeepKeys(s, a);
    }
  }

  lemma OthersKeepKeys(s: State, a: Action)
    requires Inv(s) && KeysAgree(s) && Enabled(s, a) && !a.JoinClaim? && !a.JoinRegister? && !a.ExistsAnswer?
    ensures KeysAgree(Step(s, a))
  {
    if a.Connect? || a.Remove? {
      ConnectionKeys(s, a);
    } else if a.Leave? || a.Close? {
      EndKeys(s, a);
    } else if a.JoinInstall? || a.Start? || a.Create? {
      MakingKeys(s, a);
    } else {
      AsideKeys(s, a);
    }
  }

  lemma MakingKeys(s: State, a: Action)
    requires Inv(s) && KeysAgree(s) && Enabled(s, a) && (a.JoinInstall? || a.Start? || a.Create?)
    ensures KeysAgree(Step(s, a))
  {
    match a
    case JoinInstall(c) => InstallKeys(s, c);
    case Start(c, count, picks) => StartKeys(s, c, count, picks);
    case Create(c, parsed, g) => CreateKeys(s, c, parsed, g);
  }

  ghost predicate MisfiresAt(r: Runs.Run, i: nat)
    requires i < |r.states| && i < |r.actions|
  {
    Misfires(r.states[i], r.actions[i])
  }

  /** In an interleaved run without misfires the directory is as good as in an atomic one: a key
      names exactly the client that hosts the game or is about to, and no game has two hosts. */
  lemma {:induction false} KeysNameHostsUntilMisfire(r: Runs.Run, pool: seq<GameTask>, n: nat, h: Uuid, g: GameId)
    requires Runs.IsRun(r, pool) && n < |r.states| && forall i :: 0 <= i < n ==> !MisfiresAt(r, i)
    ensures var s := r.states[n];
      && KeysAgree(s)
      && ((g in s.directory && s.directory[g] == Live(h)) <==>
            Runs.Hosts(s, h, g) || (h in s.clients && s.clients[h].pc == Claimed(g)))
  {
    if n > 0 {
      KeysNameHostsUntilMisfire(r, pool, n - 1, h, g);
      Runs.RunIsOk(r, pool, n - 1);
      assert Runs.StepAt(r, n - 1) && !MisfiresAt(r, n - 1);
      KeysBreakExactlyByMisfires(r.states[n - 1], r.actions[n - 1]);
    }
    Runs.RunIsOk(r, pool, n);
    Atomic.KeysNameHosts(r.states[n], h, g);
  }

  // ---- hosts -------------------------------------------------------------------------------

  ghost predicate AtMostOne(s: State) {
    forall h, k, g :: Runs.Committed(s, h, g) && Runs.Committed(s, k, g) ==> h == k
  }

  /** A claim of a game that somebody else hosts or is about to host. */
  ghost predicate ClaimsTwice(s: State, a: Action) {
    Enabled(s, a) && a.JoinClaim? && exists k :: k != a.c && Runs.Committed(s, k, s.clients[a.c].pc.gameId)
  }

  lemma ClaimComes(s: State, a: Action, h: Uuid, g: GameId)
    requires ClientsOk(s) && Enabled(s, a) && h in Step(s, a).clients && Step(s, a).clients[h].pc == Claimed(g)
    ensures Runs.Committed(s, h, g) || (a == JoinClaim(h) && s.clients[h].pc == SawEmpty(g))
  {
    Runs.ClaimIsNew(s, a, h, g);
    Runs.StepWaits(s, a);
    if h == a.c {
      OnlyClaimNext(s, a);
    }
  }

  lemma OnlyClaimNext(s: State, a: Action)
    requires Enabled(s, a) && !a.Connect? && s.clients[a.c].pc.SawEmpty?
    ensures a == JoinClaim(a.c)
  {
  }

  /** Whoever is committed to a game was so before, or has just claimed it. */
  lemma CommitmentComes(s: State, a: Action, h: Uuid, g: GameId)
    requires Inv(s) && Enabled(s, a) && Runs.Committed(Step(s, a), h, g)
    ensures Runs.Committed(s, h, g) || (a == JoinClaim(h) && s.clients[h].pc == SawEmpty(g))
  {
    if Runs.Hosts(Step(s, a), h, g) {
      Runs.HostComes(s, a, h, g);
    } else {
      ClaimComes(s, a, h, g);
    }
  }

  lemma ClaimCommits(s: State, c: Uuid, k: Uuid)
    requires ClientsOk(s) && c in s.clients && s.clients[c].pc.SawEmpty? && k != c
    ensures var s', g := DoJoinClaim(s, c), s.clients[c].pc.gameId;
      Runs.Committed(s', c, g) && (Runs.Committed(s, k, g) ==> Runs.Committed(s', k, g))
  {
    assert ClientOk(c, s.clients[c], s.claims, s.games);
  }

  /** As long as no game has two hosts, it stays so if and only if the next step is not a claim of a
      game that has one. */
  lemma SecondHostExactlyByClaim(s: State, a: Action)
    requires Inv(s) && AtMostOne(s) && Enabled(s, a)
    ensures AtMostOne(Step(s, a)) <==> !ClaimsTwice(s, a)
  {
    var s' := Step(s, a);
    if ClaimsTwice(s, a) {
      var k :| k != a.c && Runs.Committed(s, k, s.clients[a.c].pc.gameId);
      ClaimCommits(s, a.c, k);
    } else {
      forall h, k, g | Runs.Committed(s', h, g) && Runs.Committed(s', k, g) ensures h == k {
        CommitmentComes(s, a, h, g);
        CommitmentComes(s, a, k, g);
      }
    }
  }

  ghost predicate ClaimsTwiceAt(r: Runs.Run, i: nat)
    requires i < |r.states| && i < |r.actions|
  {
    ClaimsTwice(r.states[i], r.actions[i])
  }

  /** In an interleaved run each game has at most one host until somebody claims one that has. */
  lemma {:induction false} OneHostUntilSecondClaim(r: Runs.Run, pool: seq<GameTask>, n: nat)
    requires Runs.IsRun(r, pool) && n < |r.states|
    requires forall i :: 0 <= i < n ==> !ClaimsTwiceAt(r, i)
    ensures AtMostOne(r.states[n])
  {
    if n > 0 {
      OneHostUntilSecondClaim(r, pool, n - 1);
      Runs.RunIsOk(r, pool, n - 1);
      assert Runs.StepAt(r, n - 1) && !ClaimsTwiceAt(r, n - 1);
      SecondHostExactlyByClaim(r.states[n - 1], r.actions[n - 1]);
    }
  }
}
