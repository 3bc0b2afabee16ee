/** When the members of a roster name the very game that has them, with requests interleaved. */
module Names {
  import opened Types
  import opened GameRules
  import opened Protocol
  import opened Invariant
  import opened Preservation
  import Views
  import Runs
  import Atomic
  import Records
  import Findings

  /** Every member is linked by the id of the game whose roster it is in. */
  ghost predicate NamesAgree(s: State) {
    Atomic.SameGame(Parts(s))
  }

  /** The step registers a client with another game of its host than the one whose key it has read:
      the ids are not compared. */
  ghost predicate EntersElsewhere(s: State, a: Action) {
    Enabled(s, a) && a.JoinRegister? && IsElsewhere(s, s.clients[a.c].pc)
  }

  predicate IsElsewhere(s: State, pc: Pc) {
    && pc.SawLive? && GameOf(s, pc.host).Some? && Admits(GameOf(s, pc.host).value)
    && GameOf(s, pc.host).value.gameId != pc.gameId
  }

  // ---- parts -------------------------------------------------------------------------------

  lemma EntersName(parts: map<Uuid, Part>, c: Uuid, h: Uuid, g: GameId)
    requires Atomic.SameGame(parts) && RostersOk(parts) && c in parts && parts[c].Free? && h != c
    requires h in parts && parts[h].Hosting?
    ensures Atomic.SameGame(parts[h := Hosting(parts[h].gameId, parts[h].members + {c})][c := Linked(h, g)])
       <==> g == parts[h].gameId
  {
    var parts' := parts[h := Hosting(parts[h].gameId, parts[h].members + {c})][c := Linked(h, g)];
    assert c in parts'[h].members && parts'[c] == Linked(h, g);
    forall k, d | k in parts && parts[k].Hosting? && d in parts[k].members ensures d != c {
      assert parts[d].Linked?;
    }
  }

  /** `c`, which is in no roster, comes, goes, or takes another part that has no members yet. */
  lemma FreeNames(parts: map<Uuid, Part>, c: Uuid, p: Part)
    requires Atomic.SameGame(parts) && RostersOk(parts) && (c in parts ==> !parts[c].Linked?)
    requires p.Hosting? ==> p.members == {}
    ensures Atomic.SameGame(parts[c := p]) && Atomic.SameGame(parts - {c})
  {
    forall k, d | k in parts && parts[k].Hosting? && d in parts[k].members ensures d in parts && d != c {
      assert parts[d].Linked?;
    }
  }

  lemma LeavesNames(parts: map<Uuid, Part>, c: Uuid)
    requires Atomic.SameGame(parts) && RostersOk(parts) && c in parts && parts[c].Linked?
    ensures var h := parts[c].host;
      if h in parts && parts[h].Hosting?
      then Atomic.SameGame(parts[c := Free][h := Hosting(parts[h].gameId, parts[h].members - {c})])
      else Atomic.SameGame(parts[c := Free])
  {
  }

  // ---- steps -------------------------------------------------------------------------------

  lemma ClaimNames(s: State, c: Uuid)
    requires ClientsOk(s) && RostersOk(Parts(s)) && NamesAgree(s) && c in s.clients && s.clients[c].pc.SawEmpty?
    ensures NamesAgree(DoJoinClaim(s, c))
  {
    ClaimKeepsClients(s, c);
    FreeNames(Parts(s), c, Claiming(s.clients[c].pc.gameId));
  }

  lemma EnteredNames(s: State, c: Uuid, order: seq<Uuid>)
    requires ClientsOk(s) && HistoryOk(s) && RostersOk(Parts(s)) && NamesAgree(s)
    requires c in s.clients && s.clients[c].pc.SawLive? && OrderOk(s, c, order)
    requires GameOf(s, s.clients[c].pc.host).Some? && Admits(GameOf(s, s.clients[c].pc.host).value)
    ensures NamesAgree(DoJoinRegister(s, c, order)) <==> !IsElsewhere(s, s.clients[c].pc)
  {
    var pc := s.clients[c].pc;
    RegisterEnters(s, c, order);
    EntersParts(s, DoJoinRegister(s, c, order), c, pc.host, Me(s, c, pc.nickname));
    assert Parts(s)[pc.host] == PartOf(s.clients[pc.host]);
    EntersName(Parts(s), c, pc.host, pc.gameId);
  }

  lemma NotEnteredNames(s: State, c: Uuid, order: seq<Uuid>)
    requires ClientsOk(s) && Views.Wired(s) && NamesAgree(s)
    requires c in s.clients && s.clients[c].pc.SawLive? && OrderOk(s, c, order)
    requires var hosted := GameOf(s, s.clients[c].pc.host); hosted.Some? ==> !Admits(hosted.value)
    ensures NamesAgree(DoJoinRegister(s, c, order))
  {
    assert ClientOk(c, s.clients[c], s.claims, s.games);
    if GameOf(s, s.clients[c].pc.host).Some? {
      Views.TurnedAwayIsSilent(s, c, order);
      Views.SilentParts(s, DoJoinRegister(s, c, order));
    } else {
      Findings.RegisterAtNoGame(s, c, order);
    }
  }

  lemma RegisterNames(s: State, c: Uuid, order: seq<Uuid>)
    requires Inv(s) && NamesAgree(s) && c in s.clients && s.clients[c].pc.SawLive? && OrderOk(s, c, order)
    ensures NamesAgree(DoJoinRegister(s, c, order)) <==> !IsElsewhere(s, s.clients[c].pc)
  {
    var hosted := GameOf(s, s.clients[c].pc.host);
    if hosted.Some? && Admits(hosted.value) {
      EnteredNames(s, c, order);
    } else {
      NotEnteredNames(s, c, order);
    }
  }

  lemma InstallNames(s: State, c: Uuid)
    requires Inv(s) && NamesAgree(s) && c in s.clients && (s.clients[c].pc.Claimed? || s.clients[c].pc.Registered?)
    ensures NamesAgree(DoJoinInstall(s, c))
  {
    if s.clients[c].pc.Claimed? {
      assert ClientOk(c, s.clients[c], s.claims, s.games);
      InstallHostParts(s, c);
      FreeNames(Parts(s), c, Hosting(s.clients[c].pc.gameId, {}));
    } else {
      Views.GuestInstallIsSilent(s, c);
      Views.SilentParts(s, DoJoinInstall(s, c));
    }
  }

  lemma GuestDropNames(s: State, c: Uuid, g: Game)
    requires RostersOk(Parts(s)) && NamesAgree(s) && c in s.clients && s.clients[c].pc.Idle?
    requires s.clients[c].game == Some(g) && !g.isHost && g.host.isLocal && g.me.id == c && g.host.id != c
    ensures NamesAgree(DropGame(s, c))
  {
    DropJoinedIs(s, c, g);
    LeavesNames(Parts(s), c);
    if GameOf(s, g.host.id).Some? {
      ForgetsParts(s, DropGame(s, c), c, g.host.id);
    }
  }

  lemma DropNames(s: State, c: Uuid)
    requires Inv(s) && NamesAgree(s) && c in s.clients && s.clients[c].pc.Idle?
    ensures NamesAgree(DropGame(s, c))
  {
    if s.clients[c].game.Some? {
      var g := s.clients[c].game.value;
      if g.isHost {
        DropHostedIs(s, c, g);
        FreeNames(Parts(s), c, Free);
      } else {
        JoinedGame(s, c);
        GuestDropNames(s, c, g);
      }
    }
  }

  lemma EndNames(s: State, a: Action)
    requires Inv(s) && NamesAgree(s) && Enabled(s, a) && (a.Leave? || a.Close?)
    ensures NamesAgree(Step(s, a))
  {
    DropNames(s, a.c);
    DropFrees(s, a.c);
    if a.Close? {
      Atomic.ClosedSameStanding(DropGame(s, a.c), a.c);
    } else {
      Atomic.FailSameStanding(DropGame(s, a.c), a.c, NotInGame(ClientNotInGame));
    }
  }

  lemma StartNames(s: State, c: Uuid, count: Option<nat>, picks: seq<nat>)
    requires Inv(s) && NamesAgree(s) && Ready(s, c) && (count.Some? ==> ValidPicks(s.pool, count.value, picks))
    ensures NamesAgree(DoStart(s, c, count, picks))
  {
    if s.clients[c].game.Some? && s.clients[c].game.value.isHost && count.Some? {
      Views.StartIsSilent(s, c, count.value, picks);
      Views.SilentParts(s, DoStart(s, c, count, picks));
    } else if s.clients[c].game.Some? && !s.clients[c].game.value.isHost {
      DropNames(s, c);
      DropFrees(s, c);
      Atomic.FailSameStanding(DropGame(s, c), c, NotGameHost(ClientNotHost));
    } else {
      Atomic.FailSameStanding(s, c, NotInGame(ClientNotInGame));
    }
  }

  lemma ConnectionNames(s: State, a: Action)
    requires Inv(s) && NamesAgree(s) && Enabled(s, a) && (a.Connect? || a.Remove?)
    ensures NamesAgree(Step(s, a))
  {
    if a.Connect? {
      ConnectAddsFree(s, a.c, a.channel);
    } else {
      assert ClientOk(a.c, s.clients[a.c], s.claims, s.games);
      Views.RemoveParts(s, a.c);
    }
    FreeNames(Parts(s), a.c, Free);
  }

  lemma AsideNames(s: State, a: Action)
    requires Inv(s) && NamesAgree(s) && Enabled(s, a) && (Views.IsAside(a) || Views.IsCompile(a))
    ensures NamesAgree(Step(s, a))
  {
    if Views.IsCompile(a) {
      Views.CompileStepIsSilent(s, a);
    } else {
      Views.AsideIsSilent(s, a);
    }
    Views.SilentParts(s, Step(s, a));
  }

  lemma JoinNames(s: State, a: Action)
    requires Inv(s) && NamesAgree(s) && Enabled(s, a) && (a.JoinClaim? || a.JoinInstall? || a.Start?)
    ensures NamesAgree(Step(s, a))
  {
    match a
    case JoinClaim(c) => ClaimNames(s, c);
    case JoinInstall(c) => InstallNames(s, c);
    case Start(c, count, picks) => StartNames(s, c, count, picks);
  }

  // ---- main results ------------------------------------------------------------------------

  /** As long as every member names its game, it stays so if and only if the next step does not register
      a client with another game than it has asked for. */
  lemma NamesPartExactlyElsewhere(s: State, a: Action)
    requires Inv(s) && NamesAgree(s) && Enabled(s, a)
    ensures NamesAgree(Step(s, a)) <==> !EntersElsewhere(s, a)
  {
    if a.JoinRegister? {
      RegisterNames(s, a.c, a.order);
    } else if a.JoinClaim? || a.JoinInstall? || a.Start? {
      JoinNames(s, a);
    } else if a.Leave? || a.Close? {
      EndNames(s, a);
    } else if a.Connect? || a.Remove? {
      ConnectionNames(s, a);
    } else {
      AsideNames(s, a);
    }
  }

  ghost predicate EntersElsewhereAt(r: Runs.Run, i: nat)
    requires i < |r.states| && i < |r.actions|
  {
    EntersElsewhere(r.states[i], r.actions[i])
  }

  lemma {:induction false} NamesAgreeInRuns(r: Runs.Run, pool: seq<GameTask>, n: nat)
    requires Runs.IsRun(r, pool) && n < |r.states| && forall i :: 0 <= i < n ==> !EntersElsewhereAt(r, i)
    ensures NamesAgree(r.states[n])
  {
    if n > 0 {
      NamesAgreeInRuns(r, pool, n - 1);
      Runs.RunIsOk(r, pool, n - 1);
      assert Runs.StepAt(r, n - 1) && !EntersElsewhereAt(r, n - 1);
      NamesPartExactlyElsewhere(r.states[n - 1], r.actions[n - 1]);
    }
  }

  /** In an interleaved run without such registrations a client is in a roster if and only if it is
      linked to that host by the id of that game. */
  lemma MembersNameTheirGame(r: Runs.Run, pool: seq<GameTask>, n: nat, h: Uuid, g: GameId, d: Uuid)
    requires Runs.IsRun(r, pool) && n < |r.states| && forall i :: 0 <= i < n ==> !EntersElsewhereAt(r, i)
    requires Runs.Hosts(r.states[n], h, g) && d in r.states[n].clients
    ensures var s := r.states[n];
      d in Runs.Game(s, h).Roster() <==> PartOf(s.clients[d]) == Linked(h, g)
  {
    NamesAgreeInRuns(r, pool, n);
    Runs.RunIsOk(r, pool, n);
    LinkedMeansMember(r.states[n], h, g, d);
  }

  lemma LinkedMeansMember(s: State, h: Uuid, g: GameId, d: Uuid)
    requires LinksOk(Parts(s), s.claims) && NamesAgree(s) && Runs.Hosts(s, h, g) && d in s.clients
    ensures d in Runs.Game(s, h).Roster() <==> PartOf(s.clients[d]) == Linked(h, g)
  {
    assert Parts(s)[h] == PartOf(s.clients[h]) && Parts(s)[d] == PartOf(s.clients[d]);
  }

  /** There, too, whoever is credited in a game takes part in it if and only if its own game object
      carries the id of that game. */
  lemma SolversTakePartByGame(r: Runs.Run, pool: seq<GameTask>, n: nat, h: Uuid, g: GameId, i: nat)
    requires Runs.IsRun(r, pool) && n < |r.actions| && Runs.SolvesAt(r, n, h, g, i)
    requires forall j :: 0 <= j < n ==> !EntersElsewhereAt(r, j)
    ensures var s, c := r.states[n], r.actions[n].c;
      && c in s.clients && s.clients[c].game.Some?
      && (c == h || c in Runs.Game(s, h).Roster() <==> s.clients[c].game.value.gameId == g)
  {
    var s, c := r.states[n], r.actions[n].c;
    Records.SolversTakePart(r, pool, n, h, g, i);
    MembersNameTheirGame(r, pool, n, h, g, c);
    Runs.RunIsOk(r, pool, n);
    if s.clients[c].game.value.isHost {
      Views.HostIsItself(s, c);
    } else {
      Preservation.JoinedGame(s, c);
    }
  }

  /** With one request at a time there are no such registrations. */
  lemma NeverElsewhereAtomically(r: Runs.Run, pool: seq<GameTask>, n: nat)
    requires Atomic.IsAtomicRun(r, pool) && n < |r.actions|
    ensures !EntersElsewhereAt(r, n)
  {
    assert Runs.StepAt(r, n);
    if r.actions[n].JoinRegister? {
      Atomic.JoinFindsItsHost(r, pool, n);
    }
  }
}
