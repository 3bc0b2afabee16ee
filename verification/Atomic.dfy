/** Runs in which every request is finished before another client moves. There the directory, the
    games and their pointers are in step, and the cleanups of stale keys are never needed. */
module Atomic {
  import opened Types
  import opened GameRules
  import opened Protocol
  import opened Invariant
  import opened Preservation
  import Views
  import Lobby
  import Runs

  /** Nobody but `c` has a request in flight. */
  ghost predicate Alone(s: State, c: Uuid) {
    forall d :: d in s.clients && d != c ==> s.clients[d].pc.Idle?
  }

  ghost predicate IsAtomicRun(r: Runs.Run, pool: seq<GameTask>) {
    Runs.IsRun(r, pool) && forall i :: 0 <= i < |r.actions| ==> AloneAt(r, i)
  }

  ghost predicate AloneAt(r: Runs.Run, i: nat)
    requires i < |r.states| && i < |r.actions|
  {
    Alone(r.states[i], r.actions[i].c)
  }

  // ---- the invariant -----------------------------------------------------------------------

  ghost predicate OneClaim(claims: set<(Uuid, GameId)>) {
    forall h, k, g :: (h, g) in claims && (k, g) in claims ==> h == k
  }

  /** Every host, and every claimer, is the one that the key names. */
  ghost predicate KeysOk(parts: map<Uuid, Part>, directory: map<GameId, Entry>) {
    forall h :: h in parts && (parts[h].Claiming? || parts[h].Hosting?) ==>
      parts[h].gameId in directory && directory[parts[h].gameId] == Live(h)
  }

  /** Members are linked by the id of the very game that has them. */
  ghost predicate SameGame(parts: map<Uuid, Part>) {
    forall h, d :: h in parts && parts[h].Hosting? && d in parts[h].members ==>
      d in parts && parts[d] == Linked(h, parts[h].gameId)
  }

  ghost predicate InStep(parts: map<Uuid, Part>, directory: map<GameId, Entry>, claims: set<(Uuid, GameId)>) {
    OneClaim(claims) && KeysOk(parts, directory) && SameGame(parts)
  }

  /** What a request in flight has read is still so. */
  ghost predicate ReadOk(directory: map<GameId, Entry>, pc: Pc) {
    && (pc.SawEmpty? ==> pc.gameId in directory && directory[pc.gameId] == Unclaimed)
    && (pc.SawLive? ==> pc.gameId in directory && directory[pc.gameId] == Live(pc.host))
    && (pc.ExistsSaw? ==> pc.found == if pc.gameId in directory then Some(directory[pc.gameId]) else None)
  }

  ghost predicate ReadsOk(s: State) {
    forall c :: c in s.clients ==> ReadOk(s.directory, s.clients[c].pc)
  }

  ghost predicate AInv(s: State) {
    InStep(Parts(s), s.directory, s.claims) && ReadsOk(s)
  }

  // ---- parts -------------------------------------------------------------------------------

  lemma ClaimInStep(parts: map<Uuid, Part>, directory: map<GameId, Entry>, claims: set<(Uuid, GameId)>, c: Uuid,
                    g: GameId)
    requires InStep(parts, directory, claims) && c in parts && parts[c].Free?
    requires g in directory && directory[g].Unclaimed? && RostersOk(parts)
    requires forall h :: (h, g) !in claims
    ensures InStep(parts[c := Claiming(g)], directory[g := Live(c)], claims + {(c, g)})
  {
  }

  lemma RegisterInStep(parts: map<Uuid, Part>, directory: map<GameId, Entry>, claims: set<(Uuid, GameId)>,
                       c: Uuid, h: Uuid)
    requires InStep(parts, directory, claims) && c in parts && parts[c].Free? && h != c
    requires h in parts && parts[h].Hosting? && RostersOk(parts)
    ensures InStep(parts[h := Hosting(parts[h].gameId, parts[h].members + {c})][c := Linked(h, parts[h].gameId)],
                   directory, claims)
  {
  }

  lemma InstallInStep(parts: map<Uuid, Part>, directory: map<GameId, Entry>, claims: set<(Uuid, GameId)>, c: Uuid)
    requires InStep(parts, directory, claims) && c in parts && parts[c].Claiming? && RostersOk(parts)
    ensures InStep(parts[c := Hosting(parts[c].gameId, {})], directory, claims)
  {
  }

  lemma EndInStep(parts: map<Uuid, Part>, directory: map<GameId, Entry>, claims: set<(Uuid, GameId)>, c: Uuid)
    requires InStep(parts, directory, claims) && c in parts && parts[c].Hosting? && RostersOk(parts)
    ensures InStep(parts[c := Free], directory - {parts[c].gameId}, claims)
  {
  }

  lemma LeaveInStep(parts: map<Uuid, Part>, directory: map<GameId, Entry>, claims: set<(Uuid, GameId)>, c: Uuid)
    requires InStep(parts, directory, claims) && c in parts && parts[c].Linked? && RostersOk(parts)
    ensures var h := parts[c].host;
      if h in parts && parts[h].Hosting?
      then InStep(parts[c := Free][h := Hosting(parts[h].gameId, parts[h].members - {c})], directory, claims)
      else InStep(parts[c := Free], directory, claims)
  {
  }

  lemma FreeInStep(parts: map<Uuid, Part>, directory: map<GameId, Entry>, claims: set<(Uuid, GameId)>, c: Uuid)
    requires InStep(parts, directory, claims) && (c in parts ==> parts[c].Free?) && RostersOk(parts)
    ensures c !in parts ==> InStep(parts[c := Free], directory, claims)
    ensures c in parts ==> InStep(parts - {c}, directory, claims)
  {
  }

  // ---- preservation ------------------------------------------------------------------------

  /** In an atomic step only the request of `c` has anything read. */
  lemma ReadsAlone(s: State, a: Action)
    requires Enabled(s, a) && Alone(s, a.c)
    requires a.c in Step(s, a).clients ==> ReadOk(Step(s, a).directory, Step(s, a).clients[a.c].pc)
    ensures ReadsOk(Step(s, a))
  {
    Runs.StepWaits(s, a);
  }

  /** Without interleaving the host of a key that was read as live is there, with that game. */
  lemma HostIsThere(s: State, c: Uuid)
    requires Inv(s) && AInv(s) && Alone(s, c) && c in s.clients && s.clients[c].pc.SawLive?
    ensures var pc := s.clients[c].pc;
      Runs.Hosts(s, pc.host, pc.gameId)
  {
    var pc := s.clients[c].pc;
    assert ClientOk(c, s.clients[c], s.claims, s.games);
    assert ReadOk(s.directory, pc);
    assert Parts(s)[pc.host] == PartOf(s.clients[pc.host]);
  }

  lemma AsideKeepsDirectory(s: State, a: Action)
    requires Enabled(s, a)
    requires a.Malformed? || a.JoinRead? || a.Task? || a.Ping? || a.Identify? || a.ExistsRead?
          || a.CompileRead? || a.CompilePrepare? || a.CompileValidate? || a.CompileReply?
    ensures Step(s, a).directory == s.directory
  {
  }

  lemma AsideReads(s: State, a: Action)
    requires Enabled(s, a)
    requires a.Malformed? || a.JoinRead? || a.Task? || a.Ping? || a.Identify? || a.ExistsRead?
    ensures a.c in Step(s, a).clients && ReadOk(s.directory, Step(s, a).clients[a.c].pc)
  {
  }

  lemma CompileReads(s: State, a: Action)
    requires Enabled(s, a) && Views.IsCompile(a)
    ensures a.c in Step(s, a).clients && ReadOk(s.directory, Step(s, a).clients[a.c].pc)
  {
  }

  lemma AsideKeeps(s: State, a: Action)
    requires Inv(s) && AInv(s) && Enabled(s, a) && Alone(s, a.c)
    requires a.Malformed? || a.JoinRead? || a.Task? || a.Ping? || a.Identify? || a.ExistsRead? || Views.IsCompile(a)
    ensures AInv(Step(s, a))
  {
    AsideKeepsDirectory(s, a);
    if Views.IsCompile(a) {
      Views.CompileStepIsSilent(s, a);
      CompileReads(s, a);
    } else {
      Views.AsideIsSilent(s, a);
      AsideReads(s, a);
    }
    Views.SilentParts(s, Step(s, a));
    ReadsAlone(s, a);
  }

  lemma CreateKeepsStep(s: State, a: Action)
    requires Inv(s) && AInv(s) && Enabled(s, a) && Alone(s, a.c) && a.Create?
    ensures AInv(Step(s, a))
  {
    Views.CreateIsSilent(s, a.c, a.parsed, a.gameId);
    Views.SilentParts(s, Step(s, a));
    ReadsAlone(s, a);
    assert a.gameId !in s.directory;
  }

  /** An Exists request never finds that the host it has read is gone. */
  lemma ExistsFindsHost(s: State, c: Uuid)
    requires Inv(s) && AInv(s) && c in s.clients && s.clients[c].pc.ExistsSaw?
    ensures var pc := s.clients[c].pc;
      && (pc.found.Some? <==> pc.gameId in s.directory)
      && (pc.found.Some? && pc.found.value.Live? ==> pc.found.value.host in s.clients)
  {
    assert ReadOk(s.directory, s.clients[c].pc);
  }

  lemma ExistsKeepsStep(s: State, a: Action)
    requires Inv(s) && AInv(s) && Enabled(s, a) && Alone(s, a.c) && a.ExistsAnswer?
    ensures AInv(Step(s, a)) && Step(s, a).directory == s.directory
  {
    ExistsFindsHost(s, a.c);
    Views.ExistsAnswerIsSilent(s, a.c);
    Views.SilentParts(s, Step(s, a));
    ReadsAlone(s, a);
  }

  lemma ClaimKeepsStep(s: State, a: Action)
    requires Inv(s) && AInv(s) && Enabled(s, a) && Alone(s, a.c) && a.JoinClaim?
    ensures AInv(Step(s, a))
  {
    var g := s.clients[a.c].pc.gameId;
    assert ReadOk(s.directory, s.clients[a.c].pc);
    ClaimKeepsClients(s, a.c);
    ClaimInStep(Parts(s), s.directory, s.claims, a.c, g);
    ReadsAlone(s, a);
  }

  lemma RegisterInStepToo(s: State, c: Uuid, order: seq<Uuid>)
    requires ClientsOk(s) && HistoryOk(s) && RostersOk(Parts(s)) && InStep(Parts(s), s.directory, s.claims)
    requires c in s.clients && s.clients[c].pc.SawLive? && OrderOk(s, c, order)
    requires Runs.Hosts(s, s.clients[c].pc.host, s.clients[c].pc.gameId)
    requires Admits(s.clients[s.clients[c].pc.host].game.value)
    ensures var s' := DoJoinRegister(s, c, order); InStep(Parts(s'), s'.directory, s'.claims)
  {
    var pc := s.clients[c].pc;
    RegisterEnters(s, c, order);
    EntersParts(s, DoJoinRegister(s, c, order), c, pc.host, Me(s, c, pc.nickname));
    RegisterInStep(Parts(s), s.directory, s.claims, c, pc.host);
  }

  lemma TurnedAwayInStep(s: State, c: Uuid, order: seq<Uuid>)
    requires ClientsOk(s) && Views.Wired(s) && InStep(Parts(s), s.directory, s.claims)
    requires c in s.clients && s.clients[c].pc.SawLive? && OrderOk(s, c, order)
    requires GameOf(s, s.clients[c].pc.host).Some? && !Admits(GameOf(s, s.clients[c].pc.host).value)
    ensures var s' := DoJoinRegister(s, c, order); InStep(Parts(s'), s'.directory, s'.claims)
  {
    assert ClientOk(c, s.clients[c], s.claims, s.games);
    Views.TurnedAwayIsSilent(s, c, order);
    Views.SilentParts(s, DoJoinRegister(s, c, order));
  }

  lemma RegisterKeepsStep(s: State, a: Action)
    requires Inv(s) && AInv(s) && Enabled(s, a) && Alone(s, a.c) && a.JoinRegister?
    ensures AInv(Step(s, a)) && Step(s, a).directory == s.directory
  {
    HostIsThere(s, a.c);
    if Admits(s.clients[s.clients[a.c].pc.host].game.value) {
      RegisterInStepToo(s, a.c, a.order);
    } else {
      TurnedAwayInStep(s, a.c, a.order);
    }
    ReadsAlone(s, a);
  }

  lemma InstallKeepsStep(s: State, a: Action)
    requires Inv(s) && AInv(s) && Enabled(s, a) && Alone(s, a.c) && a.JoinInstall?
    ensures AInv(Step(s, a))
  {
    var c := a.c;
    if s.clients[c].pc.Claimed? {
      assert ClientOk(c, s.clients[c], s.claims, s.games);
      InstallHostParts(s, c);
      InstallInStep(Parts(s), s.directory, s.claims, c);
    } else {
      Views.GuestInstallIsSilent(s, c);
      Views.SilentParts(s, Step(s, a));
    }
    ReadsAlone(s, a);
  }

  lemma DropKeepsStep(s: State, c: Uuid)
    requires Inv(s) && AInv(s) && c in s.clients && s.clients[c].pc.Idle?
    ensures var s' := DropGame(s, c); InStep(Parts(s'), s'.directory, s'.claims)
  {
    if s.clients[c].game.Some? {
      var g := s.clients[c].game.value;
      if g.isHost {
        DropHostedIs(s, c, g);
        EndInStep(Parts(s), s.directory, s.claims, c);
      } else {
        JoinedGame(s, c);
        DropJoinedIs(s, c, g);
        LeaveInStep(Parts(s), s.directory, s.claims, c);
        if GameOf(s, g.host.id).Some? {
          ForgetsParts(s, DropGame(s, c), c, g.host.id);
        }
      }
    }
  }

  /** The same parts, keys and claims. */
  ghost predicate SameStanding(s1: State, s2: State) {
    Parts(s1) == Parts(s2) && s1.directory == s2.directory && s1.claims == s2.claims
  }

  lemma FailSameStanding(s: State, c: Uuid, e: ClientError)
    requires c in s.clients && s.clients[c].pc.Idle?
    ensures SameStanding(Fail(s, c), s) && SameStanding(FailWith(s, c, e), s)
  {
  }

  lemma ClosedSameStanding(s: State, c: Uuid)
    requires c in s.clients && s.clients[c].game.None? && s.clients[c].pc.Idle?
    ensures SameStanding(SetPc(s, c, Closed), s)
  {
  }

  lemma EndKeepsStep(s: State, a: Action)
    requires Inv(s) && AInv(s) && Enabled(s, a) && Alone(s, a.c) && (a.Leave? || a.Close?)
    ensures AInv(Step(s, a))
  {
    var s1 := DropGame(s, a.c);
    DropKeepsStep(s, a.c);
    DropFrees(s, a.c);
    if a.Close? {
      ClosedSameStanding(s1, a.c);
    } else {
      FailSameStanding(s1, a.c, NotInGame(ClientNotInGame));
    }
    ReadsAlone(s, a);
  }

  lemma StartKeepsStep(s: State, a: Action)
    requires Inv(s) && AInv(s) && Enabled(s, a) && Alone(s, a.c) && a.Start?
    ensures AInv(Step(s, a))
  {
    var c := a.c;
    if s.clients[c].game.Some? && s.clients[c].game.value.isHost && a.count.Some? {
      Views.StartIsSilent(s, c, a.count.value, a.picks);
      Views.SilentParts(s, Step(s, a));
      HostStartIs(s, c, a.count.value, a.picks);
    } else if s.clients[c].game.Some? && !s.clients[c].game.value.isHost {
      DropKeepsStep(s, c);
      DropFrees(s, c);
      FailSameStanding(DropGame(s, c), c, NotGameHost(ClientNotHost));
    } else {
      FailSameStanding(s, c, NotInGame(ClientNotInGame));
    }
    ReadsAlone(s, a);
  }

  lemma HostStartIs(s: State, c: Uuid, count: nat, picks: seq<nat>)
    requires Ready(s, c) && ValidPicks(s.pool, count, picks) && IsHost(s, c)
    ensures DoStart(s, c, Some(count), picks).directory == s.directory
    ensures DoStart(s, c, Some(count), picks).clients[c].pc.Idle?
  {
  }

  lemma ConnectKeepsStep(s: State, a: Action)
    requires Inv(s) && AInv(s) && Enabled(s, a) && Alone(s, a.c) && a.Connect?
    ensures AInv(Step(s, a))
  {
    ConnectAddsFree(s, a.c, a.channel);
    FreeInStep(Parts(s), s.directory, s.claims, a.c);
    ReadsAlone(s, a);
  }

  lemma RemoveKeepsStep(s: State, a: Action)
    requires Inv(s) && AInv(s) && Enabled(s, a) && Alone(s, a.c) && a.Remove?
    ensures AInv(Step(s, a))
  {
    assert ClientOk(a.c, s.clients[a.c], s.claims, s.games);
    Views.RemoveParts(s, a.c);
    FreeInStep(Parts(s), s.directory, s.claims, a.c);
    ReadsAlone(s, a);
  }

  lemma AtomicJoinKeeps(s: State, a: Action)
    requires Inv(s) && AInv(s) && Enabled(s, a) && Alone(s, a.c)
    requires a.JoinClaim? || a.JoinRegister? || a.JoinInstall?
    ensures AInv(Step(s, a))
  {
    match a
    case JoinClaim(_) => ClaimKeepsStep(s, a);
    case JoinRegister(_, _) => RegisterKeepsStep(s, a);
    case JoinInstall(_) => InstallKeepsStep(s, a);
  }

  lemma AtomicStepKeeps(s: State, a: Action)
    requires Inv(s) && AInv(s) && Enabled(s, a) && Alone(s, a.c)
    ensures AInv(Step(s, a))
  {
    if a.Connect? {
      ConnectKeepsStep(s, a);
    } else if a.Remove? {
      RemoveKeepsStep(s, a);
    } else if a.JoinClaim? || a.JoinRegister? || a.JoinInstall? {
      AtomicJoinKeeps(s, a);
    } else if a.Leave? || a.Close? {
      EndKeepsStep(s, a);
    } else if a.Start? {
      StartKeepsStep(s, a);
    } else if a.Create? {
      CreateKeepsStep(s, a);
    } else if a.ExistsAnswer? {
      ExistsKeepsStep(s, a);
    } else {
      AsideKeeps(s, a);
    }
  }

  lemma {:induction false} AtomicRunIsOk(r: Runs.Run, pool: seq<GameTask>, n: nat)
    requires IsAtomicRun(r, pool) && n < |r.states|
    ensures Inv(r.states[n]) && AInv(r.states[n])
  {
    Runs.RunIsOk(r, pool, n);
    if n > 0 {
      AtomicRunIsOk(r, pool, n - 1);
      assert Runs.StepAt(r, n - 1) && AloneAt(r, n - 1);
      AtomicStepKeeps(r.states[n - 1], r.actions[n - 1]);
    }
  }

  // ---- main results ------------------------------------------------------------------------

  /** Directory bijection: a key names a client exactly when that client hosts the game, or has
      claimed it and is about to; so each game has at most one host. */
  lemma DirectoryBijection(r: Runs.Run, pool: seq<GameTask>, n: nat, h: Uuid, g: GameId)
    requires IsAtomicRun(r, pool) && n < |r.states|
    ensures var s := r.states[n];
      && ((g in s.directory && s.directory[g] == Live(h)) <==>
            Runs.Hosts(s, h, g) || (h in s.clients && s.clients[h].pc == Claimed(g)))
      && forall k :: Runs.Hosts(s, h, g) && Runs.Hosts(s, k, g) ==> k == h
  {
    AtomicRunIsOk(r, pool, n);
    KeysNameHosts(r.states[n], h, g);
    forall k | Runs.Hosts(r.states[n], h, g) && Runs.Hosts(r.states[n], k, g) ensures k == h {
      KeysNameHosts(r.states[n], k, g);
    }
  }

  lemma KeysNameHosts(s: State, h: Uuid, g: GameId)
    requires KeysOk(Parts(s), s.directory) && ClientsOk(s) && EntriesOk(Parts(s), s.directory)
    ensures (g in s.directory && s.directory[g] == Live(h)) <==>
            Runs.Hosts(s, h, g) || (h in s.clients && s.clients[h].pc == Claimed(g))
  {
    if h in s.clients {
      assert ClientOk(h, s.clients[h], s.claims, s.games);
      assert Parts(s)[h] == PartOf(s.clients[h]);
    }
  }

  /** The cleanup of Join never runs: its host is there, hosting that very game. */
  lemma JoinFindsItsHost(r: Runs.Run, pool: seq<GameTask>, n: nat)
    requires IsAtomicRun(r, pool) && n < |r.actions| && Runs.StepAt(r, n) && r.actions[n].JoinRegister?
    ensures var s, c := r.states[n], r.actions[n].c;
      && Runs.Hosts(s, s.clients[c].pc.host, s.clients[c].pc.gameId)
      && r.states[n + 1].directory == s.directory
  {
    AtomicRunIsOk(r, pool, n);
    assert AloneAt(r, n);
    HostIsThere(r.states[n], r.actions[n].c);
    RegisterKeepsStep(r.states[n], r.actions[n]);
  }

  /** Nor does the one of Exists, which answers true exactly when the key is there, that is when
      the game is unclaimed or hosted. */
  lemma ExistsIsRight(r: Runs.Run, pool: seq<GameTask>, n: nat)
    requires IsAtomicRun(r, pool) && n < |r.actions| && Runs.StepAt(r, n) && r.actions[n].ExistsAnswer?
    ensures var s, c := r.states[n], r.actions[n].c;
      var g := s.clients[c].pc.gameId;
      && r.states[n + 1].directory == s.directory
      && Views.Out(r.states[n + 1], c) == Views.Out(s, c) + [ExistsResponse(g in s.directory)]
      && (g in s.directory <==> (g in s.directory && s.directory[g].Unclaimed?) || exists h :: Runs.Hosts(s, h, g))
  {
    var s, a := r.states[n], r.actions[n];
    AtomicRunIsOk(r, pool, n);
    assert AloneAt(r, n);
    ExistsFindsHost(s, a.c);
    ExistsKeepsStep(s, a);
    assert s.clients[a.c].channel in s.outboxes;
    var g := s.clients[a.c].pc.gameId;
    if g in s.directory && s.directory[g].Live? {
      KeysNameHosts(s, s.directory[g].host, g);
      assert Runs.Hosts(s, s.directory[g].host, g);
    }
    if h :| Runs.Hosts(s, h, g) {
      KeysNameHosts(s, h, g);
    }
  }

  /** Members and their host agree on the game, so pointers are complete in both directions: a
      guest of a game that is hosted is in the roster, and whoever is in the roster names that game. */
  lemma MembersNameTheirGame(r: Runs.Run, pool: seq<GameTask>, n: nat, h: Uuid, g: GameId, d: Uuid)
    requires IsAtomicRun(r, pool) && n < |r.states| && Runs.Hosts(r.states[n], h, g) && d in r.states[n].clients
    ensures var s := r.states[n];
      d in Runs.Game(s, h).Roster() <==> PartOf(s.clients[d]) == Linked(h, g)
  {
    var s := r.states[n];
    AtomicRunIsOk(r, pool, n);
    assert Parts(s)[h] == PartOf(s.clients[h]) && Parts(s)[d] == PartOf(s.clients[d]);
  }

  // ---- lobbies by game ---------------------------------------------------------------------

  ghost predicate OneHostEach(l: Lobby.Lobbies) {
    forall h, k :: h in l && k in l && l[h].gameId == l[k].gameId ==> h == k
  }

  /** The lobbies as a map from game ids: the host of each, and its lobby. */
  ghost function ByGame(l: Lobby.Lobbies): (k: map<GameId, (Uuid, Lobby.Lobby)>)
    requires OneHostEach(l)
    ensures IsByGame(l, k)
  {
    map h | h in l :: l[h].gameId := (h, l[h])
  }

  ghost predicate IsByGame(l: Lobby.Lobbies, k: map<GameId, (Uuid, Lobby.Lobby)>) {
    && (forall h :: h in l ==> l[h].gameId in k && k[l[h].gameId] == (h, l[h]))
    && (forall g :: g in k ==> k[g].0 in l && l[k[g].0] == k[g].1 && k[g].1.gameId == g)
  }

  lemma ByGameIsUnique(l: Lobby.Lobbies, k: map<GameId, (Uuid, Lobby.Lobby)>)
    requires OneHostEach(l) && IsByGame(l, k)
    ensures k == ByGame(l)
  {
  }

  /** What a lobby event is to the map from game ids: one game is opened, ended or changed. */
  ghost predicate GameNext(l: Lobby.Lobbies, l': Lobby.Lobbies, e: Lobby.Event)
    requires OneHostEach(l) && OneHostEach(l') && Lobby.Allowed(l, e) && l' == Lobby.Next(l, e)
  {
    match e
    case Stutter => ByGame(l') == ByGame(l)
    case Opens(h, g) => g !in ByGame(l) && ByGame(l') == ByGame(l)[g := (h, Lobby.Lobby(g, map[], Lobby.Open))]
    case Ends(h) => ByGame(l') == ByGame(l) - {l[h].gameId}
    case _ => l'[e.h].gameId == l[e.h].gameId && ByGame(l') == ByGame(l)[l[e.h].gameId := (e.h, l'[e.h])]
  }

  lemma OpensOneGame(l: Lobby.Lobbies, h: Uuid, b: Lobby.Lobby)
    requires h !in l && OneHostEach(l) && OneHostEach(l[h := b])
    ensures b.gameId !in ByGame(l) && ByGame(l[h := b]) == ByGame(l)[b.gameId := (h, b)]
  {
    var l', k := l[h := b], ByGame(l);
    assert l'[h] == b && forall i :: i in l ==> l'[i] == l[i];
    ByGameIsUnique(l', k[b.gameId := (h, b)]);
  }

  lemma EndsOneGame(l: Lobby.Lobbies, h: Uuid)
    requires h in l && OneHostEach(l) && OneHostEach(l - {h})
    ensures ByGame(l - {h}) == ByGame(l) - {l[h].gameId}
  {
    ByGameIsUnique(l - {h}, ByGame(l) - {l[h].gameId});
  }

  lemma ChangesOneGame(l: Lobby.Lobbies, h: Uuid, b: Lobby.Lobby)
    requires h in l && OneHostEach(l) && OneHostEach(l[h := b]) && b.gameId == l[h].gameId
    ensures ByGame(l[h := b]) == ByGame(l)[l[h].gameId := (h, b)]
  {
    ByGameIsUnique(l[h := b], ByGame(l)[l[h].gameId := (h, b)]);
  }

  lemma EventsChangeOneGame(l: Lobby.Lobbies, e: Lobby.Event)
    requires Lobby.Allowed(l, e) && OneHostEach(l) && OneHostEach(Lobby.Next(l, e))
    ensures GameNext(l, Lobby.Next(l, e), e)
  {
    match e
    case Stutter =>
    case Opens(h, g) => OpensOneGame(l, h, Lobby.Lobby(g, map[], Lobby.Open));
    case Ends(h) => EndsOneGame(l, h);
    case _ => ChangesOneGame(l, e.h, Lobby.Next(l, e)[e.h]);
  }

  lemma HostsDiffer(r: Runs.Run, pool: seq<GameTask>, n: nat)
    requires IsAtomicRun(r, pool) && n < |r.states|
    ensures OneHostEach(Lobby.Abs(r.states[n]))
  {
    var l := Lobby.Abs(r.states[n]);
    forall h, k | h in l && k in l && l[h].gameId == l[k].gameId ensures h == k {
      DirectoryBijection(r, pool, n, h, l[h].gameId);
      assert Runs.Hosts(r.states[n], h, l[h].gameId) && Runs.Hosts(r.states[n], k, l[h].gameId);
    }
  }

  lemma RefinedAt(r: Runs.Run, pool: seq<GameTask>, n: nat)
    requires Runs.IsRun(r, pool) && n < |r.actions| && Runs.StepAt(r, n)
    ensures var l, l' := Lobby.Abs(r.states[n]), Lobby.Abs(r.states[n + 1]);
      var e := Lobby.EventOf(r.states[n], r.actions[n]);
      Lobby.Allowed(l, e) && l' == Lobby.Next(l, e)
  {
    Runs.RunIsOk(r, pool, n);
    Lobby.StepRefines(r.states[n], r.actions[n]);
  }

  /** Refinement by game: with one request at a time the server is a map from game ids to a host and
      its lobby, and every step is one lobby event on at most one game. */
  lemma RefinesGames(r: Runs.Run, pool: seq<GameTask>, n: nat)
    requires IsAtomicRun(r, pool) && n < |r.actions| && Runs.StepAt(r, n)
    ensures var l, l' := Lobby.Abs(r.states[n]), Lobby.Abs(r.states[n + 1]);
      var e := Lobby.EventOf(r.states[n], r.actions[n]);
      OneHostEach(l) && OneHostEach(l') && Lobby.Allowed(l, e) && l' == Lobby.Next(l, e) && GameNext(l, l', e)
  {
    var l, e := Lobby.Abs(r.states[n]), Lobby.EventOf(r.states[n], r.actions[n]);
    HostsDiffer(r, pool, n);
    HostsDiffer(r, pool, n + 1);
    RefinedAt(r, pool, n);
    EventsChangeOneGame(l, e);
  }
}
