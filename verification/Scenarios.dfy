/** Concrete runs that show what interleaving, and a pointer kept too long, can lead to. */
module Scenarios {
  import opened Types
  import opened GameRules
  import opened Protocol
  import Grader
  import Runs
  import Findings

  // ---- reaching a state --------------------------------------------------------------------

  function Last(r: Runs.Run): State
    requires |r.states| > 0
  {
    r.states[|r.states| - 1]
  }

  ghost predicate Reachable(s: State) {
    exists r :: Runs.IsRun(r, Pool()) && Last(r) == s
  }

  lemma StartIsReachable()
    ensures Reachable(Initial(Pool()))
  {
    var r := Runs.Run([Initial(Pool())], []);
    assert Runs.IsRun(r, Pool()) && Last(r) == Initial(Pool());
  }

  lemma NextIsReachable(s: State, a: Action, s': State)
    requires Reachable(s) && Enabled(s, a) && s' == Step(s, a)
    ensures Reachable(s')
  {
    var r :| Runs.IsRun(r, Pool()) && Last(r) == s;
    var r' := Runs.Run(r.states + [s'], r.actions + [a]);
    forall i | 0 <= i < |r'.actions| ensures Runs.StepAt(r', i) {
      if i < |r.actions| {
        assert Runs.StepAt(r, i);
      }
    }
    assert Runs.IsRun(r', Pool()) && Last(r') == s';
  }

  // ---- pieces of runs ----------------------------------------------------------------------

  /** One task without any test. */
  function Pool(): seq<GameTask> {
    [GameTask("sum", "Add the numbers.", [], [])]
  }

  function Name(c: Uuid): string {
    if c == 1 then "ann" else if c == 2 then "bob" else "cat"
  }

  function Self(c: Uuid): PartialClient {
    NewPartial(c, Name(c), c)
  }

  function Sock(c: Uuid, game: Option<Game>, pc: Pc): Client {
    Client(Some(Name(c)), c, game, false, pc)
  }

  function Resting(c: Uuid): Client {
    Sock(c, None, Idle)
  }

  function Hosting(c: Uuid, g: GameId, roster: map<Uuid, PartialClient>): Client {
    Sock(c, Some(Types.Game(true, g, Self(c), Self(c), Some(roster), false, true, [])), Idle)
  }

  function Put(s: State, c: Uuid, cl: Client): State {
    s.(clients := s.clients[c := cl])
  }

  function Tell(s: State, c: Uuid, m: Message): State {
    s.(outboxes := Post(s.outboxes, c, m))
  }

  /** The state `s` can be reached, and in it `c` is `cl`. */
  ghost predicate Has(s: State, c: Uuid, cl: Client) {
    Reachable(s) && c in s.clients && s.clients[c] == cl && c in s.outboxes
  }

  function Arrived(s: State, c: Uuid): State {
    Put(s, c, Resting(c)).(outboxes := s.outboxes[c := [IdentifyResponse(true)]], ids := s.ids + {c})
  }

  lemma Arrives(s: State, c: Uuid)
    requires Reachable(s) && c !in s.ids && c !in s.outboxes
    ensures Reachable(Arrived(s, c))
  {
    var s1 := DoConnect(s, c, c);
    NextIsReachable(s, Connect(c, c), s1);
    assert s1.clients[c := Resting(c)] == Arrived(s, c).clients;
    assert Post(s1.outboxes, c, IdentifyResponse(true)) == Arrived(s, c).outboxes by {
      assert s1.outboxes[c] + [IdentifyResponse(true)] == [IdentifyResponse(true)];
    }
    NextIsReachable(s1, Identify(c, Some(Name(c))), Arrived(s, c));
  }

  function Created(s: State, c: Uuid, g: GameId): State {
    Tell(s, c, CreateResponse(g)).(directory := s.directory[g := Unclaimed], games := s.games + {g})
  }

  lemma Creates(s: State, c: Uuid, g: GameId)
    requires Has(s, c, Resting(c)) && g !in s.games
    ensures Reachable(Created(s, c, g))
  {
    NextIsReachable(s, Create(c, true, g), Created(s, c, g));
  }

  function ReadEmpty(s: State, c: Uuid, g: GameId): State {
    Put(s, c, Sock(c, None, SawEmpty(g)))
  }

  lemma ReadsEmpty(s: State, c: Uuid, g: GameId)
    requires Has(s, c, Resting(c)) && g in s.directory && s.directory[g].Unclaimed?
    ensures Reachable(ReadEmpty(s, c, g))
  {
    NextIsReachable(s, JoinRead(c, Some(g)), ReadEmpty(s, c, g));
  }

  function Opened(s: State, c: Uuid, g: GameId): State {
    Tell(Put(s, c, Hosting(c, g, map[])), c, JoinResponse(g, true, true))
    .(directory := s.directory[g := Live(c)], claims := s.claims + {(c, g)})
  }

  /** The claim, and the install. */
  lemma Opens(s: State, c: Uuid, g: GameId)
    requires Has(s, c, Sock(c, None, SawEmpty(g)))
    ensures Reachable(Opened(s, c, g))
  {
    var s1 := DoJoinClaim(s, c);
    NextIsReachable(s, JoinClaim(c), s1);
    assert s1.clients[c := Hosting(c, g, map[])] == Opened(s, c, g).clients;
    NextIsReachable(s1, JoinInstall(c), Opened(s, c, g));
  }

  function ReadLive(s: State, c: Uuid, g: GameId, h: Uuid): State {
    Put(s, c, Sock(c, None, SawLive(g, h, Name(c))))
  }

  lemma ReadsLive(s: State, c: Uuid, g: GameId, h: Uuid)
    requires Has(s, c, Resting(c)) && g in s.directory && s.directory[g] == Live(h)
    ensures Reachable(ReadLive(s, c, g, h))
  {
    NextIsReachable(s, JoinRead(c, Some(g)), ReadLive(s, c, g, h));
  }

  /** `c`, which has asked for `g`, is the first to enter the game `now` of `h`. */
  function Entered(s: State, c: Uuid, g: GameId, h: Uuid, now: GameId): State {
    var waiting := Sock(c, None, Registered(g, h, Name(h), h, true, Name(c)));
    var s1 := Put(Put(s, h, Hosting(h, now, map[c := Self(c)])), c, waiting);
    Tell(Tell(s1, c, ConnectedClient(now, h, Name(h))), h, ConnectedClient(now, c, Name(c)))
  }

  lemma Enters(s: State, c: Uuid, g: GameId, h: Uuid, now: GameId)
    requires Has(s, c, Sock(c, None, SawLive(g, h, Name(c)))) && Has(s, h, Hosting(h, now, map[])) && c != h
    ensures Reachable(Entered(s, c, g, h, now))
  {
    var hosted := s.clients[h].game.value;
    var out := Post(s.outboxes, c, ConnectedClient(now, h, Name(h)));
    assert Introductions(hosted, []) == [];
    assert DeliverAll(s.outboxes, Self(c), []) == s.outboxes;
    assert Audience(hosted, {}) == {h};
    assert PostOnce(out, {h}, ConnectedClient(now, c, Name(c))) == Post(out, h, ConnectedClient(now, c, Name(c)));
    assert RegisterOut(hosted, s.outboxes, Self(c), []) == Entered(s, c, g, h, now).outboxes;
    assert map[][c := Self(c)] == map[c := Self(c)];
    NextIsReachable(s, JoinRegister(c, []), Entered(s, c, g, h, now));
  }

  /** `h` leaves the game that it has to itself. */
  function EndedAlone(s: State, h: Uuid, g: GameId): State {
    Tell(Put(s, h, Resting(h)), h, ShutdownResponse(true)).(directory := s.directory - {g})
  }

  lemma EndsAlone(s: State, h: Uuid, g: GameId)
    requires Has(s, h, Hosting(h, g, map[]))
    ensures Reachable(EndedAlone(s, h, g))
  {
    var hosted := s.clients[h].game.value;
    assert RosterChannels(hosted, {}) == {};
    assert PostOnce(s.outboxes, {}, ShutdownEvent) == s.outboxes;
    NextIsReachable(s, Leave(h), EndedAlone(s, h, g));
  }

  /** `h` leaves the game that has only `c` for a member. */
  function Ended(s: State, h: Uuid, g: GameId, c: Uuid): State {
    Tell(Tell(Put(s, h, Resting(h)), c, ShutdownEvent), h, ShutdownResponse(true)).(directory := s.directory - {g})
  }

  lemma Ends(s: State, h: Uuid, g: GameId, c: Uuid)
    requires Has(s, h, Hosting(h, g, map[c := Self(c)])) && c in s.outboxes
    ensures Reachable(Ended(s, h, g, c))
  {
    var hosted := s.clients[h].game.value;
    assert hosted.Roster() == map[c := Self(c)] && hosted.Roster()[c] == Self(c);
    assert RosterChannels(hosted, {}) == {c} by {
      assert forall ch :: ch in RosterChannels(hosted, {}) ==> ch == c;
      assert c in RosterChannels(hosted, {});
    }
    assert PostOnce(s.outboxes, {c}, ShutdownEvent) == Post(s.outboxes, c, ShutdownEvent);
    NextIsReachable(s, Leave(h), Ended(s, h, g, c));
  }

  function Guest(c: Uuid, g: GameId, h: Uuid, pc: Pc): Client {
    Sock(c, Some(Types.Game(false, g, Self(c), Self(h), None, false, true, [])), pc)
  }

  function Joined(s: State, c: Uuid, g: GameId, h: Uuid): State {
    Tell(Put(s, c, Guest(c, g, h, Idle)), c, JoinResponse(g, false, true))
  }

  lemma Joins(s: State, c: Uuid, g: GameId, h: Uuid)
    requires Has(s, c, Sock(c, None, Registered(g, h, Name(h), h, true, Name(c))))
    ensures Reachable(Joined(s, c, g, h))
  {
    NextIsReachable(s, JoinInstall(c), Joined(s, c, g, h));
  }

  function Record(h: Uuid, done: bool): PartialClient {
    Self(h).(progress := Some(map[0 := done]))
  }

  function Playing(h: Uuid, g: GameId, done: bool): Client {
    Sock(h, Some(Types.Game(true, g, Self(h), Record(h, done), Some(map[]), true, false, Pool())), Idle)
  }

  function Started(s: State, h: Uuid, g: GameId): State {
    Tell(Put(s, h, Playing(h, g, false)), h, StartEvent(1))
  }

  lemma Starts(s: State, h: Uuid, g: GameId)
    requires Has(s, h, Hosting(h, g, map[])) && s.pool == Pool()
    ensures Reachable(Started(s, h, g))
  {
    var hosted := s.clients[h].game.value;
    assert Chosen(Pool(), [0]) == Pool();
    assert NothingDone(1) == map[0 := false];
    assert StartGame(hosted, Pool(), 1) == Playing(h, g, false).game.value by {
      var none: map<Uuid, PartialClient> := map[];
      assert StartGame(hosted, Pool(), 1).connected == Some(none);
    }
    assert Audience(hosted, {}) == {h};
    assert PostOnce(s.outboxes, {h}, StartEvent(1)) == Post(s.outboxes, h, StartEvent(1));
    NextIsReachable(s, Start(h, Some(1), [0]), Started(s, h, g));
  }

  function Prepared(s: State, c: Uuid, g: GameId, h: Uuid, g2: GameId): State {
    Put(s, c, Guest(c, g, h, Running(h, "", 0, [], g2)))
  }

  /** A guest that still points at the game `g` of `h` has a test prepared in its game `g2`. */
  lemma Prepares(s: State, c: Uuid, g: GameId, h: Uuid, g2: GameId)
    requires Has(s, c, Guest(c, g, h, Idle)) && Has(s, h, Playing(h, g2, false)) && c != h
    ensures Reachable(Prepared(s, c, g, h, g2))
  {
    var s1 := Put(s, c, Guest(c, g, h, CompileSaw(h, "", 0)));
    NextIsReachable(s, CompileRead(c, Some(("", 0))), s1);
    assert Stdins(Pool()[0].publicCases) == [];
    assert s1.clients[c := Guest(c, g, h, Running(h, "", 0, [], g2))] == Prepared(s, c, g, h, g2).clients;
    NextIsReachable(s1, CompilePrepare(c), Prepared(s, c, g, h, g2));
  }

  /** The sandbox runs it without trouble, and there is nothing to compare. */
  function Quiet(): SandboxResponse {
    SandboxResponse(true, [], [])
  }

  function Credited(s: State, c: Uuid, g: GameId, h: Uuid, g2: GameId): State {
    var done := CompilationResponse(0, [], true, true, true, "");
    Tell(Put(Put(s, h, Playing(h, g2, true)), c, Guest(c, g, h, Replying(CompileResponse(done), false))),
         h, TaskFinished(Pool()[0].Shown(), 0, c))
  }

  lemma QuietSolves()
    ensures Grader.Grade(Pool()[0], 0, Quiet(), Some(Quiet()))
        == Grader.Graded(CompilationResponse(0, [], true, true, true, ""))
  {
    assert Grader.PassedReport([], []) == [];
  }

  lemma IsCredited(s: State, c: Uuid, g: GameId, h: Uuid, g2: GameId)
    requires Has(s, c, Guest(c, g, h, Running(h, "", 0, [], g2))) && Has(s, h, Playing(h, g2, false)) && c != h
    ensures Reachable(Credited(s, c, g, h, g2))
  {
    var hosted := s.clients[h].game.value;
    QuietSolves();
    assert map[0 := false][0 := true] == map[0 := true];
    assert ValidateGame(hosted, c, 0, Quiet(), Some(Quiet())) == Playing(h, g2, true).game.value;
    assert Audience(hosted, {c}) == {h};
    var m := TaskFinished(Pool()[0].Shown(), 0, c);
    assert PostOnce(s.outboxes, {h}, m) == Post(s.outboxes, h, m);
    NextIsReachable(s, CompileValidate(c, Some(Quiet()), Some(Quiet())), Credited(s, c, g, h, g2));
  }

  // ---- scenarios ---------------------------------------------------------------------------

  /** Everyone has come, and ann has created g. */
  function Gathered(): State {
    Created(Arrived(Arrived(Arrived(Initial(Pool()), 1), 2), 3), 1, "g")
  }

  lemma Gathers()
    ensures Reachable(Gathered())
    ensures Has(Gathered(), 1, Resting(1)) && Has(Gathered(), 2, Resting(2)) && Has(Gathered(), 3, Resting(3))
  {
    StartIsReachable();
    Arrives(Initial(Pool()), 1);
    Arrives(Arrived(Initial(Pool()), 1), 2);
    Arrives(Arrived(Arrived(Initial(Pool()), 1), 2), 3);
    Creates(Arrived(Arrived(Arrived(Initial(Pool()), 1), 2), 3), 1, "g");
  }

  /** Ann and bob have both read the key as unclaimed, and ann has claimed it. */
  function Raced(): State {
    Opened(ReadEmpty(ReadEmpty(Gathered(), 1, "g"), 2, "g"), 1, "g")
  }

  lemma Races()
    ensures Has(Raced(), 1, Hosting(1, "g", map[])) && Has(Raced(), 2, Sock(2, None, SawEmpty("g")))
        && Has(Raced(), 3, Resting(3))
    ensures Raced().directory == map["g" := Live(1)]
  {
    Gathers();
    ReadsEmpty(Gathered(), 1, "g");
    ReadsEmpty(ReadEmpty(Gathered(), 1, "g"), 2, "g");
    Opens(ReadEmpty(ReadEmpty(Gathered(), 1, "g"), 2, "g"), 1, "g");
  }

  /** Two joins that have both read the key as unclaimed make two hosts of one game. */
  lemma TwoHosts()
    ensures exists s :: Reachable(s) && Runs.Hosts(s, 1, "g") && Runs.Hosts(s, 2, "g")
  {
    Races();
    Opens(Raced(), 2, "g");
    var s := Opened(Raced(), 2, "g");
    assert Reachable(s) && Runs.Hosts(s, 1, "g") && Runs.Hosts(s, 2, "g");
  }

  // ---- live keys that are deleted ----------------------------------------------------------

  /** Ann has claimed g and not yet installed it; bob has read her key. */
  function TooEarly(): State {
    ReadLive(DoJoinClaim(ReadEmpty(Gathered(), 1, "g"), 1), 2, "g", 1)
  }

  lemma IsTooEarly()
    ensures Has(TooEarly(), 1, Sock(1, None, Claimed("g")))
    ensures Has(TooEarly(), 2, Sock(2, None, SawLive("g", 1, Name(2))))
    ensures TooEarly().directory == map["g" := Live(1)]
  {
    var s := ReadEmpty(Gathered(), 1, "g");
    Gathers();
    ReadsEmpty(Gathered(), 1, "g");
    NextIsReachable(s, JoinClaim(1), DoJoinClaim(s, 1));
    ReadsLive(DoJoinClaim(s, 1), 2, "g", 1);
  }

  /** `h` hosts `g`, and no key says so. */
  ghost predicate Keyless(s: State, h: Uuid) {
    Reachable(s) && Runs.Hosts(s, h, "g") && "g" !in s.directory
  }

  lemma CleansUpTooEarly(s: State)
    requires Has(s, 1, Sock(1, None, Claimed("g"))) && Has(s, 2, Sock(2, None, SawLive("g", 1, Name(2))))
    requires "g" in s.directory && s.directory["g"] == Live(1)
    ensures Findings.Misfires(s, JoinRegister(2, []))
    ensures exists s' :: Keyless(s', 1)
  {
    var s1 := DoJoinRegister(s, 2, []);
    NextIsReachable(s, JoinRegister(2, []), s1);
    NextIsReachable(s1, JoinInstall(1), DoJoinInstall(s1, 1));
    assert Keyless(DoJoinInstall(s1, 1), 1);
  }

  /** A join that registers before its host has installed its game deletes the key of that game. */
  lemma JoinsCanDeleteLiveKeys()
    ensures exists s :: Reachable(s) && Findings.Misfires(s, JoinRegister(2, []))
    ensures exists s :: Keyless(s, 1)
  {
    IsTooEarly();
    CleansUpTooEarly(TooEarly());
    assert Reachable(TooEarly()) && Findings.Misfires(TooEarly(), JoinRegister(2, []));
  }

  /** `h` closes its connection, hosting `g` alone. */
  function Gone(s: State, h: Uuid, g: GameId): State {
    Tell(s, h, ShutdownResponse(true)).(clients := s.clients - {h}, directory := s.directory - {g})
  }

  lemma Goes(s: State, h: Uuid, g: GameId)
    requires Has(s, h, Hosting(h, g, map[]))
    ensures Reachable(Gone(s, h, g))
  {
    var hosted := s.clients[h].game.value;
    var s1 := Put(EndedAlone(s, h, g), h, Sock(h, None, Closed));
    assert RosterChannels(hosted, {}) == {};
    assert PostOnce(s.outboxes, {}, ShutdownEvent) == s.outboxes;
    NextIsReachable(s, Close(h), s1);
    assert s1.clients - {h} == s.clients - {h};
    NextIsReachable(s1, Remove(h), Gone(s, h, g));
  }

  function Asked(s: State, c: Uuid, g: GameId, h: Uuid): State {
    Put(s, c, Sock(c, None, ExistsSaw(g, Some(Live(h)))))
  }

  lemma Asks(s: State, c: Uuid, g: GameId, h: Uuid)
    requires Has(s, c, Resting(c)) && g in s.directory && s.directory[g] == Live(h)
    ensures Reachable(Asked(s, c, g, h))
  {
    NextIsReachable(s, ExistsRead(c, Some(g)), Asked(s, c, g, h));
  }

  /** Cat has read that ann hosts g; ann has gone, and bob's late claim has opened g again. */
  function TooLate(): State {
    Opened(Gone(Asked(Raced(), 3, "g", 1), 1, "g"), 2, "g")
  }

  lemma IsTooLate()
    ensures Has(TooLate(), 3, Sock(3, None, ExistsSaw("g", Some(Live(1))))) && 1 !in TooLate().clients
    ensures Has(TooLate(), 2, Hosting(2, "g", map[]))
    ensures "g" in TooLate().directory && TooLate().directory["g"] == Live(2)
  {
    Races();
    Asks(Raced(), 3, "g", 1);
    Goes(Asked(Raced(), 3, "g", 1), 1, "g");
    Opens(Gone(Asked(Raced(), 3, "g", 1), 1, "g"), 2, "g");
  }

  lemma CleansUpTooLate(s: State)
    requires Has(s, 3, Sock(3, None, ExistsSaw("g", Some(Live(1))))) && 1 !in s.clients
    requires Has(s, 2, Hosting(2, "g", map[])) && "g" in s.directory && s.directory["g"] == Live(2)
    ensures Findings.Misfires(s, ExistsAnswer(3))
    ensures exists s' :: Keyless(s', 2)
  {
    NextIsReachable(s, ExistsAnswer(3), DoExistsAnswer(s, 3));
    assert Keyless(DoExistsAnswer(s, 3), 2);
  }

  /** So does an Exists request that answers after its host has gone and another has taken its place. */
  lemma ExistsCanDeleteLiveKeys()
    ensures exists s :: Reachable(s) && Findings.Misfires(s, ExistsAnswer(3))
    ensures exists s :: Keyless(s, 2)
  {
    IsTooLate();
    CleansUpTooLate(TooLate());
    assert Reachable(TooLate()) && Findings.Misfires(TooLate(), ExistsAnswer(3));
  }

  // ---- a pointer kept too long -------------------------------------------------------------

  function AnnHosts(): State {
    Opened(ReadEmpty(Gathered(), 1, "g"), 1, "g")
  }

  lemma Hosted()
    ensures var s := AnnHosts();
      && Has(s, 1, Hosting(1, "g", map[])) && Has(s, 2, Resting(2))
      && s.directory == map["g" := Live(1)] && s.games == {"g"} && s.pool == Pool()
  {
    Gathers();
    ReadsEmpty(Gathered(), 1, "g");
    Opens(ReadEmpty(Gathered(), 1, "g"), 1, "g");
  }

  /** Ann hosts g and bob joins it. */
  function Paired(): State {
    FirstJoined(AnnHosts(), 2, "g", 1)
  }

  /** `c` joins the game that `h` has to itself. */
  function FirstJoined(s: State, c: Uuid, g: GameId, h: Uuid): State {
    Joined(Entered(ReadLive(s, c, g, h), c, g, h, g), c, g, h)
  }

  lemma JoinsFirst(s: State, c: Uuid, g: GameId, h: Uuid)
    requires Has(s, c, Resting(c)) && Has(s, h, Hosting(h, g, map[])) && c != h
    requires g in s.directory && s.directory[g] == Live(h)
    ensures Reachable(FirstJoined(s, c, g, h))
  {
    ReadsLive(s, c, g, h);
    Enters(ReadLive(s, c, g, h), c, g, h, g);
    Joins(Entered(ReadLive(s, c, g, h), c, g, h, g), c, g, h);
  }

  lemma Pairs()
    ensures Has(Paired(), 1, Hosting(1, "g", map[2 := Self(2)])) && Has(Paired(), 2, Guest(2, "g", 1, Idle))
    ensures Paired().games == {"g"} && Paired().pool == Pool()
  {
    Hosted();
    JoinsFirst(AnnHosts(), 2, "g", 1);
  }

  /** Ann leaves, and hosts and starts another game alone. */
  function MovedOn(): State {
    var s := Created(Ended(Paired(), 1, "g", 2), 1, "h");
    Started(Opened(ReadEmpty(s, 1, "h"), 1, "h"), 1, "h")
  }

  lemma MovesOn()
    ensures Has(MovedOn(), 1, Playing(1, "h", false)) && Has(MovedOn(), 2, Guest(2, "g", 1, Idle))
  {
    var s0 := Ended(Paired(), 1, "g", 2);
    var s1 := Created(s0, 1, "h");
    var s2 := ReadEmpty(s1, 1, "h");
    var s3 := Opened(s2, 1, "h");
    Pairs();
    Ends(Paired(), 1, "g", 2);
    Creates(s0, 1, "h");
    ReadsEmpty(s1, 1, "h");
    Opens(s2, 1, "h");
    Starts(s3, 1, "h");
  }

  /** Bob, who is not in the game of ann, has solved its task. */
  ghost predicate OutsiderSolved(s: State) {
    && Runs.Hosts(s, 1, "h") && 2 !in Runs.Game(s, 1).Roster() && Runs.Solved(s, 1, 0)
    && 1 in s.outboxes && TaskFinished(Pool()[0].Shown(), 0, 2) in s.outboxes[1]
  }

  lemma OutsiderHasSolved(s: State)
    requires 1 in s.outboxes
    ensures OutsiderSolved(Credited(s, 2, "g", 1, "h"))
  {
  }

  lemma OutsiderIsPrepared()
    ensures var s := Prepared(MovedOn(), 2, "g", 1, "h");
      Has(s, 2, Guest(2, "g", 1, Running(1, "", 0, [], "h"))) && Has(s, 1, Playing(1, "h", false))
  {
    MovesOn();
    Prepares(MovedOn(), 2, "g", 1, "h");
  }

  /** Bob, whose game is over, solves a task of the game that ann plays without him, and ann's own
      record is credited with it. */
  lemma OutsidersAreCredited()
    ensures exists s :: Reachable(s) && OutsiderSolved(s)
  {
    var s := Prepared(MovedOn(), 2, "g", 1, "h");
    OutsiderIsPrepared();
    IsCredited(s, 2, "g", 1, "h");
    OutsiderHasSolved(s);
    assert Reachable(Credited(s, 2, "g", 1, "h"));
  }

  // ---- a member that names another game ----------------------------------------------------

  /** Bob has read that ann hosts g; ann has gone on to host h. */
  function Overtaken(): State {
    var s := Created(EndedAlone(ReadLive(AnnHosts(), 2, "g", 1), 1, "g"), 1, "h");
    Opened(ReadEmpty(s, 1, "h"), 1, "h")
  }

  lemma Overtakes()
    ensures Has(Overtaken(), 1, Hosting(1, "h", map[])) && Has(Overtaken(), 2, Sock(2, None, SawLive("g", 1, Name(2))))
  {
    var s := ReadLive(AnnHosts(), 2, "g", 1);
    Hosted();
    ReadsLive(AnnHosts(), 2, "g", 1);
    EndsAlone(s, 1, "g");
    Rehosts(EndedAlone(s, 1, "g"));
  }

  lemma Rehosts(s: State)
    requires Has(s, 1, Resting(1)) && "h" !in s.games
    ensures Reachable(Opened(ReadEmpty(Created(s, 1, "h"), 1, "h"), 1, "h"))
  {
    Creates(s, 1, "h");
    ReadsEmpty(Created(s, 1, "h"), 1, "h");
    Opens(ReadEmpty(Created(s, 1, "h"), 1, "h"), 1, "h");
  }

  /** Bob is in the roster of ann's game h, and names her game g. */
  predicate NamesAnother(s: State) {
    && Runs.Hosts(s, 1, "h") && 2 in Runs.Game(s, 1).Roster()
    && 2 in s.clients && s.clients[2] == Guest(2, "g", 1, Idle)
  }

  lemma EntersAnother(s: State)
    requires Has(s, 2, Sock(2, None, SawLive("g", 1, Name(2)))) && Has(s, 1, Hosting(1, "h", map[]))
    ensures exists s' :: Reachable(s') && NamesAnother(s')
  {
    var s1 := Entered(s, 2, "g", 1, "h");
    Enters(s, 2, "g", 1, "h");
    Joins(s1, 2, "g", 1);
    assert Reachable(Joined(s1, 2, "g", 1)) && NamesAnother(Joined(s1, 2, "g", 1));
  }

  /** A member may name another game than the one whose roster it is in. */
  lemma MembersMayNameAnotherGame()
    ensures exists s :: Reachable(s) && NamesAnother(s)
  {
    Overtakes();
    EntersAnother(Overtaken());
  }

  // ---- a start that comes up short ---------------------------------------------------------

  /** `h` hosts a started game without records, and is about to be closed. */
  function Stalled(h: Uuid, g: GameId, roster: map<Uuid, PartialClient>): Client {
    Sock(h, Some(Types.Game(true, g, Self(h), Self(h), Some(roster), true, false, Pool())), Idle).(closing := true)
  }

  lemma StartsShort(s: State, h: Uuid, g: GameId, roster: map<Uuid, PartialClient>)
    requires Has(s, h, Hosting(h, g, roster)) && s.pool == Pool()
    ensures Reachable(Put(s, h, Stalled(h, g, roster)))
  {
    assert Chosen(Pool(), [0]) == Pool();
    assert Step(s, Start(h, Some(2), [0])).clients == s.clients[h := Stalled(h, g, roster)];
    NextIsReachable(s, Start(h, Some(2), [0]), Put(s, h, Stalled(h, g, roster)));
  }

  lemma PreparesStalled(s: State, c: Uuid, g: GameId, h: Uuid, roster: map<Uuid, PartialClient>)
    requires Has(s, c, Guest(c, g, h, Idle)) && Has(s, h, Stalled(h, g, roster)) && c != h
    ensures Reachable(Prepared(s, c, g, h, g))
  {
    var s1 := Put(s, c, Guest(c, g, h, CompileSaw(h, "", 0)));
    NextIsReachable(s, CompileRead(c, Some(("", 0))), s1);
    assert Stdins(Pool()[0].publicCases) == [];
    assert s1.clients[c := Guest(c, g, h, Running(h, "", 0, [], g))] == Prepared(s, c, g, h, g).clients;
    NextIsReachable(s1, CompilePrepare(c), Prepared(s, c, g, h, g));
  }

  /** Ann has started with bob in the roster, and asked for two tasks of a pool of one. */
  function Stuck(): State {
    Put(Paired(), 1, Stalled(1, "g", map[2 := Self(2)]))
  }

  lemma Sticks()
    ensures Has(Stuck(), 1, Stalled(1, "g", map[2 := Self(2)])) && Has(Stuck(), 2, Guest(2, "g", 1, Idle))
  {
    Pairs();
    StartsShort(Paired(), 1, "g", map[2 := Self(2)]);
  }

  predicate WithoutRecords(s: State) {
    && Runs.Hosts(s, 1, "g") && Runs.Game(s, 1).isStarted && Runs.Game(s, 1).host.progress.None?
    && 2 in Runs.Game(s, 1).Roster() && s.clients[1].closing
  }

  /** Her game is started without records, and she will be closed. */
  lemma StartsCanComeUpShort()
    ensures exists s :: Reachable(s) && WithoutRecords(s)
  {
    Sticks();
    assert Reachable(Stuck()) && WithoutRecords(Stuck());
  }

  /** Bob has a test of the task in flight in a game of ann's that has no records. */
  ghost predicate Doomed(s: State) {
    Has(s, 2, Guest(2, "g", 1, Running(1, "", 0, [], "g"))) && Has(s, 1, Stalled(1, "g", map[2 := Self(2)]))
  }

  lemma SomeAreDoomed()
    ensures exists s :: Doomed(s)
  {
    Sticks();
    PreparesStalled(Stuck(), 2, "g", 1, map[2 := Self(2)]);
    assert Doomed(Prepared(Stuck(), 2, "g", 1, "g"));
  }

  /** When he solves it before ann is closed, the record to enter it in is unwrapped in vain, and he
      is closed without an answer. */
  lemma UnwrapsCanFail(s: State)
    requires Doomed(s)
    ensures ValidateOutcome(s.clients[1].game.value, 2, 0, Quiet(), Some(Quiet())).Panicked?
    ensures var s' := DoCompileValidate(s, 2, Some(Quiet()), Some(Quiet()));
      Reachable(s') && s'.clients[2].closing && s'.outboxes == s.outboxes
  {
    QuietSolves();
    NextIsReachable(s, CompileValidate(2, Some(Quiet()), Some(Quiet())),
                    DoCompileValidate(s, 2, Some(Quiet()), Some(Quiet())));
  }
}
