/** What the operations of `Game` compute, as functions on a game and the outboxes. */
module GameRules {
  import opened Types
  import Grader

  // ---- sending -----------------------------------------------------------------------------

  function Post(out: Outboxes, channel: Channel, m: Message): (r: Outboxes)
    ensures r.Keys == out.Keys
  {
    if channel in out then out[channel := out[channel] + [m]] else out
  }

  /** `PartialClient::send_message`: only a local client has a channel here. */
  function Deliver(out: Outboxes, p: PartialClient, m: Message): (r: Outboxes)
    ensures r.Keys == out.Keys
  {
    if p.isLocal && p.writeChannel.Some? then Post(out, p.writeChannel.value, m) else out
  }

  function DeliverAll(out: Outboxes, p: PartialClient, ms: seq<Message>): (r: Outboxes)
    ensures r.Keys == out.Keys
  {
    if ms == [] then out
    else Deliver(DeliverAll(out, p, ms[..|ms| - 1]), p, ms[|ms| - 1])
  }

  /** One copy of `m` on each of `channels`, and nothing anywhere else. */
  function PostOnce(out: Outboxes, channels: set<Channel>, m: Message): (r: Outboxes)
    ensures r.Keys == out.Keys
  {
    map ch | ch in out :: if ch in channels then out[ch] + [m] else out[ch]
  }

  predicate Reachable(p: PartialClient) {
    p.isLocal && p.writeChannel.Some?
  }

  function RosterChannels(g: Game, skip: set<Uuid>): set<Channel> {
    set c | c in g.Roster() && c !in skip && Reachable(g.Roster()[c]) :: g.Roster()[c].writeChannel.value
  }

  /** The roster and the host, without the skipped ids. */
  function Audience(g: Game, skip: set<Uuid>): set<Channel> {
    RosterChannels(g, skip)
    + if g.host.id !in skip && Reachable(g.host) then {g.host.writeChannel.value} else {}
  }

  function SendGlobal(out: Outboxes, g: Game, m: Message, skip: set<Uuid>): (r: Outboxes)
    ensures r.Keys == out.Keys
  {
    if g.isHost && g.connected.Some? then PostOnce(out, Audience(g, skip), m) else out
  }

  // ---- construction ------------------------------------------------------------------------

  function NewPartial(id: Uuid, nickname: string, channel: Channel): PartialClient {
    PartialClient(id, nickname, true, Some(channel), None)
  }

  function NewGame(isHost: bool, gameId: GameId, me: PartialClient, host: PartialClient): Game {
    Game(isHost, gameId, me, host, if isHost then Some(map[]) else None, false, true, [])
  }

  // ---- register, unregister, shutdown ------------------------------------------------------

  /** The order in which a hash map happens to be walked. */
  ghost predicate Walks(order: seq<Uuid>, keys: set<Uuid>) {
    && (forall c :: c in order <==> c in keys)
    && forall i, j :: 0 <= i < j < |order| ==> order[i] != order[j]
  }

  function Introductions(g: Game, order: seq<Uuid>): seq<Message>
    requires forall c :: c in order ==> c in g.Roster()
  {
    if order == [] then []
    else
      var last := order[|order| - 1];
      Introductions(g, order[..|order| - 1]) + [ConnectedClient(g.gameId, last, g.Roster()[last].nickname)]
  }

  predicate Admits(g: Game) {
    g.isHost && g.public
  }

  /** Introduce the roster and the host to the newcomer, the newcomer to everyone, then enter it. */
  function RegisterOut(g: Game, out: Outboxes, p: PartialClient, order: seq<Uuid>): (r: Outboxes)
    requires Walks(order, g.Roster().Keys)
    ensures r.Keys == out.Keys
  {
    if !Admits(g) then out
    else
      var out1 := DeliverAll(out, p, Introductions(g, order));
      var out2 := Deliver(out1, p, ConnectedClient(g.gameId, g.host.id, g.host.nickname));
      SendGlobal(out2, g, ConnectedClient(g.gameId, p.id, p.nickname), {})
  }

  function RegisterGame(g: Game, p: PartialClient): Game {
    if !Admits(g) then g else g.(connected := Some(g.Roster()[p.id := p]))
  }

  function UnregisterGame(g: Game, c: Uuid): Game {
    if g.isHost && c in g.Roster() then g.(connected := Some(g.Roster() - {c})) else g
  }

  function UnregisterOut(g: Game, out: Outboxes, c: Uuid): (r: Outboxes)
    ensures r.Keys == out.Keys
  {
    if g.isHost && c in g.Roster()
    then SendGlobal(out, UnregisterGame(g, c), DisconnectedClient(g.gameId, c), {})
    else out
  }

  function ShutdownOut(g: Game, out: Outboxes): (r: Outboxes)
    ensures r.Keys == out.Keys
  {
    Deliver(PostOnce(out, RosterChannels(g, {}), ShutdownEvent), g.host, ShutdownResponse(true))
  }

  // ---- start -------------------------------------------------------------------------------

  /** `choose_multiple`: distinct positions of the pool, as many as asked for or all of them. */
  predicate ValidPicks(pool: seq<GameTask>, count: nat, picks: seq<nat>) {
    && |picks| == (if count < |pool| then count else |pool|)
    && (forall i :: 0 <= i < |picks| ==> picks[i] < |pool|)
    && forall i, j :: 0 <= i < j < |picks| ==> picks[i] != picks[j]
  }

  function Chosen(pool: seq<GameTask>, picks: seq<nat>): seq<GameTask>
    requires forall i :: 0 <= i < |picks| ==> picks[i] < |pool|
  {
    seq(|picks|, i requires 0 <= i < |picks| => pool[picks[i]])
  }

  function NothingDone(count: nat): (m: map<nat, bool>)
    ensures forall i: nat :: i in m <==> i < count
    ensures forall i :: i in m ==> !m[i]
  {
    if count == 0 then map[] else NothingDone(count - 1)[count - 1 := false]
  }

  /** The phase is closed and the tasks are set even when too few tasks could be chosen;
      only the progress maps are then missing. */
  function StartGame(g: Game, tasks: seq<GameTask>, count: nat): Game {
    if !g.isHost || g.isStarted then g
    else
      var g1 := g.(public := false, isStarted := true, tasks := tasks);
      if |tasks| != count then g1
      else
        var blank := Some(NothingDone(count));
        g1.(connected := Some(map c | c in g.Roster() :: g.Roster()[c].(progress := blank)),
            host := g.host.(progress := blank))
  }

  predicate StartSucceeds(g: Game, tasks: seq<GameTask>, count: nat) {
    g.isHost && !g.isStarted && |tasks| == count
  }

  function StartOut(g: Game, out: Outboxes, tasks: seq<GameTask>, count: nat): (r: Outboxes)
    ensures r.Keys == out.Keys
  {
    if StartSucceeds(g, tasks, count) then SendGlobal(out, g, StartEvent(count), {}) else out
  }

  // ---- tests -------------------------------------------------------------------------------

  function Stdins(cases: seq<TestCase>): seq<string> {
    seq(|cases|, i requires 0 <= i < |cases| => cases[i].stdin)
  }

  predicate HasTask(g: Game, index: nat) {
    g.isStarted && index < |g.tasks|
  }

  /** The two ways in which a task is not there, kept apart as the source does. */
  datatype TaskLookup = Found(task: GameTask) | OutOfRange | NotStarted

  datatype Outcome = Answer(response: CompilationResponse) | Failed | Panicked

  /** Whose record the source credits: the host's own, whoever submitted, because the game
      object is the host's; the roster branch is taken only by a game that has no roster. */
  function CreditedProgress(g: Game, solver: Uuid): Option<map<nat, bool>> {
    if g.isHost then g.host.progress
    else if solver in g.Roster() then g.Roster()[solver].progress else None
  }

  function ValidateOutcome(g: Game, solver: Uuid, index: nat, run: SandboxResponse,
                           privateRun: Option<SandboxResponse>): Outcome
  {
    if !HasTask(g, index) then Failed
    else if !g.isHost && g.connected.None? then Panicked
    else if !g.isHost && solver !in g.Roster() then Failed
    else
      match Grader.Grade(g.tasks[index], index, run, privateRun)
      case Refused => Failed
      case Graded(r) =>
        // a missing progress map is unwrapped
        if r.isDone && CreditedProgress(g, solver).None? then Panicked else Answer(r)
  }

  predicate Credits(g: Game, solver: Uuid, index: nat, run: SandboxResponse,
                    privateRun: Option<SandboxResponse>)
  {
    var o := ValidateOutcome(g, solver, index, run, privateRun);
    o.Answer? && o.response.isDone
  }

  function Credit(g: Game, solver: Uuid, index: nat): Game
    requires CreditedProgress(g, solver).Some?
  {
    var progress := Some(CreditedProgress(g, solver).value[index := true]);
    if g.isHost then g.(host := g.host.(progress := progress))
    else g.(connected := Some(g.Roster()[solver := g.Roster()[solver].(progress := progress)]))
  }

  function ValidateGame(g: Game, solver: Uuid, index: nat, run: SandboxResponse,
                        privateRun: Option<SandboxResponse>): Game
  {
    if Credits(g, solver, index, run, privateRun) then Credit(g, solver, index) else g
  }

  function ValidateOut(g: Game, out: Outboxes, solver: Uuid, index: nat, run: SandboxResponse,
                       privateRun: Option<SandboxResponse>): (r: Outboxes)
    ensures r.Keys == out.Keys
  {
    if Credits(g, solver, index, run, privateRun)
    then SendGlobal(out, g, TaskFinished(g.tasks[index].Shown(), index, solver), {solver})
    else out
  }
}
