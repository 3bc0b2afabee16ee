/** What holds in every reachable state, with requests interleaved at every lock release. */
module Invariant {
  import opened Types
  import opened GameRules
  import opened Protocol

  // ---- vocabulary --------------------------------------------------------------------------

  /** The part a client plays. A guest is linked to its host from the moment it is registered,
      a host is committed to its game from the moment it has claimed the key. */
  datatype Part =
    | Free
    | Claiming(gameId: GameId)
    | Hosting(gameId: GameId, members: set<Uuid>)
    | Linked(host: Uuid, gameId: GameId)

  function PartOf(cl: Client): Part {
    if cl.game.Some? then
      var g := cl.game.value;
      if g.isHost then Hosting(g.gameId, g.Roster().Keys) else Linked(g.host.id, g.gameId)
    else
      match cl.pc
      case Claimed(g) => Claiming(g)
      case Registered(g, h, _, _, accepted, _) => if accepted then Linked(h, g) else Free
      case _ => Free
  }

  function Parts(s: State): map<Uuid, Part> {
    map c | c in s.clients :: PartOf(s.clients[c])
  }

  predicate IsHost(s: State, h: Uuid) {
    h in s.clients && s.clients[h].game.Some? && s.clients[h].game.value.isHost
  }

  function Nicknames(roster: map<Uuid, PartialClient>): map<Uuid, string> {
    map d | d in roster :: roster[d].nickname
  }

  /** The roster that a client keeps as a host. */
  function RosterOf(cl: Client): map<Uuid, PartialClient> {
    if cl.game.Some? && cl.game.value.isHost then cl.game.value.Roster() else map[]
  }

  /** The copy of its host that a linked client keeps. */
  function HostCopy(cl: Client): Option<PartialClient> {
    if cl.game.Some? then
      if cl.game.value.isHost then None else Some(cl.game.value.host)
    else
      match cl.pc
      case Registered(_, h, nick, ch, accepted, _) => if accepted then Some(NewPartial(h, nick, ch)) else None
      case _ => None
  }

  /** `p` carries the id, nickname and channel of the live socket `c`. */
  predicate TrueCopy(p: PartialClient, c: Uuid, cl: Client) {
    p.id == c && p.isLocal && p.writeChannel == Some(cl.channel) && cl.nickname == Some(p.nickname)
  }

  predicate InJoin(pc: Pc) {
    pc.SawEmpty? || pc.SawLive? || pc.Claimed? || pc.Registered?
  }

  ghost predicate FullProgress(p: PartialClient, count: nat) {
    p.progress.Some? && forall i: nat :: i in p.progress.value <==> i < count
  }

  // ---- the invariant -----------------------------------------------------------------------

  /** Every socket has its own channel. */
  ghost predicate WiringOk(s: State) {
    && (forall c :: c in s.clients ==> c in s.ids && s.clients[c].channel in s.outboxes)
    && (forall c, d :: c in s.clients && d in s.clients && c != d
          ==> s.clients[c].channel != s.clients[d].channel)
  }

  /** Claims are made by identified clients on created games; an unclaimed key was never claimed. */
  ghost predicate HistoryOk(s: State) {
    && (forall h, g :: (h, g) in s.claims ==>
          h in s.ids && g in s.games && (h in s.clients ==> s.clients[h].nickname.Some?))
    && (forall g :: g in s.directory ==> g in s.games)
    && (forall h, g :: (h, g) in s.claims && g in s.directory ==> s.directory[g].Live?)
  }

  /** A live key names a client that hosts the game, or has claimed it and is about to install it. */
  ghost predicate EntriesOk(parts: map<Uuid, Part>, directory: map<GameId, Entry>) {
    forall g :: g in directory && directory[g].Live? ==>
      var h := directory[g].host;
      h in parts && (parts[h].Claiming? || parts[h].Hosting?) && parts[h].gameId == g
  }

  /** Whoever hosts or is about to has claimed the game. Whoever is linked names an earlier claim,
      and is in the roster when that very game is hosted. */
  ghost predicate LinksOk(parts: map<Uuid, Part>, claims: set<(Uuid, GameId)>) {
    forall c :: c in parts ==>
      && (parts[c].Claiming? || parts[c].Hosting? ==> (c, parts[c].gameId) in claims)
      && (parts[c].Linked? ==>
            var h, g := parts[c].host, parts[c].gameId;
            && h != c && (h, g) in claims
            && (h in parts ==>
                  parts[h] != Claiming(g) && (parts[h].Hosting? && parts[h].gameId == g ==> c in parts[h].members)))
  }

  /** Whoever is in a roster is connected and linked to the host of that roster. */
  ghost predicate RostersOk(parts: map<Uuid, Part>) {
    forall h, d :: h in parts && parts[h].Hosting? && d in parts[h].members ==>
      d in parts && parts[d].Linked? && parts[d].host == h
  }

  /** The shape of the game object of `c`, with true copies of its owner. */
  ghost predicate GameOk(c: Uuid, cl: Client, g: Game) {
    && !InJoin(cl.pc) && !cl.pc.Closed?
    && TrueCopy(g.me, c, cl)
    && (g.isHost <==> g.connected.Some?)
    && g.host.isLocal && g.host.writeChannel.Some?
    && (g.isStarted ==> g.isHost)
    && (g.isStarted <==> !g.public)
    && (!g.isStarted ==> g.host.progress.None?)
    && (g.isHost ==> TrueCopy(g.host, c, cl))
  }

  /** A started game has complete progress maps. Only a start that came up short leaves none at all,
      and it has its host closed. */
  ghost predicate ProgressOk(cl: Client, g: Game) {
    g.isStarted && (!cl.closing || g.host.progress.Some?) ==>
      && FullProgress(g.host, |g.tasks|)
      && forall d :: d in g.Roster() ==> FullProgress(g.Roster()[d], |g.tasks|)
  }

  /** The local variables of a request in flight. */
  ghost predicate PcOk(c: Uuid, cl: Client, claims: set<(Uuid, GameId)>, games: set<GameId>) {
    && (!cl.pc.Idle? && !cl.pc.Closed? ==> !cl.closing)
    && (InJoin(cl.pc) ==> cl.nickname.Some?)
    && (cl.pc.SawEmpty? ==> cl.pc.gameId in games && (c, cl.pc.gameId) !in claims)
    && (cl.pc.SawLive? ==>
          cl.pc.host != c && (cl.pc.host, cl.pc.gameId) in claims && cl.nickname == Some(cl.pc.nickname))
    && (cl.pc.Registered? ==> cl.nickname == Some(cl.pc.nickname))
    && (cl.pc.Replying? ==> cl.pc.reply.CompileResponse? || cl.pc.reply.ErrorMessage?)
  }

  ghost predicate ClientOk(c: Uuid, cl: Client, claims: set<(Uuid, GameId)>, games: set<GameId>) {
    && PcOk(c, cl, claims, games)
    && (cl.game.Some? ==> GameOk(c, cl, cl.game.value) && ProgressOk(cl, cl.game.value))
  }

  ghost predicate ClientsOk(s: State) {
    forall c :: c in s.clients ==> ClientOk(c, s.clients[c], s.claims, s.games)
  }

  /** The copies in every roster are true. */
  ghost predicate RosterCopiesOk(s: State) {
    forall h, d :: h in s.clients && d in RosterOf(s.clients[h]) ==>
      d in s.clients && TrueCopy(RosterOf(s.clients[h])[d], d, s.clients[d])
  }

  /** The copy of a host is true while the host is connected. */
  ghost predicate HostCopiesOk(s: State) {
    forall c :: c in s.clients && HostCopy(s.clients[c]).Some? ==>
      var p := HostCopy(s.clients[c]).value;
      p.id in s.clients ==> TrueCopy(p, p.id, s.clients[p.id])
  }

  /** Directory, claims, rosters and pointers agree. */
  ghost predicate PartsOk(parts: map<Uuid, Part>, directory: map<GameId, Entry>, claims: set<(Uuid, GameId)>) {
    EntriesOk(parts, directory) && LinksOk(parts, claims) && RostersOk(parts)
  }

  ghost predicate Inv(s: State) {
    && WiringOk(s) && HistoryOk(s) && PartsOk(Parts(s), s.directory, s.claims)
    && ClientsOk(s) && RosterCopiesOk(s) && HostCopiesOk(s)
  }

  // ---- steps that change one client but not its part ---------------------------------------

  ghost predicate SameCopies(a: map<Uuid, PartialClient>, b: map<Uuid, PartialClient>) {
    a.Keys == b.Keys && forall d :: d in a ==> b[d] == a[d].(progress := b[d].progress)
  }

  /** `y` may take the place of `x` without anyone else noticing. */
  ghost predicate Replaces(x: Client, y: Client) {
    && y.channel == x.channel && (x.nickname.Some? ==> y.nickname == x.nickname)
    && PartOf(y) == PartOf(x)
    && SameCopies(RosterOf(x), RosterOf(y))
    && (HostCopy(y).Some? ==> HostCopy(y) == HostCopy(x))
    && (x.game.Some? && x.game.value.isStarted ==>
          y.game.Some? && y.game.value.isStarted && y.game.value.tasks == x.game.value.tasks)
  }

  ghost predicate Frame(s: State, s': State) {
    && s'.ids == s.ids && s'.games == s.games && s'.claims == s.claims
    && s'.outboxes.Keys == s.outboxes.Keys
    && s'.directory.Keys <= s.directory.Keys
    && forall g :: g in s'.directory ==> s'.directory[g] == s.directory[g]
  }

  lemma ReplaceKeepsShared(s: State, s': State, c: Uuid, y: Client)
    requires WiringOk(s) && HistoryOk(s) && c in s.clients && EntriesOk(Parts(s), s.directory)
    requires Frame(s, s') && s'.clients == s.clients[c := y] && Replaces(s.clients[c], y)
    ensures WiringOk(s') && HistoryOk(s') && Parts(s') == Parts(s) && EntriesOk(Parts(s'), s'.directory)
  {
  }

  lemma ReplaceKeepsCopies(s: State, s': State, c: Uuid, y: Client)
    requires RosterCopiesOk(s) && HostCopiesOk(s) && c in s.clients
    requires s'.clients == s.clients[c := y] && Replaces(s.clients[c], y)
    ensures RosterCopiesOk(s') && HostCopiesOk(s')
  {
    forall h, d | h in s'.clients && d in RosterOf(s'.clients[h])
      ensures d in s'.clients && TrueCopy(RosterOf(s'.clients[h])[d], d, s'.clients[d])
    {
      assert d in RosterOf(s.clients[h]);
    }
  }

  lemma ReplaceKeeps(s: State, s': State, c: Uuid, y: Client)
    requires Inv(s) && c in s.clients
    requires Frame(s, s') && s'.clients == s.clients[c := y] && Replaces(s.clients[c], y)
    requires ClientOk(c, y, s.claims, s.games)
    ensures Inv(s')
  {
    ReplaceKeepsShared(s, s', c, y);
    ReplaceKeepsCopies(s, s', c, y);
  }
}
