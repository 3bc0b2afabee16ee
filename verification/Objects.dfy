/** The objects of the server as they are updated in place, each method against the function
    that specifies it. */
module Objects {
  import opened Types
  import opened GameRules
  import Grader

  /** The write channels: what was sent on each. */
  class Network {
    var out: Outboxes

    constructor ()
      ensures out == map[]
    {
      out := map[];
    }

    method Send(channel: Channel, m: Message)
      modifies this
      ensures out == Post(old(out), channel, m)
    {
      if channel in out {
        out := out[channel := out[channel] + [m]];
      }
    }

    /** `PartialClient::send_message`; the channel of a local client is unwrapped. */
    method SendMessage(p: PartialClient, m: Message)
      requires p.isLocal ==> p.writeChannel.Some?
      modifies this
      ensures out == Deliver(old(out), p, m)
    {
      if p.isLocal {
        Send(p.writeChannel.value, m);
      }
    }
  }

  /** The `GAME:<id>` keys. */
  class Redis {
    var keys: map<GameId, Entry>

    constructor ()
      ensures keys == map[]
    {
      keys := map[];
    }
  }

  lemma PostOnceAdds(out: Outboxes, channels: set<Channel>, ch: Channel, m: Message)
    requires ch !in channels
    ensures PostOnce(out, channels + {ch}, m) == Post(PostOnce(out, channels, m), ch, m)
  {
  }

  lemma PostOnceNobody(out: Outboxes, m: Message)
    ensures PostOnce(out, {}, m) == out
  {
  }

  /** Every participant of the game can be sent to, each on a channel of its own. */
  ghost predicate Separate(g: Types.Game) {
    && Reachable(g.host) && g.host.id !in g.Roster()
    && (forall c :: c in g.Roster() ==> Reachable(g.Roster()[c]) && g.Roster()[c].writeChannel != g.host.writeChannel)
    && (forall c, d :: c in g.Roster() && d in g.Roster() && c != d ==>
          g.Roster()[c].writeChannel != g.Roster()[d].writeChannel)
  }

  /** Progress does not matter to who is sent what. */
  lemma SameAudience(g: Types.Game, g': Types.Game)
    requires g'.isHost == g.isHost && g.connected.Some? && g'.connected.Some?
    requires g'.host == g.host.(progress := g'.host.progress)
    requires g'.Roster().Keys == g.Roster().Keys
    requires forall c :: c in g.Roster() ==> g'.Roster()[c] == g.Roster()[c].(progress := g'.Roster()[c].progress)
    ensures Separate(g) ==> Separate(g')
    ensures Audience(g', {}) == Audience(g, {})
  {
    assert RosterChannels(g', {}) == RosterChannels(g, {});
  }

  class Game {
    const isHost: bool
    const gameId: GameId
    const me: PartialClient
    var host: PartialClient
    var connected: Option<map<Uuid, PartialClient>>
    var isStarted: bool
    var public: bool
    var tasks: seq<GameTask>
    const net: Network
    const redis: Redis

    ghost function Value(): Types.Game
      reads this
    {
      Types.Game(isHost, gameId, me, host, connected, isStarted, public, tasks)
    }

    constructor (isHost: bool, gameId: GameId, me: PartialClient, host: PartialClient, net: Network, redis: Redis)
      ensures Value() == NewGame(isHost, gameId, me, host)
      ensures this.net == net && this.redis == redis
    {
      this.isHost := isHost;
      this.gameId := gameId;
      this.me := me;
      this.host := host;
      this.connected := if isHost then Some(map[]) else None;
      this.isStarted := false;
      this.public := true;
      this.tasks := [];
      this.net := net;
      this.redis := redis;
    }

    /** One after the other through the roster, in any order, then the host. */
    method SendGlobal(m: Message, skip: set<Uuid>)
      requires isHost ==> connected.Some? && Separate(Value())
      modifies net
      ensures net.out == GameRules.SendGlobal(old(net.out), Value(), m, skip)
    {
      if !isHost {
        return;
      }
      var roster := connected.value;
      SendRoster(m, skip);
      if host.id !in skip {
        ghost var sent := RosterChannels(Value(), skip);
        assert host.writeChannel.value !in sent;
        PostOnceAdds(old(net.out), sent, host.writeChannel.value, m);
        net.SendMessage(host, m);
      }
    }

    method SendRoster(m: Message, skip: set<Uuid>)
      requires isHost && connected.Some? && Separate(Value())
      modifies net
      ensures net.out == PostOnce(old(net.out), RosterChannels(Value(), skip), m)
    {
      var roster := connected.value;
      var left := roster.Keys;
      ghost var sent: set<Channel> := {};
      PostOnceNobody(net.out, m);
      while left != {}
        invariant left <= roster.Keys
        invariant sent == set c | c in roster && c !in left && c !in skip :: roster[c].writeChannel.value
        invariant net.out == PostOnce(old(net.out), sent, m)
        decreases left
      {
        var c :| c in left;
        if c !in skip {
          assert roster[c].writeChannel.value !in sent;
          PostOnceAdds(old(net.out), sent, roster[c].writeChannel.value, m);
          net.SendMessage(roster[c], m);
          sent := sent + {roster[c].writeChannel.value};
        }
        left := left - {c};
      }
      assert sent == RosterChannels(Value(), skip);
    }

    method Register(p: PartialClient, order: seq<Uuid>) returns (ok: bool)
      requires isHost ==> connected.Some? && Separate(Value())
      requires Walks(order, Value().Roster().Keys)
      requires Reachable(p)
      modifies this, net
      ensures ok == Admits(old(Value()))
      ensures Value() == RegisterGame(old(Value()), p)
      ensures net.out == RegisterOut(old(Value()), old(net.out), p, order)
    {
      if !isHost || !public {
        return false;
      }
      for i := 0 to |order|
        invariant Value() == old(Value())
        invariant net.out == DeliverAll(old(net.out), p, Introductions(Value(), order[..i]))
      {
        var c := order[i];
        assert order[..i + 1][..i] == order[..i];
        ghost var ms := Introductions(Value(), order[..i]);
        assert Introductions(Value(), order[..i + 1]) == ms + [ConnectedClient(gameId, c, connected.value[c].nickname)];
        assert (ms + [ConnectedClient(gameId, c, connected.value[c].nickname)])[..|ms|] == ms;
        net.SendMessage(p, ConnectedClient(gameId, c, connected.value[c].nickname));
      }
      assert order[..|order|] == order;
      net.SendMessage(p, ConnectedClient(gameId, host.id, host.nickname));
      SendGlobal(ConnectedClient(gameId, p.id, p.nickname), {});
      connected := Some(connected.value[p.id := p]);
      return true;
    }

    method Unregister(c: Uuid)
      requires isHost ==> connected.Some? && Separate(Value())
      modifies this, net
      ensures Value() == UnregisterGame(old(Value()), c)
      ensures net.out == UnregisterOut(old(Value()), old(net.out), c)
    {
      if isHost && c in connected.value {
        connected := Some(connected.value - {c});
        SendGlobal(DisconnectedClient(gameId, c), {});
      }
    }

    /** Everyone is told, the roster is cleared, the key deleted, and the host answered. */
    method Shutdown()
      requires isHost && connected.Some? && Separate(Value())
      modifies this, net, redis
      ensures Value() == old(Value()).(connected := Some(map[]))
      ensures net.out == ShutdownOut(old(Value()), old(net.out))
      ensures redis.keys == old(redis.keys) - {gameId}
    {
      SendRoster(ShutdownEvent, {});
      connected := Some(map[]);
      redis.keys := redis.keys - {gameId};
      net.SendMessage(host, ShutdownResponse(true));
    }

    method Start(pool: seq<GameTask>, count: nat, picks: seq<nat>) returns (ok: bool)
      requires isHost ==> connected.Some? && Separate(Value())
      requires ValidPicks(pool, count, picks)
      modifies this, net
      ensures ok == StartSucceeds(old(Value()), Chosen(pool, picks), count)
      ensures Value() == StartGame(old(Value()), Chosen(pool, picks), count)
      ensures net.out == StartOut(old(Value()), old(net.out), Chosen(pool, picks), count)
    {
      if !isHost || isStarted {
        return false;
      }
      public := false;
      isStarted := true;
      tasks := Chosen(pool, picks);
      if |tasks| != count {
        return false;
      }
      var blank := BlankProgress(|tasks|);
      GiveProgress(blank);
      host := host.(progress := Some(blank));
      ghost var was := old(Value()).Roster();
      assert connected.value == map c | c in was :: was[c].(progress := Some(NothingDone(count)));
      SameAudience(old(Value()), Value());
      SendGlobal(StartEvent(count), {});
      return true;
    }

    /** A progress map with every task unfinished. */
    static method BlankProgress(count: nat) returns (m: map<nat, bool>)
      ensures m == NothingDone(count)
    {
      m := map[];
      for i := 0 to count
        invariant m == NothingDone(i)
      {
        m := m[i := false];
      }
    }

    method GiveProgress(blank: map<nat, bool>)
      requires isHost && connected.Some?
      modifies this`connected
      ensures connected == Some(map c | c in old(connected.value) :: old(connected.value)[c].(progress := Some(blank)))
    {
      ghost var was := connected.value;
      var left := connected.value.Keys;
      while left != {}
        invariant connected.Some? && connected.value.Keys == was.Keys && left <= was.Keys
        invariant forall c :: c in was ==>
          connected.value[c] == if c in left then was[c] else was[c].(progress := Some(blank))
        decreases left
      {
        var c :| c in left;
        connected := Some(connected.value[c := connected.value[c].(progress := Some(blank))]);
        left := left - {c};
      }
      assert connected.value == map c | c in was :: was[c].(progress := Some(blank));
    }

    method GetTaskIndexed(index: nat) returns (found: TaskLookup)
      ensures found.NotStarted? <==> !isStarted
      ensures found.OutOfRange? <==> isStarted && index >= |tasks|
      ensures found.Found? <==> HasTask(Value(), index)
      ensures found.Found? ==> found.task == tasks[index]
    {
      if isStarted {
        found := if index < |tasks| then Found(tasks[index]) else OutOfRange;
      } else {
        found := NotStarted;
      }
    }

    /** The stdin of the public cases. */
    method PrepareCodeTest(index: nat) returns (stdin: Option<seq<string>>)
      ensures stdin.Some? <==> isHost && HasTask(Value(), index)
      ensures stdin.Some? ==> stdin.value == Stdins(tasks[index].publicCases)
    {
      if !isHost {
        return None;
      }
      var found := GetTaskIndexed(index);
      if !found.Found? {
        return None;
      }
      var gathered: seq<string> := [];
      for i := 0 to |found.task.publicCases|
        invariant gathered == Stdins(found.task.publicCases)[..i]
      {
        gathered := gathered + [found.task.publicCases[i].stdin];
      }
      return Some(gathered);
    }

    method ValidateCodeTest(solver: Uuid, index: nat, run: SandboxResponse, privateRun: Option<SandboxResponse>)
      returns (o: Outcome)
      requires isHost ==> connected.Some? && Separate(Value())
      modifies this, net
      ensures o == ValidateOutcome(old(Value()), solver, index, run, privateRun)
      ensures Value() == ValidateGame(old(Value()), solver, index, run, privateRun)
      ensures net.out == ValidateOut(old(Value()), old(net.out), solver, index, run, privateRun)
    {
      var found := GetTaskIndexed(index);
      if !found.Found? {
        return Failed;
      }
      if !isHost {
        if connected.None? {
          return Panicked;
        } else if solver !in connected.value {
          return Failed;
        }
      }
      var graded := Grader.GradeRun(found.task, index, run, privateRun);
      if graded.Refused? {
        return Failed;
      }
      if !graded.response.isDone {
        return Answer(graded.response);
      }
      var progress := if isHost then host.progress else connected.value[solver].progress;
      if progress.None? {
        return Panicked;
      }
      if isHost {
        host := host.(progress := Some(progress.value[index := true]));
      } else {
        var member := connected.value[solver].(progress := Some(progress.value[index := true]));
        connected := Some(connected.value[solver := member]);
      }
      SendGlobal(TaskFinished(found.task.Shown(), index, solver), {solver});
      return Answer(graded.response);
    }
  }
}
