# Grass: the lobby and competition protocol, and the grading of tests

Grass is a websocket server for live coding competitions. Every participant, host or guest, owns a
game object. The host's holds the roster, the phase and the tasks; a guest's only points at the host;
and a `GAME:<id>` key in Redis names the host. Three copies of one fact are kept in step by nothing
but the order of effects in the request handlers and in the destructor of the game object, while the
requests of different clients interleave wherever a handler gives up a lock.

This project models that protocol and the grading of tests, and proves what holds in every reachable state,
with the interleaving as it is, and what holds in addition when requests do not interleave.

## Layout

| file | content |
|---|---|
| Types.dfy | sockets, games, tasks, keys, messages |
| Grader.dfy | grading as loops, its verdict position by position, and the sort |
| GameRules.dfy | what each operation of a game computes, on values |
| Objects.dfy | the game, channels and keys as objects updated in place, against GameRules |
| Protocol.dfy | the server as a state machine: one action for each locked region of a handler |
| Server.dfy | sockets and handlers as objects updated in place, against Protocol |
| Invariant.dfy, Preservation.dfy | what every reachable state satisfies, and why every step keeps it |
| Views.dfy | what clients make of the events they are sent |
| Lobby.dfy | a simple lobby machine, and the refinement |
| Runs.dfy | properties of whole interleaved runs |
| Delivery.dfy | who receives what, and the frame of a grading |
| Effects.dfy | what each step sends to each client and changes for it, message by message and field by field |
| Atomic.dfy | runs with one request at a time: the directory is a bijection |
| Records.dfy | who is credited |
| Findings.dfy, Names.dfy, Scenarios.dfy | where the code falls short, exactly when, and runs that show it |

`Server.Service.Perform` ties the objects to the state machine: performing a stage on the objects takes
`Abs()` to `Step(Abs(), a)`. All statements about states and runs therefore speak about the objects.

## Assumptions

- There is one shard. Redis and channel sends succeed while the peer is connected.
- `Create` draws ids that were never used, and fresh sockets have fresh ids and channels.
- `choose_multiple` returns tasks at distinct positions, as many as asked for or all there are (`ValidPicks`).
- The answer of the sandbox is arbitrary, and so is whether it comes; it comes within 50 seconds.
- A locked region is atomic, including the lookup of the host inside the destructor of a guest's game.
  A handler's last message is sent in the region before it, except for Compile, whose answer is a step
  of its own. The look at the host and the deletion of the key are one step in Join and in Exists: a host
  that is gone does not come back under the same id, and one without a game stays locked meanwhile.
- A client has at most one request in flight, because its read loop awaits each handler.
- The order in which the roster is walked for a newcomer is a parameter of the step (`order`).
- Missing or unparsable request data is `None`: the parse error and the failed unwrap of the source
  alike end the read loop without a message.
- The library sort is a stable insertion by id.

The state carries three history variables that the source does not have: every client id that ever
connected, every game id ever created, and every claim ever made. `Running` records the game that a
test was prepared in. None of them decides a branch.

A client's view of a game is the fold of the connect and disconnect events of that game that it was
sent, taken up afresh whenever it is told that its game is over: by LeaveResponse when it has left as a
guest, by ShutdownResponse when it has left as a host, by the Shutdown event when its host has left.
`Runs.ViewConvergence` and `Runs.StrangersKnowNobody` are about this view, for every connected client and
every game id, however requests interleave.

## What the code does where its intent may differ

- `start` closes the phase and sets `is_started` before it counts the chosen tasks. A start that asks
  for too many leaves a started game without records until its host is closed
  (`Scenarios.StartsCanComeUpShort`; exactly such starts do, `Runs.RecordsMissingByShortStart`). Solving a
  task in it meanwhile fails an unwrap (`Scenarios.UnwrapsCanFail`; exactly then, `Delivery.PanicsWithoutRecord`).
- `validate_code_test` takes the host's record whenever the game object is the host's, which it always
  is. This behaviour is modelled: the host is credited with whatever anybody solves, and the records of
  members stay blank for ever (`Records.MemberRecordsStayBlank`). Nothing is claimed about the version
  that credits the submitter.
- A guest keeps its pointer when its host leaves. If the host goes on to another game, tests of the
  former guest are graded there (`Scenarios.OutsidersAreCredited`); the requests do not compare the ids
  that would tell: the solver takes part if and only if they agree, with one request at a time
  (`Records.SolversTakePartByGame`) and in every run without a registration of the last kind below
  (`Names.SolversTakePartByGame`).
- Join reads the key in one region and claims, or registers, in another. Two joins can both claim, and
  a game then has two hosts (`Scenarios.TwoHosts`; exactly by such claims, `Findings.SecondHostExactlyByClaim`).
  The steps at which keys and hosts part are exactly those of `Findings.Misfires`: claims or deletions of
  a key that names somebody (`Findings.KeysBreakExactlyByMisfires`); deletions are shown by
  `Scenarios.JoinsCanDeleteLiveKeys` and `Scenarios.ExistsCanDeleteLiveKeys`. What survives all of them is
  in Runs.dfy.
- Join does not compare the id of the host's current game with the requested one, so with interleaving
  a member may name another game than the one whose roster it is in (`Scenarios.MembersMayNameAnotherGame`).
  Exactly such registrations make it so (`Names.NamesPartExactlyElsewhere`, and over runs
  `Names.MembersNameTheirGame`); with one request at a time there are none. The claims of Runs.dfy about
  rosters are stated without the guest's game id.

## Model

| member | source | states |
|---|---|---|
| Grader.Partition | src/service/websocket/client/game.rs:230-264 | The outputs are split in order: the matching ones are the true verdicts, the others the false ones; surplus outputs, and nothing else, are an error; all cases are matched if and only if every output is its case's expected text |
| Grader.BuildReport | src/service/websocket/client/game.rs:267-294 | Listing the matches as failed, marking that prefix and appending the failures gives the stable sort by id of matches followed by failures |
| Grader.CountPrivate | src/service/websocket/client/game.rs:334-365 | The count of private matches reaches the number of cases if and only if every output matches; surplus outputs are an error |
| Grader.JoinLines | src/service/websocket/client/game.rs:226 | The error text is the concatenation of the lines |
| Grader.GradeRun | src/service/websocket/client/game.rs:202-392 | The loops of the two phases compute Grade, whose answers are those of FailedRunAnswers, FailedPhaseAnswers, PassedPhaseAnswers, DoneExactly and RefusedExactly |
| Grader.ReportIsSortedPermutation | src/service/websocket/client/game.rs:267-294 | The report of a failed public phase is sorted by id, has exactly the per-output verdicts, and keeps matches before failures among equal ids |
| Grader.ReportIsPointwise | src/service/websocket/client/game.rs:230-304 | With strictly increasing case ids the report is, position by position, (id, matched, output without its newline, expected) |
| Grader.ReportIsHonest | src/service/websocket/client/game.rs:230-304 | Every entry of a report is marked as succeeded exactly when its output is its expected text |
| Grader.SortSorts | src/service/websocket/client/game.rs:293-294 | The sort puts ids in order and keeps the length |
| Grader.SortPermutes | src/service/websocket/client/game.rs:293-294 | The sort loses and invents nothing |
| Grader.SortIsStable | src/service/websocket/client/game.rs:293-294 | The sort keeps the order of entries with equal ids |
| Grader.GradeVerdict | src/service/websocket/client/game.rs:219-391 | A grading is done if and only if both runs succeed and match everywhere; exactly which runs are refused; what the flags and entries of an answer mean |
| Grader.ChompTrims | src/service/websocket/client/game.rs:234-236 | Exactly one trailing newline is taken off, if there is one |
| Grader.MatchesAllExpected | src/service/websocket/client/game.rs:233-267 | A phase passes if and only if there are as many outputs as cases and each, but for one trailing newline, is the expected text |
| Grader.FailedPhaseAnswers | src/service/websocket/client/game.rs:266-304 | The answer to a failed public phase: one entry (case id, matched, output without one newline, expected) for each output, sorted by id and stable, position by position when ids increase; and the first line of stderr |
| Grader.EntriesExist | src/service/websocket/client/game.rs:266-291 | There are such entries for any outputs without surplus |
| Grader.PassedPhaseAnswers | src/service/websocket/client/game.rs:306-365 | The answer once the public phase has passed: every case by position with its expected text, and the stderr that belongs to the private run |
| Grader.FailedRunAnswers | src/service/websocket/client/game.rs:219-228 | A failed run answers with its whole stderr and no entries |
| Grader.JoinConcatenates | src/service/websocket/client/game.rs:226 | The whole stderr is its lines put together |
| Grader.DoneExactly | src/service/websocket/client/game.rs:219-391 | A task is done if and only if both runs succeed and each output of both is what its case expects |
| Grader.RefusedExactly | src/service/websocket/client/game.rs:233-353 | A grading is an error if and only if a phase that is reached has surplus outputs, or the private run cannot be made |
| Objects.Network.SendMessage | src/service/websocket/client/game/partial_client.rs:50-67 | A local client gets the message appended to its channel, a remote one gets nothing |
| Objects.Game.constructor | src/service/websocket/client/game.rs:81-103 | A new game is open and unstarted, and has a roster exactly when it is a host's |
| Objects.Game.SendGlobal | src/service/websocket/client/game.rs:514-562 | Walking the roster in any order and then the host appends one copy to the channel of everyone outside the skip list, and nothing elsewhere; a guest's game sends nothing |
| Objects.Game.SendRoster | src/service/websocket/client/game.rs:527-546 | The part of a broadcast that goes to the roster |
| Objects.Game.Register | src/service/websocket/client/game.rs:425-484 | Only an open host game admits: the newcomer is told of the roster and the host, everyone is told of the newcomer, and it enters the roster; otherwise nothing changes |
| Objects.Game.Unregister | src/service/websocket/client/game.rs:487-511 | A member is removed and those who stay are told once; for anybody else, or on a guest's game, nothing changes |
| Objects.Game.Shutdown | src/service/websocket/client/game.rs:565-605 | Each member is told once, the roster is cleared, the key goes, the host is answered |
| Objects.Game.Start | src/service/websocket/client/game.rs:106-162 | The game and the outboxes become what Effects.StartSetsTasks, StartTellsEveryone, ShortStartTellsNobody and StartAgainHangsUp say of them |
| Objects.Game.BlankProgress | src/service/websocket/client/game.rs:142-149 | A record with exactly the task indices, all false |
| Objects.Game.GiveProgress | src/service/websocket/client/game.rs:133-139 | Every member gets the record and is otherwise unchanged |
| Objects.Game.GetTaskIndexed | src/service/websocket/client/game.rs:416-422 | A task is found exactly when the game is started and the index is in range; the two reasons for not finding it are kept apart |
| Objects.Game.PrepareCodeTest | src/service/websocket/client/game.rs:164-180 | The inputs of the public cases, in order (as Effects.PrepareRunsTheInputs says), exactly when the game is a host's and has the task |
| Objects.Game.ValidateCodeTest | src/service/websocket/client/game.rs:193-392 | The graded answer, error or panic; the one record entry that a solved task sets; the TaskFinished event to everyone but the solver; and no other change |
| Server.ReachableIsSound | src/service/websocket/client/game.rs:89 | In every state that keeps the invariant each unwrapped roster and channel is there, and participants do not share channels |
| Server.SocketClient.constructor | src/service/websocket/client.rs:47-56 | A fresh socket has no nickname and no game |
| Server.Service.JoinRead | src/service/websocket/client/game/models/request.rs:59-120 | First region of a join: the errors in the order of the checks, or what the key said |
| Server.Service.JoinClaim | src/service/websocket/client/game/models/request.rs:124-135 | The key is overwritten with the client, whatever it says by then |
| Server.Service.JoinRegister | src/service/websocket/client/game/models/request.rs:177-231 | The host's game is asked to register the client; a host that is gone, or has no game, gets the key deleted and the request failed |
| Server.Service.JoinInstall | src/service/websocket/client/game/models/request.rs:137-271 | The host's or guest's game is installed and the join answered; a refused guest gets no game |
| Server.Service.Leave | src/service/websocket/client/game/models/request.rs:293-309 | The game is taken and dropped, or the error is sent |
| Server.Service.Start | src/service/websocket/client/game/models/request.rs:310-340 | A guest that starts a game loses it; a host's start that fails closes the host |
| Server.Service.Task | src/service/websocket/client/game/models/request.rs:341-398 | The step that Effects.TaskIsShown describes: the task as shown, or the error that the state of the host calls for |
| Server.Service.CompileRead | src/service/websocket/client/game/models/request.rs:399-416 | The host is looked up in the client's own game, and remembered |
| Server.Service.CompilePrepare | src/service/websocket/client/game/models/request.rs:418-451 | The inputs to run, or the error that will be sent |
| Server.Service.CompileValidate | src/service/websocket/client/game/models/request.rs:453-504 | The host's game, as it is by now, grades; a sandbox failure closes the client without a message |
| Server.Service.CompileReply | src/service/websocket/client/game/models/request.rs:506-520 | The step that Effects.ReplyIsSent describes: the answer or error goes out, and an error closes the client |
| Server.Service.Identify | src/service/websocket/client/game/models/request.rs:532-556 | A nickname is set once; a second request is refused and changes nothing |
| Server.Service.Create | src/service/websocket/client/game/models/request.rs:557-579 | The key of a new game is set, unclaimed |
| Server.Service.ExistsRead | src/service/websocket/client/game/models/request.rs:580-590 | What the key said is remembered |
| Server.Service.ExistsAnswer | src/service/websocket/client/game/models/request.rs:590-620 | A key whose host is gone is deleted, whoever it names by then, and the game reported as missing |
| Server.Service.Connect | src/service/websocket.rs:65-70 | A socket is entered under its id with an empty channel |
| Server.Service.Close | src/service/websocket/client.rs:71-76 | The game is taken and dropped |
| Server.Service.Remove | src/service/websocket.rs:202-203 | The socket is removed |
| Server.Service.EndHosted | src/service/websocket/client/game.rs:622-626 | Dropping a host's game shuts it down and deletes its key |
| Server.Service.LeaveJoined | src/service/websocket/client/game.rs:627-642 | Dropping a guest's game unregisters it from whatever game its host has now, and says goodbye |
| Server.Service.DropGameOf | src/service/websocket/client/game.rs:618-645 | Dropping a game does the one or the other |
| Server.Service.Perform | src/service/websocket/client/game/models/request.rs:50-626 | Every stage of every request, done on the objects, is the step of the state machine, meets every unwrap but one, and keeps the invariant |
| Preservation.InitialOk | src/service.rs:112-124 | A server without sockets and keys satisfies the invariant |
| Preservation.StepKeeps | src/service/websocket/client/game/models/request.rs:58-625 | The invariant on keys, claims, rosters, pointers, copies, phases, records and requests in flight is inductive under any interleaving |
| Views.AudienceIsExact | src/service/websocket/client/game.rs:514-562 | A live channel is in the audience of a game exactly when its client is in the roster or is the host, and is not skipped; no host is in its own roster |
| Views.RegisterSends | src/service/websocket/client/game.rs:432-469 | Exactly which messages a registration puts on the channel of every connected client |
| Views.LeaveSends | src/service/websocket/client/game.rs:627-642 | Exactly which messages the leaving of a guest puts on the channel of every connected client |
| Views.NewcomerSees | src/service/websocket/client/game.rs:432-456 | The view of a newcomer becomes what it was, overlaid with everyone in the game |
| Views.NewcomerSeesNoOther | src/service/websocket/client/game.rs:432-456 | Its views of other games are unchanged |
| Views.EndSends | src/service/websocket/client/game.rs:573-602 | Exactly which messages the ending of a hosted game puts on the channel of every connected client |
| Views.StepKeepsViews | src/service/websocket/client/game.rs:425-511 | Folding the connect and disconnect events, afresh whenever a game is over, gives exactly the others in the game for host and members, and nobody for everybody else, after every step if it does before |
| Lobby.StepRefines | src/service/websocket/client/game/models/request.rs:59-504 | Every step is allowed as, and has exactly the effect of, one event on the lobbies, or none |
| Lobby.NextFreezes | src/service/websocket/client/game.rs:113-124 | Once a lobby plays, members only leave, the tasks stay, and solved tasks only grow |
| Lobby.DropRefines | src/service/websocket/client/game.rs:618-645 | Dropping a game ends the lobby of a host, removes a member, or does nothing to anybody |
| Lobby.RegisterRefines | src/service/websocket/client/game/models/request.rs:183-231 | A registration is one client joining one open lobby, or nothing |
| Lobby.StartRefines | src/service/websocket/client/game/models/request.rs:310-340 | A start begins or stalls the lobby, or is a guest leaving, or nothing |
| Lobby.ValidateRefines | src/service/websocket/client/game/models/request.rs:469-504 | A grading adds one solved task to one lobby, or nothing |
| Runs.RunIsOk | src/service/websocket/client/game/models/request.rs:58-625 | The invariant and the views hold in every state of every run |
| Runs.RosterSoundness | src/service/websocket/client/game/models/request.rs:183-256 | A rostered client is connected, is not the host, is a guest of that host or between register and install, and is in no other roster |
| Runs.PointerCompleteness | src/service/websocket/client/game/models/request.rs:234-256 | A guest whose host hosts the very game it names is in the roster |
| Runs.NoDanglingEntry | src/service/websocket/client/game/models/request.rs:108-138 | A live key names a connected client that hosts the game or has claimed it and not yet installed it |
| Runs.CachedCopiesAreTrue | src/service/websocket/client/game/models/request.rs:139-154 | Every copy of a participant carries the id, nickname and channel of the live socket |
| Runs.ViewConvergence | src/service/websocket/client/game.rs:425-511 | In every interleaved run: host and members have been told of exactly the others in the game, by live nicknames |
| Runs.StrangersKnowNobody | src/service/websocket/client/game.rs:573-642 | Everybody else, free, in another game, or a guest whose host has left, knows nobody in the game |
| Runs.ProgressShape | src/service/websocket/client/game.rs:117-149 | A started game has complete records for the host and every member, whether or not its host is closing for some reason, unless there is none for the host; then it is closing |
| Runs.StartDecidesRecords | src/service/websocket/client/game.rs:117-149 | A start decides the tasks for as long as the game is hosted, and records are missing throughout if and only if it asked for more tasks than there are |
| Runs.RecordsMissingByShortStart | src/service/websocket/client/game.rs:117-131 | Every started game was opened by such a start, and lacks records if and only if that start was short |
| Runs.GradedAsPrepared | src/service/websocket/client/game/models/request.rs:418-504 | A test in flight was made by an earlier step from a task of the game it names; if the host still hosts that game, its tasks are the same, expected texts included |
| Runs.HostedInOnePiece | src/service/websocket/client/game/models/request.rs:124-157 | No client hosts the same game twice |
| Runs.FrozenCompetition | src/service/websocket/client/game.rs:113-124 | Between any two moments at which a started game is hosted: no newcomers, the same tasks, no solved task lost |
| Runs.AnnouncedTasksWereSolved | src/service/websocket/client/game.rs:374-381 | Every channel holds exactly as many copies of a TaskFinished event as there were gradings that solved that task by that solver in a game of which the owner of the channel was another participant |
| Runs.SuccessIsJustified | src/service/websocket/client/game.rs:374-381 | So behind every TaskFinished event there is an earlier grading that matched every expected output of that task |
| Runs.TasksFixedAtStart | src/service/websocket/client/game.rs:113-124 | The tasks of a started game are the ones that an earlier start of it chose |
| Runs.RecordedTasksWereSolved | src/service/websocket/client/game.rs:367-372 | Behind every true entry of a host's record there is an earlier grading that solved that task of those tasks |
| Delivery.BroadcastReachesEachOnce | src/service/websocket/client/game.rs:514-562 | In every reachable state a broadcast appends one copy for every participant outside the skip list, none for anybody else |
| Delivery.BroadcastReachesNobodyElse | src/service/websocket/client/game.rs:514-562 | ... nor on any other channel |
| Delivery.TeardownIsComplete | src/service/websocket/client/game.rs:565-626 | A host that leaves or closes: one Shutdown event to each member, one answer to the host, nothing to others, the key and the roster gone |
| Delivery.CreditedWhenSolved | src/service/websocket/client/game.rs:367-372 | A task is credited exactly when there is a record and both runs match everywhere |
| Delivery.UnsolvedChangesNothing | src/service/websocket/client/game.rs:199-365 | A grading that errors or is not done changes no game, key or outbox |
| Delivery.SolvedChangesOneEntry | src/service/websocket/client/game.rs:367-391 | A solved one sets one entry of the host's record and tells everyone in the game but the solver, once |
| Delivery.PanicsWithoutRecord | src/service/websocket/client/game.rs:368-372 | The record is unwrapped in vain if and only if a solved task has no record to go to, and then the host is closing |
| Delivery.ShortStart | src/service/websocket/client/game.rs:117-131 | A first start leaves a started game without records, and closes the host, if and only if more tasks are asked for than there are |
| Delivery.InstallOverwritesNothing | src/service/websocket/client/game/models/request.rs:137-256 | A client that is about to install a game has none, and has a nickname |
| Effects.ClosingOnlyCloses | src/service/websocket/client.rs:131-135 | A client whose request has ended in an error makes no other step than to close |
| Effects.MalformedIsRefused | src/service/websocket/client.rs:150-162 | A message that is no model is refused with an error, one that is no request without; both close the client |
| Effects.PingIsAnswered | src/service/websocket/client/game/models/request.rs:522-531 | Ping is answered, to its client alone |
| Effects.IdentifyTakesOnce | src/service/websocket/client/game/models/request.rs:532-556 | The first nickname is taken, a second refused without closing; nobody else is concerned |
| Effects.CreateOpensKey | src/service/websocket/client/game/models/request.rs:557-579 | The key is new and unclaimed, and its id is told to the creator alone |
| Effects.ExistsReads | src/service/websocket/client/game/models/request.rs:580-590 | What is remembered of the key, absence included |
| Effects.ExistsAnswers | src/service/websocket/client/game/models/request.rs:590-620 | False exactly when there was no key or its host is gone; the key is deleted exactly in the second case |
| Effects.ConnectAdds | src/service/websocket.rs:65-70 | A new socket has no name, no game and nothing sent, and changes nobody else |
| Effects.RemoveTakesOnlyItself | src/service/websocket.rs:202-203 | A socket that is removed has no game any more, and only it goes |
| Effects.JoinReads | src/service/websocket/client/game/models/request.rs:59-120 | Each error of a join exactly when it is due, in order, and otherwise what the key said |
| Effects.ClaimTakesKey | src/service/websocket/client/game/models/request.rs:124-135 | The key names the claimer, and nothing else changes |
| Effects.OpenGameAdmits | src/service/websocket/client/game/models/request.rs:183-213 | An open game of the host that was read gets the newcomer as a member, with its id, nickname and channel and no record; nothing else changes |
| Effects.NewcomerIsIntroduced | src/service/websocket/client/game.rs:432-456 | The newcomer is sent each member, in the order walked, and then the host, by id and nickname |
| Effects.NewcomerIsAnnounced | src/service/websocket/client/game.rs:458-469 | The host and each member are told of the newcomer once, and nobody else of anything |
| Effects.ClosedGameTurnsAway | src/service/websocket/client/game/models/request.rs:183-213 | A started game, or a guest's, admits nobody; nobody is told anything |
| Effects.MissingHostHangsUp | src/service/websocket/client/game/models/request.rs:214-229 | A host that is gone or has no game: the key is deleted and the client closed without a message |
| Effects.InstallMakesHost | src/service/websocket/client/game/models/request.rs:137-168 | The claimer gets an open game of its own, without members or tasks, and is told that it hosts |
| Effects.InstallMakesGuest | src/service/websocket/client/game/models/request.rs:233-271 | Who was admitted gets a game that points at the host and is told success; who was not gets none and is told failure |
| Effects.LeaveWithoutGame | src/service/websocket/client/game/models/request.rs:297-302 | Leaving nothing is refused |
| Effects.CloseWithoutGame | src/service/websocket/client.rs:71-76 | Closing without a game concerns nobody else |
| Effects.GuestLeaves | src/service/websocket/client/game.rs:627-642 | A guest that leaves or closes is out of the roster that has it, those who stay are told once, it is told goodbye, and nothing else changes |
| Effects.HostLeaves | src/service/websocket/client/game.rs:622-626 | A host that leaves or closes has no game, its key is gone, and no other client is changed |
| Effects.StartSetsTasks | src/service/websocket/client/game.rs:117-149 | A start with enough tasks: they are those at the chosen positions of the pool, as many as asked for; the phase is closed; host and members have records of exactly them, all false; nothing else changes |
| Effects.StartTellsEveryone | src/service/websocket/client/game.rs:151-158 | Host and each member are told of the start once, and nobody else of anything |
| Effects.ShortStartTellsNobody | src/service/websocket/client/game.rs:117-131 | A start with too few tasks sets them, tells nobody, and closes the host |
| Effects.StartAgainHangsUp | src/service/websocket/client/game.rs:112-115 | A second start changes no game, tells nobody, and closes the host |
| Effects.StartWithoutGame | src/service/websocket/client/game/models/request.rs:312-316 | Starting nothing is refused |
| Effects.GuestStartLeaves | src/service/websocket/client/game/models/request.rs:317-327 | A guest that starts has left its game, and is told so and refused |
| Effects.ShownIsPublic | src/service/websocket/client/game/task.rs:7-21 | A task is shown with its id, question and public cases |
| Effects.TaskIsShown | src/service/websocket/client/game/models/request.rs:341-398 | The task with the index asked for, field by field, or each error exactly when it is due; to its client alone |
| Effects.CompileRemembers | src/service/websocket/client/game/models/request.rs:399-416 | Host, code and index are remembered as they are |
| Effects.PrepareRunsTheInputs | src/service/websocket/client/game/models/request.rs:418-451 | The code goes to the sandbox with the stdin of each public case of the task, in order, exactly when the host hosts a started game that has it; otherwise the error that is due is pending |
| Effects.ValidateAnswersTheGrade | src/service/websocket/client/game/models/request.rs:469-504 | The grade of the host's task is the pending answer, whether solved or not, or the error that is due is |
| Effects.SolvedChangesRecord | src/service/websocket/client/game.rs:367-372 | A solved task changes one entry of the host's record and where the request is |
| Effects.SandboxFailureHangsUp | src/service/websocket/client/game/models/request.rs:453-467 | A sandbox that fails closes the client without a message |
| Effects.ReplyIsSent | src/service/websocket/client/game/models/request.rs:506-520 | The pending answer is sent, to its client alone, and an error closes it |
| Effects.AnswersComeThrough | src/service/websocket/client/game/models/request.rs:469-520 | In every run, whatever a grading answers is exactly what its client is sent when it replies, whatever steps of others fall between |
| Atomic.AtomicStepKeeps | src/service/websocket/client/game/models/request.rs:58-625 | With one request at a time keys, hosts, claims and pointers stay in step |
| Atomic.DirectoryBijection | src/service/websocket/client/game/models/request.rs:107-157 | A key names a client if and only if that client hosts the game or is about to; each game has at most one host |
| Atomic.JoinFindsItsHost | src/service/websocket/client/game/models/request.rs:214-229 | The cleanups of Join are never reached |
| Atomic.ExistsIsRight | src/service/websocket/client/game/models/request.rs:580-611 | Exists answers true exactly for unclaimed and hosted games, and deletes nothing |
| Atomic.MembersNameTheirGame | src/service/websocket/client/game/models/request.rs:234-256 | A client is in the roster if and only if it is linked to that host by the id of that game |
| Atomic.RefinesGames | src/service/websocket/client/game/models/request.rs:59-504 | The server refines a map from game ids to a host and its lobby; every step opens, ends or changes at most one game |
| Records.MemberRecordsStayBlank | src/service/websocket/client/game.rs:207-217 | In no reachable state has a member of a roster a finished task in its own record |
| Records.SolversTakePart | src/service/websocket/client/game/models/request.rs:402-412 | Whoever is credited is the host, a member, or points at a game of that host that is over for good |
| Records.SolversTakePartByGame | src/service/websocket/client/game/models/request.rs:402-412 | With one request at a time it takes part if and only if its own game carries the id of the graded one |
| Findings.KeysBreakExactlyByMisfires | src/service/websocket/client/game/models/request.rs:132-135 | While every host is named by its key, the next step breaks that if and only if it claims or deletes a key that is live |
| Findings.KeysNameHostsUntilMisfire | src/service/websocket/client/game/models/request.rs:107-157 | In an interleaved run without such steps the directory is a bijection |
| Findings.CommitmentComes | src/service/websocket/client/game/models/request.rs:124-157 | Whoever hosts a game or is about to did so before the step, or has just claimed it after reading its key as unclaimed |
| Findings.SecondHostExactlyByClaim | src/service/websocket/client/game/models/request.rs:124-157 | While each game has at most one host or claimer, the next step breaks that if and only if it claims a game that somebody else hosts or is about to host |
| Findings.OneHostUntilSecondClaim | src/service/websocket/client/game/models/request.rs:124-157 | In an interleaved run each game has at most one host until such a claim |
| Names.NamesPartExactlyElsewhere | src/service/websocket/client/game/models/request.rs:183-204 | While every member is linked by the id of the game that has it, the next step breaks that if and only if it registers a client with another game of its host than it has asked for |
| Names.MembersNameTheirGame | src/service/websocket/client/game/models/request.rs:183-256 | In an interleaved run without such a registration a client is in the roster if and only if it is linked to that host by the id of that game |
| Names.SolversTakePartByGame | src/service/websocket/client/game/models/request.rs:402-412 | In such a run whoever is credited takes part if and only if its own game carries the id of the graded one |
| Names.NeverElsewhereAtomically | src/service/websocket/client/game/models/request.rs:107-204 | With one request at a time there is no such registration |
| Scenarios.TwoHosts | src/service/websocket/client/game/models/request.rs:107-157 | A run in which two clients host the same game |
| Scenarios.JoinsCanDeleteLiveKeys | src/service/websocket/client/game/models/request.rs:214-220 | A run in which a join that comes between claim and install deletes the key, and the game is hosted without one |
| Scenarios.ExistsCanDeleteLiveKeys | src/service/websocket/client/game/models/request.rs:599-604 | A run in which Exists deletes the key of a host that has come after the one it read |
| Scenarios.MembersMayNameAnotherGame | src/service/websocket/client/game/models/request.rs:183-256 | A run in which a client registers with the next game of its host, and names the one before |
| Scenarios.StartsCanComeUpShort | src/service/websocket/client/game.rs:117-131 | A run in which a game is started without records |
| Scenarios.SomeAreDoomed | src/service/websocket/client/game/models/request.rs:402-444 | A run in which a member of such a game has a test in flight |
| Scenarios.UnwrapsCanFail | src/service/websocket/client/game.rs:367-372 | When it solves the task, the record is unwrapped in vain, and it is closed without an answer |
| Scenarios.OutsidersAreCredited | src/service/websocket/client/game/models/request.rs:402-504 | A run in which a client that is not in a game solves its task, and the host is credited |

## Left out

- The websocket handshake, TCP, the write task and the bounded channel capacity: a channel is the sequence of messages sent on it.
- The Redis pool and its failures, `SOCKET:USER` keys, pub/sub, gRPC, JSON, TOML and environment loading.
- The 50 second timeout branch of `on_message`: it clones the socket, whose destructor then acts while the original still holds its game.
- More than one shard: `shard_id`, the other-shard branch of Join, and remote clients, whose copies get no messages here.
- Hello, ForcedDisconnection, Timeout and websocket Ping and Pong frames, and logging and profiling.
- The `shutdown` and `performed_safe_shutdown` flags: nothing that is modelled reads them.
- Liveness, deadlock and the internals of the concurrent map.
- The wording of errors: each text that is sent is a constructor of `Reason`; errors that are only logged are left out.
- Random choice: game ids and task picks are parameters of the steps.
- Server.Service.Perform: does not model concurrency inside a region; the stages of different clients are interleaved between regions only.
