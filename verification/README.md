# A shared focus room, modelled and verified in Dafny

The repository is a shared study room. A room's timer lives in Redis; any number of workers tick it and
apply browser messages to it, and fan the committed snapshots out to their sockets. The browser takes
in snapshots, celebrates finished sessions, and draws a sky and a sea.

The project models these cores and proves what they are for.

- **The timer** (`Timer`, `Controls`, `Normalize`): the jump over a gap of any length is exactly that many
  seconds of a one-second clock, in at most three rounds of its loop; what every button does to the timer
  everybody sees, from then on; which clocks are reachable, how rewards are minted, how stored documents are
  repaired and which are read back unchanged.
- **The replicated room** (`Steps`, `Replay`, `Skies`, `RoomStore`, `Tokens`, `Coroutines`, `Workers`, `Fencing`,
  `Races`, `Seconds`): every Lua script is one atomic step on keys that expire in milliseconds; every coroutine is a
  program counter that stops at each Redis call. Over all interleavings the stored states form a chain, one
  tick or one message per revision, and the timer everybody sees is the replay of the user messages alone,
  up to seconds that stale leases counted twice, which are counted exactly; the sky is the answer to the last
  committed event that asked for one. Over all commands a Redis executes, exactly the tokens issued since a
  room was created open it, and it lives exactly until the deadline of its last touch. What the
  fences do not promise is shown on runs of the workers, each time with the exact condition.
- **Fan-out** (`Connections`, `Delivery`, `Broadcasts`, `LateSends`, `EventBus`, `Convergence`, `Buses`, `Atomicity`, `Wires`,
  `Subscriptions`, `Stragglers`): what one worker sends to a socket under any interleaving at its awaits; that
  its locked sends refine sends in one step, along whole runs of the worker inside the world of all workers;
  that the event bus publishes and acts on events as that world says, every worker on the events of all others;
  and that the last frame on the wire of every socket carries the store's revision once all work is done, if
  every socket that connects finds its worker subscribed.
- **The page** (`Page`, `EndToEnd`): which snapshots are taken in and when a reward is revealed, per
  connection, and that the stars on a page are the sessions completed in Redis, frame by frame.
- **The sky** (`Celestial`, `Sun`): the night arc is continuous over the whole timeline, polar transitions
  included, if and only if no lone sunrise or sunset is orphaned; the sun's own arc is between its ends exactly
  while the sun is up.
- **The sea** (`Shore`, `Slopes`, `Corners`, `Swell`, `Surface`, `Drift`, `Predictions`, `Tangents`, `Shelf`,
  `Seaward`): hand-written derivatives are the derivatives, the limited scale's one excepted exactly where the
  limiter switches; the two analytic tangents predict every coordinate of the surface to second order; and the
  summed waves neither outgrow the water nor fold, so that the analytic normal always points up.
- **The scenes** (`Scenes`): failure marking and recovery, for every pattern of failing factories and
  callbacks: a scene is broken exactly when its factory, a callback of it or its shaders failed, and every other
  one knows the current settings.

`Common` holds an option type and two integer functions. Classes run what the program runs, statement by
statement, and are proved equal to functions on values; the theorems over runs are about those functions.

What the code does where its comments or the obvious expectation say otherwise:

- A tick can commit for a second that a message has already accounted: the lease is taken, a message stamps
  a later second, and a celestial refresh at a multiple of 30 writes the stamp backwards
  (`Replay.StaleLeaseCountsTwice`; `Races.StaleLeaseHappens` is a run of two tasks that does it). A commit
  steps back exactly when it is a tick leased for a second before the stamp it reads
  (`Fencing.OnlyOvertakenLeasesStepBack`).
- "One tick per Redis second" holds for leased seconds (`Races.CommitSecondsRise`), not for the second of the
  commit (`Races.LateTickSharesASecond`, a run). After a committed tick another one of its generation can
  follow in the same second if and only if the tick was late, and the timer still runs or the second is one
  for refreshing the sky (`Seconds.SecondTickIff`).
- The subscription check and the connection of a socket are two steps; between them the last other socket
  can take the subscription away (`Subscriptions.MissedSubscriptionStaysStale`, a run), and the new socket then
  is sent nothing until its worker subscribes again or broadcasts a commit of its own: whatever the others do
  until then (`Stragglers.CaughtUpWasWoken`), and either is enough (`Stragglers.WakingSuffices`). Nothing else
  breaks the premise of convergence (`Subscriptions.OnlyOvertakenArrivalsBreakHeld`), which holds throughout a
  run if and only if every socket that connects finds its worker subscribed
  (`Subscriptions.HeldIffArrivalsFindSubscription`).
- A send that returns after its socket has left records a revision for it all the same, in an empty room too
  (`LateSends.LateSendHappens`, a run). A record outlives its socket by such a send and in no other way
  (`LateSends.LeavesRecordIffLate`, `LateSends.LeftoverIffEverLate`); a watermark is left without a socket of
  its generation by such a send or by a broadcast whose generation has gone while it swept
  (`LateSends.StrandsMarkIff`). Convergence is proved with such sends.
- A lone sunset that no sunrise follows, or a lone sunrise that no sunset precedes, makes the night arc
  jump (`Celestial.NightArcIsSteadyIffNoOrphans`). So does a date that sees its sunset before its sunrise, next
  to polar day: its morning is counted from the sunset of the date before (`Celestial.InvertedDateJumps`).
- Where the breaking limit takes over from the wave envelope or lets go of it, the two never have the same
  slope, so the derivative written for the limited scale is right everywhere but there
  (`Corners.SmoothIffApart`).
- A scene that fails between being prepared and being activated is put on screen, unless the activation
  passes the celestial state on to it and thereby notices (`Scenes.SceneManager.ActivatePreparedScene` states
  both directions). If it is not the sky, the next request that goes to all scenes mends the screen. A broken
  sky (`Scenes.StaleSkyStays` reaches it) stays through those, because recovery looks no further once the
  active scene is the sky. It goes exactly with a switch to any scene, the sky and failed ones included, with
  the activation of something that has not failed or is noticed, and with a shader failure of the prepared sky
  (`Scenes.SceneManager.Answer`, `Scenes.StuckIffNothingMends`).
- An empty `time_override` asks the provider for the sky of now, like a null one, and yet stops the refresh at
  every half minute: the refresh goes on if and only if the override is null (`Skies.RefreshedIffNull`).
- A running session can have more time left than its duration, because `set_duration` leaves a running
  session alone (`Timer.ShortenedSessionOverruns`). It happens along a run if and only if a valid duration
  below the time left arrives in focus (`Timer.OverrunsIffShortened`).

## Model

| member | source | states |
|---|---|---|
| Timer.TimerState.Advance | backend/state.py:87-126 | the jump over any number of seconds equals that many one-second steps, takes at most three rounds, and reports a change exactly when seconds passed while the timer was advancing |
| Timer.TimerState.CompleteSession | backend/state.py:101-109 | finishing a session opens a full break, restores the duration and mints one session and one reward |
| Timer.TimerState.Handle | backend/state.py:129-182 | each browser message changes exactly what `HandleState` says (`Controls` and `Skies` say what that comes to); an unparsable date raises before anything is written |
| Timer.RunAdds | backend/state.py:87-126 | advancing by a and then by b is advancing by a + b |
| Timer.FocusRound | backend/state.py:92-110 | one round of the jump's loop in focus is exact: the rest of the session, or the whole break that follows it |
| Timer.BreakRound | backend/state.py:112-122 | one round of the jump's loop in a break is exact |
| Timer.ReachableClocksAreSound | backend/state.py:47-182 | after any messages and gaps: never focus and break together, pause only in focus, every break 600 seconds long with 1 to 600 of them left while it runs, focus remaining within 1 to 7200, idle remaining equal to the duration, durations of whole minutes up to 120, reward id equal to sessions done |
| Timer.HandleKeepsSound | backend/state.py:129-182 | every message keeps those facts |
| Timer.RunKeepsSound | backend/state.py:87-126 | every gap keeps those facts |
| Timer.MessageOverrunsIffShortened | backend/state.py:160-166 | of a clock within its duration, a message makes one with more time left than that exactly if it sets a valid duration below the time left of a focus session |
| Timer.RunKeepsWithin | backend/state.py:87-126 | no gap does |
| Timer.OverrunsIffShortened | backend/state.py:129-182 | along any messages and gaps a session ever has more time left than its duration if and only if such a message arrived |
| Timer.ShortenedSessionOverruns | backend/state.py:160-166 | start fifty minutes, set one: 3000 seconds are left of a duration of 60 |
| Timer.FuelBurns | backend/state.py:87-126 | the time until the timer rests drops by exactly the seconds advanced, down to zero |
| Timer.RestsWhenBurnt | backend/state.py:87-126 | a reachable timer is still advancing after n seconds if and only if n is less than that time |
| Timer.GapMintsAtMostOne | backend/state.py:87-110 | however long the gap, one reward and one session if the running session ends in it, none otherwise |
| Timer.RewardCountsCompletions | backend/state.py:87-174 | along any inputs, reward id and sessions grow by the number of completions; no message mints or revokes |
| Controls.PauseFlips | backend/state.py:149-152 | in focus a pause stops a running session and resumes a stopped one and changes nothing else; elsewhere it does nothing |
| Controls.PausedTwice | backend/state.py:149-152 | pressed twice in a second it changes nothing |
| Controls.PausedStands | backend/state.py:149-152 | a paused room shows the same timer in every later second |
| Controls.PauseCostsItsLength | backend/state.py:149-152 | after a pause of d seconds everybody sees the session as it would have been d seconds earlier, for good |
| Controls.CancelRests | backend/state.py:153-159 | after cancelling the room rests with its full duration until the next message |
| Controls.SkipCancelsBreaks | backend/state.py:167-174 | skipping is cancelling in a break and nothing elsewhere |
| Controls.ToggleAbandons | backend/state.py:141-148 | in focus toggling is cancelling |
| Controls.ToggleStarts | backend/state.py:141-148 | at rest or in a break it starts a full session, whose whole course is given: the session, its reward, a full break, rest |
| Controls.DurationIsSet | backend/state.py:160-166 | a duration from 1 to 120 minutes changes the duration and what an idle timer shows, and nothing else; any other value does nothing |
| Controls.MinutesUntilReward | backend/state.py:141-166 | set minutes and start: the reward comes exactly that many minutes later, and the break lasts 600 seconds |
| Controls.SkyMessagesLeaveTimer | backend/state.py:136-182 | messages about the sky, raising and unknown ones leave the timer to run on |
| Normalize.StoredDocument.NormalizeState | backend/state.py:66-84 | the field-by-field repair of any JSON document, truth values counting as integers where Python counts them |
| Normalize.NormalizedIsCanonical | backend/state.py:66-84 | the repair ends in a canonical document, changes nothing exactly when it starts in one, and is idempotent |
| Normalize.RepairsAreNearest | backend/state.py:66-84 | a repaired counter or break time is the nearest one allowed, what cannot be counted becomes zero or null, and no other field changes |
| Normalize.ReadBack | backend/state.py:66-84 | storing and reading back gives the same state if and only if break length, running break and counters are in range |
| Normalize.SoundStatesReadBack | backend/state.py:66-84 | every reachable state survives storing and reading back |
| Steps.ApplyTick | backend/scheduler.py:106-120 | the body of a tick, in place: reconcile to the leased second, refresh the sky each half minute, bump the revision if anything is to be broadcast (`Replay` and `Skies` say what that comes to over a history) |
| Steps.ApplyMessage | backend/room_service.py:262-281 | one attempt at a message, in place: reconcile, handle, restamp, detect change |
| Coroutines.MutateRoomState | backend/room_service.py:256-290 | at most eight attempts; recorded from the first Redis call to the last without a gap, its calls leave the room alone, except the last one of a success, which writes the message's effect on the snapshot that an earlier call of its own has read, for the second that a call in between has asked for, over a room still at that revision and generation; each attempt before the last had something to write and was refused because the room had moved on, and only eight of these are a conflict |
| Coroutines.TickRoom | backend/scheduler.py:78-148 | likewise recorded: a broadcast follows one fenced commit, under the lease that an earlier call of its own has taken, of the effect on the snapshot that a call in between has read; it closes the lease, every other Redis call is harmless, and a lease taken without a commit is given back last; a tick that broadcasts nothing has a call of its own that shows why: the room gone, nobody wanting it ticked, no lease to be had, nothing to broadcast, or a refused commit |
| Coroutines.TickUnderLease | backend/scheduler.py:98-148 | the part under the lease, whatever happened before it; a quiet one in a room somebody wants extends its life |
| Coroutines.HarmlessKeepsRoom | backend/room_store.py:33-68 | a harmless call changes no stored value, generation or member, and a lock only if it was free or its own |
| Replay.StoredIffItDiffers | backend/room_service.py:262-281 | after any history a message that does not raise is stored exactly when it leaves another state than the stored one |
| Replay.StampFollowsTimer | backend/scheduler.py:108-113 | after every commit a stamp is kept exactly while the timer runs, and is never later than the last event |
| Replay.MessageElapsedIsExact | backend/room_service.py:267-272 | the message path never clamps a negative elapsed time |
| Replay.TickShifts | backend/scheduler.py:108-113 | a tick leaves the timer everybody sees unchanged, except for the seconds it steps back |
| Replay.MessageLands | backend/room_service.py:262-281 | after a message everybody sees the handled timer, running on from there |
| Replay.Accounting | backend/scheduler.py:99-129 | on every history the stored timer is a replay of the messages alone, with exactly the seconds ticks stepped back counted again |
| Replay.ScheduleIndependence | backend/scheduler.py:99-129 | without stepping back, two histories with the same messages at the same seconds show the same timer, whatever ticked in between |
| Replay.StoredIsReplay | backend/room_service.py:256-290 | when no tick read a stamp later than its lease, the stored fields at second t are the replay of the messages at t |
| Replay.CreditIsSlotDifferencePlusRegress | backend/scheduler.py:108-113 | while ticks keep a timer running, credited seconds equal slot difference plus slot regress |
| Replay.StaleLeaseCountsTwice | backend/scheduler.py:108-116 | a history in which one second is counted twice; `Races.StaleLeaseHappens` is a run that commits it |
| Replay.CommitMintsAtMostOne | backend/state.py:87-110 | a commit raises the reward by at most one, exactly when a running session ends in it |
| Replay.RewardsNeverFall | backend/room_service.py:256-290 | along the revisions of a room rewards never fall, rise by at most one per revision and stay level with sessions |
| Replay.StoredIsSound | backend/room_service.py:256-290 | every stored clock is a reachable one |
| Skies.SkyIsLastAnswer | backend/scheduler.py:114-116 | on every history the override is the one of the last message that set one, and the sky is the provider's answer to the last event that asked: an override, a place on earth, or a tick of a half minute without override |
| Skies.LiveSkyIsLastAnswer | backend/state.py:136-140 | so in every live room, under every interleaving, over the events committed to it |
| Skies.RefreshedIffNull | backend/scheduler.py:114-116 | after an override the next half minute shows a new sky if and only if the override is null |
| RoomStore.RedisRoom.AcquireTickLease | backend/room_store.py:33-52 | the lease script: refused while a lease is out or for a second already done, else a lease for the current second |
| RoomStore.RedisRoom.CompleteTickLease | backend/room_store.py:55-68 | closes only the caller's own unexpired lease |
| RoomStore.RedisRoom.CommitTickState | backend/room_store.py:71-105 | writes under lease, generation and revision, moves all lifetimes together and closes the lease; otherwise changes nothing and says why |
| RoomStore.RedisRoom.CompareAndSetState | backend/room_store.py:108-130 | writes exactly when generation and revision match |
| RoomStore.RedisRoom.GetRoomSnapshot | backend/room_store.py:133-146 | state and generation of one instant, or nothing |
| RoomStore.RedisRoom.PruneExpired | backend/room_store.py:149-155 | leaves the index only when both keys are gone |
| RoomStore.RedisRoom.RefreshRoomTtl | backend/room_store.py:178-189 | extends state, metadata and tokens together |
| RoomStore.RedisRoom.CreateRoom | backend/room_store.py:192-207 | refuses an existing room or a full index, else starts a fresh generation without tokens or lease |
| RoomStore.RedisRoom.IssueRoomToken | backend/room_store.py:210-230 | adds a token for the current generation within the limit |
| RoomStore.RedisRoom.AuthorizeRoomToken | backend/room_store.py:233-258 | admits exactly the members of the current generation's set (`Tokens` says which those are) and extends the room |
| RoomStore.RoomCount | backend/room_store.py:546-561 | the loop over the index prunes exactly the expired members and counts the others |
| RoomStore.CountIsLiveRooms | backend/room_store.py:520-561 | in every reachable store that is the number of live rooms |
| RoomStore.NoHalfRoom | backend/room_store.py:98-102 | with coupled keys no instant shows half a room, and no credential outlives it |
| RoomStore.ScriptsKeepCoupled | backend/room_store.py:71-258 | every script keeps state, metadata and tokens on one expiry and never revives a room |
| RoomStore.CommandKeepsHealthy | backend/room_store.py:149-207 | creates, prunes, scripts and the passing of time keep the index within capacity and complete |
| RoomStore.CapacityAndLifetimes | backend/room_store.py:149-258 | from an empty Redis, under any race: capacity holds, live rooms are indexed, keys expire as one, at most 256 tokens, all of the current generation |
| Tokens.OpensIffIssued | backend/room_store.py:210-258 | over all commands from an empty Redis a token opens a room if and only if the room is alive in the generation asked for and a command has issued that very token since the room was created |
| Tokens.MembersAreIssued | backend/room_store.py:210-230 | the set of a live room holds exactly the tokens issued since its creation, all of its generation |
| Tokens.IssueSucceedsIff | backend/room_store.py:210-230 | issuing succeeds if and only if the room is alive in that generation and the token is issued already or fewer than 256 are |
| Tokens.NothingRevokes | backend/room_store.py:71-258 | no command takes a token from a room that stays alive |
| Tokens.OldTokensAreRefused | backend/room_store.py:192-258 | a token of another generation opens nothing, and a room just created admits nobody |
| Tokens.LivesIffBeforeDeadline | backend/room_store.py:71-258 | a room is alive exactly up to the millisecond set by the last command that created it or went through on it; leases do not extend its life |
| Workers.MatchingSnapshotIsCurrent | backend/room_store.py:108-130 | an in-flight snapshot whose generation and revision match is the stored state |
| Fencing.GoodAlways | backend/scheduler.py:99-129 | over all interleavings a live room stores the fold of the events committed to its generation, every snapshot in flight is the state of its revision, leases are fenced and calls counted |
| Fencing.StoredIsHistory | backend/room_store.py:71-130 | the stored revision k + 1 is one tick or one message applied to revision k, with nothing missing |
| Fencing.InFlightMatchesStored | backend/room_service.py:256-290 | whenever a pending commit would succeed, its base is the stored state |
| Fencing.StepChain | backend/room_store.py:71-130 | every step appends one event to the live generation, or keeps stored value and histories, or opens a generation never used before |
| Fencing.MessagesCommitAtMostOnce | backend/room_service.py:256-290 | however often it retries, a message commits at most once |
| Fencing.StoredStampAndClock | backend/room_service.py:264-278 | a live room is stamped exactly while it runs, never ahead of Redis time, and its clock is sound |
| Fencing.ReachableTimerIsReplay | backend/scheduler.py:99-129 | under every interleaving of any number of workers the live timer is the replay, with stepped-back seconds counted again |
| Fencing.RunsAgree | backend/scheduler.py:99-129 | two runs that committed the same messages in the same seconds show the same timer |
| Fencing.OnlyOvertakenLeasesStepBack | backend/scheduler.py:110-116 | a commit steps back if and only if it is a tick leased for a second before the stamp it reads; its second is then a multiple of 30 |
| Fencing.AcquireAdvances | backend/room_store.py:33-52 | a new lease is for a later second than every lease before it in the generation |
| Fencing.LeasesFence | backend/room_store.py:33-105 | leased seconds and committed ticks strictly increase, and no two tasks hold the lease at once |
| Fencing.TickCommitsUnderItsLease | backend/room_store.py:71-105 | a committing tick's lease is unexpired and is the newest one |
| Races.CommitSecondsRise | backend/room_store.py:33-105 | along every run the Redis seconds of tick commits never fall, and within a generation leased seconds strictly rise |
| Races.SameSecondMeansLate | backend/room_store.py:33-105 | along every run two ticks of a generation commit in one Redis second only if the earlier one was late |
| Races.LockIsFreeIffLate | backend/room_store.py:33-105 | right after its commit the lease script admits another tick if and only if the tick was late |
| Races.SecondTickIffLate | backend/room_store.py:33-105 | a tick that left the timer running can be followed by another in its Redis second, by some schedule, if and only if it was late |
| Seconds.SecondTickIff | backend/scheduler.py:99-129 | after any tick: if and only if it was late, and its timer runs on or the second is a multiple of 30 |
| Seconds.StepSettles | backend/room_service.py:262-281 | once a second is accounted for, no step of any task leaves anything of it to be accounted for again |
| Races.LateTickSharesASecond | backend/room_store.py:33-105 | a run of two tasks that commits the ticks of seconds 5 and 6 in Redis second 6 |
| Races.StaleLeaseHappens | backend/scheduler.py:99-129 | a run of two tasks whose log is the history of `Replay.StaleLeaseCountsTwice` |
| Races.GivingUpMeansEightCommits | backend/room_service.py:256-290 | a message that ends in a conflict has seen the history of its room grow by at least eight commits since it arrived, none of them its own |
| Connections.LocalConnectionManager.Join | backend/connection_manager.py:20-24 | a socket joins with its generation, a fresh record and a lock |
| Connections.LocalConnectionManager.Leave | backend/connection_manager.py:26-42 | a leaving socket takes its record and lock, and the watermark only if it was the last of its generation |
| Connections.LocalConnectionManager.HasConnections | backend/connection_manager.py:44-51 | whether a socket of the room, or of one generation of it, is connected |
| Connections.LocalConnectionManager.NoteStateRevision | backend/connection_manager.py:61-73 | the watermark of a generation is raised, never lowered |
| Connections.LocalConnectionManager.BeginSend | backend/connection_manager.py:75-97 | a send up to its first await: absent, mismatched, or waiting for the socket's lock |
| Connections.LocalConnectionManager.FinishSend | backend/connection_manager.py:118-132 | a completed send is recorded for socket and room |
| Connections.LocalConnectionManager.BeginBroadcast | backend/connection_manager.py:171-195 | a broadcast below the watermark is dropped, any other raises it and targets everybody connected |
| Delivery.SocketsSeeRisingRevisions | backend/connection_manager.py:75-132 | under any interleaving the revisions sent to a socket strictly increase and all carry its generation |
| Delivery.ServedSocketsAreUpToDate | backend/connection_manager.py:75-132 | a target a job is done with has been sent at least that job's revision while it stays connected |
| Atomicity.SendsAreAtomic | backend/connection_manager.py:75-132 | within a generation, in any state reached by any interleaving, each step of a sending coroutine is one step of the world in which a send is atomic, taken when the send returns or finds nothing to do, or none |
| Atomicity.FlightsKept | backend/connection_manager.py:106-131 | while a frame is on its way, nobody else records a revision for its socket |
| Atomicity.JoinMatches | backend/connection_manager.py:20-24 | joins are the same step in both |
| Atomicity.LeaveMatches | backend/connection_manager.py:26-42 | so are departures |
| Atomicity.JobMatches | backend/connection_manager.py:171-188 | and so are the beginnings of broadcasts and first sends |
| Wires.StepKeepsHolders | backend/connection_manager.py:106-165 | every lock that is taken is taken by a coroutine inside it |
| Wires.AlwaysTogether | backend/connection_manager.py:75-209 | along every run of a worker's coroutines inside the world of all workers, both are runs of their own and agree |
| Wires.LastFramesAreCurrent | backend/websocket_handler.py:49-100 | once nothing is pending anywhere, the last frame sent to every socket of the worker carries the revision the store is at |
| LateSends.LeavesRecordIffLate | backend/connection_manager.py:119-132 | a step leaves a record for a socket that is not connected if and only if it is the successful end of a transmission to a socket that has left |
| LateSends.LeftoverIffEverLate | backend/connection_manager.py:119-132 | so along every run |
| LateSends.StrandsMarkIff | backend/connection_manager.py:119-196 | a step leaves a watermark without a socket of its generation if and only if it is such an end with nobody of the generation left, or a broadcast that raises it with nobody left |
| LateSends.LateSendHappens | backend/connection_manager.py:119-132 | a run after which the room is empty and record and watermark are kept |
| Delivery.WatermarkHolds | backend/connection_manager.py:26-73 | no step lowers or removes a generation's watermark while a socket of it is connected |
| Broadcasts.WatermarkIsNewest | backend/connection_manager.py:26-73 | while a generation stays connected its watermark is the newest revision that a broadcast or a frame of it has taken up since it had none |
| Broadcasts.DroppedIffNewerTakenUp | backend/connection_manager.py:171-196 | and a broadcast of it is dropped if and only if something newer has been taken up since |
| Delivery.StepKeeps | backend/connection_manager.py:75-209 | every step of every sending coroutine keeps locks, records and wires consistent |
| EventBus.RedisStateEventBus.RememberEvent | backend/event_bus.py:217-223 | the bounded list of seen events, per room |
| EventBus.RedisStateEventBus.PublishState | backend/event_bus.py:75-90 | publishing builds the worker's own envelope and remembers it as seen |
| EventBus.RedisStateEventBus.DispatchEnvelope | backend/event_bus.py:98-126 | an event is acted on exactly when it is well-formed, foreign and unseen, and is then remembered |
| EventBus.RememberKeepsList | backend/event_bus.py:217-223 | the list stays bounded and without duplicates and holds the new event |
| EventBus.RememberedLongEnough | backend/event_bus.py:217-223 | an event stays recognised through fewer than the limit of other events |
| Buses.TakeIsDispatch | backend/event_bus.py:98-126 | an event is taken up in the world of all workers exactly when the bus accepts its envelope, and is remembered then |
| Buses.DispatchNext | backend/event_bus.py:98-126 | the bus of a worker does what the world's step does, and stays its bus |
| Buses.PublishNext | backend/event_bus.py:75-90 | what it publishes reaches the queues of exactly the subscribed workers |
| Buses.Deliver | backend/event_bus.py:75-126 | what one bus publishes another acts on if and only if it is another worker's and has not seen it |
| Buses.ActedOnIffPublishedElsewhere | backend/event_bus.py:178-191 | any envelope at all is acted on if and only if it is, field by field, one that another worker's bus publishes, and is not remembered |
| Buses.OthersAreActedOn | backend/event_bus.py:147-166 | under every interleaving a worker acts on exactly the events of the others among those that reach it |
| Convergence.PublishRemembers | backend/event_bus.py:75-90 | publishing hands the debt to other workers' sockets over to waiting events |
| Convergence.TakeRemembers | backend/event_bus.py:98-126 | taking an event turns it into a read that will pay the debt |
| Convergence.SubscribeRemembers | backend/room_service.py:314-336 | a fresh subscription owes its sockets a read of the store |
| Convergence.GreetRemembers | backend/websocket_handler.py:59-80 | the first send of a joined socket, however it ends, leaves it current or owed |
| Convergence.StepRemembers | backend/websocket_handler.py:49-123 | while subscriptions are held every step keeps every live socket current or owed |
| Convergence.QuiescentSocketsAreCurrent | backend/websocket_handler.py:49-100 | once no work is pending, every live socket on every worker has last been sent the store's revision |
| Subscriptions.HeldIffArrivalsFindSubscription | backend/websocket_handler.py:49-63 | that premise holds throughout a run if and only if every socket that connects finds its worker subscribed |
| Subscriptions.QuiescentSocketsAreCurrentIfFound | backend/websocket_handler.py:49-100 | convergence with the premise in that form |
| Subscriptions.AdmittedFindSubscription | backend/room_service.py:314-336 | whoever found the subscription ready still finds it, unless the last socket has left since |
| Subscriptions.OnlyOvertakenArrivalsBreakHeld | backend/room_service.py:373-384 | the first step that leaves a connected socket without a subscription connects one whose endpoint was overtaken by the last departure |
| Subscriptions.MissedCloses | backend/websocket_handler.py:49-63 | a run in which that happens |
| Subscriptions.MissedSubscriptionStaysStale | backend/websocket_handler.py:49-63 | and which ends with the socket behind and nothing pending anywhere |
| Stragglers.StaysForsaken | backend/event_bus.py:98-126 | a worker without subscription and work sends nothing, whatever the others do, until it subscribes or commits itself |
| Stragglers.CaughtUpWasWoken | backend/event_bus.py:98-126 | a socket of such a worker that was behind and is up to date again was preceded by one of the two |
| Stragglers.WakingSuffices | backend/room_service.py:314-336 | and after either of the two the waking task's own next steps bring it up to date |
| Stragglers.MissedIsForsaken | backend/websocket_handler.py:49-63 | the socket that missed its subscription is in that position |
| Stragglers.BoundedAlways | backend/connection_manager.py:61-73 | no watermark, record or task is ever newer than the store, subscriptions or not |
| Page.RewardTracker.Observe | frontend/src/rest-ritual.js:36-46 | what the tracker reports and remembers of any value |
| Page.RoomPage.UpdateRitual | frontend/src/rest-ritual.js:221-232 | reset, observe, decide on the reveal and on the phase shown |
| Page.RoomPage.ApplyState | frontend/app.js:76-90 | a snapshot is dropped or taken in as the revision rule says, and reveals accordingly |
| Page.RoomSocket.OnMessage | frontend/src/room-websocket.js:55-67 | messages of a superseded socket do nothing; the first one of a socket is flagged |
| Page.RoomSocket.ConnectAgain | frontend/src/room-websocket.js:23-40 | a new connection supersedes the old one and waits for its first snapshot |
| Page.ObservedIsGreatest | frontend/src/rest-ritual.js:36-46 | on a connection the tracker holds the greatest valid id accepted |
| Page.RevealedExactlyWhenRaised | frontend/src/rest-ritual.js:221-232 | a reveal happens exactly when an accepted snapshot of a break carries an id above all accepted before, of which there is one |
| Page.RevealedAtMostOnce | frontend/src/rest-ritual.js:36-53 | no id is revealed twice on a connection, and none at its first snapshot |
| Page.RevealedWhenNextIsGreater | frontend/src/rest-ritual.js:221-232 | for the snapshots of one room a reveal compares with the last accepted snapshot |
| Page.RevisionsNeverFall | frontend/app.js:76-81 | accepted revisions never fall on a connection |
| Page.RisingAreTakenIn | frontend/app.js:76-81 | snapshots that come with rising revisions are all taken in |
| Page.CelebratedWasRevealed | frontend/src/rest-ritual.js:225-231 | the celebration phase with an id shows only after that id's reveal and while the opening lasts |
| Page.UnveilingShownIff | frontend/src/rest-ritual.js:221-232 | of the snapshots taken in on a connection, one shows the unveiling if and only if the break is in its opening and the reward it carries is the one revealed last in it; a snapshot without an id, if nothing is revealed |
| Page.MissingFieldsAreStandard | frontend/src/rest-ritual.js:61-86 | a break without a length is a standard one, and one without a remaining time has what the clock shows |
| Page.PhasesInOrder | frontend/src/rest-ritual.js:65-86 | as its time runs out a break of any length goes through its phases in order, and returns in its last minute |
| Page.ConnectionsStartAfresh | frontend/app.js:77-81 | once a connection has delivered, what was accepted and observed before does not matter |
| Page.OnlyTheCurrentSocketCounts | frontend/src/room-websocket.js:23-67 | over any trace of connects and messages the page is what the current socket's snapshots make of it |
| EndToEnd.CommittedSnapshotsAgree | backend/room_service.py:256-290 | the committed states of a generation carry valid ids and revisions, and later revisions no smaller id, as the page's rule needs |
| EndToEnd.RewardMeansCompletion | backend/state.py:87-110 | rewards differ between two revisions exactly when a session was completed in between |
| EndToEnd.RevealsFollowCompletions | frontend/app.js:76-90 | under any interleaving of workers and any order of arrival, a page reveals a reward between two accepted snapshots exactly when a session was completed between their revisions and the later one is in a break |
| EndToEnd.FramesRevealCompletions | frontend/app.js:76-90 | under any interleaving of workers and of one worker's sends, every frame a socket is sent is taken in, and all but the first reveal a reward exactly when they show a break and a session was completed since the frame before |
| EndToEnd.SessionEndsOnThePage | frontend/src/rest-ritual.js:64-92 | when a session ends, the page unveils for 30 seconds of its break, returns for the last 60 and restores in between |
| Celestial.BeforeSunrise | backend/celestial.py:76-86 | the arc from midnight to sunrise continues the ramp from the previous sunset |
| Celestial.AfterSunset | backend/celestial.py:87-93 | the arc from sunset to midnight begins the ramp to the following sunrise |
| Celestial.Daytime | backend/celestial.py:94-112 | by day the arc runs back, meeting the apex next to a polar night |
| Celestial.IntoPolarDay | backend/celestial.py:51-56 | a lone sunrise leads from the horizon to the apex at midnight |
| Celestial.OutOfPolarDay | backend/celestial.py:57-61 | a lone sunset leads from the apex at midnight to the horizon |
| Celestial.NightIsOneRamp | backend/celestial.py:75-93 | one straight ramp from each sunset to the next sunrise, across midnight |
| Celestial.HorizonsAreMet | backend/celestial.py:70-115 | at every sunrise and sunset the arc is at its end, its start, or the apex next to a polar night |
| Celestial.SteadyAcross | backend/celestial.py:45-115 | between any two instants of any two dates the arc moves at most 1/g per second |
| Celestial.NightArcIsSteadyIffNoOrphans | backend/celestial.py:45-115 | the whole timeline is that continuous if and only if every lone sunrise follows a sunset and every lone sunset precedes a sunrise |
| Celestial.InvertedDateJumps | backend/celestial.py:75-93 | on a date whose sunset precedes its sunrise the arc before the sunrise heads elsewhere than where it is at the sunrise, always so if the date before had a sunset, and then no slope bounds it |
| Sun.UpIffBetweenEnds | backend/celestial.py:45-66 | on any date, polar ones included, the sun's arc is strictly between its ends exactly while the sun is up, 0 up to sunrise and 1 from sunset on |
| Sun.ForwardOverTheDate | backend/celestial.py:45-66 | over a date it never goes back and is no steeper than 1/g |
| Sun.ContinuousAtMidnightIff | backend/celestial.py:45-66 | it is continuous at midnight if and only if the sun neither set on the one date nor rises on the next |
| Shore.ClampedRemainder | frontend/src/3d/ocean-wave-model.js:44-53 | the written slope of the clamped cubic predicts it up to three times the squared step, across both clamps |
| Shore.SmoothstepIsTame | frontend/src/3d/ocean-wave-model.js:44-53 | so it is for smoothstep and its derivative between any edges |
| Shore.ProductIsTame | frontend/src/3d/ocean-wave-model.js:169-172 | the product rule, with its error bound |
| Shore.EnvelopeDerivativeIsRight | frontend/src/3d/ocean-wave-model.js:151-172 | the unlimited envelope's derivative predicts every step up to 0.025 times its square; the envelope changes by at most 0.2 per unit |
| Shore.DerivativeIsTheOnlyPrediction | frontend/src/3d/ocean-wave-model.js:169-172 | a slope predicts the envelope to second order at a distance if and only if it is the written derivative, dry land included |
| Shore.ScaleIsPredicted | frontend/src/3d/ocean-wave-model.js:173-183 | the limited scale's derivative is never exceeded by more than that, and exact to second order while the limiter does not switch |
| Corners.SmoothIffApart | frontend/src/3d/ocean-wave-model.js:173-183 | the scale's derivative predicts it to second order on both sides if and only if limit and envelope differ there: wherever they meet their slopes do not |
| Slopes.ScaleIsGentle | frontend/src/3d/ocean-wave-model.js:173-183 | the scale never changes by more than 0.082 per unit of distance, on either side of the limit |
| Shore.ScaleIsLimited | frontend/src/3d/ocean-wave-model.js:173-183 | the scale is never negative and never above the breaking limit |
| Swell.CrossNumberIsPositive | frontend/src/3d/ocean-wave-model.js:97-108 | the refracted cross-shore number keeps at least a quarter of its two limits' sum |
| Swell.RefractionDerivativeIsRight | frontend/src/3d/ocean-wave-model.js:110-119 | the depth derivative of the cross-shore number predicts any change of depth up to a square of the relative change |
| Swell.RefractionIsGentle | frontend/src/3d/ocean-wave-model.js:97-119 | over the shelving bed the cross-shore number changes by at most twice itself per unit of relative depth |
| Surface.SampleWave | frontend/src/3d/ocean-wave-model.js:211-255 | the body of the loop, local by local, adds what the specification says of one wave |
| Surface.SampleGerstnerSurface | frontend/src/3d/ocean-wave-model.js:200-260 | the loop accumulates the contribution of every wave; `Tangents` and `Seaward` say what the sums mean |
| Surface.HeightIsWithin | frontend/src/3d/ocean-wave-model.js:200-260 | the height never exceeds the waves' scaled amplitudes |
| Surface.CompressionIsShared | frontend/src/3d/ocean-wave-model.js:230-242 | the compression never exceeds the mean steepness |
| Surface.StretchIsKept | frontend/src/3d/ocean-wave-model.js:242-255 | apart from the drift of the seaward tangent no step on the surface shrinks by more than the compression, whatever its direction |
| Surface.CompressionIsLeast | frontend/src/3d/ocean-wave-model.js:246 | and for a single wave no smaller compression would do: it is the greatest share that any step loses to it |
| Surface.CrestsStayPhysical | frontend/src/3d/ocean-wave-model.js:173-260 | for the geometry waves: height within 0.34 of the depth, compression at most 0.62 |
| Drift.WaveDrift | frontend/src/3d/ocean-wave-model.js:216-253 | refraction and the changing envelope move the seaward tangent by at most 0.0614 of a wave's amplitude |
| Drift.ShearIsShared | frontend/src/3d/ocean-wave-model.js:250-254 | all drifts together shear a step by at most that share of the total amplitude |
| Drift.CrestsDoNotFold | frontend/src/3d/ocean-wave-model.js:21-35 | the tangents as returned, drift included, keep at least 0.28 of every step in its own direction under the geometry waves |
| Drift.DetailWavesDoNotFold | frontend/src/3d/ocean-wave-model.js:21-35 | and at least 0.055 of it with the detail waves |
| Drift.NormalsPointUp | frontend/src/3d/ocean-wave-model.js:242-260 | the cross product of the two tangents has a positive height everywhere |
| Predictions.ProductIsSmooth | frontend/src/3d/ocean-wave-model.js:243-256 | products of predicted values are predicted by the product rule, with bounds that do not depend on the step |
| Predictions.LengthIsSmooth | frontend/src/3d/ocean-wave-model.js:220-223 | the length of the wave vector is predicted by its direction |
| Predictions.ReciprocalIsSmooth | frontend/src/3d/ocean-wave-model.js:224-225 | so is one over it |
| Shelf.ScaleIsSmooth | frontend/src/3d/ocean-wave-model.js:173-183 | the limited scale is predicted over every step that keeps its side of the limit |
| Shelf.CrossIsSmooth | frontend/src/3d/ocean-wave-model.js:215-219 | the signed cross-shore number is predicted over every step between two places in the water |
| Seaward.DirXIsSmooth | frontend/src/3d/ocean-wave-model.js:221-224 | the direction's part along the shore is predicted by its written derivative |
| Seaward.DirZIsSmooth | frontend/src/3d/ocean-wave-model.js:222-225 | and so is its part across |
| Seaward.HorizontalIsSmooth | frontend/src/3d/ocean-wave-model.js:234-240 | the horizontal length is predicted by its written derivative, by whichever rule it goes |
| Tangents.AlongTangentPredicts | frontend/src/3d/ocean-wave-model.js:243-251 | any waves, any place: a step along the shore changes every coordinate of the surface, the height included, as the tangent says, up to the scaled amplitudes times the error of the sines |
| Seaward.SeawardTangentPredicts | frontend/src/3d/ocean-wave-model.js:243-256 | any waves, any place in the water: a step seaward changes every coordinate as the seaward tangent says, up to a multiple of its square, where no limiter switches |
| Seaward.DryLandIsFlat | frontend/src/3d/ocean-wave-model.js:151-183 | up to the swash edge the surface is flat and its tangents are the axes |
| Scenes.SceneManager.EnsureScene | frontend/src/3d/scenes/scene-manager.js:59-79 | a scene is made at most once; it is available exactly when it is known and has not failed |
| Scenes.SceneManager.Brief | frontend/src/3d/scenes/scene-manager.js:68-72 | a new scene is told every setting it asks for, as it is now, the direction of the light included once there is one, unless it throws |
| Scenes.SceneManager.Invoke | frontend/src/3d/scenes/scene-manager.js:81-90 | a failed scene is not called; a throwing one is marked and hidden |
| Scenes.SceneManager.PrepareScene | frontend/src/3d/scenes/scene-manager.js:97-109 | resolves to the requested scene or the sky and leaves the screen alone |
| Scenes.SceneManager.ActivatePreparedScene | frontend/src/3d/scenes/scene-manager.js:111-127 | from any recorded state: the screen is valid afterwards if and only if the scene had not failed since, or passing on the celestial state notices |
| Scenes.SceneManager.SwitchScene | frontend/src/3d/scenes/scene-manager.js:157-159 | from any recorded state: a valid screen showing the requested scene unless it failed, and the recursion ends |
| Scenes.SceneManager.RecoverActiveScene | frontend/src/3d/scenes/scene-manager.js:92-95 | replaces a failed active scene other than the sky by the sky and otherwise does nothing |
| Scenes.SceneManager.Update | frontend/src/3d/scenes/scene-manager.js:172-187 | a failed active scene gets no frame and stays; any other gets its frame, and if it breaks the sky gets one in the same call |
| Scenes.SceneManager.UpdateCelestial | frontend/src/3d/scenes/scene-manager.js:161-170 | every unfailed scene hears of the sky; the screen is valid afterwards if and only if it was not stuck on a broken sky |
| Scenes.SceneManager.SetLightDirection | frontend/src/3d/scenes/scene-manager.js:189-196 | tells an unfailed active scene the direction and recovers; does not heal |
| Scenes.SceneManager.SetMicaEnabled | frontend/src/3d/scenes/scene-manager.js:198-205 | tells every unfailed scene the new value; heals if and only if the screen was not stuck on a broken sky |
| Scenes.SceneManager.SetShaftsEnabled | frontend/src/3d/scenes/scene-manager.js:207-216 | does nothing for the value it has, else tells every unfailed scene the new one and heals likewise |
| Scenes.SceneManager.SetPixelRatio | frontend/src/3d/scenes/scene-manager.js:228-236 | ignores values that are not news, else tells everybody the new one and heals likewise |
| Scenes.SceneManager.SetViewportAspect | frontend/src/3d/scenes/scene-manager.js:218-226 | ignores values that are not news, else tells everybody the new one and heals likewise |
| Scenes.SceneManager.WithPreparedSceneVisibleForCompilation | frontend/src/3d/scenes/scene-manager.js:129-148 | exactly the prepared scene is visible during compilation, and the screen is as before afterwards |
| Scenes.SceneManager.MarkPreparationFailed | frontend/src/3d/scenes/scene-manager.js:150-155 | a prepared scene that was made is failed for good; the screen recovers if and only if it was not stuck on a broken sky or that scene is the sky |
| Scenes.SceneManager.Answer | frontend/src/3d/scenes/scene-manager.js:92-236 | each request keeps the screen, mends it, mends it unless the broken sky is on it, or breaks it, exactly as its kind, what is held prepared and what has failed say |
| Scenes.SceneManager.Serve | frontend/src/3d/scenes/scene-manager.js:50-239 | any run of requests, preparing and activating apart included, whatever fails: the manager stays usable, failures are kept, no broken scene is called again, every other one knows the current settings and the active one the sky; what is on screen is the result of those turns |
| Scenes.SceneManager.FailedIffSomethingFailed | frontend/src/3d/scenes/scene-manager.js:59-90 | at any time a scene is marked as failed if and only if its factory delivered nothing, a callback of it threw or its shaders were rejected |
| Scenes.FineIffMended | frontend/src/3d/scenes/scene-manager.js:92-236 | after any turns the screen is valid if and only if it has been mended since it was last broken, or never was |
| Scenes.StuckIffNothingMends | frontend/src/3d/scenes/scene-manager.js:92-127 | a broken sky stays on screen throughout a run if and only if no turn of it mends it or puts something else that is broken in its place |
| Scenes.StaleSkyStays | frontend/src/3d/scenes/scene-manager.js:92-127 | prepare the sky, break it, activate it: the broken sky is on screen and stays there through recovery, a celestial update and a frame |

## Left out

- Shore.ScaleIsPredicted: two-sided only while a step stays on one side of the breaking limit; `Corners.SmoothIffApart` says exactly where one constant serves both sides.
- Surface.StretchIsKept: the seaward tangent is taken without its drift; `Drift.CrestsDoNotFold` and `Drift.DetailWavesDoNotFold` put it back.
- Surface.SampleGerstnerSurface: the wave number, its depth derivative, sine and cosine of the phase come in with each wave.
- Seaward.SeawardTangentPredicts: between two places in the water, where neither the breaking limit nor the rule of a wave's length switches (`Corners.SmoothIffApart` says why not where it does); sine and cosine come with their own prediction error, since the phase integral is not modelled.
- Convergence.QuiescentSocketsAreCurrent: about the manager's records, and `Wires.LastFramesAreCurrent` about frames; one generation of one room, reliable Pub/Sub, distinct worker ids, no stop between commit and publish; the premise on subscriptions is the subject of `Subscriptions`.
- Convergence.StepRemembers: a send is one step; `Atomicity.SendsAreAtomic` shows that the locked sends are such steps.
- Atomicity.SendsAreAtomic: within one generation, where nothing is swept; across generations `Delivery` speaks of one worker only. `Wires.AlwaysTogether` lifts it to runs, of one worker at a time and without stopping a subscription's consumer in the middle of its sends.
- Celestial.NightArcIsSteadyIffNoOrphans: over dates whose sunrise comes first; `Celestial.InvertedDateJumps` speaks of the others.
- RoomStore.RedisRoom.AuthorizeRoomToken: without the branch that moves a token from the key of an older version into the set, because nothing in the repository writes that key any more.
- RoomStore.RoomCount: the whole count at one instant, without commands of other workers between its reads.
- EventBus.RedisStateEventBus.DispatchEnvelope: ends with the decision to act; loading the room and broadcasting it are the tasks that `Convergence.StepTake` starts.
- Delivery.SocketsSeeRisingRevisions: payloads carry a revision, as committed snapshots do; payloads without one are not modelled.
- The in-memory path without Redis: one worker, different stamping.
- `set_state`, `set_metadata`, `update_state`, `expire_empty_room`, token lookup keys of older versions: unused or transitional, and they bypass the fences.
- `room_ids`: like `RoomStore.RoomCount`, plus sorting.
- Metadata beyond the generation id, PIN hashes and attempt counters, token generation: generation ids, nonces and tokens are fresh numbers.
- Redis outages: a worker that stops at any point (`Workers.Stop`); no partial scripts.
- A creation time and a creating worker's choice of room id: any create of any room at any time.
- Astral, the sky gradient, rounding of percentages: events are an arbitrary calendar, the provider's answer about the sky is a number.
- The date parser and provider calls inside `handle`: their answers travel with the message.
- `time_override` values that are not strings: not part of this model.
- Sines, square roots and lengths in the sea: numbers with their defining property; phase integrals and finite-depth frequency are not modelled.
- The order in which a manager visits its scenes and the texts of failure reports: visits are in any order.
- Scene callbacks that call back into the manager: not part of this model.
- Rendering in the page, storage, the chime, reconnect delays; an exception while rendering would leave a socket's first-snapshot flag up.
- Uniqueness of a reveal across reconnects: a late broadcast can reach a new socket before its first snapshot, so it is not promised.
- HTTP routes, static files, engine, shaders, post-processing, lobby: no state worth a model.
