# Tetonic workspace and engine models

Dafny models of the parts of Tetonic whose correctness does not show in any one function: the map and motion
state machines of the browser workspace, its two layout engines, the engine's incremental stream decoders, the
guarded protocols around remote results, egress and the browser connection, and the preload flock's spatial index.
Verify everything with `dafny verify dfyconfig.toml`.

How the model is built:

- State that the source updates in place is a class here, and each of its methods is proved to compute a function of
  the old state. What the source promises is proved of those functions: for all inputs, all runs, all interleavings.
- Coordinates and times are exact reals; box coordinates that are whole numbers are integers. Springs, ambient drift,
  orbit angles and clearance are arbitrary deterministic functions (`MotionWorld.Physics`), so the run results hold for
  any physics.
- JSON parsing, signature and policy checks, digests, the square root and the density field are arbitrary functions
  passed in. UTF-8 validity is modelled in full.
- Interleavings are state machines over the steps the code takes under one lock or between two awaits.
- Displayed data is represented by where it came from: the token of the engine asked and the number of the poll or read,
  and for tasks the sequence number.
- Orders of ids (`sort`, `localeCompare`) are arbitrary total orders passed in.

| files | what they model |
|---|---|
| `GraphMotion`, `GraphMotionObject`, `MotionRuns`, `MotionSteps` | the motion world, its class, what every run keeps and what time does |
| `WorkScene`, `FailureLedger`, `PlainLedger`, `MotionPlayback`, `PlaybackFrames`, `LocalLens`, `LocalMapMotion` | the views that must agree with it |
| `OrganizationTraces`, `TracePlayback`, `TraceScenes` | the trace scheduler, that its traces can be played, and what they show |
| `ProjectLayers`, `ProjectLayout` | dependency layering and routing |
| `MapGeography`, `MapTeams`, `MapOutcomes`, `Sorting`, `MapBuckets`, `MapBuilds` | the organization map over any sequence of builds |
| `NdjsonDecoder`, `SseDecoder`, `Utf8`, `McpReply` | stream decoding under every chunking |
| `FabricAccept`, `FabricDelivery`, `EgressGuard`, `EngineProvider`, `WorkspaceRecords` | the guarded protocols |
| `Boids` | the flock's grid and the scattered seeds |

Where the code does less than one would expect, the model follows the code and states the exact condition:

- Playback and work scene disagree before the first playing call if work starts at time zero
  (`PlaybackShowsScene`, `UnplayedStartIsMissed`).
- The local lens compares work by id only, so new work under a held id is not shown; nor is work the world cannot
  start, though the lens holds it (`SyncShows`, `RetargetingIsMissed`, `SelfWorkIsMissed`).
- A completed retry of the empty id does not resolve the failure it names (`PlainUnlessEmpty`,
  `EmptyNameIsNeverResolved`).
- The disposition store documents that duplicates get the first disposition; a reused idempotency key under a new
  result id may not (`DuplicatesGetFirstReceipt`).
- The in-memory receipt and the durable record of one result part if the registry refuses a new result that passed,
  and if a known result is decided otherwise than it was remembered (`RecordsAgree`, `RememberedRejectionStays`).
- Egress generations repeat once the saturating counter has run out (`GenerationsDiffer`, `GenerationsRunOut`).
- A decoding fault in the chunk that completes a reply hides the reply, so how such a body is cut matters
  (`CuttingMatters`, `FaultsShowCutting`).
- An agent without a pledge that a team with an empty id lists gets no home (`HomeChosen`).
- A digest that arrives after its token was replaced is shown all the same (`DigestCurrentUnlessLate`,
  `DigestOutlivesConnection`).

## Model

| member | source | states |
|---|---|---|
| MotionRuns.EveryRunStaysValid | web/src/lib/graphMotion.ts:116-279 | in every run of sync, dispatch, advance and settle, with any physics: attachment and departing never coexist, departing holds exactly in phase detaching and then has a release goal and lasts less than 0.32 s, queued implies departing, the phase matches attachment and waiting flag, nobody is linked to itself, and no two bodies at one host share a slot |
| MotionRuns.SyncKeeps | web/src/lib/graphMotion.ts:116-144 | a sync keeps all of that and leaves exactly the entities given; a body that stays keeps its intent unless its host vanished, a new one is idle |
| MotionRuns.DispatchKeeps | web/src/lib/graphMotion.ts:146-186 | an event keeps the invariant, is remembered, and touches only the agent it is about |
| MotionRuns.DispatchHeard | web/src/lib/graphMotion.ts:146-186 | for every event: an event seen before, a start that cannot be placed and a start of the work its agent is on already change nothing; any other changes its agent's queued-else-attached interaction and waiting flag exactly as a plain reading of the trace does |
| MotionRuns.AttachKeeps | web/src/lib/graphMotion.ts:188-207 | attaching a free body keeps the invariant: the slot found is nobody else's at that host |
| MotionRuns.SlotBound | web/src/lib/graphMotion.ts:189-198 | the slot search ends, and at a slot no greater than the number of other bodies at that host |
| MotionRuns.ReleaseKeeps | web/src/lib/graphMotion.ts:209-228 | a release keeps the invariant, touches only that body and leaves it idle |
| MotionRuns.IntegrateKeeps | web/src/lib/graphMotion.ts:263-318 | a fixed step keeps the invariant and changes no agent's intent, even when it turns a queued interaction into an attached one |
| MotionRuns.SettleKeeps | web/src/lib/graphMotion.ts:407-442 | settling keeps the invariant and every intent |
| MotionRuns.AdvanceKeeps | web/src/lib/graphMotion.ts:247-261 | advancing by any time, reduced or not, keeps the invariant and every intent |
| MotionRuns.FrameRateIndependent | web/src/lib/graphMotion.ts:247-261 | from any world with no step due, two ways of cutting the same elapsed time into frames of at most 0.25 s run the same steps and end in the same world, for any deterministic step |
| MotionRuns.EveryRunIsCaughtUp | web/src/lib/graphMotion.ts:256-260 | between operations of a run no fixed step is due |
| MotionRuns.DrainTwice | web/src/lib/graphMotion.ts:256-260 | draining due steps, waiting and draining again is draining once at the end |
| MotionSteps.IntegrateSteps | web/src/lib/graphMotion.ts:263-318 | every fixed step of every valid world takes every body on by one table: a departure that reaches 0.32 s ends, into the queued work with its waiting flag or on the way home, and nothing else changes work; approaching turns to docking, docking to engaged or waiting by the flag, returning to resting, each only if the springs ever say so of the body and at once if they always do; ages and outcome ages grow by 1/120 |
| MotionSteps.IntegrateMoves | web/src/lib/graphMotion.ts:319-351 | every fixed step moves every body from where it was by the force judged on it in this step, all judged before any moves; in between only a destination can be nudged |
| MotionSteps.DeparturesEnd | web/src/lib/graphMotion.ts:247-279 | from any valid world, however 0.32 s and one step are cut into frames, every departure under way is over: queued work is attached with its waiting flag, a body without returns or rests |
| MotionSteps.FramesLast | web/src/lib/graphMotion.ts:247-279 | over any frames a departure lasts exactly until the clock has taken it to 0.32 s, with its link and queue unchanged till then, and every other body keeps its work |
| MotionSteps.AdvanceTime | web/src/lib/graphMotion.ts:247-261 | a call spends the time given, no less than nothing and no more than 0.25 s: clock and unspent rest add up, and less than a step is left |
| MotionSteps.FramesTime | web/src/lib/graphMotion.ts:247-261 | over any frames of at most 0.25 s clock and unspent rest account for all the time given |
| MotionSteps.EveryRunHasTime | web/src/lib/graphMotion.ts:256-260 | in every run the unspent rest is never below minus the slack |
| MotionSteps.SettleStills | web/src/lib/graphMotion.ts:407-442 | settling any valid world leaves no departure and no queue: a body at work is engaged or waiting by its flag, any other rests at home, none moves |
| MotionSteps.DispatchTurns | web/src/lib/graphMotion.ts:146-228 | an event leaves links and age of its agent alone up to showing the waiting flag, or lets the link go with the departure at age zero, or sets a free body out at age zero to the least slot nobody holds |
| MotionSteps.DispatchOutcomes | web/src/lib/graphMotion.ts:146-228 | an end that is heard shows its outcome afresh, a start of a body that is not departing clears it, nothing else changes it |
| MotionSteps.SyncCancels | web/src/lib/graphMotion.ts:136-143 | a body whose host a sync takes away departs from it, cancelled |
| GraphMotionObject.GraphMotion.Sync | web/src/lib/graphMotion.ts:116-144 | the class's in-place sync computes the world function the run lemmas are about |
| GraphMotionObject.GraphMotion.Dispatch | web/src/lib/graphMotion.ts:146-186 | in-place dispatch computes the world function the run lemmas are about |
| GraphMotionObject.GraphMotion.Attach | web/src/lib/graphMotion.ts:188-207 | in-place attach computes the body function, with the slot found by counting up |
| GraphMotionObject.GraphMotion.FreeSlot | web/src/lib/graphMotion.ts:196-197 | the counting loop ends at the least unoccupied slot, no greater than the number of occupied ones |
| GraphMotionObject.GraphMotion.Release | web/src/lib/graphMotion.ts:209-228 | in-place release computes the body function the run lemmas are about |
| GraphMotionObject.GraphMotion.Advance | web/src/lib/graphMotion.ts:247-261 | the accumulator loop computes the drained world |
| GraphMotionObject.GraphMotion.Integrate | web/src/lib/graphMotion.ts:263-318 | one in-place step over all bodies computes the step function |
| GraphMotionObject.GraphMotion.Settle | web/src/lib/graphMotion.ts:407-442 | in-place settling, its recursive placement included, computes the settled world |
| GraphMotionObject.GraphMotion.Place | web/src/lib/graphMotion.ts:429-439 | the recursion over hosts ends and visits each body at most once, host first |
| WorkScene.ReadScene | web/src/lib/workScene.ts:19-54 | the loop yields the fold over exactly the leading events that are due |
| WorkScene.UpdateState | web/src/lib/workScene.ts:23-51 | one event applied in place to one agent's state is the update the scene lemmas are about |
| WorkScene.SceneTellsStory | web/src/lib/workScene.ts:25-49 | for every trace and agent, the scene's current interaction and waiting flag are those of a plain reading: a start replaces, an end or wait counts only if it names the current work |
| FailureLedger.LedgerTellsHistory | web/src/lib/workScene.ts:25-46 | for every trace, a failure is in the list if and only if that interaction ended failed while current, was not a retry of a failure open at that moment, and no later completed retry names it |
| FailureLedger.NamesAgree | web/src/lib/workScene.ts:33-45 | the list has a failure under a name if and only if the history leaves one open under that name |
| FailureLedger.OneRetryAtMost | web/src/lib/workScene.ts:26-40 | with interactions started once, at most one open failure carries a retry id, and it is the one the current interaction retries |
| PlainLedger.PlainUnlessEmpty | web/src/lib/workScene.ts:33-45 | a plain reading of the trace, in which any later completed retry resolves, gives the list at every moment if and only if no retry of the empty id completes while a failure of the empty id is listed |
| PlainLedger.EmptyNameIsNeverResolved | web/src/lib/workScene.ts:33-45 | a concrete trace: work named by the empty id fails, its retry completes, and the failure is still listed |
| PlainLedger.StillListed | web/src/lib/workScene.ts:41-45 | whatever the trace, such a retry leaves every listed failure of the empty id listed, and the plain reading has none of them open |
| MotionPlayback.PlaybackShowsScene | web/src/lib/motionPlayback.ts:198-215 | for every time-sorted trace with distinct event ids, once-started interactions and startable targets, and every sequence of non-negative advance calls: an agent's queued-else-attached interaction and waiting flag equal the work scene's at the elapsed time if and only if some call played or the agent has no work at time zero |
| MotionPlayback.UnplayedStartIsMissed | web/src/lib/motionPlayback.ts:187-203 | the failing side shown: a start at time zero or before is in the scene but not on the stage until the first playing call |
| MotionPlayback.SeekShowsScene | web/src/lib/motionPlayback.ts:216-223 | for any time and any duration, seeking ends on the clamped time, or on the duration if that is negative, and shows the work scene there, for every agent |
| PlaybackFrames.PlaybackFrameRateIndependent | web/src/lib/motionPlayback.ts:198-215 | for every example whose events are in order and not overdue: two ways of cutting the same playing time into frames of at most 0.25 s end in the same world with the same events played |
| PlaybackFrames.FramesPlayTo | web/src/lib/motionPlayback.ts:198-215 | any such frames give what the plain reading gives: the world runs to each event, hears it at its own time, and runs on to the end |
| PlaybackFrames.WorldKeepsTime | web/src/lib/motionPlayback.ts:198-215 | the world's clock and unspent rest keep pace with the time played |
| PlaybackFrames.SeekIsPlaying | web/src/lib/motionPlayback.ts:216-223 | seeking ends in the world that playing to the clamped time gives, settled |
| MotionPlayback.MotionPlayback.Advance | web/src/lib/motionPlayback.ts:198-215 | the in-place catch-up loop computes the played state |
| MotionPlayback.MotionPlayback.Seek | web/src/lib/motionPlayback.ts:216-223 | the seek loop ends and computes the sought, settled state |
| MotionPlayback.MotionPlayback.Reset | web/src/lib/motionPlayback.ts:193-197 | a reset leaves a new world with nothing played |
| LocalLens.SyncShows | web/src/lib/localMapMotion.ts:26-77 | after a sync of a consistent lens with any list of entities, a listed body shows its work state if the target is present and near and nothing otherwise, if and only if the lens was not handed different work under a name it already holds, nor new work the world cannot start (the actor is listed as a destination too, or is its own target) |
| LocalLens.SyncShowsReach | web/src/lib/localMapMotion.ts:10-77 | with one entity per id, from the inputs alone: after a sync that does not overlook it a listed body shows exactly the interaction its work state has, waiting flag included, if it is listed as an agent and its target is listed at most 1200 away, and nothing otherwise |
| LocalLens.SyncLinks | web/src/lib/localMapMotion.ts:26-77 | if no work is so overlooked the lens is consistent again, so the guarantee carries to the next sync |
| LocalLens.SyncEnds | web/src/lib/localMapMotion.ts:44-57 | work a sync lets go, of a body that still showed it, ends with the outcome the work state recorded for it, or cancelled if that is other work |
| LocalLens.AllPlaceable | web/src/lib/localMapMotion.ts:26-77 | nothing is refused by the world if entities of one id agree in kind and nobody is their own target |
| LocalLens.ScenesAreKeyed | web/src/lib/workScene.ts:19-53 | in the scene of any trace every interaction is filed under its own agent |
| LocalLens.EveryLensRunLinked | web/src/lib/localMapMotion.ts:26-81 | in every run of syncs and advances, with entities removed, re-added and listed under any kinds, epoch changes and rewinds, the world shows exactly the work the lens holds at every moment if and only if no sync overlooks any |
| LocalLens.ReliableRunsOverlookNone | web/src/lib/localMapMotion.ts:26-81 | nothing is overlooked in a run whose names mean one interaction within an epoch, whose entities of one id agree in kind and where nobody is their own target |
| LocalLens.LensMirrorsWork | web/src/lib/localMapMotion.ts:26-77 | after the next sync of any run that overlooked nothing so far, a listed body shows exactly its near and present work if and only if that sync does not overlook it |
| LocalLens.RetargetingIsMissed | web/src/lib/localMapMotion.ts:44-66 | a concrete lens and states where new work under a held name stays unseen, because only ids are compared |
| LocalLens.SelfWorkIsMissed | web/src/lib/localMapMotion.ts:44-66 | a concrete sync after which the lens holds work that is never seen: the actor is its own target |
| LocalLens.AdvanceLinked | web/src/lib/localMapMotion.ts:78-81 | advancing the world never loosens the lens from the work it holds |
| LocalMapMotion.LocalMapMotion.Sync | web/src/lib/localMapMotion.ts:26-77 | the in-place sync, with its minted event ids, computes the lens function |
| LocalMapMotion.LocalMapMotion.Align | web/src/lib/localMapMotion.ts:36-75 | the per-agent dispatches compute the lens function for that agent |
| LocalMapMotion.LocalMapMotion.Advance | web/src/lib/localMapMotion.ts:78-81 | advancing the lens advances only its world |
| ProjectLayers.KnownLinks | web/src/lib/projectLayout.ts:20-29 | the links are exactly the recorded dependencies whose source is a stream of the project |
| ProjectLayers.Ready | web/src/lib/projectLayout.ts:31-33 | a stream is ready exactly if no known dependency of it is still waiting |
| ProjectLayers.PeelWaves | web/src/lib/projectLayout.ts:30-45 | the layering ends; what is left over is exactly the streams on a cycle or downstream of one, something is left over if and only if the links have a cycle, every other stream stands after all it depends on and right after one of them; each layer keeps the order of the project |
| ProjectLayers.LayeredIsClean | web/src/lib/projectLayout.ts:30-45 | a layered stream is neither on a cycle nor downstream of one |
| ProjectLayers.StuckIsTainted | web/src/lib/projectLayout.ts:34-39 | when nothing is ready, the streams left are exactly those on or downstream of a cycle |
| ProjectLayers.FindCycle | web/src/lib/projectLayout.ts:34-39 | from any stream left over, a cycle can be walked back to |
| ProjectLayout.KeptLinks | web/src/lib/projectLayout.ts:46 | a link is kept exactly if neither end is left over |
| ProjectLayout.Coordinators | web/src/lib/projectLayout.ts:55-64 | exactly the streams marked coordination that are not left over and on which nothing depends, each once |
| ProjectLayout.LayoutProject | web/src/lib/projectLayout.ts:13-156 | for every project: one box per stream; of the streams neither held up by a cycle nor coordinators the first layer has exactly those no kept link leads to, each later layer only ones that the layer just before leads to; then what a cycle holds up, and last the coordinators; streams keep their order; bands follow each other by exact widths and gutters, boxes stand in rows of two at exact places, pairwise apart; a cycle warning if and only if there is a cycle, a missing-source warning for exactly the unknown dependencies; links hidden exactly at streams on or downstream of a cycle, and every kept link drawn as a good route: straight if and only if the corridor is clear and else over a lane of its own, from box to box, orthogonal, strictly left to right and with no point strictly inside any box |
| ProjectLayout.FindLayers | web/src/lib/projectLayout.ts:30-73 | which streams a cycle holds up, and layers of all streams that follow the kept links as above, each in the order of the project |
| ProjectLayout.LayersAre | web/src/lib/projectLayout.ts:55-73 | peeled layers with the coordinators taken out and put last still follow the kept links: no gap opens |
| ProjectLayout.DetourMisses | web/src/lib/projectLayout.ts:136-153 | the eight-point detour starts and ends on its boxes, runs orthogonally and meets the inside of no box, for any number of links and boxes |
| ProjectLayout.DirectMisses | web/src/lib/projectLayout.ts:119-134 | the direct link meets the inside of no box when the corridor test passes |
| ProjectLayout.LaneFree | web/src/lib/projectLayout.ts:47-89 | a lane of any link in any band's gutter meets no box |
| ProjectLayout.StripFree | web/src/lib/projectLayout.ts:76-89 | the strip above any row meets no box |
| ProjectLayout.LeftToRight | web/src/lib/projectLayout.ts:65-89 | boxes of layers in order have the gutter and more between them |
| ProjectLayout.AllApart | web/src/lib/projectLayout.ts:76-89 | any two boxes of a filled grid are apart |
| ProjectLayout.RouteIsGood | web/src/lib/projectLayout.ts:114-156 | each link drawn on a filled grid, direct or by detour, is a good route |
| ProjectLayout.CoordinatorsLast | web/src/lib/projectLayout.ts:72-73 | a coordinator's box is to the right of every other box |
| ProjectLayout.PlaceBand | web/src/lib/projectLayout.ts:77-86 | a layer's streams stand in rows of up to two and nothing else moves |
| ProjectLayout.PlaceBands | web/src/lib/projectLayout.ts:74-113 | the running x places every layer in a band of its own |
| ProjectLayout.DrawRoutes | web/src/lib/projectLayout.ts:114-156 | one good route per kept link, in order |
| MapGeography.CeilRoot | web/src/lib/mapLayout.ts:14 | the least number whose square reaches the team size |
| MapGeography.SeatInside | web/src/lib/mapLayout.ts:126-129 | a numbered seat lies well inside its box, from the div/mod arithmetic |
| MapGeography.SeatsApart | web/src/lib/mapLayout.ts:126-129 | two seats of one box are 230 apart on some axis |
| MapGeography.BoxesKeepSeatsApart | web/src/lib/mapLayout.ts:126-129 | seats of two clear boxes are 230 apart on some axis |
| MapGeography.PushColumn | web/src/lib/mapLayout.ts:114-120 | going down a column leaves its boxes at least 260 apart in the order they had; a box moves only down, only to rest exactly 260 under another, and not at all if nothing was in its way |
| MapGeography.PushAll | web/src/lib/mapLayout.ts:113-121 | all boxes end clear of each other in the order they had, none moves up or sideways, one that moves rests right under another, an undisturbed one does not move |
| MapTeams.BestCount | web/src/lib/mapLayout.ts:36-48 | the column count chosen is the first of the best-scoring ones up to six |
| MapTeams.ScoreIsExtent | web/src/lib/mapLayout.ts:37-47 | the score of a column count is the width of the grid drawn with it over the clipped aspect ratio, or its height if that is larger |
| MapTeams.SpreadColumns | web/src/lib/mapLayout.ts:49-54 | columns stand side by side from 120 on, exactly 280 apart, as wide as asked |
| MapTeams.Arrange | web/src/lib/mapLayout.ts:33-60 | the first arrangement fills the best column count row by row: every box of its team's size at the left of its column, the first row at 180, each other row 260 below the tallest box before it, each column as wide as its widest box |
| MapTeams.AssignSeats | web/src/lib/mapLayout.ts:88-90 | exactly those who had a seat and those listed have one, given seats stay, and new ones are numbered on in the order of the list |
| MapTeams.ChooseColumn | web/src/lib/mapLayout.ts:92-101 | the column whose first free height is least, the leftmost of equals |
| MapTeams.AddTeam | web/src/lib/mapLayout.ts:91-107 | a new team stands at the first free height of the leftmost of the emptiest columns, with as many columns as the rounded-up root of its size, at least two and at most what fits, and exactly the height its members need |
| MapTeams.SeatTeam | web/src/lib/mapLayout.ts:85-110 | seating a team keeps every box housed and roomy; its members get seats in turn, its box, old or new, is exactly as tall as before or as its seats need, and every other box and seat is untouched |
| MapTeams.SeatTeams | web/src/lib/mapLayout.ts:85-110 | the teams are seated so one after another, in the order given, and every member has a seat |
| MapTeams.CalmAbove | web/src/lib/mapLayout.ts:108-121 | a box with no growth above it in its column is not disturbed by the seating |
| MapTeams.BuildTeams | web/src/lib/mapLayout.ts:84-121 | one build of the teams starts from the boxes there are or, the first time, from the grid, seats the buckets in order and settles the columns: boxes clear and roomy, columns fixed once chosen, seats kept, boxes only lower and taller, and a box with no growth above it does not move |
| MapOutcomes.TeamsAreExact | web/src/lib/mapLayout.ts:84-121 | after any build: a box known before has exactly the larger of its old height and 150 + ceil(seats / columns) * 230; exactly the members shown gained seats; each box stays, begins at 180 or rests 260 under another, in the order kept; a new box has the size that fits its column; the first build leaves the grid as drawn |
| MapOutcomes.SeatedGrow | web/src/lib/mapLayout.ts:108-109 | however many teams are seated, a box that was there grows to what its seats need and does nothing else |
| MapOutcomes.SeatedAre | web/src/lib/mapLayout.ts:85-90 | exactly those who had a seat in a team and those its bucket lists have one there |
| MapOutcomes.SeatedNew | web/src/lib/mapLayout.ts:91-107 | a team seated for the first time has a box of its own size in a column, right under what was there |
| MapOutcomes.KnownTeamsStay | web/src/lib/mapLayout.ts:84-121 | a build that shows only known teams and members leaves every box and seat as it was |
| MapTeams.PlaceMembers | web/src/lib/mapLayout.ts:122-130 | every member stands at the point of its seat |
| MapTeams.AgentInside | web/src/lib/mapLayout.ts:122-130 | a placed agent is inside its home box |
| MapTeams.AgentsApart | web/src/lib/mapLayout.ts:122-130 | two placed agents are 230 apart on some axis |
| MapBuckets.HomeChosen | web/src/lib/mapLayout.ts:17-23 | the home is the pledged team if it exists, otherwise the first by id of the teams that list the agent, otherwise unassigned; there is none if and only if the agent has no pledge and a team with an empty id lists it |
| MapBuckets.SortAgents | web/src/lib/mapLayout.ts:65-67 | the last record of each agent, once, in ascending order of ids |
| MapBuckets.OneOrder | web/src/lib/mapLayout.ts:65-67 | that order is the only one, so the order in which the same records come in does not reach the layout |
| Sorting.OneOrder | web/src/lib/mapLayout.ts:81-83 | for any strict order of keys, two rising lists of the same elements are equal |
| Sorting.SortedRises | web/src/lib/mapLayout.ts:81-83 | sorting by insertion makes any comparable elements rise |
| MapBuckets.RankOrderTotal | web/src/lib/mapLayout.ts:77-83 | ordering teams by their place in the list, unlisted ones last, and ties by id, is a total order |
| MapBuckets.OrderedHolds | web/src/lib/mapLayout.ts:81-83 | sorting the buckets by it keeps them well filled and their members in order |
| MapBuckets.SortHome | web/src/lib/mapLayout.ts:73-76 | bucketing agents by home gives distinct non-empty buckets holding exactly the last record of each agent once, in the order of the list, whatever duplicates come in |
| MapBuilds.MapLayout.BuildFor | web/src/lib/mapLayout.ts:61-191 | from agents, teams and destinations: the build is that of the agents' buckets sorted by team rank with members by id, and of the destinations by id; boxes known before have exactly the height their seats need or the one they had, exactly the agents gain seats in their homes, the resources' top is exactly the larger of the one before and 300 below the homes shown; the last record of every agent stands at its seat in its home team's box, inside it and 230 from any other agent, unless a destination has its id; every resource area is at least 300 below every agent's home team |
| MapBuilds.SameBuildForStays | web/src/lib/mapLayout.ts:61-191 | a build from the same agents, teams and destinations as the one before, the records in any order, leaves everything the layout remembers as it was |
| MapBuilds.OneBucketOrder | web/src/lib/mapLayout.ts:61-83 | the agents and teams leave one way to order the buckets and their members |
| MapBuilds.MapLayout.Build | web/src/lib/mapLayout.ts:83-191 | for buckets in any order: after a build the remembered geography is sound and keeps what may not change; heights, seats and places of the boxes are exactly those of `TeamsAreExact`, the resources' top is exactly the larger of the one before and the bottom of the teams shown plus 300, shelves and their seats are exact; every member stands at its seat in its team's box, inside it and 230 from any other, unless a destination has its id, and then that id stands at the destination's place on its shelf; resource areas are 280 apart and at least 300 below every team shown |
| MapBuilds.SameBuildStays | web/src/lib/mapLayout.ts:83-191 | a build with the buckets and destinations of the one before leaves everything the layout remembers as it was |
| MapBuilds.KnownBuildStays | web/src/lib/mapLayout.ts:110-121 | so does any build that shows only known members and destinations, but for the resources' top, which may move down: who comes back finds the same seat |
| MapBuilds.FamilyInOrder | web/src/lib/mapLayout.ts:172-175 | destinations are seated by id within their family |
| MapBuilds.MembersAre | web/src/lib/mapLayout.ts:144-155 | a family's members are exactly the ids of its destinations, in their order |
| MapBuilds.GeographyIsStable | web/src/lib/mapLayout.ts:61-191 | over any sequence of builds, from any moment to any later one: seats, box x, width and column count never change, box y, box height and the resources' top never decrease, shelves keep their place |
| MapBuilds.ShelveAll | web/src/lib/mapLayout.ts:144-175 | connectors first, then tools: kept shelves do not move, a family without one gets a shelf at the first free x with the columns its share of the width allows, its members get seats in turn |
| MapBuilds.OpenShelf | web/src/lib/mapLayout.ts:157-169 | a new shelf is at 120 or exactly 280 to the right of the last shelf, with one column per full 250 of its share, 2 to 12 |
| MapBuilds.PlaceAll | web/src/lib/mapLayout.ts:172-191 | every destination stands on its family's shelf, agents' points are otherwise untouched, one area per family shown |
| MapBuilds.Extent | web/src/lib/mapLayout.ts:139-140 | exactly the right and bottom edges of the teams shown, or 900 and 750 if those are larger |
| MapBuilds.ShelfInArea | web/src/lib/mapLayout.ts:176-190 | a destination on its shelf lies inside the area drawn for its family |
| OrganizationTraces.Scheduler.Schedule | web/src/lib/organizationTraces.ts:48-108 | an interaction starts at the first moment all its participants are free, and the schedule keeps 0.7 between any two interactions of one participant |
| OrganizationTraces.Plan | web/src/lib/organizationTraces.ts:109-175 | for any teams, places, workstream count, stage count and spacing: no agent takes part in two interactions closer than 0.7; within a workstream every stage, and in it handoff, branches with rework and gate, starts only when all before has ended; every failed attempt is retried next by the same agent at least 1.6 later; every stage's handoff, branches and gate are there |
| OrganizationTraces.ReceiverIsFree | web/src/lib/organizationTraces.ts:58-67 | while a handoff is live its receiver is in no other live interaction |
| OrganizationTraces.RunStage | web/src/lib/organizationTraces.ts:113-174 | one stage adds its handoff if the lead changes, a branch per worker and in the third stage the gate, all after everything before |
| OrganizationTraces.RunBranch | web/src/lib/organizationTraces.ts:135-161 | one branch and, if it failed, its rework, ending by the time returned |
| OrganizationTraces.Workers | web/src/lib/organizationTraces.ts:127-134 | the workers are everyone picked for the branches, each once |
| TracePlayback.AllEventsDiffer | web/src/lib/organizationTraces.ts:65-106 | all events of a trace have different ids |
| TracePlayback.TraceIsPlayable | web/src/lib/organizationTraces.ts:68-106 | a time-sorted organization trace meets everything playback asks of a trace |
| TracePlayback.OrganizationShowsScene | web/src/lib/organizationTraces.ts:176 | so on an organization trace, once played, stage and scene agree on every agent |
| TraceScenes.SceneShowsPlan | web/src/lib/organizationTraces.ts:48-108 | for every sound plan and every moment: the scene of its sorted events shows each agent on exactly the job the plan has under way for it, waiting exactly between three and seven tenths of a job that waits, idle otherwise, and lists as failed exactly the failed attempts whose retry has not ended |
| TraceScenes.StageShowsPlan | web/src/lib/organizationTraces.ts:48-176 | so does the motion stage once the trace has played at all, whatever the frames and pauses |
| TraceScenes.SortingIsSound | web/src/lib/organizationTraces.ts:176 | sorting all events of a plan by time, ties in any order, loses and adds none and keeps what the scene needs |
| TraceScenes.FailuresAre | web/src/lib/organizationTraces.ts:135-161 | after any number of events the open failures of an agent are exactly its failed attempts whose retry has not ended |
| NdjsonDecoder.Decoder.Push | engine/atmos/tetonic-egress/src/ndjson.rs:14-23 | pushing appends to what was seen and keeps the decoder's invariant, compaction included |
| NdjsonDecoder.Decoder.FinishLine | engine/atmos/tetonic-egress/src/ndjson.rs:26-34 | one scan finishes the next line or runs out of bytes; the positions examined over the whole life are 0, 1, 2, ... without repetition |
| NdjsonDecoder.Decoder.Next | engine/atmos/tetonic-egress/src/ndjson.rs:25-43 | the next record is the parse of the next non-empty finished line |
| NdjsonDecoder.Decoder.Finish | engine/atmos/tetonic-egress/src/ndjson.rs:45-57 | the last record is the parse of what follows the last line handed out; with everything scanned that is the unfinished last line |
| NdjsonDecoder.ReadStream | engine/atmos/tetonic-egress/src/lib.rs:554-569 | for every chunking: the values are the parses of the non-empty newline-separated segments of everything received, an unterminated last one included, up to the first that does not parse; a lost connection ends after the finished lines |
| NdjsonDecoder.ParsesInOrder | engine/atmos/tetonic-egress/src/ndjson.rs:25-57 | the values are the parses of the non-blank segments, one each and in their order, up to the first that does not parse |
| NdjsonDecoder.SegmentsJoin | engine/atmos/tetonic-egress/src/ndjson.rs:25-57 | the segments hold no newline and joined by newlines give the input back |
| NdjsonDecoder.SegmentsUnique | engine/atmos/tetonic-egress/src/ndjson.rs:25-57 | and they are the only newline-free pieces that do |
| NdjsonDecoder.NothingAfterMalformed | engine/atmos/tetonic-egress/src/lib.rs:562-568 | after a malformed line nothing more is yielded |
| SseDecoder.Decoder.PushBytes | engine/atmos/tetonic-egress/src/mcp.rs:225-257 | the byte loop computes the fold over the bytes: state, messages and fault; what the fold means is `StreamMeansEvents` |
| SseDecoder.Decoder.PushByte | engine/atmos/tetonic-egress/src/mcp.rs:228-254 | one byte in place is one step of the fold |
| SseDecoder.PushInTwo | engine/atmos/tetonic-egress/src/mcp.rs:225-257 | decoding a + b is decoding a and then b: same success, same messages, same state |
| SseDecoder.StreamMeansEvents | engine/atmos/tetonic-egress/src/mcp.rs:225-256 | for every list of fields written with any line endings: each blank line after data delivers the parse of the data fields since, one leading space taken off each, joined by line feeds, unless that is empty; other fields count for nothing; in order, up to the first event that does not parse |
| SseDecoder.EveryLineIsField | engine/atmos/tetonic-egress/src/mcp.rs:237-253 | every valid line is exactly one such field |
| SseDecoder.BadLineStops | engine/atmos/tetonic-egress/src/mcp.rs:235-238 | a line that is not UTF-8 stops decoding with a fault |
| SseDecoder.StreamMeansLines | engine/atmos/tetonic-egress/src/mcp.rs:228-254 | lines ended by any mix of LF, CR and CRLF, no CR being followed by an empty line ended by LF, decode to what the lines mean |
| SseDecoder.EndingsDecodeAlike | engine/atmos/tetonic-egress/src/mcp.rs:228-254 | hence streams of the same lines decode alike whatever their line endings |
| SseDecoder.EveryStreamIsLines | engine/atmos/tetonic-egress/src/mcp.rs:228-254 | every byte stream is such lines and an unfinished rest |
| SseDecoder.PrintedIsReadBack | engine/atmos/tetonic-egress/src/mcp.rs:237-253 | printing non-empty CR-free UTF-8 payloads with any one line ending and decoding delivers them in order, up to the first that does not parse |
| Utf8.ValidParts | engine/atmos/tetonic-egress/src/mcp.rs:237-238 | cutting well-formed UTF-8 at an ASCII byte leaves well-formed UTF-8 on both sides |
| Utf8.ValidConcat | engine/atmos/tetonic-egress/src/mcp.rs:237-238 | well-formed UTF-8 texts join to well-formed UTF-8 |
| Utf8.ValidIsEncoded | engine/atmos/tetonic-egress/src/mcp.rs:237-238 | bytes pass as UTF-8 if and only if they are the encodings of some code points other than surrogates, one after another |
| McpReply.AwaitReply | engine/atmos/tetonic-egress/src/mcp.rs:176-208 | if some chunk boundary within the limit is reached without fault and with a reply in hand, the outcome is decided by the first non-notification of the whole stream: an answer if and only if it is of version 2.0, has the request's id, names no method and has exactly one of result and error, a mismatch otherwise; without such a boundary no reply is given; a clean stream without one ends as such |
| McpReply.PickReply | engine/atmos/tetonic-egress/src/mcp.rs:189-199 | notifications are skipped up to the first other message |
| McpReply.FirstDecides | engine/atmos/tetonic-egress/src/mcp.rs:260-278 | the first message that is not a notification is answered if and only if it fits the request |
| McpReply.CuttingDoesNotMatter | engine/atmos/tetonic-egress/src/mcp.rs:180-203 | on error-free streams within 131,072 bytes every chunking picks the same reply |
| McpReply.ReplyStays | engine/atmos/tetonic-egress/src/mcp.rs:189-199 | a reply found is the reply of the whole stream, whatever arrives later |
| McpReply.CuttingMatters | engine/atmos/tetonic-egress/src/mcp.rs:180-203 | for every body: all its chunkings agree on whether a reply is given if and only if the body decodes without fault within the limit or no prefix of it brings a reply |
| McpReply.FaultsShowCutting | engine/atmos/tetonic-egress/src/mcp.rs:182-189 | bodies of the other kind: a fault in the reply's own chunk hides the reply, in a later chunk it does not |
| FabricAccept.Quarantine | engine/atmos/tetonic-fabric-client/src/result_accept.rs:189-285 | passes if and only if every artifact has exactly one payload of the signed size within the limit, the signed digest and a clean inspection; otherwise the fault is that of the first artifact that has not |
| FabricAccept.FaultIs | engine/atmos/tetonic-fabric-client/src/result_accept.rs:189-230 | no single payload is a digest mismatch, a wrong or excessive size oversized, a wrong digest a digest mismatch, and else the inspection decides |
| FabricAccept.SoundIffNoFault | engine/atmos/tetonic-fabric-client/src/result_accept.rs:189-285 | an artifact has no fault if and only if it is sound |
| FabricAccept.Dispositions.Accept | engine/atmos/tetonic-fabric-client/src/result_accept.rs:68-156 | accepted if and only if validation is no terminal rejection, all artifacts pass, policy verifies and the payload orders nothing done; every rejection is a behaviour signal; in every case the store afterwards is the store before with this outcome recorded unless known |
| FabricAccept.Dispositions.Reject | engine/atmos/tetonic-fabric-client/src/result_accept.rs:158-187 | a rejection is signalled and recorded |
| FabricAccept.Dispositions.Keep | engine/atmos/tetonic-fabric-protocol/src/result_disposition.rs:44-71 | recording keeps what is already there under either key |
| FabricAccept.DuplicatesGetFirstReceipt | engine/atmos/tetonic-fabric-protocol/src/result_disposition.rs:42-71 | a repeated delivery gets its first receipt for ever if and only if its result id was known or its key was new; a reused key under a new id may get another one later |
| FabricAccept.KeyGetsOneReceipt | engine/atmos/tetonic-fabric-protocol/src/result_disposition.rs:52-71 | under a key once recorded every result not known by its id gets that first record, whatever else is recorded meanwhile |
| FabricDelivery.CollectLines | engine/atmos/tetonic-fabric-client/src/legacy.rs:959-1020 | fails if and only if some line is unreadable or about another job or attempt; otherwise holds the last legacy body, the last done flags, the last result and all deltas in order |
| FabricDelivery.GatheredTells | engine/atmos/tetonic-fabric-client/src/legacy.rs:959-1020 | for every sequence of lines: the legacy body, the done flags and the result are those of the last line that gives one, and the deltas are those of all lines that give one, in order |
| FabricDelivery.OneLine | engine/atmos/tetonic-fabric-client/src/legacy.rs:959-1020 | one line is refused exactly if it is bad, and otherwise adds what it brings |
| FabricDelivery.EmitStream | engine/atmos/tetonic-fabric-client/src/legacy_result.rs:160-174 | what is emitted adds up to the accepted content, delta by delta if the deltas do |
| FabricDelivery.Provider.AcceptSigned | engine/atmos/tetonic-fabric-client/src/legacy_result.rs:252-460 | succeeds if and only if the key registers, the envelope decodes, a lease is held, every check passes and the registry settles, and then if and only if the disposition sent to durable storage is Accepted; the durable record and the in-memory store are stated for every way through, nothing decided included |
| FabricDelivery.RecordsAgree | engine/atmos/tetonic-fabric-client/src/legacy_result.rs:300-460 | after recording, the in-memory receipt has the durable disposition, for a result already known, if and only if the receipt from before had it, and for a new one if and only if the registry did not refuse a result that passed |
| FabricDelivery.RememberedRejectionStays | engine/atmos/tetonic-fabric-protocol/src/result_disposition.rs:44-71 | a result remembered as rejected by policy stays so in memory when it is accepted later and recorded durably as Accepted |
| FabricDelivery.Provider.FinishLegacy | engine/atmos/tetonic-fabric-client/src/legacy.rs:1286-1318 | a legacy body is delivered if and only if it is ok, bound to its signed payload, acceptable, its own and of status ok; otherwise nothing is emitted |
| FabricDelivery.Provider.FinishChat | engine/atmos/tetonic-fabric-client/src/legacy.rs:1262-1398 | a reply is given if and only if the result is complete, successful, its own, bound and acceptable; the text emitted is its content; any error emits nothing |
| FabricDelivery.Chat | engine/atmos/tetonic-fabric-client/src/legacy.rs:959-1078 | for every sequence of lines: a reply is the message of the result chosen from them and is given only if the disposition recorded is Accepted; the text emitted adds up to the content of the message in that result's own signed payload under its own key; any error emits nothing |
| FabricDelivery.DeliverableIsSigned | engine/atmos/tetonic-fabric-client/src/legacy_result.rs:45-63 | the content delivered is that of the message in the payload of the chosen result's own envelope, accepted under the key it came with |
| FabricDelivery.BoundOrdersNothing | engine/atmos/tetonic-fabric-client/src/legacy_result.rs:53-61 | a payload that equals the chat fields orders no tool, process, capability or approval |
| EgressGuard.EveryRunKeeps | engine/atmos/tetonic-egress/src/lib.rs:159-378 | in every interleaving of the locked steps of enrolments, removals, retractions and authorizations: generations in use were issued and, while at most 2^64-1 were issued, are unique; the log is the last 1000 decisions, each that of its answer |
| EgressGuard.GenerationsDiffer | engine/atmos/tetonic-egress/src/lib.rs:161-169 | two enrolments of a run get different generations if and only if the earlier one left the saturating counter room to grow |
| EgressGuard.GenerationsRunOut | engine/atmos/tetonic-egress/src/lib.rs:161-169 | there is a run in which two enrolments get the same generation |
| EgressGuard.EveryAnswerIsExact | engine/atmos/tetonic-egress/src/lib.rs:307-377 | for every answer of every run there are a begin, one check per resolved address and a decision of that call, in this order and with no other step of the call between, such that an address was granted if and only if it was resolved and allowed by the rules the guard had at its check |
| EgressGuard.PendingSaw | engine/atmos/tetonic-egress/src/lib.rs:321-349 | an authorization under way has checked its addresses so far, in order, against the rules the guard had at the call's own steps |
| EgressGuard.RetractRemovesOne | engine/atmos/tetonic-egress/src/lib.rs:191-196 | within the generations there are, retracting removes at most the one rule stamped with the generation and keeps the others in order |
| EgressGuard.RetractedForGood | engine/atmos/tetonic-egress/src/lib.rs:161-196 | after an issued generation that no enrolment under way holds is retracted, no rule of the run bears it again while the generations last |
| EgressGuard.DecisionIsExact | engine/atmos/tetonic-egress/src/lib.rs:351-377 | a deciding step of a run answers with the in-order sublist of resolved addresses allowed by the rules the guard had at each check, a denial if and only if that is empty, and logs a decision that names its first address, or the first resolved one |
| EgressGuard.GrantedIffAllowed | engine/atmos/tetonic-egress/src/lib.rs:321-349 | an address is granted if and only if it was resolved and allowed when checked |
| EgressGuard.GrantedInOrder | engine/atmos/tetonic-egress/src/lib.rs:321-349 | the granted addresses stand in the order in which they were resolved, at exactly the places allowed when checked |
| EgressGuard.Guard.TakeGeneration | engine/atmos/tetonic-egress/src/lib.rs:161-169 | the first locked step of an enrolment: the counter's value, the counter saturating |
| EgressGuard.Guard.RemoveLabel | engine/atmos/tetonic-egress/src/lib.rs:183-188 | exactly the rules with other labels stay, in order |
| EgressGuard.Guard.Retract | engine/atmos/tetonic-egress/src/lib.rs:191-196 | exactly the rules of other generations stay, in order |
| EgressGuard.Guard.Check | engine/atmos/tetonic-egress/src/lib.rs:321-348 | loopback on the inference port passes, anything else passes if and only if a rule matches |
| EgressGuard.Guard.Record | engine/atmos/tetonic-egress/src/lib.rs:256-271 | the newest decision is appended, the oldest dropped at 1000 |
| EgressGuard.Guard.Authorize | engine/atmos/tetonic-egress/src/lib.rs:307-378 | with nothing in between: the in-order sublist allowed by the rules, a denial if and only if it is empty, and one decision logged |
| EgressGuard.PinIsSafe | engine/atmos/tetonic-egress/src/lib.rs:602-616 | the pinned addresses are authorized ones, some remain, and inference stays on loopback if it can |
| EngineProvider.EveryRunShowsCurrent | web/src/context/LocalEngineContext.tsx:112-225 | in every state of every interleaving of polls, catalog reads, submissions, cancellations, digests, reconnects, mounts and unmounts with their replies in any order, each reply carrying the token of the engine it was asked of: everything displayed but the digest was fetched with the current token |
| EngineProvider.OnlyLatestPollShows | web/src/context/LocalEngineContext.tsx:160-203 | a poll's replies are applied only if no later poll has been started in the run and the engine asked is still the current one |
| EngineProvider.AwaitedPollShows | web/src/context/LocalEngineContext.tsx:160-203 | in every run a poll's reply shows if and only if the poll is the latest, of the current engine and neither aborted nor unmounted, and the workspace arrived: then every part that arrived is exactly what was fetched, every task shows in its latest state, and the rest is as before; otherwise nothing changes |
| EngineProvider.UndisturbedPollShows | web/src/context/LocalEngineContext.tsx:160-203 | a poll that starts and is answered with its workspace, with no poll, reconnection or unmount in between, shows what it brought |
| EngineProvider.LatestReadShows | web/src/context/LocalEngineContext.tsx:121-158 | a catalog reply shows if and only if it succeeded and its read is the latest, of the current engine and not aborted |
| EngineProvider.ForcedReadShows | web/src/context/LocalEngineContext.tsx:121-158 | a forced catalog read that is answered, undisturbed, shows what it brought |
| EngineProvider.ReadsArePaced | web/src/context/LocalEngineContext.tsx:121-158 | after an answered read an unforced one begins if and only if 30 s have passed since a success or 5 s since a failure |
| EngineProvider.TasksNeverStepBack | web/src/context/LocalEngineContext.tsx:183 | while the workspace of one organization and team is displayed, no task goes away or back to an earlier state |
| EngineProvider.ConfirmedTaskShows | web/src/context/LocalEngineContext.tsx:266-309 | a confirmed submission or cancellation of the current engine is displayed in its latest state, every other task as it was |
| WorkspaceRecords.MergeTasks | web/src/engine/projections/records.ts:49-56 | the loop over the incoming tasks leaves exactly the tasks of both lists, each in its latest state |
| WorkspaceRecords.LatestIsShown | web/src/engine/projections/records.ts:49-56 | after a merge exactly the tasks of both lists are shown, each with the largest sequence number that occurs for it |
| EngineProvider.DisplayNeverStepsBack | web/src/context/LocalEngineContext.tsx:121-203 | over any stretch of a run in which the token stays, reconnections with it included, no part displayed goes away or is replaced by one that an earlier poll or catalog read brought |
| EngineProvider.NothingShowsWhileGone | web/src/context/LocalEngineContext.tsx:143-197 | over any stretch of a run in which the provider is unmounted, no part changes except that another token clears all |
| EngineProvider.ConnectingClears | web/src/context/LocalEngineContext.tsx:383-404 | connecting with another token leaves nothing displayed, with the same token everything, and no poll started before can still show |
| EngineProvider.DigestCurrentUnlessLate | web/src/context/LocalEngineContext.tsx:375-381 | the digest displayed is of the current token at every moment of a run if and only if no digest arrives after its token was replaced |
| EngineProvider.DigestOutlivesConnection | web/src/context/LocalEngineContext.tsx:375-381 | for any two tokens there is a run that ends with the digest of the first displayed while the second is connected |
| EngineProvider.Run | web/src/context/LocalEngineContext.tsx:112-225 | running any script on the provider object ends with the view and the token of the script's replay, of which the run lemmas say exactly what it shows, and everything displayed but the digest is of that token |
| EngineProvider.RunIsReplay | web/src/context/LocalEngineContext.tsx:112-225 | every state of every run is the replay of the steps so far, so the object goes through exactly the runs |
| EngineProvider.Provider.Perform | web/src/context/LocalEngineContext.tsx:112-404 | each call or reply on the object takes the step the run lemmas are about |
| EngineProvider.Provider.BeginPoll | web/src/context/LocalEngineContext.tsx:160-163 | a poll takes the next version and remembers the engine it asks |
| EngineProvider.Provider.FinishPoll | web/src/context/LocalEngineContext.tsx:174-203 | a poll's replies show, as data of the engine asked and merged into the workspace displayed, if and only if it was not aborted, the provider is mounted, its engine is current, its version is the latest and the workspace arrived |
| EngineProvider.Provider.BeginCatalog | web/src/context/LocalEngineContext.tsx:121-158 | a read is begun unless the provider is unmounted or an unforced one finds a good read under way or recent; a new read aborts the one before |
| EngineProvider.Provider.FinishCatalog | web/src/context/LocalEngineContext.tsx:137-155 | a catalog reply shows, as data of the engine asked, if and only if its read is the latest, not aborted and of the current engine |
| EngineProvider.Provider.FinishTask | web/src/context/LocalEngineContext.tsx:266-309 | a confirmed submission or cancellation is merged, as data of the engine asked, and followed by a poll if and only if the engine is still the same |
| EngineProvider.Provider.FinishDigest | web/src/context/LocalEngineContext.tsx:375-381 | a digest is shown whatever has changed since it was asked for |
| EngineProvider.Provider.ApplyConnection | web/src/context/LocalEngineContext.tsx:383-404 | a new engine, a cleared view if the token differs, a poll and a forced catalog read, and then the effect again if the provider is mounted |
| EngineProvider.Provider.Cleanup | web/src/context/LocalEngineContext.tsx:245-251 | unmounting marks the provider gone and aborts the effect's signal and the catalog read, and changes nothing else |
| Boids.NeighborSteering | web/dev/preload/boids.ts:68-111 | the accumulator loop computes the averages of the totals over the listed birds |
| Boids.PushIsAway | web/dev/preload/boids.ts:94-101 | a bird within the separation radius is pushed straight away from its neighbour with strength 1 - distance / 0.048, and the neighbour as much the other way |
| Boids.AlikeNeighbours | web/dev/preload/boids.ts:103-110 | among neighbours that fly alike in one place alignment is their course less its own, cohesion their place less its own and separation the push of one of them if they are close, else zero; without neighbours all are zero |
| Boids.SteerAll | web/dev/preload/boids.ts:154-188 | for every flock, over exact reals, steering from the 27 grid cells equals steering from the whole flock: count, separation, alignment and cohesion |
| Boids.NearSuffice | web/dev/preload/boids.ts:80-101 | any list without repeats that has every near bird gives the totals of the whole flock, whatever its order |
| Boids.NearIsAround | web/dev/preload/boids.ts:177-186 | a bird within the radius is in one of the 27 cells around |
| Boids.BuildGrid | web/dev/preload/boids.ts:154-163 | every cell lists exactly its birds, once each |
| Boids.Gather | web/dev/preload/boids.ts:177-186 | the 27 cells give, once each, exactly the birds at most one cell away |
| Boids.Scatter | web/dev/preload/boids.ts:29-65 | dart throwing that checks only nine bins keeps exactly the darts an all-pairs check would keep |
| Boids.SeedsApart | web/dev/preload/boids.ts:39-50 | any two seeds are at least the spacing apart, and there are at most as many as asked for |
| Boids.CheckBins | web/dev/preload/boids.ts:39-49 | the nine bins around show a crowding dart if and only if there is one |

## Left out

- MotionRuns.FrameRateIndependent: exact reals, so the rounding of 1/120 and of the 1e-9 slack in binary floating point is not modelled.
- LocalLens.SyncShows: asks that a work state's interaction carries the id it is filed under, as in every scene built from a trace (`ScenesAreKeyed`).
- MapTeams.BestCount: the square-root and aspect-ratio arithmetic is over exact reals.
- MapBuilds.MapLayout.BuildFor: asks that every agent gets a home (`HomeChosen` says which do not; the source then files them under no id); ids that compare equal without being equal are not modelled.
- MapBuilds.MapLayout.Build: takes buckets and destinations in any order and numbers new seats in that order, the sorts before it are in `BuildFor`; team names, memberships and the world size are not modelled.
- MapBuckets.SortHome: takes the records in any order; the sort by id before it is `SortAgents`.
- ProjectLayout.LayoutProject: band titles, people, places, the overall size and curve rounding are not modelled.
- OrganizationTraces.Plan: labels, tools and workflow names are not modelled; any order of events with equal times counts as sorted.
- McpReply.AwaitReply: the plain JSON body, session and status checks before the stream are not modelled.
- FabricDelivery.Chat: error texts, timings, telemetry and the poisoning of single locks are not told apart.
- EgressGuard.EveryRunKeeps: hosted endpoints, the client cache and DNS are not modelled; an authorization starts from what was resolved.
- PlaybackFrames.PlaybackFrameRateIndependent: asks for at least one frame and for events no earlier than the time played, since an overdue event turns the elapsed time back.
- EngineProvider.AwaitedPollShows: of several tasks with one id in a single reply the model keeps the latest; a task is represented by its id and sequence number.
- EngineProvider.Run: holds for a provider without a given client, each reconnect taken together with its re-render; connection status, errors and times displayed are not modelled.
- Boids.SteerAll: rounding is not modelled; the flight targets, springs and speed limits of a step are left out.
- Drawing, snapshots, clearance offsets, satellites and `clusterFor`: presentation without a discrete property.
- Sockets, TLS, DNS, proxies and HTTP clients: input and output over libraries not shown.
- Envelope validation, verification policy and the job registry: kept as arbitrary answers.
- Tool packs, the workroom reducer, labels, wire types and adapters: they would only add easy members.
