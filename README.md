# AreWeThereYet follower: a Dafny model

AreWeThereYet is a party-follow plugin. Each cycle of its `AutoPilot`
loop reads the party roster from the game UI and finds the configured
leader's entity. It then decides what to do:

- walk or dash after the leader;
- take a portal, or use the roster's teleport button, when the leader is
  in another zone;
- pick up a nearby quest item;
- press the mercenary opt-in button.

The decisions go into a task queue, and one cycle advances only the task
at its head. After a zone change the follower caused itself, a
grace-period monitor waits for the leader to reappear. On timeout it can
force a teleport.

This project models that engine (`AutoPilot.cs`) and the roster parser
(`PartyElements.cs`) in Dafny, and proves properties of the model.

Per-cycle inputs:

- Everything one cycle reads from the game is a `World.Snapshot` value:
  - the player position and the zone;
  - the hideout flag and the area level;
  - the party UI tree and the entities;
  - the ground labels;
  - the line-of-sight probe for dashing;
  - the on-screen state of the teleport controls;
  - the clock reading `now`;
  - the random draw.
- The mouse and keyboard output of a cycle is a sequence of abstract
  `World.Action` values.

Module layout:

- `Wrappers`, `Text`, `Seqs`: `Option`, ASCII case folding and substring
  search, and order-preserving selection. `Seqs.ArgMin` is the first
  minimum, which is what a stable `OrderBy(...).First()` picks.
- `PartyElements`: the roster parser over an `Element` tree.
- `World`: positions, entities, labels, the snapshot, the actions and the
  teleport-button clicks.
- `Leader`: the leader lookups (roster row and entity) and the zone
  reliability predicate.
- `Resolver`: the portal, quest-item and opt-in selectors.
- `Dash`: the dash heuristic.
- `Tasks`: the task record, the near-leader purge and kind counting.
- `Engine`: one cycle as a function of the state, split into the planner
  (`Plan`) and the executor (`Execute`).
- `EngineFacts`: the properties of that cycle.
- `Grace`: the grace-period monitor as a step function over polls.
- `AutoPilot`: the `AutoPilot` class. Its fields are those of the C#
  class. Each method is proved to leave exactly the state, and return
  exactly the actions, that the `Engine` or `Grace` functions prescribe.
- `Findings`: the transition gate left set by a dropped Transition task,
  as written and corrected (see "## Findings").

Positions are integer triples. A distance is compared with a threshold
through squared distances, so `d < r` becomes `Dist2 < r*r`.
"Within 1.5 × keepWithinDistance" becomes `4*Dist2 <= 9*K*K`. Both are
exact for integer coordinates.

The source's own comments and its code disagree in places; the model
follows the code.

- The comment at `AutoPilot.cs:193` says the leveling-zone portal search
  must find the portal that leads to the leader's specific zone. In the
  code, a leader zone that is the empty string is contained in every label
  text, so every portal matches (`Resolver.EmptyZoneMatchesEveryPortal`).
- The transition flag is there so that, while the follower is crossing a
  portal, the main loop does not race itself. Two places in the code do not
  hold to that:
  - The out-of-zone branch checks the flag (`AutoPilot.cs:500`). The
    follow branch does not check it. It resets the reliability buffer
    (575-579), and when the leader jumps it enqueues Transition tasks
    (618-628). With the leader in view, the planner gives the same result
    whether or not the flag is set (`Findings.FlagDoesNotGateFollowing`).
  - The grace monitor (368, 417) is not the only place that clears the
    flag. A Transition task that fails six times clears it too (856,
    `EngineFacts.TransitionHeadRule`).

## Model

| member | source | states |
|---|---|---|
| PartyElements.DefaultWindowIsBlank | PartyElements.cs:130-136 | A default roster record has empty player and zone names and empty elements. |
| PartyElements.GetZoneNameFromPartyElement | PartyElements.cs:85-105 | With exactly 4 children, the zone is child 2's text, or the current area when that text is null. Any other shape gives the current area or "". A known area always yields a zone. |
| PartyElements.GetTpButtonFromPartyElement | PartyElements.cs:107-127 | With 4 children, the button is child 3. With 3 or more than 4, it is child 2. With fewer than 3, it is an empty element. With 3 or more children, it is always one of the children. |
| PartyElements.RosterIsOrderedSelection | PartyElements.cs:51-71 | The roster is exactly the rows with a child and a non-empty first-child text, in UI order, each mapped to its record. |
| PartyElements.RosterRecordsComplete | PartyElements.cs:53-68 | Every record has a non-empty player name taken from its element. A known area gives every record a zone. |
| PartyElements.GetPlayerInfoElementList | PartyElements.cs:34-83 | The loop returns the roster of the party rows, and an empty list when the UI path is missing. Every record has a name and a child. |
| PartyElements.PlayerNamesIsOrderedSelection | PartyElements.cs:21-22 | The name list holds the first-child texts of exactly the entries with at least 3 children, in order. |
| PartyElements.ListOfPlayersInParty | PartyElements.cs:12-32 | A missing window index gives an empty list. Otherwise the result is the first-child texts of the entries with at least 3 children, or empty when the path is missing. |
| Leader.RosterOfHasZones | AutoPilot.cs:473-474 | Every row the engine parses has a zone name and a non-empty player name. |
| Leader.LeaderEntry | AutoPilot.cs:84-125 | An empty leader name gives none. Otherwise the result is the first row whose name equals the leader name ignoring case. None means no row matches. |
| Leader.GetLeaderPartyElement | AutoPilot.cs:72-135 | The search loop returns exactly `LeaderEntry` of the parsed roster. |
| Leader.FollowingTarget | AutoPilot.cs:983-1020 | An empty leader name gives none. Otherwise the result is the first entity whose name equals the leader name ignoring case and that is not the local player. None means no entity qualifies. |
| Leader.GetFollowingTarget | AutoPilot.cs:974-1027 | The search loop returns exactly `FollowingTarget` of the snapshot's entities. |
| Leader.NeverFollowsItself | AutoPilot.cs:1000-1003 | When the leader name is the local player's own name, no entity is followed. |
| Leader.IsLeaderZoneInfoReliable | AutoPilot.cs:137-160 | True exactly when the zone is non-empty, differs from the current zone, and at least `bufferMs` has passed since the change. A change time of "never" counts as long ago. |
| Leader.ReliabilityPersists | AutoPilot.cs:150-154 | A zone that is reliable now stays reliable later. |
| World.TeleportActions | AutoPilot.cs:539-557 | The teleport button is clicked exactly when it is on screen, and the confirmation exactly when it is open. An open confirmation is dismissed first, and the button is clicked last. |
| Resolver.Nearest | AutoPilot.cs:179-189 | None exactly for an empty list. Otherwise the result is one of the labels. |
| Resolver.NearestIsFirstNearest | AutoPilot.cs:179-189 | The result is a label at the least distance from the reference point, and every earlier label is strictly farther. |
| Resolver.GetBestPortalLabel | AutoPilot.cs:162-245 | Any result is a visible, valid portal label from the snapshot. Missing labels give none. |
| Resolver.PortalChoice | AutoPilot.cs:162-245 | In leveling zones the result leads to the leader's zone and is the nearest such label. In endgame zones it is the nearest portal. A fault gives none. When candidates exist and nothing faults, there is a result. |
| Resolver.HideoutPicksSomePortal | AutoPilot.cs:187-188 | In a hideout with some portal candidate, the random pick is always one of the candidates. |
| Resolver.EmptyZoneMatchesEveryPortal | AutoPilot.cs:199 | An empty leader zone matches every labelled portal. |
| Resolver.GetQuestItem | AutoPilot.cs:1029-1061 | Any result is a visible quest-item label from the snapshot. Missing labels give none. |
| Resolver.QuestItemSelection | AutoPilot.cs:1029-1061 | The result is the quest-item label nearest the player. None exactly when there is no such label. |
| Resolver.GetMercenaryOptInButton | AutoPilot.cs:247-272 | Any result is a visible opt-in label from the snapshot. Missing labels give none. |
| Resolver.OptInButtonSelection | AutoPilot.cs:247-272 | The result is the opt-in label nearest the player. None exactly when there is no such label. |
| Dash.ShouldUseDash | AutoPilot.cs:927-972 | Dash exactly when the probe and grid position are available, dashing is on, the distance lies in the inclusive band, and the path is blocked by something dashable. |
| Dash.OnlyDashableDashes | AutoPilot.cs:958-971 | A clear path, a blocked path and a failed query all mean walking. |
| Dash.BandIsInclusive | AutoPilot.cs:940-943 | Both ends of the distance band dash. |
| Tasks.PurgeRoutesIsOrderedSelection | AutoPilot.cs:670-681 | The purge keeps exactly the non-route tasks, unchanged and in order. |
| Tasks.PurgeCounts | AutoPilot.cs:677-679 | After the purge, no Movement or Transition task remains, and the Loot and opt-in counts are unchanged. |
| Tasks.HeadOnlyChangeCounts | AutoPilot.cs:750-913 | A head-only change never raises any kind's count. |
| EngineFacts.ExecuteFrame | AutoPilot.cs:750-922 | The executor changes only the queue, the transition flag and the last player position. The flag changes only for a Transition head. The position is either kept or set to the player's. |
| EngineFacts.ExecuteNeverTeleports | AutoPilot.cs:750-922 | The executor never clicks the teleport controls. |
| EngineFacts.ExecuteChangesOnlyHead | AutoPilot.cs:750-913 | The head is removed, advanced in place (attempts never decrease), or left alone. The rest of the queue is untouched. An empty queue stays empty. |
| EngineFacts.EmptyQueueRecordsPosition | AutoPilot.cs:922 | With an empty queue the cycle only records the player position. |
| EngineFacts.TransitionDroppedAfterMove | AutoPilot.cs:750-763 | A Transition head is dropped without a click once the player has moved `transitionDistance` or more. |
| EngineFacts.MovementHeadRule | AutoPilot.cs:766-788 | A Movement head issues one walk or dash to its position, a dash exactly when the heuristic allows. It is removed exactly when it was within 1.5 × keepWithinDistance, and the position update is skipped. |
| EngineFacts.MovementBoundaryInclusive | AutoPilot.cs:784-785 | A Movement task exactly 1.5 × keepWithinDistance away is removed. |
| EngineFacts.LootHeadRule | AutoPilot.cs:790-821 | A Loot head counts an attempt. It is dropped exactly when the item is gone, the attempts exceed 2, or the item is too far. Either way the move key is released. Then the item is clicked when it is targeted and hovered when it is not. |
| EngineFacts.TransitionHeadRule | AutoPilot.cs:823-861 | An invalid portal drops the task and leaves the flag alone. Otherwise the flag is set, the portal clicked and the attempt counted. Past 6 attempts the task is dropped and the flag cleared. |
| EngineFacts.OptInHeadRule | AutoPilot.cs:863-913 | A MercenaryOptIn head always leaves the queue. The button is clicked only while present, within reach, on screen and within 3 attempts. |
| EngineFacts.FarRulesCounts | AutoPilot.cs:608-662 | The far rules append at most one task, and never a Loot or opt-in task. |
| EngineFacts.FarLeaderRules | AutoPilot.cs:608-662 | After a jump there is always an append. It is a 200-radius Transition to the best portal when the game puts that portal closer than 80, and a walk to the leader otherwise. Without a jump, a walk is appended exactly for a stationary leader between 200 and 2000 away, or when the leader is `keepWithinDistance` or more past the last task. |
| EngineFacts.OutOfZoneCounts | AutoPilot.cs:500-574 | The out-of-zone branch never adds a Loot or opt-in task. |
| EngineFacts.AddQuestLootShape | AutoPilot.cs:709-725 | The quest step appends at most one Loot task, and only when none is queued. |
| EngineFacts.AddMercenaryOptInShape | AutoPilot.cs:726-742 | The opt-in step appends at most one MercenaryOptIn task, and only when none is queued. |
| EngineFacts.OpportunisticShape | AutoPilot.cs:709-742 | The opportunistic step only appends Loot and opt-in tasks, and never a second of either kind. |
| EngineFacts.NearLeaderPurge | AutoPilot.cs:664-692 | Near the leader, every route task goes and the surviving tasks keep their order at the front. At most one Movement task follows, exactly when CloseFollow is on and the leader is `keepWithinDistance` or more away. |
| EngineFacts.LootEnqueuedOnlyWhenDue | AutoPilot.cs:709-725 | A Loot task is added only near the leader, outside hideouts, for a quest item closer than `transitionDistance`, and only when none is queued. |
| EngineFacts.LootAppendNeedsCause | AutoPilot.cs:709-725 | The opportunistic step adds Loot only outside hideouts, for a close quest item, when none is queued. |
| EngineFacts.OptInAppendNeedsCause | AutoPilot.cs:726-742 | The opportunistic step adds a MercenaryOptIn task only outside hideouts, for an opt-in button closer than `transitionDistance`, when none is queued. |
| EngineFacts.OpportunisticAppendsWhenDue | AutoPilot.cs:709-742 | Conversely, outside hideouts a close quest item is always enqueued when no Loot task is queued. A close opt-in button is always enqueued when no MercenaryOptIn task is queued. |
| EngineFacts.OptInEnqueuedOnlyWhenDue | AutoPilot.cs:664-742 | A MercenaryOptIn task is added only near the leader, outside hideouts, for a button closer than `transitionDistance`, and only when none is queued. |
| EngineFacts.PlanKeepsAtMostOne | AutoPilot.cs:500-742 | The planner preserves "at most one Loot and at most one opt-in task". |
| EngineFacts.SkippedWithoutLeaderRow | AutoPilot.cs:427-498 | A closed gate changes nothing. A missing roster row skips the cycle, execution included; only the follow target is refreshed. |
| EngineFacts.CycleKeepsAtMostOne | AutoPilot.cs:420-925 | A whole cycle preserves "at most one Loot and at most one opt-in task". |
| EngineFacts.TeleportOnlyWhenLeaderElsewhere | AutoPilot.cs:500-557 | The teleport controls are clicked only when the roster row is present and the entity absent, the roster names another zone, no transition is in progress, the zone is reliable, and no portal leads there. |
| EngineFacts.ZoneBufferTracking | AutoPilot.cs:503-507 | The change time is restamped only when the roster zone differs from the last one seen. Both are cleared once the leader's entity is found. |
| EngineFacts.PlanZoneTracking | AutoPilot.cs:500-579 | The planner clears the remembered zone and change time when the leader's entity is found. A new change time is always the current time, stamped together with the roster zone. |
| EngineFacts.ReliabilityBufferGatesTravel | AutoPilot.cs:516-558 | While the zone is fresher than the buffer, nothing is enqueued or clicked. Once it is older, a Transition is enqueued, or the teleport fallback runs. |
| EngineFacts.ZoneChangeDefers | AutoPilot.cs:503-516 | A freshly changed roster zone defers travel whenever the buffer is positive. |
| Grace.GraceVerdicts | AutoPilot.cs:344-418 | Synced exactly when the row, the entity and the zones agree before the timeout. A timeout happens exactly at or after 10 s. A corrective teleport happens only at a timeout with the roster in our zone. |
| Grace.SyncedExitsEarly | AutoPilot.cs:361-370 | A synced poll ends the monitor at once and clears the transition flag. |
| Grace.TimeoutClearsFlag | AutoPilot.cs:376-417 | Every timeout ends the monitor with the flag cleared. |
| Grace.StoppedMonitorIsInert | AutoPilot.cs:344-418 | A stopped monitor does nothing, whatever polls follow. |
| Grace.GraceRunEnds | AutoPilot.cs:354-417 | Any poll at or past the timeout ends the monitor, and a started monitor then has its flag cleared. |
| Grace.GraceRunTeleportsAtMostOnce | AutoPilot.cs:376-407 | A whole run emits no actions, or the teleport actions of a single poll. |
| Grace.UnsyncedLeaderForcesOneTeleport | AutoPilot.cs:381-407 | With the leader never seen and the roster putting the leader in our zone at the timeout, the run teleports once and clears the flag. |
| AutoPilot.AutoPilot.constructor | AutoPilot.cs:20-37 | A new follower has an empty queue, no leader zone recorded and no transition in progress. |
| AutoPilot.AutoPilot.ResetPathing | AutoPilot.cs:39-45 | Clears the queue, the target and both remembered positions; nothing else changes. |
| AutoPilot.AutoPilot.AreaChange | AutoPilot.cs:48-64 | A self-triggered zone change starts the monitor, then pathing is reset. |
| AutoPilot.AutoPilot.RenderToggle | AutoPilot.cs:1065-1069 | A key press flips the enable setting and clears the queue; no press changes nothing. |
| AutoPilot.AutoPilot.AutoPilotLogic | AutoPilot.cs:420-925 | One iteration leaves exactly the state and actions of `Engine.Cycle`, and preserves the queue invariant. |
| AutoPilot.AutoPilot.PlanTasks | AutoPilot.cs:500-747 | The planning half leaves exactly the state and actions of `Engine.Plan`. |
| AutoPilot.AutoPilot.TravelToLeaderZone | AutoPilot.cs:500-574 | The out-of-zone branch leaves exactly the state and actions of `Engine.OutOfZone`. |
| AutoPilot.AutoPilot.FollowFar | AutoPilot.cs:608-662 | The far rules change only the queue, to `Engine.FarRules`. |
| AutoPilot.AutoPilot.FollowNear | AutoPilot.cs:664-742 | The near rules change only the queue, to `Engine.NearRules`. |
| AutoPilot.AutoPilot.RemoveRouteTasks | AutoPilot.cs:670-681 | The backward removal loop leaves exactly the purged queue and changes nothing else. |
| AutoPilot.AddOpportunisticTasks | AutoPilot.cs:709-742 | The quest-loot and opt-in appends compute `Engine.OpportunisticStep`. |
| AutoPilot.AutoPilot.ExecuteHead | AutoPilot.cs:750-922 | The executing half leaves exactly the state and actions of `Engine.Execute`. |
| AutoPilot.AutoPilot.MovementStep | AutoPilot.cs:766-788 | A Movement head leaves exactly the state and actions of `Engine.ExecMovement`. |
| AutoPilot.AutoPilot.LootStep | AutoPilot.cs:790-821 | A Loot head leaves exactly the state and actions of `Engine.ExecLoot`. |
| AutoPilot.LootHead | AutoPilot.cs:790-821 | The Loot head on a queue value: the new queue is `Engine.LootQueue` (attempt counted, dropped when due) and the inputs are `Engine.LootActions` (release, then click or hover). |
| AutoPilot.AutoPilot.TransitionStep | AutoPilot.cs:823-861 | A Transition head leaves exactly the state and actions of `Engine.ExecTransition`. |
| AutoPilot.AutoPilot.MercenaryOptInStep | AutoPilot.cs:863-913 | A MercenaryOptIn head leaves exactly the state and actions of `Engine.ExecOptIn`. |
| AutoPilot.AutoPilot.PostTransitionGracePoll | AutoPilot.cs:344-418 | One wake-up of the monitor leaves exactly the state and actions of `Grace.GracePoll`, and keeps the queue invariant. |
| AutoPilot.GraceCheck | AutoPilot.cs:354-407 | The roster and entity lookups of one wake-up: done exactly when `Grace.GraceStep` gives a verdict other than waiting, with its actions. |
| Text.ContainsIffOccurs | AutoPilot.cs:177-199 | Substring search finds the needle exactly when it occurs at some index. |
| Seqs.ArgMin | AutoPilot.cs:179-189 | The index of the first element with the least key, as a stable sort followed by taking the first element gives. |
| Findings.TransitionDropKeepsFlag | AutoPilot.cs:756-838 | A Transition head dropped because the player moved far or the portal became invalid leaves the queue without a click, and the transition flag is unchanged. |
| Findings.ExecuteStrandsGate | AutoPilot.cs:826-838 | With the flag set, no monitor running and a lone Transition task whose portal is gone, the executor leaves the flag set with nothing queued to clear it. |
| Findings.StuckGateCycle | AutoPilot.cs:490-581 | With the flag set, an empty queue and the leader out of view, a cycle keeps the flag and the empty queue and issues no action. |
| Findings.StuckGatePersists | AutoPilot.cs:420-925 | The same holds over any number of cycles with the leader out of view and no area change in between. |
| Findings.FlagDoesNotGateFollowing | AutoPilot.cs:575-747 | With the leader's entity in view, the planner's queue, buffer reset and actions do not depend on the flag. |
| Findings.ExecuteReleasingGate | AutoPilot.cs:750-861 | A corrected executor. Its actions equal the executor's, and its state differs only in the transition flag. |
| Findings.ReleasingGateKeepsGateAccounted | AutoPilot.cs:750-861 | Under the corrected executor, a set flag stays accounted for: a grace monitor is running, or a Transition task is still queued. |

## Findings

| source | as written | input that shows it | evidently intended | confidence | as-written member | corrected member |
|---|---|---|---|---|---|---|
| AutoPilot.cs:756-763, 826-838 | A Transition task dropped without a zone change (the portal became invalid, or the player moved far) leaves `_isTransitioning` set. That flag blocks the out-of-zone branch, and only the grace monitor, started by an area change, clears it. | Click a portal, which sets the flag. The portal then disappears with no zone change, and the leader leaves view. From then on every cycle does nothing. | Clear the flag when a Transition task is dropped and no grace monitor is running, so a set flag is always accounted for. | medium, not executed | Findings.ExecuteStrandsGate, Findings.StuckGatePersists | Findings.ExecuteReleasingGate, Findings.ReleasingGateKeepsGateAccounted |

The class `AutoPilot.AutoPilot` and `Engine.Cycle` keep the executor as
written. The corrected executor stands beside it as the statement of the
intended gate discipline. The planner's near-leader purge can also remove
a Transition task while the flag is set (`EngineFacts.NearLeaderPurge`).
The correction does not cover that case: clearing the flag there could
cut a portal animation short. So only the executor's share of the gate is
proved.

## Left out

- Input injection and pacing (`Mouse`, `Keyboard`, `WaitTime`, jitter) are abstract `Action` values. Hover coordinates, key timing and the `MouseoverItem` retry are not modelled.
- Coroutines, the parallel runner and the watchdog restart are not modelled. The main loop is one `Cycle` per call, and the grace period is one `GracePoll` per wake-up.
- A coroutine re-reads game state after each `yield`. Each cycle here reads one snapshot.
- Several grace-period coroutines can run concurrently. The model keeps one `graceRunning` flag, so a second self-triggered area change joins the running monitor.
- Floating-point geometry (`Vector3`, `Vector2`, screen arithmetic, `WorldToValidScreenPosition`) is left out. Positions are integers, and on-screen checks are snapshot booleans.
- The line-of-sight oracle, `BaseItemTypes.Translate`, the `Targetable` component and the player's grid position are opaque snapshot inputs.
- All drawing in `Render`, debug logging, `debugMessages` and `PartyElementWindow.ToString` are left out. The debug-only portal listing in leveling zones is also left out.
- `DateTime.Now` and `Stopwatch` are the parameters `now` and `elapsedMs`. The random draw is the snapshot field `randomIndex`.
- Resolver.GetBestPortalLabel: the hideout pick takes the random index into the candidates in label order, not sorted by distance. The draw is an opaque input, so the set of possible picks is the same.
- Resolver.GetBestPortalLabel: exceptions are modelled only where the source catches them. A faulting label's metadata (all modes) or text (leveling) gives none in place of the thrown exception.
- Text.ToLower: `ToLower` and `OrdinalIgnoreCase` fold ASCII letters only. Non-ASCII case folding is not modelled.
- Engine.ExecTransition: a queued Transition keeps its label's id, and validity is re-read from the current snapshot. The C# keeps the label object itself.
- Tasks.TaskNode: the C# constructor of `TaskNode` is not among the modelled source files. That a label task takes the label's position and that every task starts with zero attempts are assumptions.
- Engine.FarRules: the portal-reach test reads the game's `ItemOnGround.DistancePlayer` as the opaque label field `distancePlayer` and compares it with 80 as given. Its unit (world or grid) is the game API's and is not modelled.
- Leader.FollowingTarget: exceptions thrown for single entities are not modelled. Each entity is a complete record.
- Engine.Plan: a null roster zone name would throw outside a `try` block. The engine parses with the current zone known, so this case cannot arise (`Leader.RosterOfHasZones`).
- Engine.GateOpen: the plugin's own `Enable` setting and the loading/focus checks are folded into the snapshot's `gameReady`. The `AutoPilot.Enabled` setting is the field `autoPilotEnabled`.
- `AttemptCount` is an unbounded natural number; 32-bit overflow is not modelled.
