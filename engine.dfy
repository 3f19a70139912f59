/**
 * One iteration of the follower's main loop as a function of the follower's
 * state, one game snapshot and the settings: the planner (which tasks to
 * enqueue, or whether to click the teleport button) followed by the
 * executor (which advances the head task only).
 */
module Engine {
  import opened Wrappers
  import opened World
  import opened PartyElements
  import opened Tasks
  import Leader
  import Resolver
  import Dash

  /** A Transition found while chasing a far leader is used only this close to the player. */
  const PORTAL_REACH: nat := 80
  /** The radius given to a Transition task enqueued while chasing a far leader. */
  const FAR_TRANSITION_BOUNDS: int := 200
  /** A stationary leader is walked to only between these distances. */
  const STATIONARY_MIN: nat := 200
  const STATIONARY_MAX: nat := 2000
  /** Attempt ceilings per task kind. */
  const LOOT_MAX_ATTEMPTS: nat := 2
  const TRANSITION_MAX_ATTEMPTS: nat := 6
  const OPTIN_MAX_ATTEMPTS: nat := 3

  /**
   * The fields of the follower the main loop reads and writes.
   * `leaderZoneChangeTime` is `None` for `DateTime.MinValue`;
   * `autoPilotEnabled` is the toggled setting; `graceRunning` says a
   * grace-period monitor is active.
   */
  datatype EngineState = EngineState(
    tasks: seq<TaskNode>,
    isTransitioning: bool,
    lastKnownLeaderZone: string,
    leaderZoneChangeTime: Option<int>,
    lastTargetPosition: Pos,
    lastPlayerPosition: Pos,
    followTarget: Option<Entity>,
    autoPilotEnabled: bool,
    graceRunning: bool)

  datatype Outcome = Outcome(state: EngineState, actions: seq<Action>)

  // ---------------------------------------------------------------- planner

  /** Restart the reliability buffer when the roster zone differs from the last one seen. */
  function TrackLeaderZone(st: EngineState, zone: string, now: int): EngineState {
    if st.lastKnownLeaderZone != zone then st.(lastKnownLeaderZone := zone, leaderZoneChangeTime := Some(now))
    else st
  }

  /**
   * The leader is in another zone and we are not mid-transition: once the
   * roster zone is reliable, enqueue a Transition to the best portal, or
   * fall back to the teleport button when there is none.
   */
  function OutOfZone(st: EngineState, entry: PartyElementWindow, snap: Snapshot, cfg: Settings): Outcome {
    var zone := Leader.ZoneOf(entry);
    var st1 := TrackLeaderZone(st, zone, snap.now);
    if Leader.IsLeaderZoneInfoReliable(entry.zoneName, snap.currentZone, snap.now, st1.leaderZoneChangeTime,
                                       cfg.zoneUpdateBufferMs) then
      var portal := Resolver.GetBestPortalLabel(snap.labels, snap.isHideout, snap.areaLevel, zone,
                                                st1.lastTargetPosition, snap.randomIndex);
      if portal.Some? then
        Outcome(st1.(tasks := st1.tasks + [LabelTask(portal.value, cfg.keepWithinDistance, Transition)]), [])
      else
        Outcome(st1, TeleportActions(snap))
    else
      Outcome(st1, [])
  }

  /** The leader is at least `transitionDistance` away. */
  function FarRules(tasks: seq<TaskNode>, lastTarget: Pos, leader: Entity, zone: string,
                    snap: Snapshot, cfg: Settings): seq<TaskNode>
  {
    var keep := cfg.keepWithinDistance;
    if lastTarget != Origin && DistAbove(lastTarget, leader.pos, cfg.transitionDistance) then
      // the leader jumped: take a nearby portal if there is one, else walk
      var transition := Resolver.GetBestPortalLabel(snap.labels, snap.isHideout, snap.areaLevel, zone,
                                                    lastTarget, snap.randomIndex);
      if transition.Some? && transition.value.distancePlayer < PORTAL_REACH then
        tasks + [LabelTask(transition.value, FAR_TRANSITION_BOUNDS, Transition)]
      else
        tasks + [MovementTask(leader.pos, keep)]
    else if |tasks| == 0 && DistBelow(lastTarget, leader.pos, STATIONARY_MAX) &&
            DistAbove(snap.playerPos, leader.pos, STATIONARY_MIN) && DistBelow(snap.playerPos, leader.pos, STATIONARY_MAX) then
      // a stationary leader, far but not too far
      tasks + [MovementTask(leader.pos, keep)]
    else if |tasks| > 0 && !DistBelow(tasks[|tasks| - 1].worldPosition, leader.pos, keep) then
      // a waypoint when the leader has left the last task behind
      tasks + [MovementTask(leader.pos, keep)]
    else
      tasks
  }

  /** With CloseFollow on, keep within `keepWithinDistance` of a near leader. */
  function CloseFollowStep(tasks: seq<TaskNode>, leader: Entity, snap: Snapshot, cfg: Settings): seq<TaskNode> {
    if cfg.closeFollow && !DistBelow(snap.playerPos, leader.pos, cfg.keepWithinDistance) then
      tasks + [MovementTask(leader.pos, cfg.keepWithinDistance)]
    else
      tasks
  }

  /** Queue the nearest quest item when it is close and no Loot task is queued. */
  function AddQuestLoot(tasks: seq<TaskNode>, snap: Snapshot, cfg: Settings): seq<TaskNode> {
    var questLoot := Resolver.GetQuestItem(snap.labels, snap.playerPos);
    if questLoot.Some? && DistBelow(snap.playerPos, questLoot.value.pos, cfg.transitionDistance) &&
       !HasKind(tasks, Loot)
    then tasks + [LootTask(questLoot.value.pos, cfg.transitionDistance)]
    else tasks
  }

  /** Queue the nearest opt-in button when it is close and no MercenaryOptIn task is queued. */
  function AddMercenaryOptIn(tasks: seq<TaskNode>, snap: Snapshot, cfg: Settings): seq<TaskNode> {
    var mercenaryOptIn := Resolver.GetMercenaryOptInButton(snap.labels, snap.playerPos);
    if mercenaryOptIn.Some? && DistBelow(snap.playerPos, mercenaryOptIn.value.pos, cfg.transitionDistance) &&
       !HasKind(tasks, MercenaryOptIn)
    then tasks + [LabelTask(mercenaryOptIn.value, cfg.transitionDistance, MercenaryOptIn)]
    else tasks
  }

  /** Outside hideouts: pick up a close quest item and press a close opt-in button. */
  function OpportunisticStep(tasks: seq<TaskNode>, snap: Snapshot, cfg: Settings): seq<TaskNode> {
    if snap.isHideout then tasks
    else AddMercenaryOptIn(AddQuestLoot(tasks, snap, cfg), snap, cfg)
  }

  /** The leader is nearer than `transitionDistance`. */
  function NearRules(tasks: seq<TaskNode>, leader: Entity, snap: Snapshot, cfg: Settings): seq<TaskNode> {
    OpportunisticStep(CloseFollowStep(PurgeRoutes(tasks), leader, snap, cfg), snap, cfg)
  }

  /** The planning half of a cycle, given the leader's roster row. */
  function Plan(st: EngineState, entry: PartyElementWindow, snap: Snapshot, cfg: Settings): Outcome {
    var zone := Leader.ZoneOf(entry);
    if st.followTarget.None? && zone != snap.currentZone && !st.isTransitioning then
      OutOfZone(st, entry, snap, cfg)
    else if st.followTarget.Some? then
      var leader := st.followTarget.value;
      var st1 := st.(lastKnownLeaderZone := "", leaderZoneChangeTime := None);
      var tasks := if DistBelow(snap.playerPos, leader.pos, cfg.transitionDistance)
                   then NearRules(st1.tasks, leader, snap, cfg)
                   else FarRules(st1.tasks, st1.lastTargetPosition, leader, zone, snap, cfg);
      Outcome(st1.(tasks := tasks, lastTargetPosition := leader.pos), [])
    else
      Outcome(st, [])
  }

  // --------------------------------------------------------------- executor

  /** Walk (or dash) toward a Movement head; drop it once within 1.5 x keepWithinDistance. */
  function ExecMovement(st: EngineState, snap: Snapshot, cfg: Settings): Outcome
    requires st.tasks != []
  {
    var task := st.tasks[0];
    var move := if cfg.dashEnabled && Dash.ShouldUseDash(snap.dash, cfg.dashEnabled, cfg.dashMinDistance, cfg.dashMaxDistance)
                then Dash(task.worldPosition) else Walk(task.worldPosition);
    var k := cfg.keepWithinDistance;
    var tasks := if 4 * Dist2(snap.playerPos, task.worldPosition) <= 9 * (k * k) then st.tasks[1..] else st.tasks;
    Outcome(st.(tasks := tasks), [move])
  }

  /**
   * A Loot head: count the attempt, drop the task when the item is gone,
   * tried too often or too far; then, dropped or not, release the move key
   * and hover (or click) the item if there is one.
   */
  function ExecLoot(st: EngineState, snap: Snapshot, cfg: Settings): Outcome
    requires st.tasks != []
  {
    Outcome(st.(tasks := LootQueue(st.tasks, snap, cfg), lastPlayerPosition := snap.playerPos), LootActions(snap))
  }

  /** The queue after a Loot head: its attempt counted, and dropped when due. */
  function LootQueue(tasks: seq<TaskNode>, snap: Snapshot, cfg: Settings): seq<TaskNode>
    requires tasks != []
  {
    var task := tasks[0].(attemptCount := tasks[0].attemptCount + 1);
    var questLoot := Resolver.GetQuestItem(snap.labels, snap.playerPos);
    var drop := questLoot.None? || task.attemptCount > LOOT_MAX_ATTEMPTS ||
                !DistBelow(snap.playerPos, questLoot.value.pos, cfg.transitionDistance);
    if drop then tasks[1..] else [task] + tasks[1..]
  }

  /** The inputs of a Loot head: release the move key, then click a targeted item or hover it. */
  function LootActions(snap: Snapshot): seq<Action> {
    var questLoot := Resolver.GetQuestItem(snap.labels, snap.playerPos);
    var interact := if questLoot.None? then []
                    else if questLoot.value.isTargeted then [ClickItem(questLoot.value.id)]
                    else [HoverItem(questLoot.value.id)];
    [ReleaseMoveKey] + interact
  }


  /** The portal of a Transition task still exists: valid, visible, with its item. */
  predicate PortalStillValid(labelId: Option<nat>, labels: Option<seq<GroundLabel>>) {
    labelId.Some? && labels.Some? &&
    exists i | 0 <= i < |labels.value| :: labels.value[i].id == labelId.value &&
      labels.value[i].labelValid && labels.value[i].isVisible && labels.value[i].hasItem
  }

  /**
   * A Transition head: an invalid portal drops the task; otherwise mark the
   * follower as transitioning, click the portal and count the attempt,
   * giving up (and unmarking) after TRANSITION_MAX_ATTEMPTS.
   */
  function ExecTransition(st: EngineState, snap: Snapshot, cfg: Settings): Outcome
    requires st.tasks != []
  {
    var task := st.tasks[0];
    if !PortalStillValid(task.labelId, snap.labels) then
      Outcome(st.(tasks := st.tasks[1..]), [])
    else
      var tried := task.(attemptCount := task.attemptCount + 1);
      var acts := [ReleaseMoveKey, ClickPortal(task.labelId.value)];
      if tried.attemptCount > TRANSITION_MAX_ATTEMPTS then
        Outcome(st.(tasks := st.tasks[1..], isTransitioning := false), acts)
      else
        Outcome(st.(tasks := [tried] + st.tasks[1..], isTransitioning := true), acts)
  }

  /** A MercenaryOptIn head: it leaves the queue this cycle, clicked or not. */
  function ExecOptIn(st: EngineState, snap: Snapshot, cfg: Settings): Outcome
    requires st.tasks != []
  {
    var task := st.tasks[0].(attemptCount := st.tasks[0].attemptCount + 1);
    var mercenaryOptIn := Resolver.GetMercenaryOptInButton(snap.labels, snap.playerPos);
    if mercenaryOptIn.None? || task.attemptCount > OPTIN_MAX_ATTEMPTS ||
       !DistBelow(snap.playerPos, mercenaryOptIn.value.pos, cfg.transitionDistance) then
      Outcome(st.(tasks := st.tasks[1..]), [])
    else
      var click := if snap.optInButtonOnScreen then [ClickOptIn(mercenaryOptIn.value.id)] else [];
      Outcome(st.(tasks := st.tasks[1..], lastPlayerPosition := snap.playerPos), [ReleaseMoveKey] + click)
  }

  /**
   * The executing half of a cycle, including the end-of-loop update of
   * `lastPlayerPosition` on the paths that reach it.
   */
  function Execute(st: EngineState, snap: Snapshot, cfg: Settings): Outcome {
    if st.tasks == [] then
      Outcome(st.(lastPlayerPosition := snap.playerPos), [])
    else if st.tasks[0].kind == Transition &&
            !DistBelow(snap.playerPos, st.lastPlayerPosition, cfg.transitionDistance) then
      // we moved far since the last cycle: the transition happened
      Outcome(st.(tasks := st.tasks[1..], lastPlayerPosition := snap.playerPos), [])
    else
      match st.tasks[0].kind
      case Movement => ExecMovement(st, snap, cfg)
      case Loot => ExecLoot(st, snap, cfg)
      case Transition => ExecTransition(st, snap, cfg)
      case MercenaryOptIn => ExecOptIn(st, snap, cfg)
  }

  // ------------------------------------------------------------------ cycle

  /** The gate: the loop does nothing unless the game is usable, the follower enabled and a leader named. */
  predicate GateOpen(st: EngineState, snap: Snapshot, cfg: Settings) {
    snap.gameReady && st.autoPilotEnabled && cfg.leaderName != ""
  }

  function EntryOf(snap: Snapshot, cfg: Settings): Option<PartyElementWindow> {
    Leader.LeaderEntry(Leader.RosterOf(snap), cfg.leaderName)
  }

  function TargetOf(snap: Snapshot, cfg: Settings): Option<Entity> {
    Leader.FollowingTarget(snap.players, snap.localPlayerName, cfg.leaderName)
  }

  /** One iteration of `AutoPilotLogic`. */
  function Cycle(st: EngineState, snap: Snapshot, cfg: Settings): Outcome {
    if !GateOpen(st, snap, cfg) then Outcome(st, [])
    else
      var st1 := st.(followTarget := TargetOf(snap, cfg));
      var entry := EntryOf(snap, cfg);
      if entry.None? then Outcome(st1, [])
      else
        var planned := Plan(st1, entry.value, snap, cfg);
        var executed := Execute(planned.state, snap, cfg);
        Outcome(executed.state, planned.actions + executed.actions)
  }
}
