/**
 * The follower itself: its fields, the loop body run once per cycle, the
 * grace-period poll, the area-change hook and the enable toggle. Each
 * method is proved against the cycle functions of `Engine` and `Grace`.
 */
module AutoPilot {
  import opened Wrappers
  import opened World
  import opened PartyElements
  import opened Tasks
  import opened Engine
  import Leader
  import Resolver
  import Dash
  import Grace
  import EngineFacts

  class AutoPilot {
    var tasks: seq<TaskNode>
    var isTransitioning: bool
    var lastKnownLeaderZone: string
    var leaderZoneChangeTime: Option<int>
    var lastTargetPosition: Pos
    var lastPlayerPosition: Pos
    var followTarget: Option<Entity>
    var autoPilotEnabled: bool
    var graceRunning: bool

    /** The fields as one value. */
    function State(): EngineState
      reads this
    {
      EngineState(tasks, isTransitioning, lastKnownLeaderZone, leaderZoneChangeTime, lastTargetPosition,
                  lastPlayerPosition, followTarget, autoPilotEnabled, graceRunning)
    }

    /** The queue invariant: at most one Loot and at most one MercenaryOptIn task. */
    predicate Valid()
      reads this
    {
      AtMostOneOpportunistic(tasks)
    }

    /** A fresh follower: empty queue, no leader zone recorded, not transitioning. */
    constructor (enabled: bool)
      ensures State() == EngineState([], false, "", None, Origin, Origin, None, enabled, false)
      ensures Valid()
    {
      tasks := [];
      isTransitioning := false;
      lastKnownLeaderZone := "";
      leaderZoneChangeTime := None;
      lastTargetPosition := Origin;
      lastPlayerPosition := Origin;
      followTarget := None;
      autoPilotEnabled := enabled;
      graceRunning := false;
    }

    /** `ResetPathing`: forget the queue, the target and both remembered positions. */
    method ResetPathing()
      modifies this
      ensures State() == old(State()).(tasks := [], followTarget := None,
                                        lastTargetPosition := Origin, lastPlayerPosition := Origin)
      ensures Valid()
    {
      tasks := [];
      followTarget := None;
      lastTargetPosition := Origin;
      lastPlayerPosition := Origin;
    }

    /** `AreaChange`: a self-triggered zone change starts the grace-period monitor; pathing is reset. */
    method AreaChange()
      modifies this
      ensures State() == old(State()).(tasks := [], followTarget := None,
                                        lastTargetPosition := Origin, lastPlayerPosition := Origin,
                                        graceRunning := old(graceRunning) || old(isTransitioning))
      ensures Valid()
    {
      if isTransitioning {
        graceRunning := true;
      }
      ResetPathing();
    }

    /** The toggle at the top of `Render`: a press flips the enable setting and clears the queue. */
    method RenderToggle(toggleKeyPressed: bool)
      modifies this
      ensures toggleKeyPressed ==> State() == old(State()).(autoPilotEnabled := !old(autoPilotEnabled), tasks := [])
      ensures !toggleKeyPressed ==> State() == old(State())
      ensures old(Valid()) ==> Valid()
    {
      if toggleKeyPressed {
        autoPilotEnabled := !autoPilotEnabled;
        tasks := [];
      }
    }

    /** One iteration of `AutoPilotLogic`. */
    method AutoPilotLogic(snap: Snapshot, cfg: Settings) returns (actions: seq<Action>)
      modifies this
      ensures State() == Cycle(old(State()), snap, cfg).state
      ensures actions == Cycle(old(State()), snap, cfg).actions
      ensures old(Valid()) ==> Valid()
    {
      if Valid() {
        EngineFacts.CycleKeepsAtMostOne(State(), snap, cfg);
      }
      actions := [];
      if !snap.gameReady || !autoPilotEnabled || cfg.leaderName == "" {
        return;
      }
      followTarget := Leader.GetFollowingTarget(snap, cfg.leaderName);
      var leaderPartyElement := Leader.GetLeaderPartyElement(snap, cfg.leaderName);
      if leaderPartyElement.None? {
        return;
      }
      actions := PlanTasks(leaderPartyElement.value, snap, cfg);
      var executed := ExecuteHead(snap, cfg);
      actions := actions + executed;
    }

    /** The planning half: the out-of-zone branch or the far and near rules. */
    method PlanTasks(leaderPartyElement: PartyElementWindow, snap: Snapshot, cfg: Settings)
      returns (actions: seq<Action>)
      modifies this
      ensures State() == Plan(old(State()), leaderPartyElement, snap, cfg).state
      ensures actions == Plan(old(State()), leaderPartyElement, snap, cfg).actions
    {
      actions := [];
      var zone := Leader.ZoneOf(leaderPartyElement);
      if followTarget.None? && zone != snap.currentZone && !isTransitioning {
        actions := TravelToLeaderZone(leaderPartyElement, snap, cfg);
      } else if followTarget.Some? {
        lastKnownLeaderZone := "";
        leaderZoneChangeTime := None;
        var leader := followTarget.value;
        if !DistBelow(snap.playerPos, leader.pos, cfg.transitionDistance) {
          FollowFar(leader, zone, snap, cfg);
        } else {
          FollowNear(leader, snap, cfg);
        }
        lastTargetPosition := leader.pos;
      }
    }

    /** The leader's roster row names another zone: track it and, once reliable, head for a portal or teleport. */
    method TravelToLeaderZone(leaderPartyElement: PartyElementWindow, snap: Snapshot, cfg: Settings)
      returns (actions: seq<Action>)
      modifies this
      ensures State() == OutOfZone(old(State()), leaderPartyElement, snap, cfg).state
      ensures actions == OutOfZone(old(State()), leaderPartyElement, snap, cfg).actions
    {
      actions := [];
      var zone := Leader.ZoneOf(leaderPartyElement);
      if lastKnownLeaderZone != zone {
        lastKnownLeaderZone := zone;
        leaderZoneChangeTime := Some(snap.now);
      }
      if Leader.IsLeaderZoneInfoReliable(leaderPartyElement.zoneName, snap.currentZone, snap.now,
                                         leaderZoneChangeTime, cfg.zoneUpdateBufferMs) {
        var portal := Resolver.GetBestPortalLabel(snap.labels, snap.isHideout, snap.areaLevel, zone,
                                                  lastTargetPosition, snap.randomIndex);
        if portal.Some? {
          tasks := tasks + [LabelTask(portal.value, cfg.keepWithinDistance, Transition)];
        } else {
          actions := TeleportActions(snap);
        }
      }
    }

    /** The far-leader rules: a portal or a walk after a jump, a stationary leader, a waypoint. */
    method FollowFar(leader: Entity, zone: string, snap: Snapshot, cfg: Settings)
      modifies this
      ensures State() == old(State()).(tasks := FarRules(old(tasks), old(lastTargetPosition), leader, zone, snap, cfg))
    {
      var keepWithinDistance := cfg.keepWithinDistance;
      var ts := tasks;
      if lastTargetPosition != Origin && DistAbove(lastTargetPosition, leader.pos, cfg.transitionDistance) {
        var transition := Resolver.GetBestPortalLabel(snap.labels, snap.isHideout, snap.areaLevel, zone,
                                                      lastTargetPosition, snap.randomIndex);
        if transition.Some? && transition.value.distancePlayer < PORTAL_REACH {
          ts := ts + [LabelTask(transition.value, FAR_TRANSITION_BOUNDS, Transition)];
        } else {
          ts := ts + [MovementTask(leader.pos, keepWithinDistance)];
        }
      } else if |ts| == 0 && DistBelow(lastTargetPosition, leader.pos, STATIONARY_MAX) &&
                DistAbove(snap.playerPos, leader.pos, STATIONARY_MIN) &&
                DistBelow(snap.playerPos, leader.pos, STATIONARY_MAX) {
        ts := ts + [MovementTask(leader.pos, keepWithinDistance)];
      } else if |ts| > 0 {
        if !DistBelow(ts[|ts| - 1].worldPosition, leader.pos, keepWithinDistance) {
          ts := ts + [MovementTask(leader.pos, keepWithinDistance)];
        }
      }
      tasks := ts;
    }

    /** The near-leader rules: purge routes, close-follow, then quest loot and the opt-in button. */
    method FollowNear(leader: Entity, snap: Snapshot, cfg: Settings)
      modifies this
      ensures State() == old(State()).(tasks := NearRules(old(tasks), leader, snap, cfg))
    {
      if |tasks| > 0 {
        RemoveRouteTasks();
      }
      var ts := tasks;
      if cfg.closeFollow && !DistBelow(snap.playerPos, leader.pos, cfg.keepWithinDistance) {
        ts := ts + [MovementTask(leader.pos, cfg.keepWithinDistance)];
      }
      ts := AddOpportunisticTasks(ts, snap, cfg);
      tasks := ts;
    }

    /** The backward removal loop: delete every Movement and Transition task, last index first. */
    method RemoveRouteTasks()
      modifies this
      ensures State() == old(State()).(tasks := PurgeRoutes(old(tasks)))
    {
      var original := tasks;
      var ts := tasks;
      var i := |ts|;
      assert original[i..] == [];
      while i > 0
        invariant 0 <= i <= |original|
        invariant ts == original[..i] + PurgeRoutes(original[i..])
        invariant unchanged(this)
      {
        i := i - 1;
        PurgeUnfold(original, i);
        assert original[..i + 1] == original[..i] + [original[i]];
        assert ts[..i] == original[..i] && ts[i] == original[i];
        if IsRoute(ts[i]) {
          ts := ts[..i] + ts[i + 1..];
        }
      }
      assert original[..0] == [] && original[0..] == original;
      assert ts == PurgeRoutes(original);
      tasks := ts;
    }

    /**
     * The executing half: advance the head task by its kind. The end-of-loop
     * update of `lastPlayerPosition` is made here for an empty queue and a
     * finished Transition, and inside the cases that fall through to it.
     */
    method ExecuteHead(snap: Snapshot, cfg: Settings) returns (actions: seq<Action>)
      modifies this
      ensures State() == Execute(old(State()), snap, cfg).state
      ensures actions == Execute(old(State()), snap, cfg).actions
    {
      actions := [];
      if |tasks| == 0 {
        lastPlayerPosition := snap.playerPos;
        return;
      }
      if tasks[0].kind == Transition && !DistBelow(snap.playerPos, lastPlayerPosition, cfg.transitionDistance) {
        tasks := tasks[1..];
        lastPlayerPosition := snap.playerPos;
        return;
      }
      match tasks[0].kind {
        case Movement => actions := MovementStep(snap, cfg);
        case Loot => actions := LootStep(snap, cfg);
        case Transition => actions := TransitionStep(snap, cfg);
        case MercenaryOptIn => actions := MercenaryOptInStep(snap, cfg);
      }
    }

    /** A Movement head: walk or dash to it, and drop it once within 1.5 x keepWithinDistance. */
    method MovementStep(snap: Snapshot, cfg: Settings) returns (actions: seq<Action>)
      requires |tasks| > 0
      modifies this
      ensures State() == ExecMovement(old(State()), snap, cfg).state
      ensures actions == ExecMovement(old(State()), snap, cfg).actions
    {
      var currentTask := tasks[0];
      if cfg.dashEnabled && Dash.ShouldUseDash(snap.dash, cfg.dashEnabled, cfg.dashMinDistance, cfg.dashMaxDistance) {
        actions := [Dash(currentTask.worldPosition)];
      } else {
        actions := [Walk(currentTask.worldPosition)];
      }
      var k := cfg.keepWithinDistance;
      if 4 * Dist2(snap.playerPos, currentTask.worldPosition) <= 9 * (k * k) {
        tasks := tasks[1..];
      }
    }

    /** A Loot head: count the attempt, maybe drop it, then release the key and hover or click the item. */
    method LootStep(snap: Snapshot, cfg: Settings) returns (actions: seq<Action>)
      requires |tasks| > 0
      modifies this
      ensures State() == ExecLoot(old(State()), snap, cfg).state
      ensures actions == ExecLoot(old(State()), snap, cfg).actions
    {
      var ts: seq<TaskNode>;
      ts, actions := LootHead(tasks, snap, cfg);
      tasks := ts;
      lastPlayerPosition := snap.playerPos;
    }

    /** A Transition head: drop an invalid portal; otherwise click it, giving up after too many attempts. */
    method TransitionStep(snap: Snapshot, cfg: Settings) returns (actions: seq<Action>)
      requires |tasks| > 0
      modifies this
      ensures State() == ExecTransition(old(State()), snap, cfg).state
      ensures actions == ExecTransition(old(State()), snap, cfg).actions
    {
      var currentTask := tasks[0];
      if !PortalStillValid(currentTask.labelId, snap.labels) {
        tasks := tasks[1..];
        return [];
      }
      actions := [ReleaseMoveKey, ClickPortal(currentTask.labelId.value)];
      currentTask := currentTask.(attemptCount := currentTask.attemptCount + 1);
      if currentTask.attemptCount > TRANSITION_MAX_ATTEMPTS {
        tasks := tasks[1..];
        isTransitioning := false;
      } else {
        tasks := [currentTask] + tasks[1..];
        isTransitioning := true;
      }
    }

    /** A MercenaryOptIn head: it always leaves the queue; the button is clicked when still due. */
    method MercenaryOptInStep(snap: Snapshot, cfg: Settings) returns (actions: seq<Action>)
      requires |tasks| > 0
      modifies this
      ensures State() == ExecOptIn(old(State()), snap, cfg).state
      ensures actions == ExecOptIn(old(State()), snap, cfg).actions
    {
      var currentTask := tasks[0];
      currentTask := currentTask.(attemptCount := currentTask.attemptCount + 1);
      var mercenaryOptIn := Resolver.GetMercenaryOptInButton(snap.labels, snap.playerPos);
      if mercenaryOptIn.None? || currentTask.attemptCount > OPTIN_MAX_ATTEMPTS ||
         !DistBelow(snap.playerPos, mercenaryOptIn.value.pos, cfg.transitionDistance) {
        tasks := tasks[1..];
        return [];
      }
      actions := [ReleaseMoveKey];
      if snap.optInButtonOnScreen {
        actions := actions + [ClickOptIn(mercenaryOptIn.value.id)];
      }
      tasks := tasks[1..];
      lastPlayerPosition := snap.playerPos;
    }

    /** One wake-up of `PostTransitionGracePeriod`, `elapsedMs` after it started. */
    method PostTransitionGracePoll(elapsedMs: int, snap: Snapshot, cfg: Settings) returns (actions: seq<Action>)
      modifies this
      ensures State() == Grace.GracePoll(old(State()), Grace.Poll(elapsedMs, snap), cfg).state
      ensures actions == Grace.GracePoll(old(State()), Grace.Poll(elapsedMs, snap), cfg).actions
      ensures old(Valid()) ==> Valid()
    {
      actions := [];
      if !graceRunning {
        return;
      }
      var done: bool;
      done, actions := GraceCheck(elapsedMs, snap, cfg);
      if done {
        isTransitioning := false;
        graceRunning := false;
      }
    }
  }

  /**
   * What one wake-up of the grace monitor sees: whether the monitor is done
   * (synced, or timed out) and the actions it takes.
   */
  method GraceCheck(elapsedMs: int, snap: Snapshot, cfg: Settings) returns (done: bool, actions: seq<Action>)
    ensures done == (Grace.GraceStep(elapsedMs, snap, cfg).verdict != Grace.Waiting)
    ensures actions == Grace.GraceStep(elapsedMs, snap, cfg).actions
  {
    actions := [];
    var leaderPartyElement := Leader.GetLeaderPartyElement(snap, cfg.leaderName);
    var inOurZone := leaderPartyElement.Some? && Leader.ZoneOf(leaderPartyElement.value) == snap.currentZone;
    assert inOurZone == Grace.RosterInOurZone(snap, cfg);
    if elapsedMs < Grace.TIMEOUT_MS {
      var target := Leader.GetFollowingTarget(snap, cfg.leaderName);
      done := inOurZone && target.Some?;
    } else {
      // the timeout: force a teleport when the roster puts the leader here
      if inOurZone {
        actions := TeleportActions(snap);
      }
      done := true;
    }
  }

  /** A Loot head on a queue value: count the attempt, drop the task when due, and interact with the item. */
  method LootHead(tasks: seq<TaskNode>, snap: Snapshot, cfg: Settings) returns (ts: seq<TaskNode>, actions: seq<Action>)
    requires |tasks| > 0
    ensures ts == LootQueue(tasks, snap, cfg)
    ensures actions == LootActions(snap)
  {
    var currentTask := tasks[0];
    currentTask := currentTask.(attemptCount := currentTask.attemptCount + 1);
    var questLoot := Resolver.GetQuestItem(snap.labels, snap.playerPos);
    var drop := questLoot.None? || currentTask.attemptCount > LOOT_MAX_ATTEMPTS ||
                !DistBelow(snap.playerPos, questLoot.value.pos, cfg.transitionDistance);
    ts := if drop then tasks[1..] else [currentTask] + tasks[1..];
    var interact := if questLoot.None? then []
                    else if questLoot.value.isTargeted then [ClickItem(questLoot.value.id)]
                    else [HoverItem(questLoot.value.id)];
    actions := [ReleaseMoveKey] + interact;
  }

  /** The opportunistic part of the near rules, on a queue value. */
  method AddOpportunisticTasks(tasks: seq<TaskNode>, snap: Snapshot, cfg: Settings) returns (ts: seq<TaskNode>)
    ensures ts == OpportunisticStep(tasks, snap, cfg)
  {
    ts := tasks;
    if !snap.isHideout {
      var questLoot := Resolver.GetQuestItem(snap.labels, snap.playerPos);
      if questLoot.Some? && DistBelow(snap.playerPos, questLoot.value.pos, cfg.transitionDistance) &&
         !HasKind(ts, Loot) {
        ts := ts + [LootTask(questLoot.value.pos, cfg.transitionDistance)];
      }
      assert ts == AddQuestLoot(tasks, snap, cfg);
      var mercenaryOptIn := Resolver.GetMercenaryOptInButton(snap.labels, snap.playerPos);
      if mercenaryOptIn.Some? && DistBelow(snap.playerPos, mercenaryOptIn.value.pos, cfg.transitionDistance) &&
         !HasKind(ts, MercenaryOptIn) {
        ts := ts + [LabelTask(mercenaryOptIn.value, cfg.transitionDistance, MercenaryOptIn)];
      }
    }
  }

  /** One step of the purge, seen from index `i`. */
  lemma PurgeUnfold(s: seq<TaskNode>, i: nat)
    requires i < |s|
    ensures PurgeRoutes(s[i..]) == (if IsRoute(s[i]) then [] else [s[i]]) + PurgeRoutes(s[i + 1..])
  {
    assert s[i..][1..] == s[i + 1..];
  }
}
