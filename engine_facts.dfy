/**
 * What one cycle of the main loop guarantees: which paths may click the
 * teleport button, how the reliability buffer is tracked, what the
 * near-leader purge leaves, that the executor touches only the head task,
 * and the per-kind rules for the head.
 */
module EngineFacts {
  import opened Wrappers
  import opened World
  import opened PartyElements
  import opened Tasks
  import opened Engine
  import Leader
  import Resolver
  import Dash

  // ------------------------------------------------------------- count helpers

  lemma AppendOne(ts: seq<TaskNode>, t: TaskNode, k: TaskKind)
    ensures CountKind(ts + [t], k) == CountKind(ts, k) + (if t.kind == k then 1 else 0)
  {
    CountAppend(ts, [t], k);
    assert [t][1..] == [];
  }

  lemma HasKindAppend(ts: seq<TaskNode>, t: TaskNode, k: TaskKind)
    ensures HasKind(ts + [t], k) <==> HasKind(ts, k) || t.kind == k
  {
    HasKindIffCount(ts, k);
    HasKindIffCount(ts + [t], k);
    AppendOne(ts, t, k);
  }

  // ------------------------------------------------------------- executor

  /** The executor changes only the queue, the transition flag and the last player position. */
  lemma ExecuteFrame(st: EngineState, snap: Snapshot, cfg: Settings)
    ensures var r := Execute(st, snap, cfg).state;
            r == st.(tasks := r.tasks, isTransitioning := r.isTransitioning, lastPlayerPosition := r.lastPlayerPosition)
    ensures Execute(st, snap, cfg).state.isTransitioning != st.isTransitioning ==>
              st.tasks != [] && st.tasks[0].kind == Transition
    ensures Execute(st, snap, cfg).state.lastPlayerPosition in {st.lastPlayerPosition, snap.playerPos}
  {
    if st.tasks != [] && !(st.tasks[0].kind == Transition &&
                           !DistBelow(snap.playerPos, st.lastPlayerPosition, cfg.transitionDistance)) {
      match st.tasks[0].kind
      case Movement => assert Execute(st, snap, cfg) == ExecMovement(st, snap, cfg);
      case Loot => assert Execute(st, snap, cfg) == ExecLoot(st, snap, cfg);
      case Transition => assert Execute(st, snap, cfg) == ExecTransition(st, snap, cfg);
      case MercenaryOptIn => assert Execute(st, snap, cfg) == ExecOptIn(st, snap, cfg);
    }
  }

  /** The executor never clicks the teleport controls. */
  lemma ExecuteNeverTeleports(st: EngineState, snap: Snapshot, cfg: Settings)
    ensures ClickTpButton !in Execute(st, snap, cfg).actions
    ensures ConfirmTeleport !in Execute(st, snap, cfg).actions
  {
    if st.tasks != [] && !(st.tasks[0].kind == Transition &&
                           !DistBelow(snap.playerPos, st.lastPlayerPosition, cfg.transitionDistance)) {
      match st.tasks[0].kind
      case Movement =>
      case Loot =>
        var questLoot := Resolver.GetQuestItem(snap.labels, snap.playerPos);
        var interact := if questLoot.None? then []
                        else if questLoot.value.isTargeted then [ClickItem(questLoot.value.id)]
                        else [HoverItem(questLoot.value.id)];
        assert Execute(st, snap, cfg).actions == [ReleaseMoveKey] + interact;
      case Transition =>
      case MercenaryOptIn =>
    }
  }

  /**
   * Only the head is ever touched: an empty queue stays empty, and otherwise
   * the head is removed, advanced in place (its attempts never decrease), or
   * left alone; the rest of the queue is never changed.
   */
  lemma ExecuteChangesOnlyHead(st: EngineState, snap: Snapshot, cfg: Settings)
    ensures HeadOnlyChange(st.tasks, Execute(st, snap, cfg).state.tasks)
    ensures st.tasks == [] ==> Execute(st, snap, cfg).state.tasks == []
  {
    if st.tasks != [] && !(st.tasks[0].kind == Transition &&
                           !DistBelow(snap.playerPos, st.lastPlayerPosition, cfg.transitionDistance)) {
      match st.tasks[0].kind
      case Movement => assert Execute(st, snap, cfg) == ExecMovement(st, snap, cfg);
      case Loot => assert Execute(st, snap, cfg) == ExecLoot(st, snap, cfg);
      case Transition => assert Execute(st, snap, cfg) == ExecTransition(st, snap, cfg);
      case MercenaryOptIn => assert Execute(st, snap, cfg) == ExecOptIn(st, snap, cfg);
    }
  }

  /** The end-of-loop update happens when the queue is empty. */
  lemma EmptyQueueRecordsPosition(st: EngineState, snap: Snapshot, cfg: Settings)
    requires st.tasks == []
    ensures Execute(st, snap, cfg) == Outcome(st.(lastPlayerPosition := snap.playerPos), [])
  {
  }

  /** A Transition head is dropped, with no click, once the player has moved `transitionDistance` or more. */
  lemma TransitionDroppedAfterMove(st: EngineState, snap: Snapshot, cfg: Settings)
    requires st.tasks != [] && st.tasks[0].kind == Transition
    requires !DistBelow(snap.playerPos, st.lastPlayerPosition, cfg.transitionDistance)
    ensures Execute(st, snap, cfg).state.tasks == st.tasks[1..]
    ensures Execute(st, snap, cfg).state.isTransitioning == st.isTransitioning
    ensures Execute(st, snap, cfg).actions == []
  {
  }

  /**
   * A Movement head issues exactly one walk or dash to its position (a dash
   * exactly when the heuristic allows it) and is removed iff the distance
   * before the move is at most 1.5 x keepWithinDistance. The end-of-loop
   * position update is skipped.
   */
  lemma MovementHeadRule(st: EngineState, snap: Snapshot, cfg: Settings)
    requires st.tasks != [] && st.tasks[0].kind == Movement
    ensures var r := Execute(st, snap, cfg);
            var d2 := Dist2(snap.playerPos, st.tasks[0].worldPosition);
            var k := cfg.keepWithinDistance;
            && (4 * d2 <= 9 * (k * k) ==> r.state.tasks == st.tasks[1..])
            && (4 * d2 > 9 * (k * k) ==> r.state.tasks == st.tasks)
            && r.state.lastPlayerPosition == st.lastPlayerPosition
            && |r.actions| == 1
            && (r.actions[0] == Dash(st.tasks[0].worldPosition) <==>
                  cfg.dashEnabled && Dash.ShouldUseDash(snap.dash, cfg.dashEnabled, cfg.dashMinDistance, cfg.dashMaxDistance))
            && (r.actions[0] == Walk(st.tasks[0].worldPosition) <==>
                  !(cfg.dashEnabled && Dash.ShouldUseDash(snap.dash, cfg.dashEnabled, cfg.dashMinDistance, cfg.dashMaxDistance)))
  {
  }

  /**
   * A boundary illustration of `MovementHeadRule`: a Movement task exactly
   * 1.5 x keepWithinDistance away is dequeued, so the comparison is inclusive.
   */
  lemma MovementBoundaryInclusive(st: EngineState, snap: Snapshot, cfg: Settings)
    requires cfg.keepWithinDistance == 2 && snap.playerPos == Origin
    requires st.tasks != [] && st.tasks[0].kind == Movement && st.tasks[0].worldPosition == Pos(3, 0, 0)
    ensures Execute(st, snap, cfg).state.tasks == st.tasks[1..]
  {
    MovementHeadRule(st, snap, cfg);
  }

  /**
   * A Loot head counts an attempt and is dropped iff the quest item is gone,
   * this is attempt 3 or later, or the item is `transitionDistance` or more
   * away. Dropped or not, the cycle then releases the move key and, when an
   * item is present, clicks it if it is targeted and hovers it otherwise.
   */
  lemma LootHeadRule(st: EngineState, snap: Snapshot, cfg: Settings)
    requires st.tasks != [] && st.tasks[0].kind == Loot
    ensures var r := Execute(st, snap, cfg);
            var questLoot := Resolver.GetQuestItem(snap.labels, snap.playerPos);
            var tried := st.tasks[0].attemptCount + 1;
            var drop := questLoot.None? || tried > LOOT_MAX_ATTEMPTS ||
                        !DistBelow(snap.playerPos, questLoot.value.pos, cfg.transitionDistance);
            && (drop ==> r.state.tasks == st.tasks[1..])
            && (!drop ==> r.state.tasks == [st.tasks[0].(attemptCount := tried)] + st.tasks[1..])
            && (questLoot.Some? && questLoot.value.isTargeted ==> r.actions == [ReleaseMoveKey, ClickItem(questLoot.value.id)])
            && (questLoot.Some? && !questLoot.value.isTargeted ==> r.actions == [ReleaseMoveKey, HoverItem(questLoot.value.id)])
            && (questLoot.None? ==> r.actions == [ReleaseMoveKey])
            && r.state.lastPlayerPosition == snap.playerPos
  {
  }

  /**
   * The transition flag on a Transition head the player has not moved away
   * from: an invalid portal drops the task without touching the flag;
   * otherwise the flag is set, the portal clicked and the attempt counted,
   * and the seventh attempt drops the task and clears the flag.
   */
  lemma TransitionHeadRule(st: EngineState, snap: Snapshot, cfg: Settings)
    requires st.tasks != [] && st.tasks[0].kind == Transition
    requires DistBelow(snap.playerPos, st.lastPlayerPosition, cfg.transitionDistance)
    ensures var r := Execute(st, snap, cfg);
            var task := st.tasks[0];
            && (!PortalStillValid(task.labelId, snap.labels) ==>
                  r.state.tasks == st.tasks[1..] && r.state.isTransitioning == st.isTransitioning && r.actions == [])
            && (PortalStillValid(task.labelId, snap.labels) ==>
                  ClickPortal(task.labelId.value) in r.actions &&
                  (task.attemptCount + 1 > TRANSITION_MAX_ATTEMPTS ==>
                     r.state.tasks == st.tasks[1..] && !r.state.isTransitioning) &&
                  (task.attemptCount + 1 <= TRANSITION_MAX_ATTEMPTS ==>
                     r.state.tasks == [task.(attemptCount := task.attemptCount + 1)] + st.tasks[1..] &&
                     r.state.isTransitioning))
            && r.state.lastPlayerPosition == st.lastPlayerPosition
  {
  }

  /**
   * A MercenaryOptIn head always leaves the queue; the button is clicked
   * only when it is still there, within reach and this is at most the third
   * attempt.
   */
  lemma OptInHeadRule(st: EngineState, snap: Snapshot, cfg: Settings)
    requires st.tasks != [] && st.tasks[0].kind == MercenaryOptIn
    ensures var r := Execute(st, snap, cfg);
            var button := Resolver.GetMercenaryOptInButton(snap.labels, snap.playerPos);
            && r.state.tasks == st.tasks[1..]
            && (forall a :: a in r.actions && a.ClickOptIn? ==>
                  button.Some? && a == ClickOptIn(button.value.id) &&
                  st.tasks[0].attemptCount + 1 <= OPTIN_MAX_ATTEMPTS &&
                  DistBelow(snap.playerPos, button.value.pos, cfg.transitionDistance))
  {
  }

  // -------------------------------------------------------------- planner

  /** The planner's appends are route tasks outside the near rules and never Loot or opt-in tasks. */
  lemma FarRulesCounts(tasks: seq<TaskNode>, lastTarget: Pos, leader: Entity, zone: string,
                       snap: Snapshot, cfg: Settings, k: TaskKind)
    requires k == Loot || k == MercenaryOptIn
    ensures CountKind(FarRules(tasks, lastTarget, leader, zone, snap, cfg), k) == CountKind(tasks, k)
    ensures |tasks| <= |FarRules(tasks, lastTarget, leader, zone, snap, cfg)| <= |tasks| + 1
  {
    var r := FarRules(tasks, lastTarget, leader, zone, snap, cfg);
    if r != tasks {
      AppendOne(tasks, r[|r| - 1], k);
      assert r == tasks + [r[|r| - 1]];
    }
  }

  /** The leader jumped: `lastTarget` is set and more than `transitionDistance` from the leader. */
  predicate Jumped(lastTarget: Pos, leader: Entity, cfg: Settings) {
    lastTarget != Origin && DistAbove(lastTarget, leader.pos, cfg.transitionDistance)
  }

  /** The leader stands still, far but not too far, and nothing is queued. */
  predicate StationaryFar(tasks: seq<TaskNode>, lastTarget: Pos, leader: Entity, snap: Snapshot) {
    |tasks| == 0 && DistBelow(lastTarget, leader.pos, STATIONARY_MAX) &&
    DistAbove(snap.playerPos, leader.pos, STATIONARY_MIN) && DistBelow(snap.playerPos, leader.pos, STATIONARY_MAX)
  }

  /**
   * The far rules append at most one task. After a jump they always append:
   * a Transition of radius FAR_TRANSITION_BOUNDS to the best portal when the
   * game puts it closer than PORTAL_REACH, or else a walk to the leader;
   * otherwise the only append is a walk to the leader, and it happens exactly for a stationary leader
   * or when the leader has left the last queued task `keepWithinDistance`
   * or more behind.
   */
  lemma FarLeaderRules(tasks: seq<TaskNode>, lastTarget: Pos, leader: Entity, zone: string,
                       snap: Snapshot, cfg: Settings)
    ensures var r := FarRules(tasks, lastTarget, leader, zone, snap, cfg);
            var walk := MovementTask(leader.pos, cfg.keepWithinDistance);
            var portal := Resolver.GetBestPortalLabel(snap.labels, snap.isHideout, snap.areaLevel, zone,
                                                      lastTarget, snap.randomIndex);
            var takePortal := portal.Some? && portal.value.distancePlayer < PORTAL_REACH;
            && (r == tasks || r == tasks + [r[|r| - 1]])
            && (Jumped(lastTarget, leader, cfg) ==>
                  r != tasks &&
                  (takePortal ==> r[|r| - 1] == LabelTask(portal.value, FAR_TRANSITION_BOUNDS, Transition)) &&
                  (!takePortal ==> r[|r| - 1] == walk))
            && (!Jumped(lastTarget, leader, cfg) ==>
                  (r != tasks <==>
                     StationaryFar(tasks, lastTarget, leader, snap) ||
                     (|tasks| > 0 && !DistBelow(tasks[|tasks| - 1].worldPosition, leader.pos, cfg.keepWithinDistance))) &&
                  (r != tasks ==> r[|r| - 1] == walk))
  {
  }

  lemma OutOfZoneCounts(st: EngineState, entry: PartyElementWindow, snap: Snapshot, cfg: Settings, k: TaskKind)
    requires k == Loot || k == MercenaryOptIn
    ensures CountKind(OutOfZone(st, entry, snap, cfg).state.tasks, k) == CountKind(st.tasks, k)
  {
    var r := OutOfZone(st, entry, snap, cfg).state.tasks;
    if r != st.tasks {
      AppendOne(st.tasks, r[|r| - 1], k);
      assert r == st.tasks + [r[|r| - 1]];
    }
  }

  /** Appending `t` when `add` holds: a prefix-preserving step that raises the count of `t`'s kind by one. */
  lemma AppendStep(ts: seq<TaskNode>, t: TaskNode, add: bool, r: seq<TaskNode>)
    requires r == if add then ts + [t] else ts
    ensures |ts| <= |r| && r[..|ts|] == ts
    ensures forall k :: CountKind(r, k) == CountKind(ts, k) + (if add && t.kind == k then 1 else 0)
  {
    forall k: TaskKind { AppendOne(ts, t, k); }
  }

  /** The quest-loot step appends at most one Loot task, and only when none is queued. */
  lemma AddQuestLootShape(tasks: seq<TaskNode>, snap: Snapshot, cfg: Settings)
    ensures var r := AddQuestLoot(tasks, snap, cfg);
            && |tasks| <= |r| && r[..|tasks|] == tasks
            && (forall k :: k != Loot ==> CountKind(r, k) == CountKind(tasks, k))
            && (CountKind(tasks, Loot) <= 1 ==> CountKind(r, Loot) <= 1)
  {
    var questLoot := Resolver.GetQuestItem(snap.labels, snap.playerPos);
    var add := questLoot.Some? && DistBelow(snap.playerPos, questLoot.value.pos, cfg.transitionDistance) &&
               !HasKind(tasks, Loot);
    var t := LootTask(if questLoot.Some? then questLoot.value.pos else Origin, cfg.transitionDistance);
    AppendStep(tasks, t, add, AddQuestLoot(tasks, snap, cfg));
    HasKindIffCount(tasks, Loot);
  }

  /** The opt-in step appends at most one MercenaryOptIn task, and only when none is queued. */
  lemma AddMercenaryOptInShape(tasks: seq<TaskNode>, snap: Snapshot, cfg: Settings)
    ensures var r := AddMercenaryOptIn(tasks, snap, cfg);
            && |tasks| <= |r| && r[..|tasks|] == tasks
            && (forall k :: k != MercenaryOptIn ==> CountKind(r, k) == CountKind(tasks, k))
            && (CountKind(tasks, MercenaryOptIn) <= 1 ==> CountKind(r, MercenaryOptIn) <= 1)
  {
    var button := Resolver.GetMercenaryOptInButton(snap.labels, snap.playerPos);
    var add := button.Some? && DistBelow(snap.playerPos, button.value.pos, cfg.transitionDistance) &&
               !HasKind(tasks, MercenaryOptIn);
    var t := if button.Some? then LabelTask(button.value, cfg.transitionDistance, MercenaryOptIn)
             else TaskNode(MercenaryOptIn, Origin, None, 0, 0);
    AppendStep(tasks, t, add, AddMercenaryOptIn(tasks, snap, cfg));
    HasKindIffCount(tasks, MercenaryOptIn);
  }

  /**
   * The opportunistic step only appends, only Loot and MercenaryOptIn tasks,
   * and never a second task of either kind.
   */
  lemma OpportunisticShape(tasks: seq<TaskNode>, snap: Snapshot, cfg: Settings)
    ensures var r := OpportunisticStep(tasks, snap, cfg);
            && |tasks| <= |r| && r[..|tasks|] == tasks
            && CountKind(r, Movement) == CountKind(tasks, Movement)
            && CountKind(r, Transition) == CountKind(tasks, Transition)
            && (AtMostOneOpportunistic(tasks) ==> AtMostOneOpportunistic(r))
  {
    if !snap.isHideout {
      var t1 := AddQuestLoot(tasks, snap, cfg);
      AddQuestLootShape(tasks, snap, cfg);
      AddMercenaryOptInShape(t1, snap, cfg);
      var r := AddMercenaryOptIn(t1, snap, cfg);
      assert r[..|tasks|] == r[..|t1|][..|tasks|];
    }
  }

  /**
   * Near the leader every Movement and Transition task goes; the surviving
   * Loot and opt-in tasks keep their order at the front of the queue; then
   * at most one Movement task is appended, exactly when CloseFollow is on
   * and the leader is `keepWithinDistance` or more away.
   */
  lemma NearLeaderPurge(st: EngineState, entry: PartyElementWindow, snap: Snapshot, cfg: Settings)
    requires st.followTarget.Some?
    requires DistBelow(snap.playerPos, st.followTarget.value.pos, cfg.transitionDistance)
    ensures var t := Plan(st, entry, snap, cfg).state.tasks;
            var kept := PurgeRoutes(st.tasks);
            var follow := cfg.closeFollow && !DistBelow(snap.playerPos, st.followTarget.value.pos, cfg.keepWithinDistance);
            && |kept| <= |t| && t[..|kept|] == kept
            && CountKind(t, Transition) == 0
            && (follow ==> CountKind(t, Movement) == 1)
            && (!follow ==> CountKind(t, Movement) == 0)
  {
    var leader := st.followTarget.value;
    var kept := PurgeRoutes(st.tasks);
    PurgeCounts(st.tasks);
    var c := CloseFollowStep(kept, leader, snap, cfg);
    forall k: TaskKind { AppendOne(kept, MovementTask(leader.pos, cfg.keepWithinDistance), k); }
    OpportunisticShape(c, snap, cfg);
    var t := OpportunisticStep(c, snap, cfg);
    assert Plan(st, entry, snap, cfg).state.tasks == t;
    assert t[..|kept|] == c[..|c|][..|kept|];
  }

  /** A Loot task is enqueued only near the leader, outside hideouts, for a close quest item, and if none is queued. */
  lemma LootEnqueuedOnlyWhenDue(st: EngineState, entry: PartyElementWindow, snap: Snapshot, cfg: Settings)
    requires CountKind(Plan(st, entry, snap, cfg).state.tasks, Loot) > CountKind(st.tasks, Loot)
    ensures st.followTarget.Some? && DistBelow(snap.playerPos, st.followTarget.value.pos, cfg.transitionDistance)
    ensures !snap.isHideout && !HasKind(st.tasks, Loot)
    ensures var questLoot := Resolver.GetQuestItem(snap.labels, snap.playerPos);
            questLoot.Some? && DistBelow(snap.playerPos, questLoot.value.pos, cfg.transitionDistance)
  {
    var zone := Leader.ZoneOf(entry);
    if st.followTarget.None? && zone != snap.currentZone && !st.isTransitioning {
      OutOfZoneCounts(st, entry, snap, cfg, Loot);
    } else if st.followTarget.Some? {
      var leader := st.followTarget.value;
      if DistBelow(snap.playerPos, leader.pos, cfg.transitionDistance) {
        var kept := PurgeRoutes(st.tasks);
        PurgeCounts(st.tasks);
        var c := CloseFollowStep(kept, leader, snap, cfg);
        AppendOne(kept, MovementTask(leader.pos, cfg.keepWithinDistance), Loot);
        HasKindIffCount(c, Loot);
        HasKindIffCount(st.tasks, Loot);
        LootAppendNeedsCause(c, snap, cfg);
      } else {
        FarRulesCounts(st.tasks, st.lastTargetPosition, leader, zone, snap, cfg, Loot);
      }
    }
  }

  lemma LootAppendNeedsCause(tasks: seq<TaskNode>, snap: Snapshot, cfg: Settings)
    requires CountKind(OpportunisticStep(tasks, snap, cfg), Loot) > CountKind(tasks, Loot)
    ensures !snap.isHideout && !HasKind(tasks, Loot)
    ensures var questLoot := Resolver.GetQuestItem(snap.labels, snap.playerPos);
            questLoot.Some? && DistBelow(snap.playerPos, questLoot.value.pos, cfg.transitionDistance)
  {
    if !snap.isHideout {
      var t1 := AddQuestLoot(tasks, snap, cfg);
      AddMercenaryOptInShape(t1, snap, cfg);
      assert CountKind(t1, Loot) > CountKind(tasks, Loot);
    }
  }
  /** The opportunistic step adds a MercenaryOptIn task only outside hideouts, for a close button, when none is queued. */
  lemma OptInAppendNeedsCause(tasks: seq<TaskNode>, snap: Snapshot, cfg: Settings)
    requires CountKind(OpportunisticStep(tasks, snap, cfg), MercenaryOptIn) > CountKind(tasks, MercenaryOptIn)
    ensures !snap.isHideout && !HasKind(tasks, MercenaryOptIn)
    ensures var button := Resolver.GetMercenaryOptInButton(snap.labels, snap.playerPos);
            button.Some? && DistBelow(snap.playerPos, button.value.pos, cfg.transitionDistance)
  {
    var t1 := AddQuestLoot(tasks, snap, cfg);
    AddQuestLootShape(tasks, snap, cfg);
    assert CountKind(t1, MercenaryOptIn) == CountKind(tasks, MercenaryOptIn);
    HasKindIffCount(t1, MercenaryOptIn);
    HasKindIffCount(tasks, MercenaryOptIn);
  }

  /**
   * The converse of the two cause lemmas: outside hideouts a close quest item
   * is always enqueued when no Loot task is queued, and a close opt-in button
   * always when no MercenaryOptIn task is queued.
   */
  lemma OpportunisticAppendsWhenDue(tasks: seq<TaskNode>, snap: Snapshot, cfg: Settings)
    requires !snap.isHideout
    ensures var questLoot := Resolver.GetQuestItem(snap.labels, snap.playerPos);
            questLoot.Some? && DistBelow(snap.playerPos, questLoot.value.pos, cfg.transitionDistance) &&
            !HasKind(tasks, Loot) ==>
              CountKind(OpportunisticStep(tasks, snap, cfg), Loot) == CountKind(tasks, Loot) + 1
    ensures var button := Resolver.GetMercenaryOptInButton(snap.labels, snap.playerPos);
            button.Some? && DistBelow(snap.playerPos, button.value.pos, cfg.transitionDistance) &&
            !HasKind(tasks, MercenaryOptIn) ==>
              CountKind(OpportunisticStep(tasks, snap, cfg), MercenaryOptIn) == CountKind(tasks, MercenaryOptIn) + 1
  {
    var questLoot := Resolver.GetQuestItem(snap.labels, snap.playerPos);
    var addLoot := questLoot.Some? && DistBelow(snap.playerPos, questLoot.value.pos, cfg.transitionDistance) &&
                   !HasKind(tasks, Loot);
    var lt := LootTask(if questLoot.Some? then questLoot.value.pos else Origin, cfg.transitionDistance);
    var t1 := AddQuestLoot(tasks, snap, cfg);
    AppendStep(tasks, lt, addLoot, t1);
    var button := Resolver.GetMercenaryOptInButton(snap.labels, snap.playerPos);
    HasKindIffCount(t1, MercenaryOptIn);
    HasKindIffCount(tasks, MercenaryOptIn);
    var addOptIn := button.Some? && DistBelow(snap.playerPos, button.value.pos, cfg.transitionDistance) &&
                    !HasKind(t1, MercenaryOptIn);
    var ot := if button.Some? then LabelTask(button.value, cfg.transitionDistance, MercenaryOptIn)
              else TaskNode(MercenaryOptIn, Origin, None, 0, 0);
    AppendStep(t1, ot, addOptIn, AddMercenaryOptIn(t1, snap, cfg));
  }

  /**
   * A MercenaryOptIn task is enqueued only near the leader, outside hideouts,
   * for a button closer than `transitionDistance`, and if none is queued.
   */
  lemma OptInEnqueuedOnlyWhenDue(st: EngineState, entry: PartyElementWindow, snap: Snapshot, cfg: Settings)
    requires CountKind(Plan(st, entry, snap, cfg).state.tasks, MercenaryOptIn) > CountKind(st.tasks, MercenaryOptIn)
    ensures st.followTarget.Some? && DistBelow(snap.playerPos, st.followTarget.value.pos, cfg.transitionDistance)
    ensures !snap.isHideout && !HasKind(st.tasks, MercenaryOptIn)
    ensures var button := Resolver.GetMercenaryOptInButton(snap.labels, snap.playerPos);
            button.Some? && DistBelow(snap.playerPos, button.value.pos, cfg.transitionDistance)
  {
    var zone := Leader.ZoneOf(entry);
    if st.followTarget.None? && zone != snap.currentZone && !st.isTransitioning {
      OutOfZoneCounts(st, entry, snap, cfg, MercenaryOptIn);
    } else if st.followTarget.Some? {
      var leader := st.followTarget.value;
      if DistBelow(snap.playerPos, leader.pos, cfg.transitionDistance) {
        var kept := PurgeRoutes(st.tasks);
        PurgeCounts(st.tasks);
        var c := CloseFollowStep(kept, leader, snap, cfg);
        AppendOne(kept, MovementTask(leader.pos, cfg.keepWithinDistance), MercenaryOptIn);
        HasKindIffCount(c, MercenaryOptIn);
        HasKindIffCount(st.tasks, MercenaryOptIn);
        OptInAppendNeedsCause(c, snap, cfg);
      } else {
        FarRulesCounts(st.tasks, st.lastTargetPosition, leader, zone, snap, cfg, MercenaryOptIn);
      }
    }
  }


  /** The planner keeps the one-Loot, one-opt-in invariant. */
  lemma PlanKeepsAtMostOne(st: EngineState, entry: PartyElementWindow, snap: Snapshot, cfg: Settings)
    requires AtMostOneOpportunistic(st.tasks)
    ensures AtMostOneOpportunistic(Plan(st, entry, snap, cfg).state.tasks)
  {
    var zone := Leader.ZoneOf(entry);
    if st.followTarget.None? && zone != snap.currentZone && !st.isTransitioning {
      OutOfZoneCounts(st, entry, snap, cfg, Loot);
      OutOfZoneCounts(st, entry, snap, cfg, MercenaryOptIn);
    } else if st.followTarget.Some? {
      var leader := st.followTarget.value;
      if DistBelow(snap.playerPos, leader.pos, cfg.transitionDistance) {
        var kept := PurgeRoutes(st.tasks);
        PurgeCounts(st.tasks);
        AppendOne(kept, MovementTask(leader.pos, cfg.keepWithinDistance), Loot);
        AppendOne(kept, MovementTask(leader.pos, cfg.keepWithinDistance), MercenaryOptIn);
        OpportunisticShape(CloseFollowStep(kept, leader, snap, cfg), snap, cfg);
      } else {
        FarRulesCounts(st.tasks, st.lastTargetPosition, leader, zone, snap, cfg, Loot);
        FarRulesCounts(st.tasks, st.lastTargetPosition, leader, zone, snap, cfg, MercenaryOptIn);
      }
    }
  }

  // ---------------------------------------------------------------- cycle

  /** A closed gate changes nothing; a missing roster row skips the whole cycle, execution included. */
  lemma SkippedWithoutLeaderRow(st: EngineState, snap: Snapshot, cfg: Settings)
    ensures !GateOpen(st, snap, cfg) ==> Cycle(st, snap, cfg) == Outcome(st, [])
    ensures EntryOf(snap, cfg).None? ==>
              Cycle(st, snap, cfg).actions == [] &&
              Cycle(st, snap, cfg).state == st.(followTarget := Cycle(st, snap, cfg).state.followTarget)
  {
  }

  /** The main loop never creates a second Loot or MercenaryOptIn task. */
  lemma CycleKeepsAtMostOne(st: EngineState, snap: Snapshot, cfg: Settings)
    requires AtMostOneOpportunistic(st.tasks)
    ensures AtMostOneOpportunistic(Cycle(st, snap, cfg).state.tasks)
  {
    if GateOpen(st, snap, cfg) && EntryOf(snap, cfg).Some? {
      var st1 := st.(followTarget := TargetOf(snap, cfg));
      var planned := Plan(st1, EntryOf(snap, cfg).value, snap, cfg);
      PlanKeepsAtMostOne(st1, EntryOf(snap, cfg).value, snap, cfg);
      ExecuteChangesOnlyHead(planned.state, snap, cfg);
      HeadOnlyChangeCounts(planned.state.tasks, Execute(planned.state, snap, cfg).state.tasks, Loot);
      HeadOnlyChangeCounts(planned.state.tasks, Execute(planned.state, snap, cfg).state.tasks, MercenaryOptIn);
    }
  }

  /**
   * The teleport controls are clicked only when the leader's roster row is
   * present, the leader's entity is absent, the roster names another zone,
   * no self-triggered transition is in progress, the zone is reliable and
   * no portal leads there.
   */
  lemma TeleportOnlyWhenLeaderElsewhere(st: EngineState, snap: Snapshot, cfg: Settings)
    requires ClickTpButton in Cycle(st, snap, cfg).actions || ConfirmTeleport in Cycle(st, snap, cfg).actions
    ensures GateOpen(st, snap, cfg) && EntryOf(snap, cfg).Some? && TargetOf(snap, cfg).None? && !st.isTransitioning
    ensures var entry := EntryOf(snap, cfg).value;
            var st1 := TrackLeaderZone(st, Leader.ZoneOf(entry), snap.now);
            && Leader.ZoneOf(entry) != snap.currentZone
            && Leader.IsLeaderZoneInfoReliable(entry.zoneName, snap.currentZone, snap.now,
                                               st1.leaderZoneChangeTime, cfg.zoneUpdateBufferMs)
            && Resolver.GetBestPortalLabel(snap.labels, snap.isHideout, snap.areaLevel, Leader.ZoneOf(entry),
                                           st.lastTargetPosition, snap.randomIndex).None?
  {
    if GateOpen(st, snap, cfg) && EntryOf(snap, cfg).Some? {
      var st1 := st.(followTarget := TargetOf(snap, cfg));
      var planned := Plan(st1, EntryOf(snap, cfg).value, snap, cfg);
      ExecuteNeverTeleports(planned.state, snap, cfg);
    }
  }

  /**
   * The reliability buffer: the change time is restamped only when the
   * roster zone differs from the last one seen, and both are cleared
   * whenever the leader's entity is found.
   */
  lemma ZoneBufferTracking(st: EngineState, snap: Snapshot, cfg: Settings)
    ensures var r := Cycle(st, snap, cfg).state;
            && (r.leaderZoneChangeTime != st.leaderZoneChangeTime && r.leaderZoneChangeTime.Some? ==>
                  r.leaderZoneChangeTime == Some(snap.now) && r.lastKnownLeaderZone != st.lastKnownLeaderZone &&
                  EntryOf(snap, cfg).Some? && r.lastKnownLeaderZone == Leader.ZoneOf(EntryOf(snap, cfg).value))
            && (GateOpen(st, snap, cfg) && EntryOf(snap, cfg).Some? && TargetOf(snap, cfg).Some? ==>
                  r.lastKnownLeaderZone == "" && r.leaderZoneChangeTime.None?)
            && (r.lastKnownLeaderZone != st.lastKnownLeaderZone ==>
                  r.lastKnownLeaderZone == "" || r.leaderZoneChangeTime == Some(snap.now))
  {
    if GateOpen(st, snap, cfg) && EntryOf(snap, cfg).Some? {
      var st1 := st.(followTarget := TargetOf(snap, cfg));
      var planned := Plan(st1, EntryOf(snap, cfg).value, snap, cfg);
      PlanZoneTracking(st1, EntryOf(snap, cfg).value, snap, cfg);
      ExecuteFrame(planned.state, snap, cfg);
      assert Cycle(st, snap, cfg).state == Execute(planned.state, snap, cfg).state;
    }
  }

  /** The planner's part of the zone tracking. */
  lemma PlanZoneTracking(st: EngineState, entry: PartyElementWindow, snap: Snapshot, cfg: Settings)
    ensures var r := Plan(st, entry, snap, cfg).state;
            && (st.followTarget.Some? ==> r.lastKnownLeaderZone == "" && r.leaderZoneChangeTime.None?)
            && (r.leaderZoneChangeTime != st.leaderZoneChangeTime && r.leaderZoneChangeTime.Some? ==>
                  r.leaderZoneChangeTime == Some(snap.now) && r.lastKnownLeaderZone != st.lastKnownLeaderZone &&
                  r.lastKnownLeaderZone == Leader.ZoneOf(entry))
            && (r.lastKnownLeaderZone != st.lastKnownLeaderZone ==>
                  r.lastKnownLeaderZone == "" || r.leaderZoneChangeTime == Some(snap.now))
  {
  }

  /**
   * The out-of-zone branch waits out the buffer: while the roster zone is
   * fresher than `zoneUpdateBufferMs` nothing is enqueued or clicked; once
   * it is old enough a Transition task is enqueued, or the teleport
   * fallback runs when no portal leads there.
   */
  lemma ReliabilityBufferGatesTravel(st: EngineState, entry: PartyElementWindow, snap: Snapshot, cfg: Settings, t0: int)
    requires st.followTarget.None? && !st.isTransitioning
    requires entry.zoneName.Some? && entry.zoneName.value != "" && entry.zoneName.value != snap.currentZone
    requires st.lastKnownLeaderZone == entry.zoneName.value && st.leaderZoneChangeTime == Some(t0)
    ensures var r := Plan(st, entry, snap, cfg);
            var portal := Resolver.GetBestPortalLabel(snap.labels, snap.isHideout, snap.areaLevel,
                                                      entry.zoneName.value, st.lastTargetPosition, snap.randomIndex);
            && (snap.now - t0 < cfg.zoneUpdateBufferMs ==> r.state.tasks == st.tasks && r.actions == [])
            && (snap.now - t0 >= cfg.zoneUpdateBufferMs && portal.Some? ==>
                  r.state.tasks == st.tasks + [LabelTask(portal.value, cfg.keepWithinDistance, Transition)] &&
                  r.actions == [])
            && (snap.now - t0 >= cfg.zoneUpdateBufferMs && portal.None? ==>
                  r.state.tasks == st.tasks && r.actions == TeleportActions(snap))
  {
  }

  /** A freshly changed roster zone always defers travel for a positive buffer. */
  lemma ZoneChangeDefers(st: EngineState, entry: PartyElementWindow, snap: Snapshot, cfg: Settings)
    requires st.followTarget.None? && !st.isTransitioning && cfg.zoneUpdateBufferMs > 0
    requires Leader.ZoneOf(entry) != snap.currentZone && Leader.ZoneOf(entry) != st.lastKnownLeaderZone
    ensures Plan(st, entry, snap, cfg).state.tasks == st.tasks
    ensures Plan(st, entry, snap, cfg).actions == []
    ensures Plan(st, entry, snap, cfg).state.leaderZoneChangeTime == Some(snap.now)
  {
  }
}
