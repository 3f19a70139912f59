/**
 * The transition gate. `isTransitioning` is set when the follower clicks a
 * portal and blocks the out-of-zone branch; it is meant to be cleared by
 * the grace-period monitor once the zone change has happened. When a
 * Transition task leaves the queue without a zone change (its portal
 * vanished, or the player moved away), the executor keeps the flag set, and
 * with the leader out of view nothing clears it until some later area
 * change. `ExecuteReleasingGate` is the executor with that corrected.
 */
module Findings {
  import opened World
  import opened PartyElements
  import opened Tasks
  import opened Engine
  import EngineFacts

  /**
   * A set flag is accounted for: a grace monitor is running that will clear
   * it, or a Transition task is still queued whose execution clears or
   * renews it.
   */
  predicate GateAccounted(st: EngineState) {
    st.isTransitioning ==> st.graceRunning || HasKind(st.tasks, Transition)
  }

  /** The head is a Transition task that the executor drops without clicking. */
  predicate TransitionHeadDropped(st: EngineState, snap: Snapshot, cfg: Settings) {
    st.tasks != [] && st.tasks[0].kind == Transition &&
    (!DistBelow(snap.playerPos, st.lastPlayerPosition, cfg.transitionDistance) ||
     !PortalStillValid(st.tasks[0].labelId, snap.labels))
  }

  // ------------------------------------------------------------ as written

  /** Both ways of dropping a Transition head without a click leave the flag as it was. */
  lemma TransitionDropKeepsFlag(st: EngineState, snap: Snapshot, cfg: Settings)
    requires TransitionHeadDropped(st, snap, cfg)
    ensures Execute(st, snap, cfg).state.tasks == st.tasks[1..]
    ensures Execute(st, snap, cfg).state.isTransitioning == st.isTransitioning
    ensures Execute(st, snap, cfg).actions == []
  {
  }

  /**
   * The executor as written strands the gate: a set flag whose only
   * Transition task loses its portal is left set with nothing to clear it.
   */
  lemma ExecuteStrandsGate(st: EngineState, snap: Snapshot, cfg: Settings)
    requires st.isTransitioning && !st.graceRunning
    requires |st.tasks| == 1 && st.tasks[0].kind == Transition
    requires !PortalStillValid(st.tasks[0].labelId, snap.labels)
    ensures GateAccounted(st)
    ensures !GateAccounted(Execute(st, snap, cfg).state)
  {
    assert st.tasks[0].kind == Transition;
    TransitionDropKeepsFlag(st, snap, cfg);
  }

  /** With the flag set, an empty queue and the leader out of view, a cycle keeps all three and acts on nothing. */
  lemma StuckGateCycle(st: EngineState, snap: Snapshot, cfg: Settings)
    requires st.isTransitioning && st.tasks == [] && TargetOf(snap, cfg).None?
    ensures var r := Cycle(st, snap, cfg);
            r.state.isTransitioning && r.state.tasks == [] && r.actions == []
  {
  }

  /** Cycles of the main loop, in order, with no area change in between. */
  function Cycles(st: EngineState, snaps: seq<Snapshot>, cfg: Settings): Outcome
    decreases |snaps|
  {
    if snaps == [] then Outcome(st, [])
    else
      var first := Cycle(st, snaps[0], cfg);
      var rest := Cycles(first.state, snaps[1..], cfg);
      Outcome(rest.state, first.actions + rest.actions)
  }

  /** The stranded gate never reopens by itself: however many cycles pass with the leader out of view, nothing happens. */
  lemma {:induction false} StuckGatePersists(st: EngineState, snaps: seq<Snapshot>, cfg: Settings)
    requires st.isTransitioning && st.tasks == []
    requires forall i :: 0 <= i < |snaps| ==> TargetOf(snaps[i], cfg).None?
    ensures var r := Cycles(st, snaps, cfg);
            r.state.isTransitioning && r.state.tasks == [] && r.actions == []
    decreases |snaps|
  {
    if snaps != [] {
      StuckGateCycle(st, snaps[0], cfg);
      var first := Cycle(st, snaps[0], cfg);
      forall i | 0 <= i < |snaps[1..]| ensures TargetOf(snaps[1..][i], cfg).None? {
        assert snaps[1..][i] == snaps[i + 1];
      }
      StuckGatePersists(first.state, snaps[1..], cfg);
    }
  }

  /**
   * With the leader's entity in view the planner ignores the flag: the same
   * queue, buffer reset and actions whether or not a transition is under way.
   */
  lemma FlagDoesNotGateFollowing(st: EngineState, entry: PartyElementWindow, snap: Snapshot, cfg: Settings)
    requires st.followTarget.Some?
    ensures var on := Plan(st.(isTransitioning := true), entry, snap, cfg);
            var off := Plan(st.(isTransitioning := false), entry, snap, cfg);
            on.state == off.state.(isTransitioning := true) && on.actions == off.actions
  {
  }

  // ------------------------------------------------------------- corrected

  /** The executor, except that a Transition head dropped while no monitor runs also clears the flag. */
  function ExecuteReleasingGate(st: EngineState, snap: Snapshot, cfg: Settings): (r: Outcome)
    ensures r.actions == Execute(st, snap, cfg).actions
    ensures r.state.(isTransitioning := false) == Execute(st, snap, cfg).state.(isTransitioning := false)
  {
    var r := Execute(st, snap, cfg);
    if TransitionHeadDropped(st, snap, cfg) && !st.graceRunning then
      Outcome(r.state.(isTransitioning := false), r.actions)
    else r
  }

  /** A queued task other than the head survives the executor, so a Transition in the tail stays queued. */
  lemma TailTransitionSurvives(st: EngineState, snap: Snapshot, cfg: Settings, i: int)
    requires 0 < i < |st.tasks| && st.tasks[i].kind == Transition
    ensures HasKind(Execute(st, snap, cfg).state.tasks, Transition)
  {
    EngineFacts.ExecuteChangesOnlyHead(st, snap, cfg);
    var r := Execute(st, snap, cfg).state.tasks;
    if r == st.tasks[1..] {
      assert r[i - 1] == st.tasks[i];
    } else {
      assert r[1..] == st.tasks[1..];
      assert r[i] == st.tasks[i];
    }
  }

  /** The corrected executor never strands the gate: an accounted-for flag stays accounted for. */
  lemma ReleasingGateKeepsGateAccounted(st: EngineState, snap: Snapshot, cfg: Settings)
    requires GateAccounted(st)
    ensures GateAccounted(ExecuteReleasingGate(st, snap, cfg).state)
  {
    var r := ExecuteReleasingGate(st, snap, cfg).state;
    if r.isTransitioning && !r.graceRunning {
      EngineFacts.ExecuteFrame(st, snap, cfg);
      assert !st.graceRunning;
      if TransitionHeadDropped(st, snap, cfg) {
        assert false;
      } else if st.tasks != [] && st.tasks[0].kind == Transition {
        EngineFacts.TransitionHeadRule(st, snap, cfg);
        assert r.tasks[0].kind == Transition;
      } else {
        assert st.isTransitioning;
        var i :| 0 <= i < |st.tasks| && st.tasks[i].kind == Transition;
        TailTransitionSurvives(st, snap, cfg, i);
      }
    }
  }
}
