/**
 * The post-transition grace period: after a zone change the follower
 * triggered itself, poll until the leader is seen in our zone or ten
 * seconds pass; on timeout, force a teleport when the roster puts the
 * leader in our zone (a different instance of it). Every ending clears the
 * transition flag.
 */
module Grace {
  import opened Wrappers
  import opened World
  import opened Engine
  import Leader

  const TIMEOUT_MS: int := 10000

  datatype Verdict = Waiting | Synced | TimedOutForcedTeleport | TimedOut

  datatype GraceResult = GraceResult(verdict: Verdict, actions: seq<Action>)

  /** One wake-up of the monitor: the stopwatch reading and what the game shows. */
  datatype Poll = Poll(elapsedMs: int, snap: Snapshot)

  /** The leader's roster row puts the leader in the zone we are in. */
  predicate RosterInOurZone(snap: Snapshot, cfg: Settings) {
    EntryOf(snap, cfg).Some? && Leader.ZoneOf(EntryOf(snap, cfg).value) == snap.currentZone
  }

  /** What one poll at `elapsedMs` decides. */
  function GraceStep(elapsedMs: int, snap: Snapshot, cfg: Settings): GraceResult {
    if elapsedMs < TIMEOUT_MS then
      if RosterInOurZone(snap, cfg) && TargetOf(snap, cfg).Some? then GraceResult(Synced, [])
      else GraceResult(Waiting, [])
    else if RosterInOurZone(snap, cfg) then
      GraceResult(TimedOutForcedTeleport, TeleportActions(snap))
    else
      GraceResult(TimedOut, [])
  }

  /** A poll applied to the follower: any verdict but `Waiting` ends the monitor and clears the flag. */
  function GracePoll(st: EngineState, p: Poll, cfg: Settings): Outcome {
    if !st.graceRunning then Outcome(st, [])
    else
      var g := GraceStep(p.elapsedMs, p.snap, cfg);
      if g.verdict == Waiting then Outcome(st, [])
      else Outcome(st.(isTransitioning := false, graceRunning := false), g.actions)
  }

  /** A sequence of polls, in order, with the actions of all of them. */
  function GraceRun(st: EngineState, polls: seq<Poll>, cfg: Settings): Outcome
    decreases |polls|
  {
    if polls == [] then Outcome(st, [])
    else
      var first := GracePoll(st, polls[0], cfg);
      var rest := GraceRun(first.state, polls[1..], cfg);
      Outcome(rest.state, first.actions + rest.actions)
  }

  /**
   * The verdicts: synced exactly when, before the timeout, the roster row,
   * the entity and the zones all agree; a timeout exactly at or after
   * TIMEOUT_MS; and a corrective teleport only at a timeout with the roster
   * placing the leader in our zone.
   */
  lemma GraceVerdicts(elapsedMs: int, snap: Snapshot, cfg: Settings)
    ensures var g := GraceStep(elapsedMs, snap, cfg);
            && (g.verdict == Synced <==> elapsedMs < TIMEOUT_MS && RosterInOurZone(snap, cfg) && TargetOf(snap, cfg).Some?)
            && (g.verdict in {TimedOut, TimedOutForcedTeleport} <==> elapsedMs >= TIMEOUT_MS)
            && (g.verdict == TimedOutForcedTeleport <==> elapsedMs >= TIMEOUT_MS && RosterInOurZone(snap, cfg))
            && (g.actions != [] ==> g.verdict == TimedOutForcedTeleport)
  {
  }

  /** The monitor exits as soon as the leader is synced, long before the timeout, clearing the flag. */
  lemma SyncedExitsEarly(st: EngineState, p: Poll, cfg: Settings)
    requires st.graceRunning && p.elapsedMs < TIMEOUT_MS
    requires RosterInOurZone(p.snap, cfg) && TargetOf(p.snap, cfg).Some?
    ensures GracePoll(st, p, cfg) == Outcome(st.(isTransitioning := false, graceRunning := false), [])
  {
  }

  /** Every timeout ends the monitor with the flag cleared. */
  lemma TimeoutClearsFlag(st: EngineState, p: Poll, cfg: Settings)
    requires st.graceRunning && p.elapsedMs >= TIMEOUT_MS
    ensures !GracePoll(st, p, cfg).state.isTransitioning && !GracePoll(st, p, cfg).state.graceRunning
  {
  }

  /** A stopped monitor does nothing, however many polls arrive. */
  lemma {:induction false} StoppedMonitorIsInert(st: EngineState, polls: seq<Poll>, cfg: Settings)
    requires !st.graceRunning
    ensures GraceRun(st, polls, cfg) == Outcome(st, [])
  {
    if polls != [] {
      StoppedMonitorIsInert(st, polls[1..], cfg);
    }
  }

  /** A poll at or past the timeout ends the monitor: a started monitor always finishes, flag cleared. */
  lemma {:induction false} GraceRunEnds(st: EngineState, polls: seq<Poll>, cfg: Settings, k: nat)
    requires k < |polls| && polls[k].elapsedMs >= TIMEOUT_MS
    ensures !GraceRun(st, polls, cfg).state.graceRunning
    ensures st.graceRunning ==> !GraceRun(st, polls, cfg).state.isTransitioning
  {
    var first := GracePoll(st, polls[0], cfg);
    if !st.graceRunning {
      StoppedMonitorIsInert(st, polls, cfg);
    } else if !first.state.graceRunning {
      StoppedMonitorIsInert(first.state, polls[1..], cfg);
    } else {
      assert k != 0;
      assert first.state == st;
      GraceRunEnds(first.state, polls[1..], cfg, k - 1);
    }
  }

  /** Over a whole run, at most one poll acts: the run's actions are none or one teleport sequence. */
  lemma {:induction false} GraceRunTeleportsAtMostOnce(st: EngineState, polls: seq<Poll>, cfg: Settings)
    ensures var acts := GraceRun(st, polls, cfg).actions;
            acts == [] || exists k :: 0 <= k < |polls| && acts == TeleportActions(polls[k].snap)
  {
    if polls != [] {
      var first := GracePoll(st, polls[0], cfg);
      if !first.state.graceRunning {
        StoppedMonitorIsInert(first.state, polls[1..], cfg);
        assert GraceRun(st, polls, cfg).actions == first.actions + [];
        if first.actions != [] {
          assert first.actions == TeleportActions(polls[0].snap);
        }
      } else {
        assert first.actions == [];
        GraceRunTeleportsAtMostOnce(first.state, polls[1..], cfg);
        var acts := GraceRun(first.state, polls[1..], cfg).actions;
        assert GraceRun(st, polls, cfg).actions == acts;
        if acts != [] {
          var k :| 0 <= k < |polls[1..]| && acts == TeleportActions(polls[1..][k].snap);
          assert polls[1..][k] == polls[k + 1];
        }
      }
    }
  }

  /**
   * A leader who never shows up, while the roster puts them in our zone at
   * the timeout: the run issues the corrective teleport of the timeout poll,
   * once, and clears the flag.
   */
  lemma {:induction false} UnsyncedLeaderForcesOneTeleport(st: EngineState, polls: seq<Poll>, cfg: Settings)
    requires st.graceRunning && |polls| > 0
    requires forall i :: 0 <= i < |polls| - 1 ==>
               polls[i].elapsedMs < TIMEOUT_MS && TargetOf(polls[i].snap, cfg).None?
    requires polls[|polls| - 1].elapsedMs >= TIMEOUT_MS && RosterInOurZone(polls[|polls| - 1].snap, cfg)
    ensures GraceRun(st, polls, cfg).actions == TeleportActions(polls[|polls| - 1].snap)
    ensures !GraceRun(st, polls, cfg).state.isTransitioning
  {
    var first := GracePoll(st, polls[0], cfg);
    if |polls| == 1 {
      StoppedMonitorIsInert(first.state, polls[1..], cfg);
    } else {
      assert first == Outcome(st, []);
      forall i | 0 <= i < |polls[1..]| - 1
        ensures polls[1..][i].elapsedMs < TIMEOUT_MS && TargetOf(polls[1..][i].snap, cfg).None?
      {
        assert polls[1..][i] == polls[i + 1];
      }
      assert polls[1..][|polls[1..]| - 1] == polls[|polls| - 1];
      UnsyncedLeaderForcesOneTeleport(st, polls[1..], cfg);
    }
  }
}
