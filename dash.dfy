/** The dash heuristic for a Movement task. */
module Dash {
  import opened Wrappers
  import opened World

  /**
   * `ShouldUseDash`: dash only when the line-of-sight oracle and the
   * player's grid position exist, dashing is enabled, the grid distance lies
   * in the inclusive band [minDistance, maxDistance], and the oracle says the
   * path is blocked by something dashable. A failed query (`status` is
   * `None`) never dashes.
   */
  function ShouldUseDash(probe: DashProbe, dashEnabled: bool, minDistance: real, maxDistance: real): (r: bool)
    ensures r ==> probe.lineOfSightAvailable && probe.playerGridKnown && dashEnabled
    ensures r ==> minDistance <= probe.gridDistance <= maxDistance
    ensures r ==> probe.status == Some(Dashable)
    ensures (probe.lineOfSightAvailable && probe.playerGridKnown && dashEnabled &&
             minDistance <= probe.gridDistance <= maxDistance && probe.status == Some(Dashable)) ==> r
  {
    if !probe.lineOfSightAvailable || !probe.playerGridKnown || !dashEnabled then false
    else if probe.gridDistance < minDistance || probe.gridDistance > maxDistance then false
    else probe.status == Some(Dashable)
  }

  /** A clear path, a blocked path and a failed query all mean walking. */
  lemma OnlyDashableDashes(probe: DashProbe, dashEnabled: bool, minDistance: real, maxDistance: real)
    requires probe.status != Some(Dashable)
    ensures !ShouldUseDash(probe, dashEnabled, minDistance, maxDistance)
  {
  }

  /** Both ends of the band dash. */
  lemma BandIsInclusive(probe: DashProbe, minDistance: real, maxDistance: real)
    requires probe.lineOfSightAvailable && probe.playerGridKnown && probe.status == Some(Dashable)
    requires minDistance <= maxDistance
    requires probe.gridDistance == minDistance || probe.gridDistance == maxDistance
    ensures ShouldUseDash(probe, true, minDistance, maxDistance)
  {
  }
}
