/**
 * The ground-label selectors: the portal the follower should take to reach
 * the leader, the nearest quest item, and the nearest mercenary opt-in
 * button. Each is a filter, an order by distance and a pick; every failure
 * the source catches yields "none".
 */
module Resolver {
  import opened Wrappers
  import opened World
  import Seqs
  import Text

  /** From this area level on, any portal will do. */
  const ENDGAME_LEVEL: int := 68

  /** The label is shown, valid, visible and attached to an item. */
  predicate BasicVisible(l: GroundLabel) {
    l.isVisible && l.labelValid && l.labelVisible && l.hasItem
  }

  predicate IsPortalMetadata(m: string) {
    Text.Contains(Text.ToLower(m), "areatransition") || Text.Contains(Text.ToLower(m), "portal")
  }

  /** A visible area transition or portal. */
  predicate PortalCandidate(l: GroundLabel) {
    BasicVisible(l) && l.metadata.Some? && IsPortalMetadata(l.metadata.value)
  }

  /** The label text names `zone`, ignoring case. */
  predicate LeadsTo(l: GroundLabel, zone: string) {
    l.text.Some? && Text.Contains(Text.ToLower(l.text.value), Text.ToLower(zone))
  }

  function LevelingMatch(zone: string): GroundLabel -> bool {
    (l: GroundLabel) => PortalCandidate(l) && LeadsTo(l, zone)
  }

  /** A visible label whose item has null metadata: reading it throws. */
  predicate MetadataFault(l: GroundLabel) {
    BasicVisible(l) && l.metadata.None?
  }

  /** A portal candidate with a null label text: lowering it throws in a leveling zone. */
  predicate TextFault(l: GroundLabel) {
    PortalCandidate(l) && l.text.None?
  }

  predicate AnyFault(ls: seq<GroundLabel>, p: GroundLabel -> bool) {
    exists i | 0 <= i < |ls| :: p(ls[i])
  }

  function DistFrom(from: Pos): GroundLabel -> nat {
    (l: GroundLabel) => Dist2(from, l.pos)
  }

  /** `l` is no farther from `from` than any label of `ls`. */
  ghost predicate NearestIn(l: GroundLabel, ls: seq<GroundLabel>, from: Pos) {
    forall m :: m in ls ==> Dist2(from, l.pos) <= Dist2(from, m.pos)
  }

  /**
   * `OrderBy(distance from `from`).FirstOrDefault()`: the nearest label, the
   * earliest one among equally near labels.
   */
  function Nearest(ls: seq<GroundLabel>, from: Pos): (r: Option<GroundLabel>)
    ensures r.None? <==> ls == []
    ensures r.Some? ==> r.value in ls
  {
    if ls == [] then None else Some(ls[Seqs.ArgMin(ls, DistFrom(from))])
  }

  /** The label `Nearest` picks is no farther than any other, and strictly nearer than every earlier one. */
  lemma NearestIsFirstNearest(ls: seq<GroundLabel>, from: Pos)
    ensures var r := Nearest(ls, from);
            r.Some? ==>
              && NearestIn(r.value, ls, from)
              && exists i :: 0 <= i < |ls| && ls[i] == r.value &&
                   forall j :: 0 <= j < i ==> Dist2(from, ls[j].pos) > Dist2(from, r.value.pos)
  {
    if ls != [] {
      var i := Seqs.ArgMin(ls, DistFrom(from));
      forall m | m in ls ensures Dist2(from, ls[i].pos) <= Dist2(from, m.pos) {
        var j :| 0 <= j < |ls| && ls[j] == m;
        assert DistFrom(from)(ls[i]) <= DistFrom(from)(ls[j]);
      }
      assert forall j :: 0 <= j < i ==> DistFrom(from)(ls[j]) > DistFrom(from)(ls[i]);
    }
  }

  /**
   * `GetBestPortalLabel`. In a hideout or at `ENDGAME_LEVEL` and above any
   * portal qualifies (a random one in a hideout, `randomIndex` being the
   * draw, otherwise the nearest to `from`, the leader's last known
   * position). In a leveling zone only portals whose text names the
   * leader's zone qualify, and no match means no portal.
   */
  function GetBestPortalLabel(labels: Option<seq<GroundLabel>>, isHideout: bool, areaLevel: int,
                              leaderZone: string, from: Pos, randomIndex: nat): (r: Option<GroundLabel>)
    // the result is always a visible portal of the current labels
    ensures r.Some? ==> labels.Some? && r.value in labels.value && PortalCandidate(r.value)
    ensures labels.None? ==> r.None?
  {
    match labels
    case None => None
    case Some(ls) =>
      if AnyFault(ls, MetadataFault) then None
      else if isHideout || areaLevel >= ENDGAME_LEVEL then
        var portalLabels := Seqs.Filter(ls, PortalCandidate);
        Seqs.FilterMembers(ls, PortalCandidate);
        if isHideout && |portalLabels| > 0 then
          assert portalLabels[randomIndex % |portalLabels|] in portalLabels;
          Some(portalLabels[randomIndex % |portalLabels|])
        else Nearest(portalLabels, from)
      else if AnyFault(ls, TextFault) then None
      else
        var portalLabels := Seqs.Filter(ls, LevelingMatch(leaderZone));
        Seqs.FilterMembers(ls, LevelingMatch(leaderZone));
        Nearest(portalLabels, from)
  }

  /**
   * What the portal choice promises: in a leveling zone never a portal to
   * another zone, and the nearest matching one; in endgame outside a
   * hideout the nearest portal; none on a faulting label; and a portal
   * whenever one qualifies and nothing faults.
   */
  lemma PortalChoice(labels: Option<seq<GroundLabel>>, isHideout: bool, areaLevel: int,
                     leaderZone: string, from: Pos, randomIndex: nat)
    ensures var r := GetBestPortalLabel(labels, isHideout, areaLevel, leaderZone, from, randomIndex);
            && (r.Some? && !isHideout && areaLevel < ENDGAME_LEVEL ==>
                  LeadsTo(r.value, leaderZone) && NearestIn(r.value, Seqs.Filter(labels.value, LevelingMatch(leaderZone)), from))
            && (r.Some? && !isHideout && areaLevel >= ENDGAME_LEVEL ==>
                  NearestIn(r.value, Seqs.Filter(labels.value, PortalCandidate), from))
            && (labels.Some? && AnyFault(labels.value, MetadataFault) ==> r.None?)
            && (labels.Some? && !isHideout && areaLevel < ENDGAME_LEVEL && AnyFault(labels.value, TextFault) ==> r.None?)
            && ((labels.Some? && !AnyFault(labels.value, MetadataFault) && (isHideout || areaLevel >= ENDGAME_LEVEL) &&
                 (exists l :: l in labels.value && PortalCandidate(l))) ==> r.Some?)
            && ((labels.Some? && !AnyFault(labels.value, MetadataFault) && !AnyFault(labels.value, TextFault) &&
                 !isHideout && areaLevel < ENDGAME_LEVEL &&
                 (exists l :: l in labels.value && PortalCandidate(l) && LeadsTo(l, leaderZone))) ==> r.Some?)
  {
    if labels.Some? {
      var ls := labels.value;
      Seqs.FilterMembers(ls, PortalCandidate);
      Seqs.FilterMembers(ls, LevelingMatch(leaderZone));
      NearestIsFirstNearest(Seqs.Filter(ls, PortalCandidate), from);
      NearestIsFirstNearest(Seqs.Filter(ls, LevelingMatch(leaderZone)), from);
    }
  }

  /** In a hideout the pick is one of the visible portals, whichever the draw. */
  lemma HideoutPicksSomePortal(ls: seq<GroundLabel>, leaderZone: string, areaLevel: int, from: Pos, randomIndex: nat)
    requires !AnyFault(ls, MetadataFault)
    requires exists l :: l in ls && PortalCandidate(l)
    ensures GetBestPortalLabel(Some(ls), true, areaLevel, leaderZone, from, randomIndex).Some?
    ensures GetBestPortalLabel(Some(ls), true, areaLevel, leaderZone, from, randomIndex).value in
              Seqs.Filter(ls, PortalCandidate)
  {
    Seqs.FilterMembers(ls, PortalCandidate);
  }

  /**
   * With the leader's zone read as "", every visible portal with a text
   * leads there: "".Contains-style matching accepts any text.
   */
  lemma EmptyZoneMatchesEveryPortal(l: GroundLabel)
    requires PortalCandidate(l) && l.text.Some?
    ensures LeadsTo(l, "")
  {
    Text.EmptyNeedle(Text.ToLower(l.text.value));
  }

  /** A quest item's label: visible, valid, and its item is a quest item. */
  predicate IsQuestLabel(l: GroundLabel) {
    BasicVisible(l) && l.isQuestItem
  }

  /** `GetQuestItem`: the quest item nearest to the player. */
  function GetQuestItem(labels: Option<seq<GroundLabel>>, playerPos: Pos): (r: Option<GroundLabel>)
    ensures r.Some? ==> labels.Some? && r.value in labels.value && IsQuestLabel(r.value)
    ensures labels.None? ==> r.None?
  {
    match labels
    case None => None
    case Some(ls) =>
      Seqs.FilterMembers(ls, IsQuestLabel);
      Nearest(Seqs.Filter(ls, IsQuestLabel), playerPos)
  }

  /** There is a quest item exactly when some label is one, and the one chosen is nearest. */
  lemma QuestItemSelection(labels: Option<seq<GroundLabel>>, playerPos: Pos)
    ensures var r := GetQuestItem(labels, playerPos);
            && (r.None? <==> labels.None? || forall l :: l in labels.value ==> !IsQuestLabel(l))
            && (r.Some? ==> NearestIn(r.value, Seqs.Filter(labels.value, IsQuestLabel), playerPos))
  {
    if labels.Some? {
      Seqs.FilterMembers(labels.value, IsQuestLabel);
      NearestIsFirstNearest(Seqs.Filter(labels.value, IsQuestLabel), playerPos);
    }
  }

  /** A mercenary opt-in label: visible, mercenary metadata, opt-in button shown. */
  predicate IsOptInLabel(l: GroundLabel) {
    && BasicVisible(l)
    && l.metadata.Some? && l.metadata.value != ""
    && Text.Contains(Text.ToLower(l.metadata.value), "mercenary")
    && l.optInVisible
  }

  /** `GetMercenaryOptInButton`: the opt-in label nearest to the player. */
  function GetMercenaryOptInButton(labels: Option<seq<GroundLabel>>, playerPos: Pos): (r: Option<GroundLabel>)
    ensures r.Some? ==> labels.Some? && r.value in labels.value && IsOptInLabel(r.value)
    ensures labels.None? ==> r.None?
  {
    match labels
    case None => None
    case Some(ls) =>
      Seqs.FilterMembers(ls, IsOptInLabel);
      Nearest(Seqs.Filter(ls, IsOptInLabel), playerPos)
  }

  /** There is an opt-in button exactly when some label is one, and the one chosen is nearest. */
  lemma OptInButtonSelection(labels: Option<seq<GroundLabel>>, playerPos: Pos)
    ensures var r := GetMercenaryOptInButton(labels, playerPos);
            && (r.None? <==> labels.None? || forall l :: l in labels.value ==> !IsOptInLabel(l))
            && (r.Some? ==> NearestIn(r.value, Seqs.Filter(labels.value, IsOptInLabel), playerPos))
  {
    if labels.Some? {
      Seqs.FilterMembers(labels.value, IsOptInLabel);
      NearestIsFirstNearest(Seqs.Filter(labels.value, IsOptInLabel), playerPos);
    }
  }
}
