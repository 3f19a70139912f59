/**
 * The leader tracker: finding the leader's roster row and the leader's
 * entity, and deciding whether the roster's zone name can be trusted yet.
 */
module Leader {
  import opened Wrappers
  import opened World
  import opened PartyElements
  import Seqs
  import Text

  /** The roster as the follower reads it, parsed against the zone we are in. */
  function RosterOf(snap: Snapshot): seq<PartyElementWindow> {
    match PartyRows(snap.partyUi)
    case None => []
    case Some(rows) => Roster(rows, Some(snap.currentZone))
  }

  /** Every row of the follower's roster carries a zone name (never null). */
  lemma RosterOfHasZones(snap: Snapshot)
    ensures forall w :: w in RosterOf(snap) ==> w.zoneName.Some? && w.playerName != ""
  {
    match PartyRows(snap.partyUi)
    case None =>
    case Some(rows) => RosterRecordsComplete(rows, Some(snap.currentZone));
  }

  /** The zone a roster row reports, reading a null zone as "". */
  function ZoneOf(w: PartyElementWindow): string {
    w.zoneName.GetOr("")
  }

  function RowNamed(leaderName: string): PartyElementWindow -> bool {
    (w: PartyElementWindow) => Text.EqualsIgnoreCase(w.playerName, leaderName)
  }

  /**
   * The leader's roster row: the first row whose name equals the leader
   * name ignoring case; none when the leader name is empty.
   */
  function LeaderEntry(roster: seq<PartyElementWindow>, leaderName: string): (r: Option<PartyElementWindow>)
    ensures leaderName == "" ==> r.None?
    ensures r.Some? ==> exists i :: 0 <= i < |roster| && roster[i] == r.value &&
                          Text.EqualsIgnoreCase(roster[i].playerName, leaderName) &&
                          forall j :: 0 <= j < i ==> !Text.EqualsIgnoreCase(roster[j].playerName, leaderName)
    ensures r.None? && leaderName != "" ==>
              forall i :: 0 <= i < |roster| ==> !Text.EqualsIgnoreCase(roster[i].playerName, leaderName)
  {
    if leaderName == "" then None
    else
      var r := Seqs.FirstMatch(roster, RowNamed(leaderName));
      assert r.Some? ==> exists i :: 0 <= i < |roster| && roster[i] == r.value &&
                          Text.EqualsIgnoreCase(roster[i].playerName, leaderName) &&
                          forall j :: 0 <= j < i ==> !Text.EqualsIgnoreCase(roster[j].playerName, leaderName) by {
        if r.Some? {
          var i :| 0 <= i < |roster| && roster[i] == r.value && RowNamed(leaderName)(roster[i]) &&
                   Seqs.NoneBefore(roster, RowNamed(leaderName), i);
        }
      }
      r
  }

  /**
   * `GetLeaderPartyElement`: scan the freshly parsed roster and return the
   * first row naming the leader.
   */
  method GetLeaderPartyElement(snap: Snapshot, leaderName: string) returns (r: Option<PartyElementWindow>)
    ensures r == LeaderEntry(RosterOf(snap), leaderName)
  {
    if leaderName == "" {
      return None;
    }
    var partyElements := GetPlayerInfoElementList(snap.partyUi, Some(snap.currentZone));
    assert partyElements == RosterOf(snap);
    var i := 0;
    while i < |partyElements|
      invariant 0 <= i <= |partyElements|
      invariant Seqs.FirstMatch(partyElements[i..], RowNamed(leaderName)) ==
                Seqs.FirstMatch(partyElements, RowNamed(leaderName))
    {
      assert partyElements[i..][1..] == partyElements[i + 1..];
      if Text.EqualsIgnoreCase(partyElements[i].playerName, leaderName) {
        return Some(partyElements[i]);
      }
      i := i + 1;
    }
    assert partyElements[i..] == [];
    return None;
  }

  /** The name a player entity shows, with a missing `Player` component read as "NULL". */
  function NameOrNull(e: Entity): string {
    e.name.GetOr("NULL")
  }

  /** Whether `e` carries the local player's name; never when that name is unknown. */
  predicate IsLocalPlayer(e: Entity, localName: Option<string>) {
    localName.Some? && Text.EqualsIgnoreCase(NameOrNull(e), localName.value)
  }

  function EntityMatcher(localName: Option<string>, leaderName: string): Entity -> bool {
    (e: Entity) => !IsLocalPlayer(e, localName) && Text.EqualsIgnoreCase(NameOrNull(e), leaderName)
  }

  /**
   * The leader's entity: the first player entity that is not the local
   * player and whose name equals the leader name ignoring case.
   */
  function FollowingTarget(players: seq<Entity>, localName: Option<string>, leaderName: string): (r: Option<Entity>)
    ensures leaderName == "" ==> r.None?
    ensures r.Some? ==> exists i :: 0 <= i < |players| && players[i] == r.value &&
                          EntityMatcher(localName, leaderName)(players[i]) &&
                          forall j :: 0 <= j < i ==> !EntityMatcher(localName, leaderName)(players[j])
    ensures r.Some? ==> !IsLocalPlayer(r.value, localName) && Text.EqualsIgnoreCase(NameOrNull(r.value), leaderName)
    ensures r.None? && leaderName != "" ==>
              forall i :: 0 <= i < |players| ==> !EntityMatcher(localName, leaderName)(players[i])
  {
    if leaderName == "" then None
    else
      var r := Seqs.FirstMatch(players, EntityMatcher(localName, leaderName));
      assert r.Some? ==> exists i :: 0 <= i < |players| && players[i] == r.value &&
                          EntityMatcher(localName, leaderName)(players[i]) &&
                          forall j :: 0 <= j < i ==> !EntityMatcher(localName, leaderName)(players[j]) by {
        if r.Some? {
          var i :| 0 <= i < |players| && players[i] == r.value && EntityMatcher(localName, leaderName)(players[i]) &&
                   Seqs.NoneBefore(players, EntityMatcher(localName, leaderName), i);
        }
      }
      r
  }

  /** `GetFollowingTarget`: scan the player entities and return the first that matches. */
  method GetFollowingTarget(snap: Snapshot, leaderName: string) returns (r: Option<Entity>)
    ensures r == FollowingTarget(snap.players, snap.localPlayerName, leaderName)
  {
    if leaderName == "" {
      return None;
    }
    var playerEntities := snap.players;
    var currentPlayerName := snap.localPlayerName;
    var i := 0;
    while i < |playerEntities|
      invariant 0 <= i <= |playerEntities|
      invariant Seqs.FirstMatch(playerEntities[i..], EntityMatcher(currentPlayerName, leaderName)) ==
                Seqs.FirstMatch(playerEntities, EntityMatcher(currentPlayerName, leaderName))
    {
      assert playerEntities[i..][1..] == playerEntities[i + 1..];
      var playerName := NameOrNull(playerEntities[i]);
      var isCurrentPlayer := currentPlayerName.Some? && Text.EqualsIgnoreCase(playerName, currentPlayerName.value);
      var matches := !isCurrentPlayer && Text.EqualsIgnoreCase(playerName, leaderName);
      if matches {
        return Some(playerEntities[i]);
      }
      i := i + 1;
    }
    assert playerEntities[i..] == [];
    return None;
  }

  /** A follower configured with its own name as the leader never finds a target. */
  lemma NeverFollowsItself(players: seq<Entity>, localName: string, leaderName: string)
    requires Text.EqualsIgnoreCase(localName, leaderName)
    ensures FollowingTarget(players, Some(localName), leaderName).None?
  {
    var r := FollowingTarget(players, Some(localName), leaderName);
    if r.Some? {
      assert Text.EqualsIgnoreCase(NameOrNull(r.value), localName);
    }
  }

  /**
   * `IsLeaderZoneInfoReliable`. `changeTime` is the moment the roster zone
   * last changed, `None` standing for `DateTime.MinValue` (so long ago that
   * any buffer has elapsed).
   */
  function IsLeaderZoneInfoReliable(zoneName: Option<string>, currentZone: string, now: int,
                                    changeTime: Option<int>, bufferMs: int): (r: bool)
    // a reliable zone is a real name different from ours ...
    ensures r ==> zoneName.Some? && zoneName.value != "" && zoneName.value != currentZone
    // ... whose last change is at least the buffer old
    ensures r ==> changeTime.None? || now - changeTime.value >= bufferMs
    ensures (zoneName.Some? && zoneName.value != "" && zoneName.value != currentZone &&
             (changeTime.None? || now - changeTime.value >= bufferMs)) ==> r
  {
    if zoneName.None? || zoneName.value == "" || zoneName.value == currentZone then false
    else if changeTime.Some? && now - changeTime.value < bufferMs then false
    else true
  }

  /** Reliability is monotone in time: once the buffer has elapsed it stays elapsed. */
  lemma ReliabilityPersists(zoneName: Option<string>, currentZone: string, now: int, later: int,
                            changeTime: Option<int>, bufferMs: int)
    requires now <= later
    requires IsLeaderZoneInfoReliable(zoneName, currentZone, now, changeTime, bufferMs)
    ensures IsLeaderZoneInfoReliable(zoneName, currentZone, later, changeTime, bufferMs)
  {
  }
}
