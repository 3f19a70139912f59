/**
 * What the follower observes once per cycle and what it can do. The game's
 * object graph is replaced by a snapshot value; input injection by an
 * abstract action log.
 */
module World {
  import opened Wrappers
  import PartyElements

  /** A world position. Coordinates are integers; distances are compared through their squares. */
  datatype Pos = Pos(x: int, y: int, z: int)

  /** `Vector3.Zero`, the "no position recorded" value. */
  const Origin: Pos := Pos(0, 0, 0)

  /** The squared Euclidean distance. */
  function Dist2(a: Pos, b: Pos): nat {
    (a.x - b.x) * (a.x - b.x) + (a.y - b.y) * (a.y - b.y) + (a.z - b.z) * (a.z - b.z)
  }

  /** `Vector3.Distance(a, b) < r` for a non-negative threshold `r`. */
  predicate DistBelow(a: Pos, b: Pos, r: nat) {
    Dist2(a, b) < r * r
  }

  /** `Vector3.Distance(a, b) > r` for a non-negative threshold `r`. */
  predicate DistAbove(a: Pos, b: Pos, r: nat) {
    Dist2(a, b) > r * r
  }

  /** A player entity: its `Player` component's name (may be null) and its position. */
  datatype Entity = Entity(name: Option<string>, pos: Pos)

  /**
   * One entry of `ItemsOnGroundLabels`. `id` stands for the identity of the
   * game object; `metadata` and `text` are `None` where the game yields null.
   * `isQuestItem` folds the world-item, targetable and "QuestItem" class tests
   * (a lookup failure reads as false); `optInVisible` says the label has a
   * third child that is visible. `distancePlayer` is the game's own distance
   * from the player to the item, in the game's unit, read as given.
   */
  datatype GroundLabel = GroundLabel(
    id: nat,
    isVisible: bool,
    labelValid: bool,
    labelVisible: bool,
    hasItem: bool,
    metadata: Option<string>,
    text: Option<string>,
    pos: Pos,
    isQuestItem: bool,
    isTargeted: bool,
    optInVisible: bool,
    distancePlayer: int)

  /** The line-of-sight oracle's classification of a straight path. */
  datatype PathStatus = Clear | Blocked | Dashable

  /**
   * What the dash heuristic sees for the head task's target: whether the
   * oracle and the player's grid position exist, the grid distance, and the
   * oracle's answer (`None` if the query failed).
   */
  datatype DashProbe = DashProbe(
    lineOfSightAvailable: bool,
    playerGridKnown: bool,
    gridDistance: real,
    status: Option<PathStatus>)

  /** The configuration the core reads. */
  datatype Settings = Settings(
    leaderName: string,
    keepWithinDistance: nat,
    transitionDistance: nat,
    closeFollow: bool,
    zoneUpdateBufferMs: int,
    dashEnabled: bool,
    dashMinDistance: real,
    dashMaxDistance: real)

  /**
   * One poll of the game. `gameReady` folds the plugin being enabled, a live
   * local player, the window in the foreground, no menu open, not loading and
   * in game. `randomIndex` is the value `Random.Next` would draw; `now` is the
   * wall clock in milliseconds.
   */
  datatype Snapshot = Snapshot(
    gameReady: bool,
    playerPos: Pos,
    localPlayerName: Option<string>,
    players: seq<Entity>,
    partyUi: Option<PartyElements.Element>,
    currentZone: string,
    isHideout: bool,
    areaLevel: int,
    labels: Option<seq<GroundLabel>>,
    tpConfirmationOpen: bool,
    tpButtonOnScreen: bool,
    optInButtonOnScreen: bool,
    dash: DashProbe,
    randomIndex: nat,
    now: int)

  /** The input sequences the follower issues, one constructor per sequence. */
  datatype Action =
    | ConfirmTeleport          // cursor to the "Are you sure?" button, click
    | ClickTpButton            // cursor to the roster teleport button, click
    | Dash(target: Pos)        // cursor to target, dash key
    | Walk(target: Pos)        // cursor to target, move key down and up
    | ReleaseMoveKey
    | ClickPortal(labelId: nat)
    | HoverItem(labelId: nat)
    | ClickItem(labelId: nat)
    | ClickOptIn(labelId: nat)

  /**
   * The teleport fallback: dismiss an open confirmation popup, then click the
   * roster teleport button if it has a screen position.
   */
  function TeleportActions(snap: Snapshot): (acts: seq<Action>)
    ensures ClickTpButton in acts <==> snap.tpButtonOnScreen
    ensures ConfirmTeleport in acts <==> snap.tpConfirmationOpen
    ensures |acts| <= 2
    // the popup is dismissed first, the button clicked last
    ensures snap.tpConfirmationOpen ==> acts[0] == ConfirmTeleport
    ensures snap.tpButtonOnScreen ==> acts[|acts| - 1] == ClickTpButton
  {
    (if snap.tpConfirmationOpen then [ConfirmTeleport] else [])
    + (if snap.tpButtonOnScreen then [ClickTpButton] else [])
  }
}
