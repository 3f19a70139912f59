/**
 * The party-roster reader: a structural parse of the game's party panel, an
 * element tree, into one record per party member (name, zone shown in the
 * roster, teleport button).
 */
module PartyElements {
  import opened Wrappers
  import Seqs

  /** A UI element: its optional text and its children in display order. */
  datatype Element = Node(text: Option<string>, children: seq<Element>)

  /** `new Element()`: no text, no children. */
  const EmptyElement: Element := Node(None, [])

  /**
   * One roster row. `zoneName` is `None` exactly where the C# property would
   * hold `null`.
   */
  datatype PartyElementWindow = PartyElementWindow(
    playerName: string,
    element: Element,
    zoneName: Option<string>,
    tpButton: Element)

  /** A freshly constructed `PartyElementWindow`. */
  const DefaultWindow: PartyElementWindow := PartyElementWindow("", EmptyElement, Some(""), EmptyElement)

  /** An illustration of the default: no name, an empty zone and no elements. */
  lemma DefaultWindowIsBlank()
    ensures DefaultWindow.playerName == "" && DefaultWindow.zoneName == Some("")
    ensures DefaultWindow.element == EmptyElement && DefaultWindow.tpButton == EmptyElement
  {
  }

  /**
   * The zone a roster row shows. `currentArea` is the display name of the
   * area we are in, `None` when the game controller is unavailable.
   */
  function GetZoneNameFromPartyElement(e: Element, currentArea: Option<string>): (r: Option<string>)
    // a four-child row names its zone in the third child, falling back to our own area
    ensures |e.children| == 4 && e.children[2].text.Some? ==> r == e.children[2].text
    ensures |e.children| == 4 && e.children[2].text.None? ==> r == currentArea
    // every other shape reports our own area, or "" without one
    ensures |e.children| != 4 ==> r == Some(currentArea.GetOr(""))
    // with a known area the result is never null
    ensures currentArea.Some? ==> r.Some?
  {
    if |e.children| >= 3 && |e.children| == 4 then
      match e.children[2].text
      case Some(t) => Some(t)
      case None => currentArea
    else
      Some(currentArea.GetOr(""))
  }

  /** The teleport-to-player button of a roster row. */
  function GetTpButtonFromPartyElement(e: Element): (r: Element)
    ensures |e.children| >= 3 ==> r in e.children
    ensures |e.children| == 4 ==> r == e.children[3]
    ensures |e.children| == 3 || |e.children| > 4 ==> r == e.children[2]
    ensures |e.children| < 3 ==> r == EmptyElement
  {
    if |e.children| >= 3 then
      var tpButtonIndex := if |e.children| == 4 then 3 else 2;
      if tpButtonIndex < |e.children| then e.children[tpButtonIndex] else EmptyElement
    else
      EmptyElement
  }

  /** A row that names a player: at least one child whose text is non-empty. */
  predicate HasPlayerName(e: Element) {
    |e.children| > 0 && e.children[0].text.Some? && e.children[0].text.value != ""
  }

  /** The text of a row's first child, if it has one. */
  function FirstChildText(e: Element): Option<string> {
    if |e.children| > 0 then e.children[0].text else None
  }

  /** The roster record built for row `e`. */
  function WindowOf(e: Element, currentArea: Option<string>): PartyElementWindow {
    PartyElementWindow(FirstChildText(e).GetOr(""), e, GetZoneNameFromPartyElement(e, currentArea),
                       GetTpButtonFromPartyElement(e))
  }

  function RecordMaker(currentArea: Option<string>): Element -> PartyElementWindow {
    e => WindowOf(e, currentArea)
  }

  /** `PartyElement.Children[0].Children[0].Children`, or `None` when the path does not exist. */
  function PartyRows(partyUi: Option<Element>): Option<seq<Element>> {
    match partyUi
    case None => None
    case Some(b) =>
      if |b.children| > 0 && |b.children[0].children| > 0 then Some(b.children[0].children[0].children)
      else None
  }

  /** The roster records of `rows`, in display order. */
  function Roster(rows: seq<Element>, currentArea: Option<string>): seq<PartyElementWindow> {
    Seqs.SelectMap(rows, HasPlayerName, RecordMaker(currentArea))
  }

  /**
   * The roster is an order-preserving selection of exactly the rows that
   * name a player, each turned into its record.
   */
  lemma RosterIsOrderedSelection(rows: seq<Element>, currentArea: Option<string>)
    returns (idx: seq<int>)
    ensures Seqs.IsSelection(rows, HasPlayerName, RecordMaker(currentArea), Roster(rows, currentArea), idx)
  {
    idx := Seqs.SelectMapIsOrderedSelection(rows, HasPlayerName, RecordMaker(currentArea));
  }

  /** Every roster record names its player; when our own area is known, every record has a zone. */
  lemma RosterRecordsComplete(rows: seq<Element>, currentArea: Option<string>)
    ensures forall w :: w in Roster(rows, currentArea) ==>
              w.playerName != "" && HasPlayerName(w.element) &&
              (currentArea.Some? ==> w.zoneName.Some?)
  {
    var r := Roster(rows, currentArea);
    var idx := RosterIsOrderedSelection(rows, currentArea);
    forall w | w in r
      ensures w.playerName != "" && HasPlayerName(w.element) && (currentArea.Some? ==> w.zoneName.Some?)
    {
      var k :| 0 <= k < |r| && r[k] == w;
      assert w == WindowOf(rows[idx[k]], currentArea);
    }
  }

  /**
   * `GetPlayerInfoElementList`: walk the roster rows in order and keep a
   * record for each row that names a player. A missing panel yields [].
   */
  method GetPlayerInfoElementList(partyUi: Option<Element>, currentArea: Option<string>)
    returns (playersInParty: seq<PartyElementWindow>)
    ensures PartyRows(partyUi).None? ==> playersInParty == []
    ensures PartyRows(partyUi).Some? ==> playersInParty == Roster(PartyRows(partyUi).value, currentArea)
    ensures forall w :: w in playersInParty ==> w.playerName != "" && w.element.children != []
  {
    playersInParty := [];
    var rows := PartyRows(partyUi);
    if rows.Some? {
      var list := rows.value;
      var i := 0;
      while i < |list|
        invariant 0 <= i <= |list|
        invariant playersInParty + Roster(list[i..], currentArea) == Roster(list, currentArea)
        invariant forall w :: w in playersInParty ==> w.playerName != "" && w.element.children != []
      {
        var partyElement := list[i];
        assert list[i..][1..] == list[i + 1..];
        if |partyElement.children| > 0 {
          var playerName := partyElement.children[0].text;
          if playerName.Some? && playerName.value != "" {
            var newElement := PartyElementWindow(playerName.value, partyElement,
                                                 GetZoneNameFromPartyElement(partyElement, currentArea),
                                                 GetTpButtonFromPartyElement(partyElement));
            playersInParty := playersInParty + [newElement];
          }
        }
        i := i + 1;
      }
      assert list[|list|..] == [];
    }
  }

  predicate HasThreeChildren(e: Element) {
    |e.children| >= 3
  }

  /** The first-child texts of the rows that have at least three children (texts may be null). */
  function PlayerNames(rows: seq<Element>): seq<Option<string>> {
    Seqs.SelectMap(rows, HasThreeChildren, FirstChildText)
  }

  /** `PlayerNames` lists, in order, the first-child text of exactly the rows with three or more children. */
  lemma PlayerNamesIsOrderedSelection(rows: seq<Element>) returns (idx: seq<int>)
    ensures Seqs.IsSelection(rows, HasThreeChildren, FirstChildText, PlayerNames(rows), idx)
  {
    idx := Seqs.SelectMapIsOrderedSelection(rows, HasThreeChildren, FirstChildText);
  }

  /**
   * `ListOfPlayersInParty(child)`: the player names under the `child`-th
   * in-game panel. Any missing step of the path yields [] (the source
   * swallows the index exception).
   */
  function ListOfPlayersInParty(ingameUi: Element, child: int): (r: seq<Option<string>>)
    ensures !(0 <= child < |ingameUi.children|) ==> r == []
    ensures 0 <= child < |ingameUi.children| && |ingameUi.children[child].children| > 0 &&
            |ingameUi.children[child].children[0].children| > 0 ==>
              r == PlayerNames(ingameUi.children[child].children[0].children[0].children)
    ensures (0 <= child < |ingameUi.children| &&
             (|ingameUi.children[child].children| == 0 || |ingameUi.children[child].children[0].children| == 0))
            ==> r == []
  {
    if 0 <= child < |ingameUi.children| then
      var baseWindow := ingameUi.children[child];
      if |baseWindow.children| > 0 && |baseWindow.children[0].children| > 0 then
        PlayerNames(baseWindow.children[0].children[0].children)
      else []
    else []
  }
}
