/** `updateCardVisuals` as a pure query: which of the two classes, `used` and
    `selected`, a card's element carries for a given session state. */
module CardVisuals {
  import opened Wrappers
  import opened EndgameState

  datatype Visuals = Visuals(used: bool, selected: bool)

  /** A card looks used when it is in the used set, and selected when it is the
      current selection and the phase is anything but the grid. In a state that
      keeps the invariants the two never coincide. */
  function UpdateCardVisuals(s: State, id: string): (v: Visuals)
    ensures v.used <==> IsCardUsed(s, id)
    ensures v.selected <==> s.selectedCard == Some(id) && s.playbackState != Grid
    ensures Valid(s) ==> !(v.used && v.selected)
  {
    Visuals(IsCardUsed(s, id), s.selectedCard == Some(id) && s.playbackState != Grid)
  }

  /** A card just selected shows as selected and not used. */
  lemma VisualsAfterSelect(s: State, id: string, now: int)
    requires SelectCard(s, id, now).ok
    ensures UpdateCardVisuals(SelectCard(s, id, now).next, id) == Visuals(false, true)
  {
  }

  /** After returning to the grid, the card that was selected shows as used and
      no card shows as selected. */
  lemma VisualsAfterReturn(s: State, other: string, now: int)
    requires s.selectedCard.Some? && s.selectedCard.value != ""
    ensures UpdateCardVisuals(ReturnToGrid(s, now).next, s.selectedCard.value).used
    ensures !UpdateCardVisuals(ReturnToGrid(s, now).next, other).selected
  {
  }

  /** After `reset` no card shows as used or selected. */
  lemma VisualsAfterReset(s: State, id: string, now: int)
    ensures UpdateCardVisuals(Reset(s, now).next, id) == Visuals(false, false)
  {
  }
}
