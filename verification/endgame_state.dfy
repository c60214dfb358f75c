/** The session state machine `EndgameState`: selection, playback phase and the
    used-card set, with the snapshot it saves after every mutation and the
    rehydration it performs at construction. Every operation is a pure
    transition from the old state to the new one. */
module EndgameState {
  import opened Wrappers

  /** The three phase names the operations write. A loaded state may carry any
      other non-empty name, because loading does not validate the field. */
  const Grid: string := "grid"
  const Paused: string := "paused"
  const Playing: string := "playing"

  /** `usedCards` is a JavaScript Set: a collection without duplicates that keeps
      insertion order, so it is modelled as a duplicate-free sequence. */
  datatype State = State(selectedCard: Option<string>, playbackState: string, usedCards: seq<string>)

  /** The field values the constructor assigns before it loads. */
  const Initial: State := State(None, Grid, [])

  /** The `usedCards` field of a parsed snapshot: absent or falsy, a list of ids,
      or a truthy value that is not iterable (on which `new Set(...)` throws). */
  datatype UsedCardsField = Missing | Ids(ids: seq<string>) | NotIterable

  /** The object written under the storage key; a missing field is None. */
  datatype Snapshot = Snapshot(selectedCard: Option<string>, playbackState: Option<string>,
                               usedCards: UsedCardsField, timestamp: int)

  /** What reading the storage key yields: nothing (or the empty string), text
      that does not parse into an object, or a parsed snapshot. */
  datatype Stored = Absent | Unparsable | Parsed(snapshot: Snapshot)

  /** Result of a guarded operation: its boolean answer, the next state and the
      snapshot it saved, if it saved one. */
  datatype Outcome = Outcome(ok: bool, next: State, written: Option<Snapshot>)

  /** Result of an unguarded operation, which always saves. */
  datatype Committed = Committed(next: State, written: Snapshot)

  // ---------------------------------------------------------------------------
  // The used-card set

  ghost predicate NoDuplicates(xs: seq<string>) {
    forall i, j :: 0 <= i < j < |xs| ==> xs[i] != xs[j]
  }

  /** The used cards as a mathematical set. */
  function UsedSet(s: State): set<string> {
    set x | x in s.usedCards
  }

  /** `Set.prototype.add`: appends `x` unless it is already present. */
  function SetAdd(xs: seq<string>, x: string): (r: seq<string>)
    ensures xs <= r
    ensures forall y :: y in r <==> y in xs || y == x
    ensures NoDuplicates(xs) ==> NoDuplicates(r)
  {
    if x in xs then xs else xs + [x]
  }

  /** `new Set(list)`: adds the list's elements one by one, in order. */
  function FromList(xs: seq<string>): (r: seq<string>)
    ensures NoDuplicates(r)
    ensures forall y :: y in r <==> y in xs
    ensures NoDuplicates(xs) ==> r == xs
  {
    if |xs| == 0 then []
    else
      var init := xs[..|xs| - 1];
      assert forall y :: y in xs <==> y in init || y == xs[|xs| - 1];
      SetAdd(FromList(init), xs[|xs| - 1])
  }

  /** JavaScript truthiness of an optional string: the empty string counts as absent. */
  function OrNull(o: Option<string>): (r: Option<string>)
    ensures r.Some? <==> o.Some? && o.value != ""
    ensures r.Some? ==> r == o
  {
    if o.Some? && o.value != "" then o else None
  }

  function IsCardUsed(s: State, id: string): (r: bool)
    ensures r <==> id in UsedSet(s)
  {
    id in s.usedCards
  }

  // ---------------------------------------------------------------------------
  // Invariants

  /** The invariants every operation preserves:
      (a) on the grid nothing is selected,
      (b) the selected card is never a used one,
      and the used cards hold no duplicates and the phase name is non-empty. */
  ghost predicate Valid(s: State) {
    && (s.playbackState == Grid ==> s.selectedCard.None?)
    && (s.selectedCard.Some? ==> s.selectedCard.value !in s.usedCards)
    && NoDuplicates(s.usedCards)
    && s.playbackState != ""
  }

  /** The stronger shape of every state the operations build: the phase is one of
      the three names, and a card is selected exactly when the phase is not grid. */
  ghost predicate Phased(s: State) {
    && (s.playbackState == Grid || s.playbackState == Paused || s.playbackState == Playing)
    && (s.playbackState == Grid <==> s.selectedCard.None?)
  }

  // ---------------------------------------------------------------------------
  // Persistence

  /** `saveState`: the snapshot of `s` written at time `now`. The used cards
      are written as a list in insertion order, so the list holds exactly the
      used-card set, each id once. */
  function SaveState(s: State, now: int): (r: Snapshot)
    ensures r.selectedCard == s.selectedCard && r.playbackState == Some(s.playbackState)
    ensures r.usedCards.Ids? && r.usedCards.ids == s.usedCards
    ensures forall x :: x in r.usedCards.ids <==> x in UsedSet(s)
    ensures NoDuplicates(s.usedCards) ==> NoDuplicates(r.usedCards.ids)
    ensures r.timestamp == now
  {
    Snapshot(s.selectedCard, Some(s.playbackState), Ids(s.usedCards), now)
  }

  /** `loadState` applied to the fields of `prior`. A read that yields nothing
      or fails to parse changes nothing. Otherwise the fields are assigned in
      order with their fallbacks; a non-iterable `usedCards` throws after the
      first two assignments, so the used cards keep their prior value. */
  function LoadState(prior: State, stored: Stored): (r: State)
    ensures !stored.Parsed? ==> r == prior
    ensures stored.Parsed? ==> r.selectedCard == OrNull(stored.snapshot.selectedCard)
    ensures stored.Parsed? && OrNull(stored.snapshot.playbackState).None? ==> r.playbackState == Grid
    ensures stored.Parsed? && stored.snapshot.playbackState.Some? && stored.snapshot.playbackState.value != ""
            ==> r.playbackState == stored.snapshot.playbackState.value
    ensures stored.Parsed? && stored.snapshot.usedCards.Missing? ==> r.usedCards == []
    ensures stored.Parsed? && stored.snapshot.usedCards.Ids?
            ==> forall x :: x in r.usedCards <==> x in stored.snapshot.usedCards.ids
    ensures stored.Parsed? && stored.snapshot.usedCards.NotIterable? ==> r.usedCards == prior.usedCards
    ensures prior.playbackState != "" ==> r.playbackState != ""
    ensures NoDuplicates(prior.usedCards) ==> NoDuplicates(r.usedCards)
  {
    match stored
    case Absent => prior
    case Unparsable => prior
    case Parsed(snap) =>
      var selected := OrNull(snap.selectedCard);
      var phase := if snap.playbackState.Some? && snap.playbackState.value != "" then snap.playbackState.value else Grid;
      match snap.usedCards
      case Missing => State(selected, phase, [])
      case Ids(xs) => State(selected, phase, FromList(xs))
      case NotIterable => State(selected, phase, prior.usedCards)
  }

  /** The constructor: initial fields, then a load. */
  function Construct(stored: Stored): (r: State)
    ensures !stored.Parsed? ==> r == Initial
    ensures (&& stored.Parsed?
             && stored.snapshot.selectedCard.None?
             && stored.snapshot.playbackState.None?
             && !stored.snapshot.usedCards.Ids?)
            ==> r == Initial
  {
    LoadState(Initial, stored)
  }

  /** What a reload shows of `s`: an empty-string selection reads back as none. */
  function Reloaded(s: State): State {
    s.(selectedCard := OrNull(s.selectedCard))
  }

  // ---------------------------------------------------------------------------
  // Transitions

  /** `selectCard`: refused, with no save, exactly when the card is used.
      There is no phase guard: a selection made while paused or playing
      replaces the previous one without marking it used. */
  function SelectCard(s: State, id: string, now: int): (r: Outcome)
    ensures r.ok <==> id !in UsedSet(s)
    ensures !r.ok ==> r.next == s && r.written.None?
    ensures r.ok ==> && r.next.selectedCard == Some(id)
                     && r.next.playbackState == Paused
                     && r.next.usedCards == s.usedCards
                     && r.written == Some(SaveState(r.next, now))
    ensures Valid(s) ==> Valid(r.next)
    ensures Phased(s) ==> Phased(r.next)
  {
    if id in s.usedCards then Outcome(false, s, None)
    else
      var n := s.(selectedCard := Some(id), playbackState := Paused);
      Outcome(true, n, Some(SaveState(n, now)))
  }

  /** `playVideo`: succeeds exactly from the paused phase. */
  function PlayVideo(s: State, now: int): (r: Outcome)
    ensures r.ok <==> s.playbackState == Paused
    ensures !r.ok ==> r.next == s && r.written.None?
    ensures r.ok ==> && r.next.playbackState == Playing
                     && r.next.selectedCard == s.selectedCard
                     && r.next.usedCards == s.usedCards
                     && r.written == Some(SaveState(r.next, now))
    ensures Valid(s) ==> Valid(r.next)
    ensures Phased(s) ==> Phased(r.next)
  {
    if s.playbackState == Paused then
      var n := s.(playbackState := Playing);
      Outcome(true, n, Some(SaveState(n, now)))
    else Outcome(false, s, None)
  }

  /** `returnToGrid`: legal from any phase; a non-empty selection joins the used cards. */
  function ReturnToGrid(s: State, now: int): (r: Committed)
    ensures r.next.selectedCard.None? && r.next.playbackState == Grid
    ensures s.usedCards <= r.next.usedCards
    ensures OrNull(s.selectedCard).Some? ==> UsedSet(r.next) == UsedSet(s) + {s.selectedCard.value}
    ensures OrNull(s.selectedCard).None? ==> r.next.usedCards == s.usedCards
    ensures r.written == SaveState(r.next, now)
    ensures NoDuplicates(s.usedCards) ==> Valid(r.next)
    ensures Phased(r.next)
  {
    var used := if s.selectedCard.Some? && s.selectedCard.value != ""
                then SetAdd(s.usedCards, s.selectedCard.value)
                else s.usedCards;
    var n := State(None, Grid, used);
    Committed(n, SaveState(n, now))
  }

  /** `reset`: the only operation that empties the used cards. */
  function Reset(s: State, now: int): (r: Committed)
    ensures r.next.selectedCard.None? && r.next.playbackState == Grid && UsedSet(r.next) == {}
    ensures r.written == SaveState(r.next, now)
    ensures Valid(r.next) && Phased(r.next)
  {
    Committed(Initial, SaveState(Initial, now))
  }
}
