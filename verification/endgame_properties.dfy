/** Properties of the session state machine that relate several operations:
    the save/load round trip, idempotence, and the invariants along any run. */
module EndgameProperties {
  import opened Wrappers
  import opened EndgameState

  /** One user-triggered call into the state machine. */
  datatype Event = SelectCardEvent(id: string) | PlayVideoEvent | ReturnToGridEvent | ResetEvent

  /** Dispatches one event. The unguarded operations always complete, so their
      outcome is reported as `ok`. */
  function Apply(s: State, e: Event, now: int): Outcome {
    match e
    case SelectCardEvent(id) => SelectCard(s, id, now)
    case PlayVideoEvent => PlayVideo(s, now)
    case ReturnToGridEvent =>
      var c := ReturnToGrid(s, now);
      Outcome(true, c.next, Some(c.written))
    case ResetEvent =>
      var c := Reset(s, now);
      Outcome(true, c.next, Some(c.written))
  }

  /** The state after processing `events` one at a time, in order. */
  function Run(s: State, events: seq<Event>, now: int): State
    decreases |events|
  {
    if |events| == 0 then s else Run(Apply(s, events[0], now).next, events[1..], now)
  }

  ghost predicate NoReset(events: seq<Event>) {
    forall k :: 0 <= k < |events| ==> !events[k].ResetEvent?
  }

  // ---------------------------------------------------------------------------
  // Persistence

  /** Loading what `saveState` wrote reproduces the state, the used cards in
      the same order; the timestamp is ignored, and an empty-string selection
      reads back as no selection. Whatever the fields held before the load
      does not matter. */
  lemma SaveLoadRoundTrip(prior: State, s: State, now: int)
    requires NoDuplicates(s.usedCards) && s.playbackState != ""
    ensures LoadState(prior, Parsed(SaveState(s, now))) == Reloaded(s)
    ensures s.selectedCard != Some("") ==> LoadState(prior, Parsed(SaveState(s, now))) == s
    ensures UsedSet(LoadState(prior, Parsed(SaveState(s, now)))) == UsedSet(s)
  {
  }

  /** Whatever an operation leaves in storage reloads to the state it produced:
      a write holds the new state, and an operation that does not write leaves
      the state, and so the previous snapshot, as it was. */
  lemma WrittenSnapshotReloads(s: State, e: Event, now: int)
    requires NoDuplicates(s.usedCards) && s.playbackState != ""
    ensures var o := Apply(s, e, now);
            o.written.Some? ==> Construct(Parsed(o.written.value)) == Reloaded(o.next)
    ensures var o := Apply(s, e, now);
            o.written.None? ==> o.next == s && !o.ok
  {
  }

  /** A missing snapshot, an unparsable one, or one with every field missing
      all rehydrate to the defaults: no selection, the grid, no used cards. */
  lemma LoadFallsBackToDefaults(now: int)
    ensures Construct(Absent) == Initial
    ensures Construct(Unparsable) == Initial
    ensures Construct(Parsed(Snapshot(None, None, Missing, now))) == Initial
    ensures Construct(Parsed(Snapshot(Some(""), Some(""), Ids([]), now))) == Initial
  {
  }

  /** Loading accepts any non-empty phase name and any selection: a state that
      breaks the invariants can be rehydrated, and from an unknown phase
      `playVideo` is refused. When `usedCards` is not iterable, the two fields
      assigned before the throw keep their new values. */
  lemma LoadDoesNotValidate(now: int)
    ensures var s := Construct(Parsed(Snapshot(Some("dapper"), Some("bogus"), Ids(["dapper"]), now)));
            && s.playbackState == "bogus"
            && !Valid(s)
            && !PlayVideo(s, now).ok
    ensures var s := Construct(Parsed(Snapshot(Some("dapper"), Some(Grid), Missing, now)));
            s.selectedCard == Some("dapper") && !Valid(s)
    ensures var prior := State(None, Grid, ["wreed"]);
            LoadState(prior, Parsed(Snapshot(Some("dapper"), Some(Playing), NotIterable, now)))
            == State(Some("dapper"), Playing, ["wreed"])
  {
  }

  // ---------------------------------------------------------------------------
  // Single operations

  /** Calling `returnToGrid` twice in a row is the same as calling it once. */
  lemma ReturnToGridIdempotent(s: State, now1: int, now2: int)
    ensures ReturnToGrid(ReturnToGrid(s, now1).next, now2).next == ReturnToGrid(s, now1).next
  {
  }

  /** `selectCard` while a card is already selected drops that card without
      marking it used, so it stays selectable. */
  lemma SelectCardDropsPrevious(s: State, id: string, now: int)
    requires s.selectedCard.Some? && s.selectedCard.value != id
    requires s.selectedCard.value !in UsedSet(s) && id !in UsedSet(s)
    ensures var n := SelectCard(s, id, now).next;
            && n.selectedCard == Some(id)
            && !IsCardUsed(n, s.selectedCard.value)
            && SelectCard(n, s.selectedCard.value, now).ok
  {
  }

  /** After `reset`, every card is selectable again. */
  lemma ResetMakesEveryCardSelectable(s: State, id: string, now1: int, now2: int)
    ensures SelectCard(Reset(s, now1).next, id, now2).ok
  {
  }

  // ---------------------------------------------------------------------------
  // Runs

  /** The invariants hold along any run from a state that has them. */
  lemma {:induction false} RunPreservesInvariants(s: State, events: seq<Event>, now: int)
    requires Valid(s) && Phased(s)
    ensures Valid(Run(s, events, now)) && Phased(Run(s, events, now))
    decreases |events|
  {
    if |events| > 0 {
      var n := Apply(s, events[0], now).next;
      assert Valid(n) && Phased(n);
      RunPreservesInvariants(n, events[1..], now);
    }
  }

  /** The invariants (a) and (b) hold along any run from a state that has
      them, also from a reloaded state whose phase and selection disagree. */
  lemma {:induction false} RunPreservesValid(s: State, events: seq<Event>, now: int)
    requires Valid(s)
    ensures Valid(Run(s, events, now))
    decreases |events|
  {
    if |events| > 0 {
      var n := Apply(s, events[0], now).next;
      assert Valid(n);
      RunPreservesValid(n, events[1..], now);
    }
  }

  /** Without a reset the used cards only grow, keeping their order. */
  lemma {:induction false} RunWithoutResetGrows(s: State, events: seq<Event>, now: int)
    requires NoReset(events)
    ensures s.usedCards <= Run(s, events, now).usedCards
    decreases |events|
  {
    if |events| > 0 {
      var n := Apply(s, events[0], now).next;
      assert !events[0].ResetEvent?;
      assert s.usedCards <= n.usedCards;
      assert NoReset(events[1..]) by {
        forall k | 0 <= k < |events[1..]|
          ensures !events[1..][k].ResetEvent?
        {
          assert events[1..][k] == events[k + 1];
        }
      }
      RunWithoutResetGrows(n, events[1..], now);
    }
  }

  /** Until a reset, a used card can never become the selection again, also
      after a page reload. */
  lemma UsedCardStaysUnselectable(s: State, events: seq<Event>, id: string, now: int)
    requires Valid(s) && NoReset(events) && id in UsedSet(s)
    ensures var t := Run(s, events, now);
            && IsCardUsed(t, id)
            && t.selectedCard != Some(id)
            && !SelectCard(t, id, now).ok
  {
    RunWithoutResetGrows(s, events, now);
    RunPreservesValid(s, events, now);
    var t := Run(s, events, now);
    assert id in s.usedCards;
    assert id in t.usedCards;
  }

  /** Every state the constructor with empty storage and then any events
      can produce satisfies the invariants. */
  lemma ReachableStatesAreValid(events: seq<Event>, now: int)
    ensures Valid(Run(Construct(Absent), events, now)) && Phased(Run(Construct(Absent), events, now))
  {
    RunPreservesInvariants(Initial, events, now);
  }

  /** Selecting the empty id succeeds (there is no catalog check), but a
      reload reads the empty selection back as none while the phase stays
      paused. From there `playVideo` succeeds and enters playing with no card
      selected: the reloaded state keeps the invariants but not the shape the
      operations build. */
  lemma EmptySelectionReloadPlaysWithoutCard(now: int)
    ensures var selected := SelectCard(Construct(Absent), "", now);
            var reloaded := Construct(Parsed(selected.written.value));
            var played := PlayVideo(reloaded, now);
            && selected.ok && Phased(selected.next)
            && reloaded == State(None, Paused, [])
            && Valid(reloaded) && !Phased(reloaded)
            && played.ok && played.next == State(None, Playing, [])
  {
  }

  /** Fresh start; select "dapper"; play; return to the grid; "dapper" is now
      used and selecting it again is refused with the state unchanged. */
  lemma DapperScenario(now: int)
    ensures var s0 := Construct(Absent);
            var s1 := SelectCard(s0, "dapper", now);
            var s2 := PlayVideo(s1.next, now);
            var s3 := ReturnToGrid(s2.next, now);
            var s4 := SelectCard(s3.next, "dapper", now);
            && s1.ok && s1.next.selectedCard == Some("dapper") && s1.next.playbackState == Paused
            && s2.ok && s2.next.playbackState == Playing
            && s3.next.selectedCard.None? && s3.next.playbackState == Grid
            && IsCardUsed(s3.next, "dapper")
            && !s4.ok && s4.next == s3.next
  {
  }
}
