# Endgame card session — a Dafny model

The Endgame app shows a grid of eight cards. The user picks a card, its video
(or, for an image-only card, its poster) is shown, and when the user goes back
to the grid the card is marked used and cannot be picked again until a full
reset. The session survives page reloads through a snapshot kept in browser
storage.

This project models the core of `app.js` as pure Dafny functions:

- `EndgameState` (`endgame_state.dfy`) holds the session: the selected card, the
  playback phase (`playbackState`: `"grid"`, `"paused"` or `"playing"`) and the
  used cards. Each operation is a transition from the old state to the new one.
  The guarded operations `selectCard` and `playVideo` return
  `Outcome(ok, next, written)`. Here `written` is the snapshot saved, or none
  when the call was refused. `returnToGrid` and `reset` always save and return
  `Committed(next, written)`. `loadState` is `LoadState(prior, stored)`, and
  the constructor is `Construct(stored)`.
- The used cards are a JavaScript `Set`, which keeps insertion order. They are
  modelled as a sequence without duplicates. `SetAdd` is `Set.prototype.add`,
  and `FromList` is `new Set(list)`. `UsedSet` is the plain set view.
- `EndgameProperties` (`endgame_properties.dfy`) relates the operations to each
  other. It covers the save/load round trip, the idempotence of `returnToGrid`,
  and the invariants along any run of events.
- `VideoController` (`video_controller.dfy`) drives an abstract video surface
  `{src, currentTime, visible, poster, playing}` and an optional title label
  `{text, hidden}`. The result of the browser's `video.play()` promise is the
  `started` input of `Play`.
- `CardCatalog` (`catalog.dfy`) holds the eight-card catalog and the first-match
  lookup `getCardById`. `CardVisuals` (`card_visuals.dfy`) is `updateCardVisuals`
  as a pure `(used, selected)` query.

The model follows the code, including where its behaviour is easy to miss:

- The persisted phase field is named `playbackState`.
- `selectCard` has no phase guard and no catalog check. Selecting while paused
  or playing drops the previous card without marking it used
  (`SelectCardDropsPrevious`).
- Selection tests use JavaScript truthiness, so an empty-string id counts as
  "no selection" for `returnToGrid` and on reload (`OrNull`, `Reloaded`).
- `loadState` accepts any non-empty phase name and any selection without
  validating them. It assigns fields in order, so a throw in `new Set(...)`
  leaves the first two fields already changed (`LoadDoesNotValidate`).
- Every operation enters paused or playing only with a selection (`Phased`,
  `ReachableStatesAreValid`). After a reload this no longer holds. `selectCard("")` succeeds,
  and the reload reads the empty selection back as none while the phase stays
  paused. `playVideo` then enters playing with no card selected
  (`EmptySelectionReloadPlaysWithoutCard`). The invariants (a) and (b) still
  hold there, and so does "a used card stays unselectable until a reset".
- A second `loadCard` does not fully replace the first (`LoadCardSupersedes`).
  An image-only card hides the element but keeps the earlier source and does
  not pause it, so a video that was playing goes on playing. A video card
  keeps the poster an earlier image-only card set.

## Model

| member | source | states |
|---|---|---|
| CardCatalog.FirstIndexOf | app.js:158-160 | the index returned is the first whose id matches: no earlier entry has that id, and the index is the catalog length exactly when no entry does |
| CardCatalog.Find | app.js:158-160 | `find` yields a catalog entry with the requested id that no earlier entry shares, and yields nothing exactly when no entry has that id |
| CardCatalog.GetCardById | app.js:158-160 | lookup over the constant catalog: a hit is a catalog card with that id; a miss means no catalog card has it |
| CardCatalog.FindDistinct | app.js:158-160 | in a catalog with distinct ids, looking up any entry's id returns that very entry |
| CardCatalog.CatalogIdsDistinct | app.js:4-13 | no two catalog cards share an id |
| CardCatalog.GetCardByIdFindsEachCard | app.js:4-13 | every catalog card is found by its own id |
| CardCatalog.CatalogVideos | app.js:4-13 | "bedrieglijk" is found and has a video; "dapper" is found and is image-only |
| CardCatalog.OnlyFirstCardHasVideo | app.js:5-12 | every card after the first has no video |
| CardCatalog.EmptyIdNotInCatalog | app.js:4-13 | the empty id, read as "no selection", names no catalog card |
| EndgameState.SetAdd | app.js:67 | `Set.add` keeps the old elements as a prefix, adds exactly the new id, and keeps the collection duplicate-free |
| EndgameState.FromList | app.js:31 | `new Set(list)` has no duplicates and the same elements as the list, and is the list itself when the list had no duplicates |
| EndgameState.OrNull | app.js:29 | `x \|\| null` on an optional string is present exactly when the value is present and non-empty, and is then the value |
| EndgameState.IsCardUsed | app.js:81-83 | a card is used exactly when its id is in the used-card set |
| EndgameState.LoadState | app.js:24-36 | an absent or unparsable snapshot changes nothing; otherwise selection, phase and used cards are taken from the snapshot, with fallbacks none, `"grid"` and empty for a missing or empty-string field; a non-iterable used list throws after the first two fields are set, so the used cards keep their prior value; duplicates never appear |
| EndgameState.Construct | app.js:17-22 | construction with nothing to load, or with a snapshot whose fields are all missing, gives no selection, the grid and no used cards |
| EndgameState.SaveState | app.js:38-46 | the snapshot carries the selection, the phase, the used cards as a list in insertion order holding exactly the used-card set once each, and the time `now` |
| EndgameState.SelectCard | app.js:48-54 | refused, with the state unchanged and no save, exactly when the id is used; otherwise selects the id, moves to paused, keeps the used cards and saves the new state; preserves the invariants |
| EndgameState.PlayVideo | app.js:56-63 | succeeds exactly from paused, moves to playing and saves; otherwise the state is unchanged and nothing is saved; preserves the invariants |
| EndgameState.ReturnToGrid | app.js:65-72 | always ends with no selection on the grid and saves; a non-empty selection is added to the used cards, which otherwise stay as they were and only ever grow |
| EndgameState.Reset | app.js:74-79 | from any state, ends with no selection, the grid and no used cards, and saves that state |
| EndgameProperties.SaveLoadRoundTrip | app.js:24-46 | loading the snapshot that was saved reproduces the state, with the used cards as the same set and in the same order; the timestamp is ignored; an empty-string selection reads back as none |
| EndgameProperties.WrittenSnapshotReloads | app.js:38-79 | when the storage write succeeds: after any operation from any state the program can hold (a duplicate-free used list and a non-empty phase, as every load and operation keeps), the snapshot it wrote reloads to the state it produced, and an operation that writes nothing was refused and left the state as it was |
| EndgameProperties.LoadFallsBackToDefaults | app.js:17-36 | a missing snapshot, an unparsable one, or one with every field missing or empty rehydrates to none, grid and no used cards |
| EndgameProperties.LoadDoesNotValidate | app.js:27-32 | loading keeps an unknown phase name, from which `playVideo` is refused, and may yield a state that breaks the invariants; a throw while building the used set leaves the earlier fields assigned |
| EndgameProperties.ReturnToGridIdempotent | app.js:65-72 | calling `returnToGrid` twice in a row leaves the same state as calling it once |
| EndgameProperties.SelectCardDropsPrevious | app.js:48-54 | selecting over an existing selection does not mark the dropped card used, so it can still be selected |
| EndgameProperties.ResetMakesEveryCardSelectable | app.js:74-79 | after `reset` any card can be selected |
| EndgameProperties.RunPreservesInvariants | app.js:48-79 | along any sequence of operations the invariants hold: nothing is selected on the grid, the selection is never a used card, the phase is one of the three names with a selection exactly off the grid |
| EndgameProperties.RunPreservesValid | app.js:48-79 | from any state where nothing is selected on the grid and the selection is not a used card, including a reloaded one, every sequence of operations keeps both facts |
| EndgameProperties.RunWithoutResetGrows | app.js:48-79 | along any sequence of operations without `reset`, the used cards only grow, keeping their order |
| EndgameProperties.UsedCardStaysUnselectable | app.js:48-83 | from any state keeping invariants (a) and (b), reloaded ones included, until a reset a used card stays used, is never the selection, and `selectCard` on it is refused |
| EndgameProperties.EmptySelectionReloadPlaysWithoutCard | app.js:24-63 | selecting the empty id, saving and reloading gives paused with no selection, which keeps the invariants but not the phase/selection shape, and `playVideo` then moves to playing with no selection |
| EndgameProperties.ReachableStatesAreValid | app.js:16-83 | every state reached from a fresh start by any operations satisfies the invariants |
| EndgameProperties.DapperScenario | app.js:48-83 | fresh start, select "dapper", play, return: each step succeeds with the expected phase; "dapper" is then used and re-selecting it is refused with the state unchanged |
| VideoController.New | app.js:88-92 | a new controller has no current card and the given surfaces |
| VideoController.LoadCard | app.js:94-113 | records the card; a video card sets the source, rewinds and shows the element; an image-only card hides it and sets the poster; the title, if any, shows the name and is unhidden |
| VideoController.Play | app.js:115-135 | with a video card, rewinds, hides the title and reports the platform's answer, leaving source, visibility and poster as they were; without a video card (or with no card), hides the title, reports true and leaves the element untouched |
| VideoController.Pause | app.js:137-141 | the element stops playing and nothing else changes |
| VideoController.Reset | app.js:143-154 | stops and rewinds the element, clears its source, empties and hides the title, forgets the card; visibility and poster stay |
| VideoController.LoadCardIdempotent | app.js:94-113 | loading the same card twice equals loading it once |
| VideoController.LoadCardSupersedes | app.js:94-113 | loading a card over another matches loading it alone in card, title, visibility, and source and position (video card) or poster (image card); a video card keeps the earlier poster, and an image-only card keeps the earlier source, position and playing flag |
| VideoController.ImageCardPlaysImmediately | app.js:94-135 | an image-only card plays at once with success, whatever the platform would answer, without touching the element; the title, if any, shows the card's name and ends hidden |
| VideoController.PauseStopsPlayback | app.js:115-141 | pausing a video card that `play` started stops it at the start of the same source with the same card, and pausing again changes nothing |
| VideoController.VideoCardPlayReportsPlatform | app.js:94-135 | a loaded video card's play succeeds exactly when the platform starts playback, and is at position zero on its own source |
| VideoController.PlayAfterResetIsNoop | app.js:115-154 | after `reset` no card is loaded, so `play` reports true and changes only the title |
| VideoController.ResetForgetsCard | app.js:94-154 | `reset` is idempotent and leaves the same card, title, source and playing flag whatever card was loaded before |
| CardVisuals.UpdateCardVisuals | app.js:162-174 | a card looks used exactly when it is used, and selected exactly when it is the selection off the grid; in a valid state never both |
| CardVisuals.VisualsAfterSelect | app.js:48-54 | a card just selected shows as selected and not used |
| CardVisuals.VisualsAfterReturn | app.js:65-72 | after returning to the grid the previously selected card shows as used and no card shows as selected |
| CardVisuals.VisualsAfterReset | app.js:74-79 | after `reset` no card shows as used or selected |

## Left out

- Browser storage, `JSON.parse`/`JSON.stringify` and `Date.now` are host I/O. A storage read is the `Stored` value, a write is the `written` snapshot, and the clock is the `now` parameter.
- Parsed JSON values of other types are not modelled. These include a non-string selection or phase, and a `usedCards` that is a string, which `new Set` would split into characters. A parsed `null` and unparsable text both throw and are `Unparsable`; any other non-object value reads as a snapshot with every field missing.
- A failing storage write is not modelled. `saveState` has no `try`, so a throwing `localStorage.setItem` (quota exceeded, storage disabled) would make `selectCard`, `playVideo`, `returnToGrid` and `reset` throw. Their fields would already be changed in memory, storage would keep the previous snapshot, and a reload would undo the change (app.js:38-79). The model treats every write as successful.
- `console.error` logging has no behaviour to verify.
- DOM details (`classList`, `style.display`, `textContent`) are record fields.
- `debounce` (app.js:177-187) is timer plumbing on `setTimeout`/`clearTimeout`.
- `video.load()` is a foreign browser API. Its only modelled effect is that loading a new source stops playback.
- VideoController.Play: the `async`/`await` is the `started` input. On a rejection the element's `playing` flag is left as it was, since the platform's partial effects are not modelled.
- VideoController: a missing video element is not modelled. Without one, `loadCard` would record the card and then throw. `play` on a video card would catch the failure and report false. `pause` and `reset` would skip the element through their `if (this.video)` guards.
- VideoController.LoadCard: takes a catalog card, so the path where `getCardById` finds nothing is not modelled. `loadCard(undefined)` would set the current card to `undefined`, dropping the earlier one, and then throw when it reads `card.video` (app.js:95-97).
- EndgameProperties.Run: every event of a run shares one timestamp, since no property reads the timestamp.
