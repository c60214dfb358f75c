/** `VideoController`: drives an abstract playback surface and an optional
    title label according to the card it has loaded. The platform's answer to
    a play request is an input. */
module VideoController {
  import opened Wrappers
  import opened CardCatalog

  /** The video element as far as the controller touches it: its source, its
      position, whether it is shown, its idle poster, and whether it plays. */
  datatype Video = Video(src: string, currentTime: real, visible: bool, poster: string, playing: bool)

  /** The title label: its text and whether it carries the `hidden` class. */
  datatype Title = Title(text: string, hidden: bool)

  /** The title element may be absent; every access to it is guarded. */
  datatype Controller = Controller(video: Video, title: Option<Title>, currentCard: Option<Card>)

  datatype PlayResult = PlayResult(ok: bool, next: Controller)

  /** The constructor: no card loaded yet. */
  function New(video: Video, title: Option<Title>): (r: Controller)
    ensures r.currentCard.None? && r.video == video && r.title == title
  {
    Controller(video, title, None)
  }

  /** The title, if there is one, with the `hidden` class added. */
  function HideTitle(t: Option<Title>): (r: Option<Title>)
    ensures r.Some? <==> t.Some?
    ensures r.Some? ==> r.value.hidden && r.value.text == t.value.text
  {
    match t
    case None => None
    case Some(title) => Some(title.(hidden := true))
  }

  /** True when the loaded card would be played as a video. */
  predicate HasVideoCard(c: Controller) {
    c.currentCard.Some? && HasVideo(c.currentCard.value)
  }

  /** `loadCard`: a card with a video points the element at it, rewinds and
      shows it (loading a new source also stops playback); an image-only card
      hides the element and sets its poster. The title shows the card's name. */
  function LoadCard(c: Controller, card: Card): (r: Controller)
    ensures r.currentCard == Some(card)
    ensures HasVideo(card) ==> && r.video.src == card.video.value
                               && r.video.currentTime == 0.0
                               && r.video.visible
                               && !r.video.playing
                               && r.video.poster == c.video.poster
    ensures !HasVideo(card) ==> r.video == c.video.(visible := false, poster := card.image)
    ensures c.title.None? ==> r.title.None?
    ensures c.title.Some? ==> r.title == Some(Title(card.name, false))
  {
    var video :=
      if HasVideo(card) then c.video.(src := card.video.value, currentTime := 0.0, visible := true, playing := false)
      else c.video.(visible := false, poster := card.image);
    var title := if c.title.Some? then Some(Title(card.name, false)) else None;
    Controller(video, title, Some(card))
  }

  /** `play`: with a video card, rewinds, hides the title and asks the element
      to play; `started` is the platform's answer, and a rejection is reported
      as false. Without a video card it only hides the title and reports true. */
  function Play(c: Controller, started: bool): (r: PlayResult)
    ensures r.next.currentCard == c.currentCard
    ensures r.next.title == HideTitle(c.title)
    ensures !HasVideoCard(c) ==> r.ok && r.next.video == c.video
    ensures HasVideoCard(c) ==> && r.ok == started
                                && r.next.video == c.video.(currentTime := 0.0, playing := r.next.video.playing)
                                && (started ==> r.next.video.playing)
                                && (!started ==> r.next.video.playing == c.video.playing)
  {
    if HasVideoCard(c) then
      var video := c.video.(currentTime := 0.0, playing := started || c.video.playing);
      PlayResult(started, c.(video := video, title := HideTitle(c.title)))
    else
      PlayResult(true, c.(title := HideTitle(c.title)))
  }

  /** `pause`: the element stops playing; nothing else changes. */
  function Pause(c: Controller): (r: Controller)
    ensures !r.video.playing
    ensures r.video.(playing := c.video.playing) == c.video
    ensures r.title == c.title && r.currentCard == c.currentCard
  {
    c.(video := c.video.(playing := false))
  }

  /** `reset`: pauses and rewinds the element and clears its source, empties
      and hides the title, and forgets the card. Visibility and poster stay. */
  function Reset(c: Controller): (r: Controller)
    ensures r.currentCard.None?
    ensures && r.video.src == "" && r.video.currentTime == 0.0 && !r.video.playing
            && r.video.visible == c.video.visible && r.video.poster == c.video.poster
    ensures c.title.None? ==> r.title.None?
    ensures c.title.Some? ==> r.title == Some(Title("", true))
  {
    var video := c.video.(playing := false, currentTime := 0.0, src := "");
    var title := if c.title.Some? then Some(Title("", true)) else None;
    Controller(video, title, None)
  }

  // ---------------------------------------------------------------------------
  // Properties relating the operations

  /** Loading the same card twice is the same as loading it once. */
  lemma LoadCardIdempotent(c: Controller, card: Card)
    ensures LoadCard(LoadCard(c, card), card) == LoadCard(c, card)
  {
  }

  /** Loading `b` over `a` matches loading `b` alone in the card, the title,
      whether the element is shown, and the source and position when `b` has a
      video or the poster when it has not. The rest stays from `a`: a video
      card keeps the poster `a` left, and an image-only card keeps the source
      and the playing flag `a` left, so a video that was playing goes on
      playing behind the hidden element. */
  lemma LoadCardSupersedes(c: Controller, a: Card, b: Card)
    ensures var twice := LoadCard(LoadCard(c, a), b);
            var once := LoadCard(c, b);
            && twice.currentCard == once.currentCard
            && twice.title == once.title
            && twice.video.visible == once.video.visible
            && (HasVideo(b) ==> twice.video.src == once.video.src
                                && twice.video.currentTime == once.video.currentTime)
            && (!HasVideo(b) ==> twice.video.poster == once.video.poster)
    ensures var first := LoadCard(c, a);
            var twice := LoadCard(first, b);
            && (HasVideo(b) ==> twice.video.poster == first.video.poster)
            && (!HasVideo(b) ==> twice.video.src == first.video.src
                                 && twice.video.playing == first.video.playing
                                 && twice.video.currentTime == first.video.currentTime)
  {
  }

  /** An image-only card plays at once: the answer is true whatever the
      platform would say, no media call is made (the element is untouched),
      and the title, if there is one, shows the card's name and is hidden. */
  lemma ImageCardPlaysImmediately(c: Controller, card: Card, started: bool)
    requires !HasVideo(card)
    ensures var loaded := LoadCard(c, card);
            var r := Play(loaded, started);
            && r.ok
            && r.next.video == loaded.video
            && r.next.title == HideTitle(loaded.title)
            && (c.title.Some? ==> r.next.title == Some(Title(card.name, true)))
  {
  }

  /** A video card's play succeeds exactly when the platform starts playback,
      and rewinds to the start either way. */
  lemma VideoCardPlayReportsPlatform(c: Controller, card: Card, started: bool)
    requires HasVideo(card)
    ensures var r := Play(LoadCard(c, card), started);
            && r.ok == started
            && r.next.video.playing == started
            && r.next.video.src == card.video.value
            && r.next.video.currentTime == 0.0
  {
  }

  /** Pausing a video card that `play` started stops the element where `play`
      left it, at the start of the same source; pausing again changes nothing. */
  lemma PauseStopsPlayback(c: Controller)
    requires HasVideoCard(c)
    ensures var played := Play(c, true).next;
            var paused := Pause(played);
            && played.video.playing
            && paused.video == played.video.(playing := false)
            && paused.video.src == c.video.src
            && paused.video.currentTime == 0.0
            && paused.currentCard == c.currentCard
            && Pause(paused) == paused
  {
  }

  /** After `reset` no card is loaded, so `play` touches nothing but the title. */
  lemma PlayAfterResetIsNoop(c: Controller, started: bool)
    ensures Play(Reset(c), started) == PlayResult(true, Reset(c).(title := HideTitle(Reset(c).title)))
  {
  }

  /** Resetting twice equals resetting once, and a reset forgets which card
      was loaded before it. */
  lemma ResetForgetsCard(c: Controller, card: Card)
    ensures Reset(Reset(c)) == Reset(c)
    ensures var r := Reset(LoadCard(c, card));
            && r.currentCard == Reset(c).currentCard
            && r.title == Reset(c).title
            && r.video.src == Reset(c).video.src
            && r.video.playing == Reset(c).video.playing
  {
  }
}
