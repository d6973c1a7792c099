/**
 * One deck of the mixer: the loaded track, whether it plays, the tempo factor
 * chosen on the slider and the resulting beats per minute.
 */
module Decks {
  import opened Wrappers
  import opened Models

  /** The slider's range, `0.92...1.08`. */
  const MinTempo: real := 0.92
  const MaxTempo: real := 1.08

  /** The tempo of a fresh deck and of a freshly loaded track. */
  const NeutralTempo: real := 1.0

  /** `max(lower, min(v, upper))` on the tempo range. */
  function ClampTempo(v: real): (r: real)
    ensures MinTempo <= r <= MaxTempo
    ensures MinTempo <= v <= MaxTempo ==> r == v
    ensures v < MinTempo ==> r == MinTempo
    ensures v > MaxTempo ==> r == MaxTempo
  {
    var upper := if v < MaxTempo then v else MaxTempo;
    if MinTempo < upper then upper else MinTempo
  }

  /** The observable state of a deck view model. */
  datatype Deck = Deck(track: Option<Track>, isPlaying: bool, tempo: real, currentBPM: Option<real>) {

    /** `track?.originalBPM`: known only when a track is loaded and it carries a BPM. */
    function OriginalBPM(): (r: Option<real>)
      ensures r.Some? <==> track.Some? && track.value.originalBPM.Some?
      ensures r.Some? ==> r == track.value.originalBPM
    {
      if track.Some? then track.value.originalBPM else None
    }

    /** The heading shown on the deck. */
    function Title(): string {
      match track
      case None => "Load a track"
      case Some(t) => t.title
    }

    /** The line under the heading: artist and album separated by a bullet, or nothing. */
    function Subtitle(): (r: string)
      ensures r != "" <==> track.Some?
      ensures track.Some? ==>
        var t := track.value;
        |r| == |t.artistName| + 3 + |t.albumTitle|
        && r[..|t.artistName|] == t.artistName
        && r[|t.artistName|..|t.artistName| + 3] == " • "
        && r[|t.artistName| + 3..] == t.albumTitle
    {
      match track
      case None => ""
      case Some(t) => t.artistName + " • " + t.albumTitle
    }

    /**
     * What the deck keeps true: the tempo lies on the slider's range, and the
     * current BPM is the tempo applied to the track's original BPM, or absent
     * when the track has none.
     */
    predicate Valid() {
      && MinTempo <= tempo <= MaxTempo
      && (currentBPM.Some? <==> OriginalBPM().Some?)
      && (currentBPM.Some? ==> currentBPM.value == tempo * OriginalBPM().value)
    }
  }

  /** The state of a deck before anything is loaded. */
  const EmptyDeck: Deck := Deck(None, false, NeutralTempo, None)

  /** `loadTrack(_:)`. */
  function WithTrack(d: Deck, t: Track): (r: Deck)
    ensures r.Valid()
    ensures r.track == Some(t) && r.currentBPM == t.originalBPM && r.tempo == NeutralTempo
    ensures r.isPlaying == d.isPlaying
    ensures r.Title() == t.title
  {
    d.(track := Some(t), currentBPM := t.originalBPM, tempo := NeutralTempo)
  }

  /** `reset()`: the deck goes back to its initial state. */
  function Cleared(d: Deck): (r: Deck)
    ensures r.Valid()
    ensures r.track.None? && r.currentBPM.None? && r.tempo == NeutralTempo && !r.isPlaying
    ensures r.Title() == "Load a track" && r.Subtitle() == ""
  {
    d.(track := None, currentBPM := None, tempo := NeutralTempo, isPlaying := false)
  }

  /** `playPauseTapped()`. */
  function Toggled(d: Deck): (r: Deck)
    ensures r.isPlaying != d.isPlaying
    ensures r.track == d.track && r.tempo == d.tempo && r.currentBPM == d.currentBPM
  {
    d.(isPlaying := !d.isPlaying)
  }

  /** `tempoSliderChanged(to:)`: the value is clamped and the BPM follows it. */
  function WithTempo(d: Deck, v: real): (r: Deck)
    ensures r.Valid()
    ensures r.tempo == ClampTempo(v)
    ensures r.track == d.track && r.isPlaying == d.isPlaying
  {
    var clamped := ClampTempo(v);
    d.(tempo := clamped,
       currentBPM := if d.OriginalBPM().Some? then Some(clamped * d.OriginalBPM().value) else None)
  }

  /** `sync(to:)` divides by the track's BPM, so that BPM must not be zero when both are known. */
  predicate CanSync(d: Deck, master: Option<real>) {
    d.OriginalBPM().Some? && master.Some? ==> d.OriginalBPM().value != 0.0
  }

  /** `sync(to:)`: match the master BPM as closely as the tempo range allows. */
  function Synced(d: Deck, master: Option<real>): (r: Deck)
    requires CanSync(d, master)
    ensures d.OriginalBPM().None? || master.None? ==> r == d
  {
    if d.OriginalBPM().None? || master.None? then d
    else WithTempo(d, master.value / d.OriginalBPM().value)
  }

  /** A fresh deck is valid and shows the placeholder title. */
  lemma EmptyDeckValid()
    ensures EmptyDeck.Valid()
    ensures EmptyDeck.Title() == "Load a track" && EmptyDeck.Subtitle() == ""
  {
  }

  /**
   * The heading names the loaded track, and falls back to the placeholder
   * (with an empty subtitle) only when no track is loaded.
   */
  lemma TitleNamesLoadedTrack(d: Deck)
    ensures d.track.Some? ==> d.Title() == d.track.value.title && d.Subtitle() != ""
    ensures d.track.None? ==> d.Title() == "Load a track" && d.Subtitle() == ""
  {
  }

  /** Every operation keeps the deck's invariant. */
  lemma OperationsKeepValid(d: Deck, t: Track, v: real, master: Option<real>)
    requires d.Valid()
    requires CanSync(d, master)
    ensures WithTrack(d, t).Valid() && Cleared(d).Valid() && Toggled(d).Valid()
    ensures WithTempo(d, v).Valid() && Synced(d, master).Valid()
  {
  }

  /** After a tempo change the BPM is the clamped tempo times the track's BPM, or absent. */
  lemma TempoDrivesBPM(d: Deck, v: real)
    ensures var r := WithTempo(d, v);
      && (d.OriginalBPM().Some? ==> r.currentBPM.Some? && r.currentBPM.value == ClampTempo(v) * d.OriginalBPM().value)
      && (d.OriginalBPM().None? ==> r.currentBPM.None?)
  {
  }

  /** Tapping play twice restores the deck. */
  lemma ToggleTwiceRestores(d: Deck)
    ensures Toggled(Toggled(d)) == d
  {
  }

  /** A sync with both BPMs known is the tempo change to their ratio. */
  lemma SyncIsTempoChange(d: Deck, master: real)
    requires d.OriginalBPM().Some? && d.OriginalBPM().value != 0.0
    ensures Synced(d, Some(master)) == WithTempo(d, master / d.OriginalBPM().value)
  {
  }

  /**
   * When the master BPM is reachable within the tempo range, syncing makes
   * this deck play at exactly the master BPM.
   */
  lemma {:induction false} SyncMatchesReachableMaster(d: Deck, master: real)
    requires d.OriginalBPM().Some? && d.OriginalBPM().value > 0.0
    requires MinTempo * d.OriginalBPM().value <= master <= MaxTempo * d.OriginalBPM().value
    ensures Synced(d, Some(master)).currentBPM.Some? && Synced(d, Some(master)).currentBPM.value == master
  {
    var bpm := d.OriginalBPM().value;
    var ratio := master / bpm;
    assert MinTempo <= ratio <= MaxTempo by {
      assert (ratio - MinTempo) * bpm == master - MinTempo * bpm;
      assert (MaxTempo - ratio) * bpm == MaxTempo * bpm - master;
    }
    assert ClampTempo(ratio) == ratio;
    assert ratio * bpm == master;
  }

  /** Loading a track replaces the previous one and forgets the previous tempo. */
  lemma LoadForgetsTempo(d: Deck, t: Track, v: real)
    ensures WithTrack(WithTempo(d, v), t) == WithTrack(d, t)
  {
  }

  /**
   * The deck view model of the app: a reference object whose fields the
   * presentation layer observes.
   */
  class DeckViewModel {
    var track: Option<Track>
    var isPlaying: bool
    var tempo: real
    var currentBPM: Option<real>
    const deckID: DeckID

    /** The fields as a `Deck` value. */
    function State(): Deck
      reads this
    {
      Deck(track, isPlaying, tempo, currentBPM)
    }

    ghost predicate Valid()
      reads this
    {
      State().Valid()
    }

    constructor (deckID: DeckID)
      ensures Valid() && State() == EmptyDeck && this.deckID == deckID
    {
      this.deckID := deckID;
      track := None;
      isPlaying := false;
      tempo := NeutralTempo;
      currentBPM := None;
    }

    method LoadTrack(t: Track)
      requires Valid()
      modifies this
      ensures Valid() && State() == WithTrack(old(State()), t)
    {
      track := Some(t);
      currentBPM := t.originalBPM;
      tempo := NeutralTempo;
    }

    method Reset()
      modifies this
      ensures Valid() && State() == Cleared(old(State()))
    {
      track := None;
      currentBPM := None;
      tempo := NeutralTempo;
      isPlaying := false;
    }

    method PlayPauseTapped()
      requires Valid()
      modifies this
      ensures Valid() && State() == Toggled(old(State()))
    {
      isPlaying := !isPlaying;
    }

    method TempoSliderChanged(newValue: real)
      modifies this
      ensures Valid() && State() == WithTempo(old(State()), newValue)
    {
      ghost var expected := WithTempo(State(), newValue);
      var clampedValue := ClampTempo(newValue);
      tempo := clampedValue;
      if track.Some? && track.value.originalBPM.Some? {
        currentBPM := Some(clampedValue * track.value.originalBPM.value);
      } else {
        currentBPM := None;
      }
      assert expected.Valid() && expected.track == track && expected.tempo == tempo;
      assert currentBPM.Some? <==> expected.currentBPM.Some?;
      assert currentBPM.Some? ==> currentBPM.value == expected.currentBPM.value;
    }

    method Sync(masterBPM: Option<real>)
      requires Valid()
      requires CanSync(State(), masterBPM)
      modifies this
      ensures Valid() && State() == Synced(old(State()), masterBPM)
    {
      if track.None? || track.value.originalBPM.None? || masterBPM.None? {
        return;
      }
      var desiredTempo := masterBPM.value / track.value.originalBPM.value;
      TempoSliderChanged(desiredTempo);
    }
  }
}
