/**
 * The audio engine's bookkeeping of what each deck holds. The engine's
 * transport controls are placeholders in the app and change no state.
 */
module Audio {
  import opened Wrappers
  import opened Models

  /** What a deck of the engine holds. */
  datatype DeckState = Empty | Loaded(track: Track)

  /** The engine's state at start-up: both decks present and empty. */
  const InitialDeckStates: map<DeckID, DeckState> := map[DeckA := Empty, DeckB := Empty]

  class AudioEngine {
    var deckStates: map<DeckID, DeckState>

    /** Every deck has an entry. */
    ghost predicate Valid()
      reads this
    {
      deckStates.Keys == {DeckA, DeckB}
    }

    constructor ()
      ensures Valid() && deckStates == InitialDeckStates
      ensures TrackFor(DeckA).None? && TrackFor(DeckB).None?
    {
      deckStates := InitialDeckStates;
    }

    /** `loadTrack(deck:track:)` is declared `throws` but never fails; the error it could report is `None`. */
    method LoadTrack(deck: DeckID, track: Track) returns (error: Option<string>)
      requires Valid()
      modifies this
      ensures Valid() && error.None?
      ensures deckStates == old(deckStates)[deck := Loaded(track)]
      ensures TrackFor(deck) == Some(track)
      ensures deckStates[deck.Other()] == old(deckStates)[deck.Other()]
      ensures TrackFor(deck.Other()) == old(TrackFor(deck.Other()))
    {
      deckStates := deckStates[deck := Loaded(track)];
      error := None;
    }

    /** `track(for:)`: the loaded track, or none for an empty or unknown deck. */
    function TrackFor(deck: DeckID): (r: Option<Track>)
      reads this
      ensures r.Some? <==> deck in deckStates && deckStates[deck].Loaded?
      ensures r.Some? ==> deckStates[deck] == Loaded(r.value)
    {
      if deck in deckStates && deckStates[deck].Loaded? then Some(deckStates[deck].track) else None
    }

    /** The transport controls: placeholders that leave the deck states as they are. */
    method Play(deck: DeckID)
      ensures deckStates == old(deckStates)
    {
    }

    method Pause(deck: DeckID)
      ensures deckStates == old(deckStates)
    {
    }

    method Seek(deck: DeckID, position: real)
      ensures deckStates == old(deckStates)
    {
    }

    method SetTempo(deck: DeckID, rate: real)
      ensures deckStates == old(deckStates)
    {
    }

    method SetCrossfader(position: real)
      ensures deckStates == old(deckStates)
    {
    }
  }
}
