/** The plain records of the app: decks, tracks and playlists. */
module Models {
  import opened Wrappers

  /** The two logical decks of the mixer. */
  datatype DeckID = DeckA | DeckB {

    /** The label shown for the deck. */
    function DisplayName(): (r: string)
      ensures r == "Deck A" <==> this == DeckA
      ensures r == "Deck B" <==> this == DeckB
    {
      match this
      case DeckA => "Deck A"
      case DeckB => "Deck B"
    }

    /** The deck that is not this one. */
    function Other(): (r: DeckID)
      ensures r != this
    {
      match this
      case DeckA => DeckB
      case DeckB => DeckA
    }
  }

  /** A track as returned by the music service; the artwork URL is kept as its text. */
  datatype Track = Track(
    id: string,
    title: string,
    artistName: string,
    albumTitle: string,
    albumArtURL: Option<string>,
    originalBPM: Option<real>)

  /** A playlist of the signed-in user. */
  datatype Playlist = Playlist(id: string, name: string, trackCount: int)
}
