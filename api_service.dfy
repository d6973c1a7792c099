/**
 * The music-service client as it stands in the app: it keeps the access and
 * refresh tokens, and its catalogue calls are placeholders with fixed answers.
 */
module Api {
  import opened Wrappers
  import opened Models

  class TIDALApiService {
    var accessToken: Option<string>
    var refreshToken: Option<string>

    /** The two tokens are held or cleared together. */
    ghost predicate Valid()
      reads this
    {
      accessToken.None? <==> refreshToken.None?
    }

    constructor ()
      ensures Valid() && accessToken.None? && refreshToken.None?
    {
      accessToken := None;
      refreshToken := None;
    }

    method UpdateTokens(access: string, refresh: string)
      modifies this
      ensures Valid()
      ensures accessToken == Some(access) && refreshToken == Some(refresh)
    {
      accessToken := Some(access);
      refreshToken := Some(refresh);
    }

    method ClearTokens()
      modifies this
      ensures Valid()
      ensures accessToken.None? && refreshToken.None?
    {
      accessToken := None;
      refreshToken := None;
    }

    /** `getUserPlaylists()`: no playlists yet. */
    method GetUserPlaylists() returns (result: Result<seq<Playlist>, string>)
      ensures result == Success([])
    {
      return Success([]);
    }

    /** `getPlaylistTracks(id:)`: no tracks yet. */
    method GetPlaylistTracks(id: string) returns (result: Result<seq<Track>, string>)
      ensures result == Success([])
    {
      return Success([]);
    }

    /**
     * `search(query:)`: only the empty query is answered early; a query of
     * spaces goes on to the placeholder, which also answers with no tracks.
     */
    method Search(query: string) returns (result: Result<seq<Track>, string>, answeredEarly: bool)
      ensures answeredEarly <==> query == ""
      ensures result == Success([])
    {
      if query == "" {
        return Success([]), true;
      }
      return Success([]), false;
    }

    /**
     * `createPlaylist(name:)`: a new empty playlist with the given name; the
     * random UUID the app would generate is passed in as `newId`.
     */
    method CreatePlaylist(name: string, newId: string) returns (result: Result<Playlist, string>)
      ensures result.Success? && result.value.name == name && result.value.trackCount == 0
      ensures result.value.id == newId
    {
      return Success(Playlist(newId, name, 0));
    }

    /** `addTrackToPlaylist(trackId:playlistId:)`: succeeds without effect. */
    method AddTrackToPlaylist(trackId: string, playlistId: string) returns (result: Result<(), string>)
      ensures result.Success?
    {
      return Success(());
    }

    /** `removeTrackFromPlaylist(trackId:playlistId:)`: succeeds without effect. */
    method RemoveTrackFromPlaylist(trackId: string, playlistId: string) returns (result: Result<(), string>)
      ensures result.Success?
    {
      return Success(());
    }
  }
}
