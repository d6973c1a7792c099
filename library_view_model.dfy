/**
 * The media library shown in the library sheet: the user's playlists, the
 * tracks of a playlist or of a search, the search text, a loading flag and
 * the last error message. Each loader is given the answer of its service call
 * as an input.
 */
module Library {
  import opened Wrappers
  import opened Models
  import opened Text

  /** The observable state of the library view model. */
  datatype Library = Library(
    playlists: seq<Playlist>,
    tracks: seq<Track>,
    searchQuery: string,
    isLoading: bool,
    errorMessage: Option<string>)

  /** The state of a freshly created library view model. */
  const EmptyLibrary: Library := Library([], [], "", false, None)

  /** `refreshPlaylists()` once the service has answered. */
  function AfterRefresh(s: Library, result: Result<seq<Playlist>, string>): (r: Library)
    ensures !r.isLoading
    ensures r.tracks == s.tracks && r.searchQuery == s.searchQuery
    ensures result.Success? ==> r.playlists == result.value && r.errorMessage.None?
    ensures result.Failure? ==> r.playlists == s.playlists && r.errorMessage == Some(result.error)
  {
    match result
    case Success(playlists) => s.(playlists := playlists, errorMessage := None, isLoading := false)
    case Failure(message) => s.(errorMessage := Some(message), isLoading := false)
  }

  /** `loadTracks(for:)` once the service has answered. */
  function AfterLoadTracks(s: Library, result: Result<seq<Track>, string>): (r: Library)
    ensures !r.isLoading
    ensures r.playlists == s.playlists && r.searchQuery == s.searchQuery
    ensures result.Success? ==> r.tracks == result.value && r.errorMessage.None?
    ensures result.Failure? ==> r.tracks == s.tracks && r.errorMessage == Some(result.error)
  {
    match result
    case Success(tracks) => s.(tracks := tracks, errorMessage := None, isLoading := false)
    case Failure(message) => s.(errorMessage := Some(message), isLoading := false)
  }

  /**
   * The query `performSearch()` hands to the service: none for a blank search
   * text, otherwise the text exactly as typed, surrounding whitespace included.
   */
  function SearchRequest(query: string): (r: Option<string>)
    ensures r.None? <==> IsBlank(query)
    ensures r.Some? ==> r.value == query
  {
    if IsBlank(query) then None else Some(query)
  }

  /** No request is made exactly when the search text consists of whitespace and newlines only. */
  lemma NoRequestIffAllWhitespace(query: string)
    ensures SearchRequest(query).None? <==> AllWhitespace(query)
    ensures SearchRequest(query).Some? ==> SearchRequest(query).value == query
  {
    BlankIffAllWhitespace(query);
  }

  /** `performSearch()`; the result is only consulted when a request was made. */
  function AfterSearch(s: Library, result: Result<seq<Track>, string>): (r: Library)
    ensures r.playlists == s.playlists && r.searchQuery == s.searchQuery
    ensures IsBlank(s.searchQuery) ==> r == s.(tracks := [])
  {
    if IsBlank(s.searchQuery) then s.(tracks := [])
    else AfterLoadTracks(s, result)
  }

  /** A blank search clears the tracks and touches nothing else, whatever the service would have said. */
  lemma BlankSearchShortCircuits(s: Library, result: Result<seq<Track>, string>)
    requires AllWhitespace(s.searchQuery)
    ensures AfterSearch(s, result) == s.(tracks := [])
    ensures AfterSearch(s, result).isLoading == s.isLoading
    ensures AfterSearch(s, result).errorMessage == s.errorMessage
  {
    BlankIffAllWhitespace(s.searchQuery);
  }

  /** A search that reaches the service behaves as loading tracks with its answer. */
  lemma SearchWithQueryLoadsTracks(s: Library, result: Result<seq<Track>, string>)
    requires !AllWhitespace(s.searchQuery)
    ensures AfterSearch(s, result) == AfterLoadTracks(s, result)
    ensures !AfterSearch(s, result).isLoading
  {
    BlankIffAllWhitespace(s.searchQuery);
  }

  /** The search text itself is never changed by a loader. */
  lemma LoadersKeepSearchQuery(s: Library, ps: Result<seq<Playlist>, string>, ts: Result<seq<Track>, string>)
    ensures AfterRefresh(s, ps).searchQuery == s.searchQuery
    ensures AfterLoadTracks(s, ts).searchQuery == s.searchQuery
    ensures AfterSearch(s, ts).searchQuery == s.searchQuery
  {
  }

  /** Receiving the same answer twice leaves the library as receiving it once. */
  lemma LoadersIdempotent(s: Library, ps: Result<seq<Playlist>, string>, ts: Result<seq<Track>, string>)
    ensures AfterRefresh(AfterRefresh(s, ps), ps) == AfterRefresh(s, ps)
    ensures AfterLoadTracks(AfterLoadTracks(s, ts), ts) == AfterLoadTracks(s, ts)
  {
  }

  /**
   * Playlists and tracks are loaded independently: in either order, the two
   * loaders leave the same lists; only the error message depends on which
   * answered last.
   */
  lemma RefreshAndLoadTracksCommute(s: Library, ps: Result<seq<Playlist>, string>, ts: Result<seq<Track>, string>)
    ensures var a := AfterLoadTracks(AfterRefresh(s, ps), ts);
      var b := AfterRefresh(AfterLoadTracks(s, ts), ps);
      a.playlists == b.playlists && a.tracks == b.tracks && a.isLoading == b.isLoading
  {
  }

  /**
   * What the library sheet does on opening (empty search text, no tracks) is
   * already what the search it starts would leave.
   */
  lemma OpenedLibraryIsSearchFixpoint(s: Library, result: Result<seq<Track>, string>)
    requires s.searchQuery == "" && s.tracks == []
    ensures AfterSearch(s, result) == s
  {
    assert ContentStart(s.searchQuery, 0) == 0;
  }

  /** The library view model object. */
  class LibraryViewModel {
    var playlists: seq<Playlist>
    var tracks: seq<Track>
    var searchQuery: string
    var isLoading: bool
    var errorMessage: Option<string>

    /** The fields as a `Library` value. */
    function State(): Library
      reads this
    {
      Library(playlists, tracks, searchQuery, isLoading, errorMessage)
    }

    constructor ()
      ensures State() == EmptyLibrary
    {
      playlists := [];
      tracks := [];
      searchQuery := "";
      isLoading := false;
      errorMessage := None;
    }

    method RefreshPlaylists(result: Result<seq<Playlist>, string>)
      modifies this
      ensures State() == AfterRefresh(old(State()), result)
    {
      isLoading := true;
      match result {
        case Success(fetched) =>
          playlists := fetched;
          errorMessage := None;
        case Failure(message) =>
          errorMessage := Some(message);
      }
      isLoading := false;
    }

    /** Returns the playlist id that is asked of the service. */
    method LoadTracks(playlist: Playlist, result: Result<seq<Track>, string>) returns (requestedId: string)
      modifies this
      ensures requestedId == playlist.id
      ensures State() == AfterLoadTracks(old(State()), result)
    {
      isLoading := true;
      requestedId := playlist.id;
      match result {
        case Success(fetched) =>
          tracks := fetched;
          errorMessage := None;
        case Failure(message) =>
          errorMessage := Some(message);
      }
      isLoading := false;
    }

    /** Returns the query handed to the service, or `None` when the search is short-circuited. */
    method PerformSearch(result: Result<seq<Track>, string>) returns (sentQuery: Option<string>)
      modifies this
      ensures sentQuery == SearchRequest(old(searchQuery))
      ensures State() == AfterSearch(old(State()), result)
    {
      if IsBlank(searchQuery) {
        tracks := [];
        return None;
      }
      isLoading := true;
      sentQuery := Some(searchQuery);
      match result {
        case Success(fetched) =>
          tracks := fetched;
          errorMessage := None;
        case Failure(message) =>
          errorMessage := Some(message);
      }
      isLoading := false;
    }

    /**
     * `reset()`, which the app calls on sign-out, is not defined in
     * `LibraryViewModel.swift`: all that is known is that it changes this
     * object's fields.
     */
    method Reset()
      modifies this
    {
      playlists, tracks, searchQuery, isLoading, errorMessage := *, *, *, *, *;
    }
  }
}
