# TIDALdj view models and services in Dafny

This project models the state-handling core of TIDALdj, an iOS DJ app that
signs in to the TIDAL music service, browses the user's library and mixes two
decks. It covers these parts:

- **User profile** (`user_profile.dfy`, module `UserProfiles`): the name shown for the signed-in user. The priority is a non-empty nickname, then the trimmed first and last names, then a non-blank full name, then the id.
- **Deck view model** (`deck_view_model.dfy`, module `Decks`): the loaded track, the play flag, the tempo factor and the current BPM of one deck. The tempo is clamped to 0.92–1.08 and BPM sync divides the master BPM by the track's own BPM. A `Deck` value and its transition functions (`WithTrack`, `Cleared`, `Toggled`, `WithTempo`, `Synced`) specify the class `DeckViewModel`. Each method ensures that the new `State()` is the transition applied to the old one, and that the deck invariant `Valid()` still holds. The invariant says the tempo is in range and the BPM is tempo × original BPM.
- **Library view model** (`library_view_model.dfy`, module `Library`): the playlist, track and search loaders. Each one sets a loading flag, replaces its list on success and records the error text on failure. A blank search never reaches the service. Each service answer is an input of type `Result<seq<T>, string>`.
- **App view model** (`app_view_model.dfy`, module `App`): the top-level state machine. It covers sign-in, with the authentication outcome as an input, sign-out, showing the library for a deck, routing a selected track to one deck, and syncing one deck to the other.
- **Audio engine** (`audio_engine.dfy`, module `Audio`): the per-deck map of what is loaded, and the `track(for:)` lookup.
- **API service** (`api_service.dfy`, module `Api`): the access/refresh token pair, which is always set or cleared together, and the placeholder catalogue calls.
- **Shared pieces**: `Text` (`text.dfy`) holds trimming with Foundation's whitespace-and-newline set, the blank test and `joined(separator:)`. `Models` (`models.dfy`) holds `DeckID`, `Track` and `Playlist`. `Wrappers` (`wrappers.dfy`) holds `Option` and `Result`.

Numbers are `real`: Swift's `Float` and `Double` rounding is not modelled.
Asynchronous calls are modelled as sequential steps. The `Task` that
`signIn()` starts becomes the method `CompleteSignIn`. A ghost counter of
pending sign-in tasks ensures a completion follows a start. `signOut()` does
not stop that task, so its outcome decides the final state; the two client
methods `SuccessAfterSignOutSignsIn` and `CancellationAfterSignOutStaysSignedOut`
show both cases.

`AppViewModel.signOut()` calls `libraryViewModel.reset()`, but
`LibraryViewModel.swift` defines no `reset()`. `LibraryViewModel.Reset` is
therefore a method that may change any field of the library view model and
nothing else, and it promises nothing more.

## Model

| member | source | states |
|---|---|---|
| Text.ContentStart | TIDALdj/TIDALdj/Models/UserProfile.swift:17 | The index found is the first character at or after the starting point that is not whitespace, or the end of the string. Every character skipped is whitespace. |
| Text.ContentEnd | TIDALdj/TIDALdj/Models/UserProfile.swift:17 | The index found is just past the last character, searching down to the lower bound, that is not whitespace. Every character after it is whitespace. |
| Text.Trim | TIDALdj/TIDALdj/Models/UserProfile.swift:25 | The trimmed string is no longer than the input and has no whitespace at either end. |
| Text.TrimIsInnerSlice | TIDALdj/TIDALdj/Models/UserProfile.swift:17 | The trimmed string is the contiguous slice of the input that starts at its first non-whitespace character. |
| Text.TrimCutsOnlyWhitespace | TIDALdj/TIDALdj/Models/UserProfile.swift:17 | Everything before and after that slice is whitespace, so only edge whitespace is removed. |
| Text.IsBlank | TIDALdj/TIDALdj/Models/UserProfile.swift:17 | A string is blank exactly when the search for its first non-whitespace character reaches its end. |
| Text.BlankIffAllWhitespace | TIDALdj/TIDALdj/ViewModels/LibraryViewModel.swift:41 | A string trims to empty exactly when every character of it is whitespace or a newline. |
| Text.TrimLeavesTrimmed | TIDALdj/TIDALdj/Models/UserProfile.swift:17 | A string with no whitespace at either end is unchanged by trimming. |
| Text.TrimIdempotent | TIDALdj/TIDALdj/Models/UserProfile.swift:17 | Trimming twice gives the same result as trimming once. |
| Text.Joined | TIDALdj/TIDALdj/Models/UserProfile.swift:23 | A join of one or more parts begins with the first part. |
| Text.JoinedPair | TIDALdj/TIDALdj/Models/UserProfile.swift:23 | Two parts are joined as first part, one separator, second part. |
| Text.JoinedEnds | TIDALdj/TIDALdj/Models/UserProfile.swift:23 | A join begins with its first part and ends with its last part. |
| Models.DeckID.DisplayName | TIDALdj/TIDALdj/Models/DeckID.swift:7-14 | Deck A is labelled "Deck A" and deck B "Deck B", and each label belongs to one deck only. |
| Models.DeckID.Other | TIDALdj/TIDALdj/ViewModels/AppViewModel.swift:93-99 | The deck a deck syncs to is never the deck itself. |
| UserProfiles.TrimmedComponent | TIDALdj/TIDALdj/Models/UserProfile.swift:16-21 | A name component yields at most one entry. It yields one exactly when it is present and not blank, and that entry is non-empty with no edge whitespace. |
| UserProfiles.NameComponents | TIDALdj/TIDALdj/Models/UserProfile.swift:16-21 | At most two components survive. There are none exactly when neither first nor last name is usable, and each survivor is non-empty with no edge whitespace. |
| UserProfiles.DisplayName | TIDALdj/TIDALdj/Models/UserProfile.swift:12-29 | A profile with a non-empty id always has a non-empty display name. |
| UserProfiles.NicknameWins | TIDALdj/TIDALdj/Models/UserProfile.swift:13-15 | A present, non-empty nickname is returned verbatim. |
| UserProfiles.BlankNicknameShownUntrimmed | TIDALdj/TIDALdj/Models/UserProfile.swift:13-15 | Any non-empty nickname made only of whitespace is returned as it is, although it is blank. |
| UserProfiles.NamesJoinedBySpace | TIDALdj/TIDALdj/Models/UserProfile.swift:16-24 | With no nickname, the usable names are shown trimmed: first, one space, last when both exist, and only the one that exists otherwise. The result is non-empty with no edge whitespace. |
| UserProfiles.FullNameFallback | TIDALdj/TIDALdj/Models/UserProfile.swift:25-27 | With no nickname and no usable names, a non-blank full name is returned untrimmed. |
| UserProfiles.IdFallback | TIDALdj/TIDALdj/Models/UserProfile.swift:28 | With every other field unusable, the id is returned. |
| UserProfiles.IdShownOnlyAsLastResort | TIDALdj/TIDALdj/Models/UserProfile.swift:12-29 | Any result other than the id comes from a nickname, a usable name or a full name that is not all whitespace. |
| Decks.ClampTempo | TIDALdj/TIDALdj/ViewModels/DeckViewModel.swift:15 | The clamped tempo lies in [0.92, 1.08]. It equals the input when the input is in range, and the nearer bound otherwise. |
| Decks.Deck.OriginalBPM | TIDALdj/TIDALdj/ViewModels/DeckViewModel.swift:67 | The track's BPM is known exactly when a track is loaded and carries one, and it is that track's BPM. |
| Decks.Deck.Title | TIDALdj/TIDALdj/ViewModels/DeckViewModel.swift:22-24 | Stated by `Decks.TitleNamesLoadedTrack`: the heading is the loaded track's title, or "Load a track" when no track is loaded. |
| Decks.Deck.Subtitle | TIDALdj/TIDALdj/ViewModels/DeckViewModel.swift:26-29 | The subtitle is empty exactly when no track is loaded. Otherwise it is the artist name, " • " and the album title. |
| Decks.WithTrack | TIDALdj/TIDALdj/ViewModels/DeckViewModel.swift:35-38 | Loading sets the track, sets the BPM to the track's BPM and the tempo to 1.0, keeps the play flag, and shows the track's title. |
| Decks.Cleared | TIDALdj/TIDALdj/ViewModels/DeckViewModel.swift:44-48 | Reset leaves no track, no BPM, tempo 1.0 and not playing, with the placeholder title and an empty subtitle. |
| Decks.Toggled | TIDALdj/TIDALdj/ViewModels/DeckViewModel.swift:52-53 | Play/pause flips the play flag and changes nothing else. |
| Decks.WithTempo | TIDALdj/TIDALdj/ViewModels/DeckViewModel.swift:64-71 | A slider change sets the tempo to the clamped value, keeps the deck invariant, and keeps the track and play flag. |
| Decks.Synced | TIDALdj/TIDALdj/ViewModels/DeckViewModel.swift:75-78 | Sync changes nothing when the deck's track has no BPM or the master BPM is absent. |
| Decks.EmptyDeckValid | TIDALdj/TIDALdj/ViewModels/DeckViewModel.swift:7-10 | A fresh deck satisfies the invariant and shows "Load a track" with an empty subtitle. |
| Decks.TitleNamesLoadedTrack | TIDALdj/TIDALdj/ViewModels/DeckViewModel.swift:22-29 | With a track loaded, the heading is its title and the subtitle is not empty. Without one, the heading is "Load a track" and the subtitle is empty. |
| Decks.OperationsKeepValid | TIDALdj/TIDALdj/ViewModels/DeckViewModel.swift:35-78 | Every deck operation keeps the tempo in range and the BPM equal to tempo × original BPM. |
| Decks.TempoDrivesBPM | TIDALdj/TIDALdj/ViewModels/DeckViewModel.swift:67-71 | After a slider change, the BPM is the clamped tempo × the track's BPM, or absent when the track has no BPM. |
| Decks.ToggleTwiceRestores | TIDALdj/TIDALdj/ViewModels/DeckViewModel.swift:52-53 | Two taps on play/pause restore the deck. |
| Decks.SyncIsTempoChange | TIDALdj/TIDALdj/ViewModels/DeckViewModel.swift:75-78 | With both BPMs known, sync is the slider change to master BPM ÷ own BPM. |
| Decks.SyncMatchesReachableMaster | TIDALdj/TIDALdj/ViewModels/DeckViewModel.swift:75-78 | When the master BPM can be reached within the tempo range, the synced deck's BPM equals the master BPM exactly. |
| Decks.LoadForgetsTempo | TIDALdj/TIDALdj/ViewModels/DeckViewModel.swift:35-38 | Loading a track discards any earlier tempo change. |
| Decks.DeckViewModel.constructor | TIDALdj/TIDALdj/ViewModels/DeckViewModel.swift:7-20 | A new deck view model is empty, valid and bound to its deck id. |
| Decks.DeckViewModel.LoadTrack | TIDALdj/TIDALdj/ViewModels/DeckViewModel.swift:35-42 | The new state is `WithTrack` of the old state. |
| Decks.DeckViewModel.Reset | TIDALdj/TIDALdj/ViewModels/DeckViewModel.swift:44-50 | The new state is `Cleared` of the old state. |
| Decks.DeckViewModel.PlayPauseTapped | TIDALdj/TIDALdj/ViewModels/DeckViewModel.swift:52-62 | The new state is `Toggled` of the old state. |
| Decks.DeckViewModel.TempoSliderChanged | TIDALdj/TIDALdj/ViewModels/DeckViewModel.swift:64-73 | The new state is `WithTempo` of the old state and the given value. |
| Decks.DeckViewModel.Sync | TIDALdj/TIDALdj/ViewModels/DeckViewModel.swift:75-79 | The new state is `Synced` of the old state and the master BPM. |
| Library.AfterRefresh | TIDALdj/TIDALdj/ViewModels/LibraryViewModel.swift:18-27 | Loading ends. Success replaces the playlists and clears the error; failure keeps them and records the message. Tracks and search text are untouched. |
| Library.AfterLoadTracks | TIDALdj/TIDALdj/ViewModels/LibraryViewModel.swift:29-38 | Loading ends. Success replaces the tracks and clears the error; failure keeps them and records the message. Playlists and search text are untouched. |
| Library.SearchRequest | TIDALdj/TIDALdj/ViewModels/LibraryViewModel.swift:41-48 | No request is made exactly when the trimmed query is empty. Otherwise the query is sent untrimmed. |
| Library.NoRequestIffAllWhitespace | TIDALdj/TIDALdj/ViewModels/LibraryViewModel.swift:41-48 | No request is made exactly when the query consists only of whitespace and newlines. Otherwise the query is sent as typed. |
| Library.AfterSearch | TIDALdj/TIDALdj/ViewModels/LibraryViewModel.swift:40-53 | Playlists and search text are untouched. A blank query only empties the tracks. |
| Library.BlankSearchShortCircuits | TIDALdj/TIDALdj/ViewModels/LibraryViewModel.swift:41-44 | An all-whitespace query empties the tracks and leaves the loading flag and the error as they were, whatever the service would answer. |
| Library.SearchWithQueryLoadsTracks | TIDALdj/TIDALdj/ViewModels/LibraryViewModel.swift:45-52 | A query that is not all whitespace behaves as loading tracks with the service's answer, and loading ends. |
| Library.LoadersKeepSearchQuery | TIDALdj/TIDALdj/ViewModels/LibraryViewModel.swift:18-53 | None of the three loaders changes the search text. |
| Library.LoadersIdempotent | TIDALdj/TIDALdj/ViewModels/LibraryViewModel.swift:18-38 | Receiving the same answer twice has the same effect as receiving it once. |
| Library.RefreshAndLoadTracksCommute | TIDALdj/TIDALdj/ViewModels/LibraryViewModel.swift:18-38 | Loading playlists and loading tracks in either order leaves the same lists. |
| Library.OpenedLibraryIsSearchFixpoint | TIDALdj/TIDALdj/ViewModels/AppViewModel.swift:76-78 | The search started on opening the library, with an empty query and no tracks, changes nothing. |
| Library.LibraryViewModel.constructor | TIDALdj/TIDALdj/ViewModels/LibraryViewModel.swift:6-16 | A new library view model has empty lists, an empty query, is not loading and has no error. |
| Library.LibraryViewModel.RefreshPlaylists | TIDALdj/TIDALdj/ViewModels/LibraryViewModel.swift:18-27 | The new state is `AfterRefresh` of the old state and the answer. |
| Library.LibraryViewModel.LoadTracks | TIDALdj/TIDALdj/ViewModels/LibraryViewModel.swift:29-38 | The playlist's id is requested, and the new state is `AfterLoadTracks` of the old state and the answer. |
| Library.LibraryViewModel.PerformSearch | TIDALdj/TIDALdj/ViewModels/LibraryViewModel.swift:40-53 | The query sent is `SearchRequest` of the search text, and the new state is `AfterSearch` of the old state and the answer. |
| Library.LibraryViewModel.Reset | TIDALdj/TIDALdj/ViewModels/AppViewModel.swift:69 | Changes only this library view model's own fields and promises nothing about their new values. |
| Audio.AudioEngine.constructor | TIDALdj/TIDALdj/Services/AudioEngine.swift:11 | Both decks start with an entry and are empty, so neither reports a track. |
| Audio.AudioEngine.LoadTrack | TIDALdj/TIDALdj/Services/AudioEngine.swift:29-31 | The call never fails. The deck then reports the new track, replacing any earlier one, and the other deck's entry is unchanged. |
| Audio.AudioEngine.TrackFor | TIDALdj/TIDALdj/Services/AudioEngine.swift:54-59 | A track is reported exactly when the deck's entry is loaded, and it is the loaded track. |
| Audio.AudioEngine.Play | TIDALdj/TIDALdj/Services/AudioEngine.swift:33-35 | The deck states are unchanged. |
| Audio.AudioEngine.Pause | TIDALdj/TIDALdj/Services/AudioEngine.swift:37-39 | The deck states are unchanged. |
| Audio.AudioEngine.Seek | TIDALdj/TIDALdj/Services/AudioEngine.swift:41-43 | The deck states are unchanged. |
| Audio.AudioEngine.SetTempo | TIDALdj/TIDALdj/Services/AudioEngine.swift:45-47 | The deck states are unchanged. |
| Audio.AudioEngine.SetCrossfader | TIDALdj/TIDALdj/Services/AudioEngine.swift:49-52 | The deck states are unchanged. |
| Api.TIDALApiService.constructor | TIDALdj/TIDALdj/Services/TIDALApiService.swift:4-10 | Both tokens start absent. |
| Api.TIDALApiService.UpdateTokens | TIDALdj/TIDALdj/Services/TIDALApiService.swift:14-17 | Both tokens are set to the given values, so the pair stays consistent. |
| Api.TIDALApiService.ClearTokens | TIDALdj/TIDALdj/Services/TIDALApiService.swift:19-22 | Both tokens become absent together. |
| Api.TIDALApiService.GetUserPlaylists | TIDALdj/TIDALdj/Services/TIDALApiService.swift:26-29 | The call succeeds with no playlists and changes nothing. |
| Api.TIDALApiService.GetPlaylistTracks | TIDALdj/TIDALdj/Services/TIDALApiService.swift:31-34 | The call succeeds with no tracks and changes nothing. |
| Api.TIDALApiService.Search | TIDALdj/TIDALdj/Services/TIDALApiService.swift:36-40 | Only the empty query is answered early; a whitespace query is not. Every query gets no tracks and nothing changes. |
| Api.TIDALApiService.CreatePlaylist | TIDALdj/TIDALdj/Services/TIDALApiService.swift:42-45 | The call succeeds with a playlist of the given name, the given fresh id and no tracks. |
| Api.TIDALApiService.AddTrackToPlaylist | TIDALdj/TIDALdj/Services/TIDALApiService.swift:47-49 | The call succeeds and changes nothing. |
| Api.TIDALApiService.RemoveTrackFromPlaylist | TIDALdj/TIDALdj/Services/TIDALApiService.swift:51-53 | The call succeeds and changes nothing. |
| App.AppViewModel.DeckViewModelForMatches | TIDALdj/TIDALdj/ViewModels/AppViewModel.swift:93-99 | In a valid app, the view model chosen for a deck carries that deck's id and differs from the other deck's view model. |
| App.AppViewModel.constructor | TIDALdj/TIDALdj/ViewModels/AppViewModel.swift:11-36 | The app starts signed out with no sheet, no selected deck, crossfader 0.5, an empty library and two distinct empty decks. |
| App.AppViewModel.SignIn | TIDALdj/TIDALdj/ViewModels/AppViewModel.swift:38-43 | While a sign-in is in progress nothing changes. Otherwise a sign-in starts and the previous error is cleared. |
| App.AppViewModel.CompleteSignIn | TIDALdj/TIDALdj/ViewModels/AppViewModel.swift:43-58 | Success stores the profile, signs in and refreshes the playlists. Cancellation leaves no error and failure records the message, both signed out. Every case ends the sign-in. |
| App.AppViewModel.SignOut | TIDALdj/TIDALdj/ViewModels/AppViewModel.swift:61-72 | All authentication and presentation flags are false, the deck selection, profile and error are absent, and both decks are reset. |
| App.AppViewModel.PresentLibrary | TIDALdj/TIDALdj/ViewModels/AppViewModel.swift:74-80 | The deck is remembered, the search text and tracks are emptied, and the library is shown. The rest of the library is untouched. |
| App.AppViewModel.HandleTrackSelection | TIDALdj/TIDALdj/ViewModels/AppViewModel.swift:82-91 | Only the chosen deck loads the track; the other deck is unchanged. The sheet closes and the deck selection is cleared. |
| App.AppViewModel.Sync | TIDALdj/TIDALdj/ViewModels/AppViewModel.swift:93-100 | The chosen deck syncs to the other deck's current BPM, and the other deck is unchanged. |
| App.SuccessAfterSignOutSignsIn | TIDALdj/TIDALdj/ViewModels/AppViewModel.swift:38-72 | If a sign-in task started before sign-out later succeeds, the user ends up signed in with that profile. |
| App.CancellationAfterSignOutStaysSignedOut | TIDALdj/TIDALdj/ViewModels/AppViewModel.swift:38-72 | If that task instead reports cancellation, the signed-out state stays. |

## Left out

- OAuth/PKCE authentication, token exchange, refresh, retry on 401 and revocation: none of these is in `TIDALApiService.swift`. `authenticate(presentationContextProvider:)`, `ServiceError`, `signOut()` and `init(configuration:)`, which `AppViewModel.swift` calls, are not part of this model. The authentication result is an input of `CompleteSignIn`, and the service's own sign-out task is not modelled.
- Fire-and-forget `Task` calls from the view models into the audio engine (load, pause, play, set tempo, seek, crossfader): these are concurrent effects with no result, and they are not modelled. The deck view models therefore hold no engine reference.
- The search task that `presentLibrary(for:)` starts is not run by `PresentLibrary`. `OpenedLibraryIsSearchFixpoint` shows that, with the query just set, it would change nothing.
- Interleavings at `await` points: each loader is one step, so the loading flag being `true` while the service call is pending is not observable in the model.
- Decks.Synced: requires a non-zero track BPM when both BPMs are known. Swift's floating-point division by zero (infinity or NaN, then clamped) is not modelled.
- Decks.DeckViewModel.Sync: requires the same non-zero track BPM, for the same reason.
- App.AppViewModel.Sync: requires the same non-zero BPM of the deck being synced, for the same reason.
- `Float`/`Double` rounding, NaN and infinity: all numbers are `real`.
- `platterWasDragged(translation:)`: scratch offset arithmetic only forwarded to the engine.
- `albumArtURL` getter of the deck view model and the crossfader's `didSet`: they only forward a value.
- `presentationAnchor(for:)`, the AVAudioEngine graph and output volume, SwiftUI views, app bootstrap and persistence: platform code.
- Foundation's whitespace set is written out as the Unicode space separators, U+2028, U+2029 and the controls U+0009–U+000D and U+0085. No other Foundation behaviour, such as normalisation, is modelled.
- `LibraryViewModel.swift` defines no `reset()`. `Library.LibraryViewModel.Reset` may change any library field, and so `SignOut` promises nothing about the library's contents.
- The properties `playlistSectionTitle`, `tracksSectionTitle` and `isShowingSearchResults` that the library view reads are not defined in `LibraryViewModel.swift`. They are not part of this model.
- `createPlaylist(name:)` takes its id from a random UUID. That id is a parameter of `CreatePlaylist`.
