/**
 * The app's top-level view model: authentication state, the library sheet,
 * and the two decks it routes tracks and tempo sync to.
 */
module App {
  import opened Wrappers
  import opened Models
  import opened UserProfiles
  import opened Decks
  import opened Library
  import opened Audio
  import opened Api

  /**
   * How the service's `authenticate` call ends: with the user's profile, with
   * the user cancelling the browser consent, or with any other error,
   * described by its message.
   */
  datatype AuthenticationOutcome = Authenticated(profile: UserProfile) | Cancelled | Failed(message: string)

  /** The crossfader's position when the app starts. */
  const InitialCrossfaderPosition: real := 0.5

  class AppViewModel {
    var isAuthenticated: bool
    var isPresentingLibrary: bool
    var selectedDeck: Option<DeckID>
    var crossfaderPosition: real
    var userProfile: Option<UserProfile>
    var isAuthenticating: bool
    var authenticationError: Option<string>

    /** Sign-in tasks started by `SignIn` whose outcome has not been delivered yet. */
    ghost var pendingSignIns: nat

    const apiService: TIDALApiService
    const audioEngine: AudioEngine
    const libraryViewModel: LibraryViewModel
    const deckAViewModel: DeckViewModel
    const deckBViewModel: DeckViewModel

    /** The deck view model that shows the given deck. */
    function DeckViewModelFor(deck: DeckID): DeckViewModel {
      match deck
      case DeckA => deckAViewModel
      case DeckB => deckBViewModel
    }

    /** In a valid app each deck is shown by its own view model, distinct from the other deck's. */
    lemma DeckViewModelForMatches(deck: DeckID)
      requires Valid()
      ensures DeckViewModelFor(deck).deckID == deck
      ensures DeckViewModelFor(deck) != DeckViewModelFor(deck.Other())
    {
    }

    /**
     * The two decks are distinct objects that each keep their invariant; a
     * signed-in user has a profile; the library sheet is shown only for a
     * chosen deck; a sign-in is in progress only while its task is pending.
     */
    ghost predicate Valid()
      reads this, deckAViewModel, deckBViewModel
    {
      && deckAViewModel != deckBViewModel
      && deckAViewModel.deckID == DeckA && deckBViewModel.deckID == DeckB
      && deckAViewModel.Valid() && deckBViewModel.Valid()
      && (isAuthenticated ==> userProfile.Some?)
      && (isPresentingLibrary ==> selectedDeck.Some?)
      && (isAuthenticating ==> pendingSignIns > 0)
    }

    constructor (apiService: TIDALApiService, audioEngine: AudioEngine)
      ensures Valid()
      ensures this.apiService == apiService && this.audioEngine == audioEngine
      ensures fresh(libraryViewModel) && fresh(deckAViewModel) && fresh(deckBViewModel)
      ensures libraryViewModel.State() == EmptyLibrary
      ensures deckAViewModel.State() == EmptyDeck && deckBViewModel.State() == EmptyDeck
      ensures !isAuthenticated && !isPresentingLibrary && selectedDeck.None?
      ensures userProfile.None? && !isAuthenticating && authenticationError.None?
      ensures crossfaderPosition == InitialCrossfaderPosition && pendingSignIns == 0
    {
      this.apiService := apiService;
      this.audioEngine := audioEngine;
      libraryViewModel := new LibraryViewModel();
      deckAViewModel := new DeckViewModel(DeckA);
      deckBViewModel := new DeckViewModel(DeckB);
      isAuthenticated := false;
      isPresentingLibrary := false;
      selectedDeck := None;
      crossfaderPosition := InitialCrossfaderPosition;
      userProfile := None;
      isAuthenticating := false;
      authenticationError := None;
      pendingSignIns := 0;
    }

    /**
     * `signIn()` up to the point where it starts the authentication task:
     * ignored while a sign-in is in progress, otherwise marks one as started
     * and clears the previous error. Returns whether a task was started.
     */
    method SignIn() returns (started: bool)
      requires Valid()
      modifies this
      ensures Valid()
      ensures started <==> !old(isAuthenticating)
      ensures !started ==> unchanged(this)
      ensures started ==> isAuthenticating && authenticationError.None? && pendingSignIns == old(pendingSignIns) + 1
      ensures isAuthenticated == old(isAuthenticated) && userProfile == old(userProfile)
      ensures isPresentingLibrary == old(isPresentingLibrary) && selectedDeck == old(selectedDeck)
      ensures crossfaderPosition == old(crossfaderPosition)
    {
      if isAuthenticating {
        return false;
      }
      isAuthenticating := true;
      authenticationError := None;
      pendingSignIns := pendingSignIns + 1;
      started := true;
    }

    /**
     * The body of the authentication task once the service has answered: on
     * success the profile is kept, the user is signed in and the playlists
     * are refreshed with `playlists`, the service's answer to that call; a
     * cancellation leaves no error message, any other failure records its
     * message; every outcome ends the sign-in in progress.
     */
    method CompleteSignIn(outcome: AuthenticationOutcome, playlists: Result<seq<Playlist>, string>)
      requires Valid() && pendingSignIns > 0
      modifies this, libraryViewModel
      ensures Valid()
      ensures !isAuthenticating && pendingSignIns == old(pendingSignIns) - 1
      ensures outcome.Authenticated? ==>
        && userProfile == Some(outcome.profile) && isAuthenticated
        && authenticationError == old(authenticationError)
        && libraryViewModel.State() == AfterRefresh(old(libraryViewModel.State()), playlists)
      ensures outcome.Cancelled? ==>
        && !isAuthenticated && authenticationError.None?
      ensures outcome.Failed? ==>
        && !isAuthenticated && authenticationError == Some(outcome.message)
      ensures !outcome.Authenticated? ==>
        userProfile == old(userProfile) && unchanged(libraryViewModel)
      ensures isPresentingLibrary == old(isPresentingLibrary) && selectedDeck == old(selectedDeck)
      ensures crossfaderPosition == old(crossfaderPosition)
    {
      match outcome {
        case Authenticated(profile) =>
          userProfile := Some(profile);
          isAuthenticated := true;
          libraryViewModel.RefreshPlaylists(playlists);
        case Cancelled =>
          authenticationError := None;
          isAuthenticated := false;
        case Failed(message) =>
          authenticationError := Some(message);
          isAuthenticated := false;
      }
      isAuthenticating := false;
      pendingSignIns := pendingSignIns - 1;
    }

    /**
     * `signOut()`: every authentication and presentation flag is cleared, the
     * library is reset and both decks go back to their empty state.
     */
    method SignOut()
      requires Valid()
      modifies this, libraryViewModel, deckAViewModel, deckBViewModel
      ensures Valid()
      ensures !isAuthenticated && !isPresentingLibrary && !isAuthenticating
      ensures selectedDeck.None? && userProfile.None? && authenticationError.None?
      ensures deckAViewModel.State() == Cleared(old(deckAViewModel.State()))
      ensures deckBViewModel.State() == Cleared(old(deckBViewModel.State()))
      ensures crossfaderPosition == old(crossfaderPosition) && pendingSignIns == old(pendingSignIns)
    {
      isAuthenticated := false;
      isPresentingLibrary := false;
      selectedDeck := None;
      userProfile := None;
      authenticationError := None;
      isAuthenticating := false;
      libraryViewModel.Reset();
      deckAViewModel.Reset();
      deckBViewModel.Reset();
    }

    /**
     * `presentLibrary(for:)`: remembers the deck, empties the search text and
     * the track list, and shows the library sheet.
     */
    method PresentLibrary(deck: DeckID)
      requires Valid()
      modifies this, libraryViewModel
      ensures Valid()
      ensures selectedDeck == Some(deck) && isPresentingLibrary
      ensures libraryViewModel.State() == old(libraryViewModel.State()).(searchQuery := "", tracks := [])
      ensures isAuthenticated == old(isAuthenticated) && isAuthenticating == old(isAuthenticating)
      ensures userProfile == old(userProfile) && authenticationError == old(authenticationError)
      ensures crossfaderPosition == old(crossfaderPosition) && pendingSignIns == old(pendingSignIns)
    {
      selectedDeck := Some(deck);
      libraryViewModel.searchQuery := "";
      libraryViewModel.tracks := [];
      isPresentingLibrary := true;
    }

    /**
     * `handleTrackSelection(_:deck:)`: the track goes onto the chosen deck
     * only, and the library sheet closes.
     */
    method HandleTrackSelection(track: Track, deck: DeckID)
      requires Valid()
      modifies this, DeckViewModelFor(deck)
      ensures Valid()
      ensures DeckViewModelFor(deck).State() == WithTrack(old(DeckViewModelFor(deck).State()), track)
      ensures unchanged(DeckViewModelFor(deck.Other()))
      ensures !isPresentingLibrary && selectedDeck.None?
      ensures isAuthenticated == old(isAuthenticated) && isAuthenticating == old(isAuthenticating)
      ensures userProfile == old(userProfile) && authenticationError == old(authenticationError)
      ensures crossfaderPosition == old(crossfaderPosition) && pendingSignIns == old(pendingSignIns)
    {
      match deck {
        case DeckA => deckAViewModel.LoadTrack(track);
        case DeckB => deckBViewModel.LoadTrack(track);
      }
      isPresentingLibrary := false;
      selectedDeck := None;
    }

    /**
     * `sync(deck:)`: the chosen deck follows the other deck's current BPM;
     * the other deck and the app's own fields are untouched.
     */
    method Sync(deck: DeckID)
      requires Valid()
      requires CanSync(DeckViewModelFor(deck).State(), DeckViewModelFor(deck.Other()).currentBPM)
      modifies DeckViewModelFor(deck)
      ensures Valid()
      ensures DeckViewModelFor(deck).State()
        == Synced(old(DeckViewModelFor(deck).State()), old(DeckViewModelFor(deck.Other()).currentBPM))
      ensures unchanged(DeckViewModelFor(deck.Other()))
    {
      match deck {
        case DeckA => deckAViewModel.Sync(deckBViewModel.currentBPM);
        case DeckB => deckBViewModel.Sync(deckAViewModel.currentBPM);
      }
    }
  }

  /**
   * Signing out does not stop a sign-in task that is already running: when
   * that task then reports success, the user is signed in again.
   */
  method SuccessAfterSignOutSignsIn(profile: UserProfile, playlists: Result<seq<Playlist>, string>)
    returns (app: AppViewModel)
    ensures app.isAuthenticated && app.userProfile == Some(profile) && !app.isAuthenticating
  {
    var api := new TIDALApiService();
    var engine := new AudioEngine();
    app := new AppViewModel(api, engine);
    var started := app.SignIn();
    app.SignOut();
    app.CompleteSignIn(Authenticated(profile), playlists);
  }

  /**
   * When the running sign-in task instead reports a cancellation, the state
   * that signing out left is kept.
   */
  method CancellationAfterSignOutStaysSignedOut(playlists: Result<seq<Playlist>, string>)
    returns (app: AppViewModel)
    ensures !app.isAuthenticated && app.userProfile.None? && app.authenticationError.None?
    ensures !app.isAuthenticating
  {
    var api := new TIDALApiService();
    var engine := new AudioEngine();
    app := new AppViewModel(api, engine);
    var started := app.SignIn();
    app.SignOut();
    app.CompleteSignIn(Cancelled, playlists);
  }
}
