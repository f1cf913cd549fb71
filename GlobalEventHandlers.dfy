/**
 * The plugin-wide handlers: the Ctrl+L shortcut, closing on navigation,
 * waiting for the player at startup and the song-change reset.
 */
module GlobalEventHandlers {
  import opened Wrappers
  import opened LyricsState
  import opened LyricsFetcher
  import opened LyricsPage

  /**
   * Ctrl+L: close the page when it is open, open it otherwise. The
   * remaining parameters are the inputs of the two page operations.
   * Returns whether the key was the shortcut; any other key changes
   * nothing.
   */
  method OnKeyDown(st: State, ctrlKey: bool, key: string, mainView: Element?, container: Element?,
                   track: Option<Track>, direct: Option<Song>, search: Option<seq<Song>>, timer: nat)
    returns (handled: bool)
    modifies st`originalPageState, st`lyricsPageActive, st`memorizedSelectedText
    modifies st`currentLyrics, st`highlightInterval, st`currentHighlightedLine
    modifies (if mainView == null then {} else {mainView})`children, (set c | mainView != null && c in mainView.children)`display
    modifies SavedParent(st)`children, (set c | c in SavedChildren(st))`display
    ensures handled <==> ctrlKey && key == "l"
    ensures !handled ==>
      && unchanged(st) && unchanged(SavedParent(st)) && unchanged(set c | c in SavedChildren(st))
      && (mainView != null ==> unchanged(mainView) && unchanged(set c | c in mainView.children))
    ensures handled && old(st.lyricsPageActive) && old(st.originalPageState).Some? ==>
      var saved := old(st.originalPageState).value;
      && st.highlightInterval == None && st.currentHighlightedLine == None && st.memorizedSelectedText == None
      && (forall c :: c in saved.children ==> c.display == "")
      && saved.parent.children == (if container == null then old(saved.parent.children) else Without(old(saved.parent.children), container))
      && !st.lyricsPageActive && st.originalPageState == None
      && st.currentLyrics == old(st.currentLyrics)
      && (mainView != null && mainView != saved.parent ==> mainView.children == old(mainView.children))
    ensures handled && !old(st.lyricsPageActive) && mainView != null ==>
      var n := |old(mainView.children)|;
      && |mainView.children| == n + 1 && mainView.children[..n] == old(mainView.children) && fresh(mainView.children[n])
      && (forall c :: c in old(mainView.children) ==> c.display == "none")
      && st.originalPageState == Some(PageSnapshot(old(mainView.children), mainView, None, None))
      && st.lyricsPageActive
      && st.currentLyrics == LyricsAfterFetch(track, direct, search)
      && st.highlightInterval == (if Outcome(track, direct, search) == LyricsShown then Some(timer) else None)
      && st.currentHighlightedLine == None
      && st.memorizedSelectedText == old(st.memorizedSelectedText)
    ensures handled && ((old(st.lyricsPageActive) && old(st.originalPageState).None?) || (!old(st.lyricsPageActive) && mainView == null)) ==>
      unchanged(st)
    ensures old(st.PageConsistent()) ==> st.PageConsistent()
    ensures old(st.PageConsistent()) && handled && (old(st.lyricsPageActive) || mainView != null) ==>
      st.lyricsPageActive == !old(st.lyricsPageActive)
  {
    if !(ctrlKey && key == "l") {
      return false;
    }
    if st.lyricsPageActive {
      CloseLyricsPage(st, container);
    } else {
      var shown, _ := ShowLyricsPage(st, mainView, track, direct, search, timer);
      if mainView != null {
        assert mainView.children == old(mainView.children) + [shown.value];
      }
    }
    return true;
  }

  /** A navigation in the host closes the page if it is open. */
  method OnNavigate(st: State, container: Element?)
    modifies st`originalPageState, st`lyricsPageActive
    modifies st`highlightInterval, st`currentHighlightedLine, st`memorizedSelectedText
    modifies SavedParent(st)`children, (set c | c in SavedChildren(st))`display
    ensures !old(st.lyricsPageActive) || old(st.originalPageState).None? ==>
      unchanged(st) && unchanged(SavedParent(st)) && unchanged(set c | c in SavedChildren(st))
    ensures old(st.lyricsPageActive) && old(st.originalPageState).Some? ==>
      var saved := old(st.originalPageState).value;
      && st.highlightInterval == None && st.currentHighlightedLine == None && st.memorizedSelectedText == None
      && (forall c :: c in saved.children ==> c.display == "")
      && saved.parent.children == (if container == null then old(saved.parent.children) else Without(old(saved.parent.children), container))
      && !st.lyricsPageActive && st.originalPageState == None
      && st.currentLyrics == old(st.currentLyrics)
    ensures old(st.PageConsistent()) ==> st.PageConsistent() && !st.lyricsPageActive
  {
    if st.lyricsPageActive {
      CloseLyricsPage(st, container);
    }
  }

  /** The largest number of polls for the player's data before startup goes on regardless. */
  const MaxAttempts := 100

  /**
   * Startup's wait: poll until the player's data is there or 100 polls
   * have been made. `dataReady(k)` says whether the data is there at
   * the k-th look. Returns the number of polls.
   */
  method WaitForPlayer(dataReady: nat -> bool) returns (attempts: nat)
    ensures attempts <= MaxAttempts
    ensures forall k :: 0 <= k < attempts ==> !dataReady(k)
    ensures attempts < MaxAttempts ==> dataReady(attempts)
  {
    attempts := 0;
    while !dataReady(attempts) && attempts < MaxAttempts
      invariant attempts <= MaxAttempts
      invariant forall k :: 0 <= k < attempts ==> !dataReady(k)
    {
      attempts := attempts + 1;
    }
  }

  /**
   * Startup: wait for the player; with no player stop there. Otherwise
   * schedule the button's creation, and listen for song changes when the
   * player offers `addEventListener` (`canListen`).
   */
  method Initialise(dataReady: nat -> bool, playerPresent: bool, canListen: bool)
    returns (attempts: nat, buttonScheduled: bool, listening: bool)
    ensures attempts <= MaxAttempts && (attempts < MaxAttempts ==> dataReady(attempts))
    ensures forall k :: 0 <= k < attempts ==> !dataReady(k)
    ensures buttonScheduled == playerPresent
    ensures listening == (playerPresent && canListen)
  {
    attempts := WaitForPlayer(dataReady);
    if !playerPresent {
      return attempts, false, false;
    }
    buttonScheduled := true;
    listening := canListen;
  }

  /**
   * A song change: the highlight timer, the highlighted line and the
   * remembered selection are always cleared; the lyrics are fetched
   * again only while the page is open.
   */
  method OnSongChange(st: State, track: Option<Track>, direct: Option<Song>, search: Option<seq<Song>>, timer: nat)
    returns (refetched: Option<FetchOutcome>)
    modifies st`highlightInterval, st`currentHighlightedLine, st`memorizedSelectedText, st`currentLyrics
    ensures st.memorizedSelectedText == None && st.currentHighlightedLine == None
    ensures !st.lyricsPageActive ==>
      refetched == None && st.highlightInterval == None && st.currentLyrics == old(st.currentLyrics)
    ensures st.lyricsPageActive ==>
      && refetched == Some(Outcome(track, direct, search))
      && st.currentLyrics == LyricsAfterFetch(track, direct, search)
      && st.highlightInterval == (if refetched.value == LyricsShown then Some(timer) else None)
  {
    if st.highlightInterval.Some? {
      st.SetHighlightInterval(None);
    }
    st.SetCurrentHighlightedLine(None);
    refetched := None;
    if st.lyricsPageActive {
      var outcome := FetchAndDisplayLyrics(st, track, direct, search, timer);
      refetched := Some(outcome);
    }
    st.SetMemorizedSelectedText(None);
  }
}
