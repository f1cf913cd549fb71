/**
 * Opening and closing the lyrics page over the host's main view, and
 * the page's copy actions. Opening hides every child of the main view
 * and remembers them; closing shows them again and forgets them.
 */
module LyricsPage {
  import opened Wrappers
  import opened LyricsState
  import opened LyricsFetcher

  /** A notification shown to the user, and whether it is shown as an error. */
  datatype Notification = Notification(message: string, isError: bool)

  const CopiedNotice := Notification("Lyrics copied to clipboard!", false)
  const CopyFailedNotice := Notification("Failed to copy lyrics.", true)
  const NothingToCopyNotice := Notification("No lyrics to copy.", true)
  const NoSelectionNotice := Notification("No text selected to copy.", true)

  /** Set the inline `display` of every element of `children` (the `forEach` loops). */
  method SetDisplayAll(children: seq<Element>, display: string)
    modifies (set c | c in children)`display
    ensures forall c :: c in children ==> c.display == display
  {
    for i := 0 to |children|
      invariant forall j :: 0 <= j < i ==> children[j].display == display
    {
      children[i].display := display;
    }
  }

  /** `xs` with every occurrence of `x` removed. */
  function Without(xs: seq<Element>, x: Element): (r: seq<Element>)
    ensures forall k :: 0 <= k < |r| ==> r[k] in xs && r[k] != x
    ensures forall k :: 0 <= k < |xs| && xs[k] != x ==> xs[k] in r
    ensures x !in xs ==> r == xs
  {
    if xs == [] then []
    else Without(xs[..|xs| - 1], x) + (if xs[|xs| - 1] == x then [] else [xs[|xs| - 1]])
  }

  /** Removal keeps order: removing from a concatenation removes from each part, in place. */
  lemma {:induction false} WithoutConcat(a: seq<Element>, b: seq<Element>, x: Element)
    ensures Without(a + b, x) == Without(a, x) + Without(b, x)
    decreases |b|
  {
    if b != [] {
      var front := b[..|b| - 1];
      assert (a + b)[..|a + b| - 1] == a + front && (a + b)[|a + b| - 1] == b[|b| - 1];
      WithoutConcat(a, front, x);
    } else {
      assert a + b == a;
    }
  }

  /**
   * `showLyricsPage`. `mainView` is the main content element the
   * selectors find (`null` if none). The fetch inputs are those of
   * `FetchAndDisplayLyrics`. Returns the appended lyrics container and
   * the fetch outcome, both `None` when the page was not opened.
   */
  method ShowLyricsPage(st: State, mainView: Element?, track: Option<Track>, direct: Option<Song>,
                        search: Option<seq<Song>>, timer: nat)
    returns (container: Option<Element>, outcome: Option<FetchOutcome>)
    modifies st`originalPageState, st`lyricsPageActive
    modifies st`currentLyrics, st`highlightInterval, st`currentHighlightedLine
    modifies (if mainView == null then {} else {mainView})`children, (set c | mainView != null && c in mainView.children)`display
    ensures old(st.lyricsPageActive) || mainView == null ==>
      && container == None && outcome == None
      && unchanged(st)
      && (mainView != null ==> unchanged(mainView) && unchanged(set c | c in mainView.children))
    ensures !old(st.lyricsPageActive) && mainView != null ==>
      && container.Some? && fresh(container.value)
      && mainView.children == old(mainView.children) + [container.value]
      && (forall c :: c in old(mainView.children) ==> c.display == "none")
      && st.originalPageState == Some(PageSnapshot(old(mainView.children), mainView, None, None))
      && st.lyricsPageActive
      && outcome == Some(Outcome(track, direct, search))
      && st.currentLyrics == LyricsAfterFetch(track, direct, search)
      && st.highlightInterval == (if outcome.value == LyricsShown then Some(timer) else None)
      && st.currentHighlightedLine == None
    ensures old(st.PageConsistent()) ==> st.PageConsistent()
  {
    if st.lyricsPageActive || mainView == null {
      return None, None;
    }
    var children := mainView.children;
    st.SetOriginalPageState(Some(PageSnapshot(children, mainView, None, None)));
    SetDisplayAll(children, "none");
    var lyricsContainer := new Element();
    mainView.children := mainView.children + [lyricsContainer];
    st.SetLyricsPageActive(true);
    var fetched := FetchAndDisplayLyrics(st, track, direct, search, timer);
    return Some(lyricsContainer), Some(fetched);
  }

  /** The parent saved when the page opened, if any. */
  function SavedParent(st: State): set<Element>
    reads st
  {
    if st.originalPageState.Some? then {st.originalPageState.value.parent} else {}
  }

  /** The children saved when the page opened, if any. */
  function SavedChildren(st: State): seq<Element>
    reads st
  {
    if st.originalPageState.Some? then st.originalPageState.value.children else []
  }

  /**
   * `closeLyricsPage`. `container` is the lyrics container the id
   * lookup finds (`null` if none); it is removed from the saved parent.
   */
  method CloseLyricsPage(st: State, container: Element?)
    modifies st`originalPageState, st`lyricsPageActive
    modifies st`highlightInterval, st`currentHighlightedLine, st`memorizedSelectedText
    modifies SavedParent(st)`children, (set c | c in SavedChildren(st))`display
    ensures !old(st.lyricsPageActive) || old(st.originalPageState).None? ==>
      unchanged(st) && unchanged(SavedParent(st)) && unchanged(set c | c in SavedChildren(st))
    ensures old(st.lyricsPageActive) && old(st.originalPageState).Some? ==>
      var saved := old(st.originalPageState).value;
      && st.highlightInterval == None && st.currentHighlightedLine == None && st.memorizedSelectedText == None
      && (forall c :: c in saved.children ==> c.display == "")
      && saved.parent.children == (if container == null then old(saved.parent.children) else Without(old(saved.parent.children), container))
      && !st.lyricsPageActive && st.originalPageState == None
    ensures old(st.PageConsistent()) ==> st.PageConsistent()
  {
    if !st.lyricsPageActive || st.originalPageState.None? {
      return;
    }
    var saved := st.originalPageState.value;
    if st.highlightInterval.Some? {
      st.SetHighlightInterval(None);
    }
    st.SetCurrentHighlightedLine(None);
    st.SetMemorizedSelectedText(None);
    if container != null {
      saved.parent.children := Without(saved.parent.children, container);
    }
    SetDisplayAll(saved.children, "");
    st.SetLyricsPageActive(false);
    st.SetOriginalPageState(None);
  }

  /**
   * Opening then closing the page gives back the main view's child
   * list, inactive with no saved state; every child is left with display
   * `''`, whatever its inline display was before.
   */
  method ShowThenClose(st: State, mainView: Element, track: Option<Track>, direct: Option<Song>,
                       search: Option<seq<Song>>, timer: nat)
    requires !st.lyricsPageActive
    modifies st, mainView, (set c | c in mainView.children)`display
    ensures mainView.children == old(mainView.children)
    ensures forall c :: c in old(mainView.children) ==> c.display == ""
    ensures !st.lyricsPageActive && st.originalPageState == None
    ensures st.highlightInterval == None && st.currentHighlightedLine == None && st.memorizedSelectedText == None
  {
    ghost var before := mainView.children;
    var container, _ := ShowLyricsPage(st, mainView, track, direct, search, timer);
    assert container.value !in before;
    CloseLyricsPage(st, container.value);
  }

  /** Whether a `string | null` value is a non-empty string. */
  predicate NonEmpty(s: Option<string>) {
    s.Some? && s.value != ""
  }

  /**
   * The text the copy button copies: the memorized selection first,
   * else the live selection, else the whole lyrics text (`""` when the
   * lyrics element is missing).
   */
  function CopySource(memorized: Option<string>, selection: Option<string>, content: Option<string>): (text: string)
    ensures NonEmpty(memorized) ==> text == memorized.value
    ensures !NonEmpty(memorized) && NonEmpty(selection) ==> text == selection.value
    ensures !NonEmpty(memorized) && !NonEmpty(selection) ==> text == content.GetOr("")
  {
    if NonEmpty(memorized) then memorized.value
    else if NonEmpty(selection) then selection.value
    else if content.Some? then content.value
    else ""
  }

  /** There is nothing to copy exactly when all three sources are empty or missing. */
  lemma NothingToCopy(memorized: Option<string>, selection: Option<string>, content: Option<string>)
    ensures CopySource(memorized, selection, content) == "" <==> !NonEmpty(memorized) && !NonEmpty(selection) && !NonEmpty(content)
  {
  }

  /** What a copy click does: the text written to the clipboard, if any, and the notification. */
  datatype CopyResult = CopyResult(written: Option<string>, notice: Notification)

  /**
   * The copy button's click on the page. `copySucceeds` is the
   * clipboard's answer.
   */
  function CopyClick(memorized: Option<string>, selection: Option<string>, content: Option<string>, copySucceeds: bool): (r: CopyResult)
    ensures r.written.Some? <==> CopySource(memorized, selection, content) != ""
    ensures r.written.Some? ==> r.written.value == CopySource(memorized, selection, content)
    ensures r.notice == (if r.written.None? then NothingToCopyNotice else if copySucceeds then CopiedNotice else CopyFailedNotice)
  {
    var text := CopySource(memorized, selection, content);
    if text != "" then CopyResult(Some(text), if copySucceeds then CopiedNotice else CopyFailedNotice)
    else CopyResult(None, NothingToCopyNotice)
  }

  /** A remembered selection is copied whatever is selected now and whatever the page shows. */
  lemma MemorizedWins(text: string, selection: Option<string>, content: Option<string>, copySucceeds: bool)
    requires text != ""
    ensures CopyClick(Some(text), selection, content, copySucceeds).written == Some(text)
  {
  }

  /**
   * Ctrl+C on the page: `None` for any other key; otherwise the
   * notification, which depends on whether text is selected and on the
   * copy command's answer.
   */
  function CtrlCNotice(ctrlKey: bool, key: string, selected: Option<string>, copySucceeds: bool): (n: Option<Notification>)
    ensures n.Some? <==> ctrlKey && key == "c"
    ensures n.Some? && !NonEmpty(selected) ==> n.value == NoSelectionNotice
    ensures n.Some? && NonEmpty(selected) ==> n.value == if copySucceeds then CopiedNotice else CopyFailedNotice
  {
    if !(ctrlKey && key == "c") then None
    else if NonEmpty(selected) then Some(if copySucceeds then CopiedNotice else CopyFailedNotice)
    else Some(NoSelectionNotice)
  }
}
