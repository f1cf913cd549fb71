/**
 * The plugin's shared mutable state: the module-level variables of the
 * state module and their setters, gathered in one object.
 */
module LyricsState {
  import opened Wrappers

  /** One lyric line: start time in seconds (-1 for unsynced text) and its text. */
  datatype Lyric = Lyric(time: real, line: string)

  /**
   * A DOM element, reduced to what the page state touches: its inline
   * `display` style and its list of children.
   */
  class Element {
    var display: string
    var children: seq<Element>

    /** A newly created element: no inline display, no children. */
    constructor ()
      ensures display == "" && children == []
    {
      display := "";
      children := [];
    }
  }

  /**
   * What is saved when the lyrics page replaces the main view, so that
   * closing the page can restore it. `topBar` and `originalTopBarDisplay`
   * are declared by the state type; the page code never fills them in.
   */
  datatype PageSnapshot = PageSnapshot(
    children: seq<Element>,
    parent: Element,
    topBar: Option<Element>,
    originalTopBarDisplay: Option<string>)

  /** JavaScript truthiness of a `string | null` variable. */
  predicate Truthy(s: Option<string>) {
    s.Some? && s.value != ""
  }

  class State {
    var originalPageState: Option<PageSnapshot>
    var lyricsPageActive: bool
    var isDragging: bool
    /** Start of the current press; `None` while still `undefined`. */
    var startX: Option<int>
    var startY: Option<int>
    var memorizedSelectedText: Option<string>
    var currentLyrics: seq<Lyric>
    var highlightInterval: Option<nat>
    var currentHighlightedLine: Option<string>

    /** The values the variables hold when the plugin loads. */
    constructor ()
      ensures originalPageState == None && !lyricsPageActive && !isDragging
      ensures startX == None && startY == None
      ensures memorizedSelectedText == None && currentLyrics == []
      ensures highlightInterval == None && currentHighlightedLine == None
    {
      originalPageState := None;
      lyricsPageActive := false;
      isDragging := false;
      startX, startY := None, None;
      memorizedSelectedText := None;
      currentLyrics := [];
      highlightInterval := None;
      currentHighlightedLine := None;
    }

    /** The page is open exactly when a snapshot of the hidden view is held. */
    ghost predicate PageConsistent()
      reads this
    {
      lyricsPageActive <==> originalPageState.Some?
    }

    // Each setter writes its own variable and nothing else: the frame
    // `this`field` makes every other field unchanged for the caller.

    method SetOriginalPageState(state: Option<PageSnapshot>)
      modifies this`originalPageState
      ensures originalPageState == state
    {
      originalPageState := state;
    }

    method SetLyricsPageActive(active: bool)
      modifies this`lyricsPageActive
      ensures lyricsPageActive == active
    {
      lyricsPageActive := active;
    }

    method SetIsDragging(dragging: bool)
      modifies this`isDragging
      ensures isDragging == dragging
    {
      isDragging := dragging;
    }

    method SetStartX(x: int)
      modifies this`startX
      ensures startX == Some(x)
    {
      startX := Some(x);
    }

    method SetStartY(y: int)
      modifies this`startY
      ensures startY == Some(y)
    {
      startY := Some(y);
    }

    method SetMemorizedSelectedText(text: Option<string>)
      modifies this`memorizedSelectedText
      ensures memorizedSelectedText == text
    {
      memorizedSelectedText := text;
    }

    method SetCurrentLyrics(lyrics: seq<Lyric>)
      modifies this`currentLyrics
      ensures currentLyrics == lyrics
    {
      currentLyrics := lyrics;
    }

    method SetHighlightInterval(interval: Option<nat>)
      modifies this`highlightInterval
      ensures highlightInterval == interval
    {
      highlightInterval := interval;
    }

    method SetCurrentHighlightedLine(lineId: Option<string>)
      modifies this`currentHighlightedLine
      ensures currentHighlightedLine == lineId
    {
      currentHighlightedLine := lineId;
    }
  }

  /**
   * The scroll-follow flags that the scroll handler and the highlight
   * timer share. Their declarations are not part of this model; they are
   * taken to be plain variables whose setters assign them.
   */
  class ViewFlags {
    var scrolledAndStopped: bool
    var idle: bool

    constructor (scrolledAndStopped: bool, idle: bool)
      ensures this.scrolledAndStopped == scrolledAndStopped && this.idle == idle
    {
      this.scrolledAndStopped := scrolledAndStopped;
      this.idle := idle;
    }

    method SetScrolledAndStopped(value: bool)
      modifies this`scrolledAndStopped
      ensures scrolledAndStopped == value
    {
      scrolledAndStopped := value;
    }

    method SetIdle(value: bool)
      modifies this`idle
      ensures idle == value
    {
      idle := value;
    }
  }
}
