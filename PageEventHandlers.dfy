/**
 * The handlers attached to the lyrics page: drag detection, the
 * scroll-idle debounce, the copy button, the settings menu and the
 * stored preferences.
 */
module PageEventHandlers {
  import opened Wrappers
  import opened LyricsState
  import opened LyricsPage
  import Translate

  // ---------------------------------------------------------------------
  // Drag detection
  // ---------------------------------------------------------------------

  /** A press moves more than this many pixels along one axis before it counts as a drag. */
  const DragThreshold := 5

  function Abs(x: int): nat {
    if x < 0 then -x else x
  }

  /**
   * The mouse moved far enough from `start` along one axis. An
   * unrecorded start is `undefined`, the difference `NaN`, and the
   * comparison false.
   */
  predicate MovedFrom(start: Option<int>, position: int) {
    start.Some? && Abs(position - start.value) > DragThreshold
  }

  /** mousedown: record the press point; no drag yet. */
  method MouseDown(st: State, clientX: int, clientY: int)
    modifies st`startX, st`startY, st`isDragging
    ensures st.startX == Some(clientX) && st.startY == Some(clientY) && !st.isDragging
  {
    st.SetStartX(clientX);
    st.SetStartY(clientY);
    st.SetIsDragging(false);
  }

  /** mousemove: with the left button held, a move past the threshold starts a drag. */
  method MouseMove(st: State, buttons: int, clientX: int, clientY: int)
    modifies st`isDragging
    ensures st.isDragging <==>
      old(st.isDragging) || (buttons == 1 && (MovedFrom(st.startX, clientX) || MovedFrom(st.startY, clientY)))
  {
    if buttons == 1 {
      if MovedFrom(st.startX, clientX) || MovedFrom(st.startY, clientY) {
        if !st.isDragging {
          st.SetIsDragging(true);
        }
      }
    }
  }

  /**
   * mouseup: at the end of a drag the selection is remembered (or the
   * memory cleared when nothing is selected); the drag always ends.
   */
  method MouseUp(st: State, selection: Option<string>)
    modifies st`isDragging, st`memorizedSelectedText
    ensures !st.isDragging
    ensures old(st.isDragging) ==> st.memorizedSelectedText == (if NonEmpty(selection) then selection else None)
    ensures !old(st.isDragging) ==> st.memorizedSelectedText == old(st.memorizedSelectedText)
  {
    if st.isDragging {
      if NonEmpty(selection) {
        st.SetMemorizedSelectedText(selection);
      } else {
        st.SetMemorizedSelectedText(None);
      }
    }
    st.SetIsDragging(false);
  }

  /**
   * A press at one point and a single move: a drag starts exactly when
   * the left button is held and the move is more than 5 px from the press
   * along one axis.
   */
  method PressThenMove(st: State, x0: int, y0: int, buttons: int, x1: int, y1: int)
    modifies st`startX, st`startY, st`isDragging
    ensures st.isDragging <==> buttons == 1 && (Abs(x1 - x0) > DragThreshold || Abs(y1 - y0) > DragThreshold)
  {
    MouseDown(st, x0, y0);
    MouseMove(st, buttons, x1, y1);
  }

  /**
   * Before any press no start point is recorded, and a move, whatever the
   * buttons and position, does not start a drag.
   */
  method NoDragWithoutPress(st: State, buttons: int, clientX: int, clientY: int)
    requires st.startX == None && st.startY == None && !st.isDragging
    modifies st`isDragging
    ensures !st.isDragging
  {
    MouseMove(st, buttons, clientX, clientY);
  }

  // ---------------------------------------------------------------------
  // Scroll debounce
  // ---------------------------------------------------------------------

  /** The quiet time after the last scroll, in milliseconds, before the view counts as stopped. */
  const ScrollQuietMs := 2000

  /**
   * What the scroll handler sees, in order: a scroll at a time, or the
   * clock reaching a time (when a pending timeout may fire). Times are in
   * milliseconds and do not decrease.
   */
  datatype ScrollEvent = Scroll(at: int) | Clock(at: int)

  /**
   * The scroll handler's state: the shared flags and the pending
   * timeout, kept as the time at which it fires.
   */
  class ScrollWatch {
    const flags: ViewFlags
    var pendingUntil: Option<int>

    constructor (flags: ViewFlags)
      ensures this.flags == flags && pendingUntil == None
    {
      this.flags := flags;
      pendingUntil := None;
    }

    /** A scroll: the view is neither idle nor stopped, and the timeout starts again. */
    method OnScroll(now: int)
      modifies flags, this`pendingUntil
      ensures !flags.scrolledAndStopped && !flags.idle
      ensures pendingUntil == Some(now + ScrollQuietMs)
    {
      flags.SetScrolledAndStopped(false);
      flags.SetIdle(false);
      pendingUntil := None;
      pendingUntil := Some(now + ScrollQuietMs);
    }

    /** The clock reaches `now`: a pending timeout that is due fires and marks the view stopped. */
    method OnClock(now: int)
      modifies flags`scrolledAndStopped, this`pendingUntil
      ensures old(pendingUntil).Some? && old(pendingUntil).value <= now ==>
        flags.scrolledAndStopped && pendingUntil == None
      ensures !(old(pendingUntil).Some? && old(pendingUntil).value <= now) ==>
        flags.scrolledAndStopped == old(flags.scrolledAndStopped) && pendingUntil == old(pendingUntil)
    {
      if pendingUntil.Some? && pendingUntil.value <= now {
        flags.SetScrolledAndStopped(true);
        pendingUntil := None;
      }
    }
  }

  /** The index of the last scroll in `events`, or -1. */
  function LastScroll(events: seq<ScrollEvent>): (i: int)
    ensures -1 <= i < |events|
    ensures i >= 0 ==> events[i].Scroll?
    ensures forall k :: i < k < |events| ==> events[k].Clock?
  {
    if events == [] then -1
    else if events[|events| - 1].Scroll? then |events| - 1
    else LastScroll(events[..|events| - 1])
  }

  /** Since the last scroll the clock has reached that scroll's time plus the quiet time. */
  predicate QuietSinceLastScroll(events: seq<ScrollEvent>) {
    var i := LastScroll(events);
    i >= 0 && exists k :: i < k < |events| && events[k].at >= events[i].at + ScrollQuietMs
  }

  /**
   * The handler run over `events` from `stopped`, `idle` and no pending
   * timeout: returns the final flags.
   */
  method RunScrollEvents(watch: ScrollWatch, events: seq<ScrollEvent>)
    requires watch.pendingUntil == None
    modifies watch, watch.flags
    ensures LastScroll(events) < 0 ==>
      watch.flags.scrolledAndStopped == old(watch.flags.scrolledAndStopped) && watch.flags.idle == old(watch.flags.idle)
    ensures LastScroll(events) >= 0 ==>
      (watch.flags.scrolledAndStopped <==> QuietSinceLastScroll(events)) && !watch.flags.idle
  {
    for n := 0 to |events|
      invariant LastScroll(events[..n]) < 0 ==>
        && watch.pendingUntil == None
        && watch.flags.scrolledAndStopped == old(watch.flags.scrolledAndStopped)
        && watch.flags.idle == old(watch.flags.idle)
      invariant LastScroll(events[..n]) >= 0 ==>
        && !watch.flags.idle
        && (watch.flags.scrolledAndStopped <==> QuietSinceLastScroll(events[..n]))
        && (watch.pendingUntil.Some? <==> !QuietSinceLastScroll(events[..n]))
        && (watch.pendingUntil.Some? ==>
              watch.pendingUntil.value == events[LastScroll(events[..n])].at + ScrollQuietMs)
    {
      var prefix := events[..n];
      var next := events[..n + 1];
      assert next[..n] == prefix;
      match events[n]
      case Scroll(at) =>
        watch.OnScroll(at);
        assert LastScroll(next) == n;
        assert !QuietSinceLastScroll(next);
      case Clock(at) =>
        watch.OnClock(at);
        assert LastScroll(next) == LastScroll(prefix);
        var i := LastScroll(prefix);
        if i >= 0 {
          if QuietSinceLastScroll(prefix) {
            var k :| i < k < n && prefix[k].at >= prefix[i].at + ScrollQuietMs;
            assert next[k] == prefix[k];
          } else if at >= prefix[i].at + ScrollQuietMs {
            assert next[n].at >= next[i].at + ScrollQuietMs;
          } else {
            forall k | i < k < n + 1
              ensures next[k].at < next[i].at + ScrollQuietMs
            {
              if k < n {
                assert next[k] == prefix[k];
              }
            }
          }
        }
    }
    assert events[..|events|] == events;
  }

  // ---------------------------------------------------------------------
  // Copy button, settings menu
  // ---------------------------------------------------------------------

  /** The copy button of the page's handler set: nothing happens while plain text is shown. */
  function CopyButtonClick(isPlainText: bool, memorized: Option<string>, selection: Option<string>,
                           content: Option<string>, copySucceeds: bool): (r: Option<CopyResult>)
    ensures r.None? <==> isPlainText
    ensures r.Some? ==> r.value == CopyClick(memorized, selection, content, copySucceeds)
  {
    if isPlainText then None else Some(CopyClick(memorized, selection, content, copySucceeds))
  }

  /** The gear button: a hidden menu (`none`) is shown (`block`); any other menu is hidden. */
  method SettingsButtonClick(menu: Element)
    modifies menu`display
    ensures menu.display == if old(menu.display) == "none" then "block" else "none"
  {
    var isHidden := menu.display == "none";
    menu.display := if isHidden then "block" else "none";
  }

  /** Two clicks on the gear give back a shown or hidden menu. */
  method SettingsButtonTwice(menu: Element)
    requires menu.display == "none" || menu.display == "block"
    modifies menu`display
    ensures menu.display == old(menu.display)
  {
    SettingsButtonClick(menu);
    SettingsButtonClick(menu);
  }

  /** A click anywhere on the page: an open menu closes unless the click is on it or on the gear. */
  method PageClick(menu: Element, targetInMenu: bool, targetIsSettingsButton: bool)
    modifies menu`display
    ensures old(menu.display) == "block" && !targetInMenu && !targetIsSettingsButton ==> menu.display == "none"
    ensures !(old(menu.display) == "block" && !targetInMenu && !targetIsSettingsButton) ==> menu.display == old(menu.display)
  {
    if menu.display == "block" && !targetInMenu && !targetIsSettingsButton {
      menu.display := "none";
    }
  }

  // ---------------------------------------------------------------------
  // Stored preferences
  // ---------------------------------------------------------------------

  const LanguageKey := "lyrics-plus-language"
  const TranslationKey := "translation-enabled"
  const AnyLanguage := "any"

  /** The language to use on startup: the stored one, or `any` when none (or an empty one) is stored. */
  function SavedLanguage(stored: Option<string>): (language: string)
    ensures language != ""
    ensures NonEmpty(stored) ==> language == stored.value
    ensures !NonEmpty(stored) ==> language == AnyLanguage
  {
    if NonEmpty(stored) then stored.value else AnyLanguage
  }

  /** `b.toString()`. */
  function BoolString(b: bool): string {
    if b then "true" else "false"
  }

  /** The translation setting read back from its stored string. */
  function StoredTranslation(stored: Option<string>): bool {
    stored == Some("true")
  }

  /** A stored setting reads back as the value that was stored. */
  lemma TranslationSettingRoundTrip(b: bool)
    ensures StoredTranslation(Some(BoolString(b))) == b
  {
  }

  /**
   * The settings panel: the host's local storage, the language and
   * translation preferences, and the two controls' values.
   */
  class Settings {
    var storage: map<string, string>
    var preferredLanguage: string
    var translationEnabled: bool
    var languageSelectValue: string
    var translationChecked: bool

    constructor (storage: map<string, string>)
      ensures this.storage == storage
    {
      this.storage := storage;
      preferredLanguage := AnyLanguage;
      translationEnabled := false;
      languageSelectValue := AnyLanguage;
      translationChecked := false;
    }

    function Stored(key: string): Option<string>
      reads this
    {
      if key in storage then Some(storage[key]) else None
    }

    /** Startup: load the language (default `any`) and the translation switch (on only for `"true"`). */
    method Load()
      modifies this`preferredLanguage, this`languageSelectValue, this`translationEnabled, this`translationChecked
      ensures preferredLanguage == languageSelectValue == SavedLanguage(Stored(LanguageKey))
      ensures translationEnabled == translationChecked == StoredTranslation(Stored(TranslationKey))
    {
      var savedLanguage := SavedLanguage(Stored(LanguageKey));
      preferredLanguage := savedLanguage;
      languageSelectValue := savedLanguage;
      var savedPreference := Stored(TranslationKey) == Some("true");
      translationChecked := savedPreference;
      translationEnabled := savedPreference;
    }

    /** The language menu changed: use and store the new value. */
    method LanguageChanged(newLanguage: string)
      modifies this`preferredLanguage, this`languageSelectValue, this`storage
      ensures preferredLanguage == languageSelectValue == newLanguage
      ensures storage == old(storage)[LanguageKey := newLanguage]
    {
      languageSelectValue := newLanguage;
      preferredLanguage := newLanguage;
      storage := storage[LanguageKey := newLanguage];
    }

    /**
     * What `translate` does with the preference before each request: a
     * stored `zh` is replaced by `zh-Hans`, and the language requested is
     * the preference after that replacement.
     */
    method RequestLanguage() returns (lang: string)
      modifies this`preferredLanguage
      ensures lang == preferredLanguage == Translate.RequestLanguage(old(preferredLanguage))
    {
      if preferredLanguage == "zh" {
        preferredLanguage := "zh-Hans";
      }
      lang := preferredLanguage;
    }

    /**
     * The translation switch changed to `checked`. With no lyrics loaded
     * the switch flips back and nothing is stored; otherwise the
     * translations are (re)applied and the new value is stored. Returns
     * whether the translations are to be applied.
     */
    method TranslationToggled(checked: bool, lyricsCount: nat) returns (apply: bool)
      modifies this`translationChecked, this`storage
      ensures apply <==> lyricsCount > 0
      ensures lyricsCount == 0 ==> translationChecked == !checked && storage == old(storage)
      ensures lyricsCount > 0 ==> translationChecked == checked && storage == old(storage)[TranslationKey := BoolString(checked)]
    {
      translationChecked := checked;
      if lyricsCount == 0 {
        translationChecked := !translationChecked;
        return false;
      }
      storage := storage[TranslationKey := BoolString(translationChecked)];
      return true;
    }
  }

  /** A language chosen in the menu is the one loaded on the next start, unless it is empty. */
  method LanguageSurvivesRestart(settings: Settings, language: string)
    requires language != ""
    modifies settings
    ensures settings.preferredLanguage == language
  {
    settings.LanguageChanged(language);
    settings.Load();
  }

  /** A translation switch accepted with lyrics loaded is the one loaded on the next start. */
  method TranslationSurvivesRestart(settings: Settings, checked: bool, lyricsCount: nat)
    requires lyricsCount > 0
    modifies settings
    ensures settings.translationEnabled == checked
  {
    var _ := settings.TranslationToggled(checked, lyricsCount);
    settings.Load();
  }
}
