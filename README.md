# Lyrics page plugin — a Dafny model

This project models the core of a music-player plugin that shows
time-synced lyrics on a page of its own. The plugin looks up the playing
track in a lyrics service and parses the service's LRC text
(`[mm:ss.ff]line`) into timed lines. Songs marked instrumental get one
fixed line, and plain text is the fallback. A timer then highlights the
line being sung, and clicking a line seeks to it. The plugin can also
translate the lyrics in batches, with each line followed by an `@@` marker.
It opens and closes its page over the host's main view and remembers what
it hid. It also handles drags, copying, the settings menu and the stored
preferences.

The modules follow the source files:

- `LyricsState` holds the shared state variables and their setters as the class `State`. Its `Element` reduces a DOM element to its inline `display` and its children.
- `LyricsFetcher` holds the LRC parser, the displayed-lyrics rule, the highlight tick, click-to-seek, the search match, the duration rounding, the URL post-processing and the fetch itself.
- `Translate` holds batching, re-alignment, the stale-request guards and the language remap.
- `LyricsPage` covers opening and closing the page, and the copy actions.
- `PageEventHandlers` covers drags, the scroll-idle debounce, the copy button, the settings menu and the preferences.
- `GlobalEventHandlers` covers Ctrl+L, navigation, the startup wait and song changes.
- `Text` models the JavaScript string operations the code relies on: `split`, `trim`, `replace(/…/g, …)`, `\d` and `.`.

All effects on the outside world are parameters and results:

- playback progress, in milliseconds;
- the current selection;
- the records the lyrics service returns, with `None` for a failed request;
- the translation service, as a function that gives `None` for a failed request;
- the active lyrics request as read at each staleness check;
- the elements that DOM lookups find;
- timer ids, and the clock readings that make a timeout fire;
- the clipboard's answer.

Times of lines are exact `real` seconds.

## Model

| member | source | states |
|---|---|---|
| `LyricsState.State.constructor` | src/state/lyricsState.ts:9-17 | The state starts with no saved page, page inactive, no drag, no start point, no memorized text, no lyrics, no timer and no highlighted line. |
| `LyricsState.State.SetOriginalPageState` | src/state/lyricsState.ts:19-21 | Assigns the saved page state and changes no other variable. |
| `LyricsState.State.SetLyricsPageActive` | src/state/lyricsState.ts:23-25 | Assigns the active flag and changes no other variable. |
| `LyricsState.State.SetIsDragging` | src/state/lyricsState.ts:27-29 | Assigns the drag flag and changes no other variable. |
| `LyricsState.State.SetStartX` | src/state/lyricsState.ts:31-33 | Records the x coordinate of the press and changes no other variable. |
| `LyricsState.State.SetStartY` | src/state/lyricsState.ts:35-37 | Records the y coordinate of the press and changes no other variable. |
| `LyricsState.State.SetMemorizedSelectedText` | src/state/lyricsState.ts:39-41 | Assigns the memorized text and changes no other variable. |
| `LyricsState.State.SetCurrentLyrics` | src/state/lyricsState.ts:43-45 | Assigns the current lyrics and changes no other variable. |
| `LyricsState.State.SetHighlightInterval` | src/state/lyricsState.ts:47-49 | Assigns the timer id and changes no other variable. |
| `LyricsState.State.SetCurrentHighlightedLine` | src/state/lyricsState.ts:51-53 | Assigns the highlighted line id and changes no other variable. |
| `LyricsState.Element.constructor` | src/components/lyricsPage.tsx:53 | A created element has no inline display and no children. |
| `LyricsState.ViewFlags.SetScrolledAndStopped` | src/components/lyricsPage/eventHandlers.ts:66 | Assigns the stopped flag and leaves the idle flag alone. |
| `LyricsState.ViewFlags.SetIdle` | src/components/lyricsPage/eventHandlers.ts:67 | Assigns the idle flag and leaves the stopped flag alone. |
| `Text.JsLength` | src/utils/translate.ts:104 | `.length` counts UTF-16 code units: at least one and at most two per character. |
| `Text.JsLengthAppend` | src/utils/translate.ts:104-107 | The length of a concatenation is the sum of the lengths. |
| `Text.JsLengthBmp` | src/utils/translate.ts:104 | Text with no character above U+FFFF has one unit per character. |
| `Text.JsLengthAstral` | src/utils/translate.ts:104 | Text made only of characters above U+FFFF has two units per character. |
| `Text.Trim` | src/utils/lyricsFetcher.ts:182 | The result is empty exactly when the input is all JavaScript white space; otherwise it begins and ends with a non-space character. |
| `Text.TrimSlice` | src/utils/lyricsFetcher.ts:198 | The result is the slice of the input that has only white space before it and only white space after it: trimming removes the two white-space ends and nothing else. |
| `Text.IndexOfFromSpec` | src/utils/lyricsFetcher.ts:173 | The separator search finds the first occurrence at or after its start, and finds none only when there is none. |
| `Text.IndexOfFromFirst` | src/utils/lyricsFetcher.ts:173 | An occurrence with none before it, back to the start of the search, is the one found. |
| `Text.Split` | src/utils/lyricsFetcher.ts:173 | Splitting gives at least one piece. |
| `Text.SplitPiecesFree` | src/utils/lyricsFetcher.ts:173 | No piece of a split holds the separator. |
| `Text.JoinSplit` | src/utils/translate.ts:85 | Joining the pieces of a split with the separator gives the string back. |
| `Text.UntilLineTerminator` | src/utils/lyricsFetcher.ts:176 | `(.*)` captures the longest prefix with no line terminator. |
| `Text.ReplaceAllUnchanged` | src/utils/lyricsFetcher.ts:83 | A global replace of a pattern that does not occur returns the input unchanged. |
| `Text.ReplaceAllSplice` | src/utils/lyricsFetcher.ts:83 | The leftmost occurrence becomes the replacement character, what precedes it is copied, and the replace goes on after the occurrence. |
| `Text.ReplaceAllFree` | src/utils/lyricsFetcher.ts:83 | Replacing every occurrence of a pattern by a character not in it leaves no occurrence of the pattern, and no occurrence of any other such string that was absent before. |
| `Text.NatToStringInjective` | src/utils/lyricsFetcher.ts:205 | Different indices print as different decimal texts. |
| `LyricsFetcher.FilterMap` | src/utils/lyricsFetcher.ts:174-187 | The `map`/`filter(Boolean)` pipeline yields at most one entry per input line. |
| `LyricsFetcher.FilterMapAppend` | src/utils/lyricsFetcher.ts:174-187 | Surviving entries keep the order of their input lines. |
| `LyricsFetcher.FilterMapAll` | src/utils/lyricsFetcher.ts:174-187 | Every surviving entry has any property that all non-null results of the map have. |
| `LyricsFetcher.FilterMapEmpty` | src/utils/lyricsFetcher.ts:174-187 | Nothing survives exactly when every line maps to null. |
| `LyricsFetcher.FindTag` | src/utils/lyricsFetcher.ts:176 | A tag found is a well-formed `[dd:dd.dd]` or `[dd:dd.ddd]` tag at or after the start of the search. |
| `LyricsFetcher.FindTagLeftmost` | src/utils/lyricsFetcher.ts:176 | The tag found is the leftmost, with three fraction digits whenever they match there. No tag is found only when the line has none. |
| `LyricsFetcher.TagTime` | src/utils/lyricsFetcher.ts:177-180 | The time lies in [min*60+sec, min*60+sec+1): the fraction adds less than a second. |
| `LyricsFetcher.SecondsNotRangeChecked` | src/utils/lyricsFetcher.ts:176-183 | `[00:75.50]` followed by any visible character parses to 75.5 seconds with that character as text: seconds over 59 are accepted. |
| `LyricsFetcher.ParseSyncedLine` | src/utils/lyricsFetcher.ts:175-186 | An entry has a time of at least 0 and non-empty text. |
| `LyricsFetcher.ParseSyncedLineSpec` | src/utils/lyricsFetcher.ts:175-186 | For a line whose leftmost `[dd:dd.dd(d)]` tag is at p, the line gives no entry when the text after that tag is all white space. Otherwise it gives one entry: the time of that tag, read with three fraction digits when they match, and the text after the tag, trimmed. |
| `LyricsFetcher.ParseSyncedLineNoTag` | src/utils/lyricsFetcher.ts:175-186 | A line with no tag anywhere gives no entry. |
| `LyricsFetcher.FindTagAt` | src/utils/lyricsFetcher.ts:176 | When p is the first position at or after the start where a tag matches, the search finds the tag at p, with three fraction digits when they match. |
| `LyricsFetcher.FindTagNone` | src/utils/lyricsFetcher.ts:176 | With no tag at or after the start, the search finds nothing. |
| `LyricsFetcher.PlainLine` | src/utils/lyricsFetcher.ts:196-200 | An entry is at time -1 and has non-empty text. |
| `LyricsFetcher.PlainLineSpec` | src/utils/lyricsFetcher.ts:196-200 | A plain line gives an entry exactly when it is not blank, and the entry's text is the trimmed line. |
| `LyricsFetcher.DisplayedLyrics` | src/utils/lyricsFetcher.ts:166-171 | An instrumental song shows exactly the one line "Instrumental, Enjoy!" at 0. |
| `LyricsFetcher.DisplayedLyricsShape` | src/utils/lyricsFetcher.ts:166-201 | Shown lyrics are all timed (time ≥ 0) or all untimed (time -1), and no line is empty. |
| `LyricsFetcher.SyncedShape` | src/utils/lyricsFetcher.ts:172-192 | Every parsed synced line has a time of at least 0 and non-empty text. |
| `LyricsFetcher.PlainShape` | src/utils/lyricsFetcher.ts:195-200 | Every plain line shown has time -1 and non-empty text. |
| `LyricsFetcher.PlainFallback` | src/utils/lyricsFetcher.ts:195-200 | Untimed lines are shown only for a non-instrumental song with no surviving synced line, and they are then exactly the parsed plain text. |
| `LyricsFetcher.DisplaySyncedLyrics` | src/utils/lyricsFetcher.ts:152-264 | Afterwards the current lyrics are the displayed lyrics of the song, the highlight is cleared and the new timer is recorded. |
| `LyricsFetcher.ClearLyrics` | src/utils/lyricsFetcher.ts:159-164 | Afterwards there are no lyrics, no timer and no highlighted line. |
| `LyricsFetcher.FillLyrics` | src/utils/lyricsFetcher.ts:166-201 | Starting from no lyrics, the lyrics become the displayed lyrics of the song. |
| `LyricsFetcher.AppendPlainLines` | src/utils/lyricsFetcher.ts:196-200 | The push loop appends exactly the parsed plain lines, in order. |
| `LyricsFetcher.PlainLines` | src/utils/lyricsFetcher.ts:196-200 | The loop over the split lines pushes exactly the non-blank lines, trimmed, in order. |
| `LyricsFetcher.LastLineAtOrBefore` | src/utils/lyricsFetcher.ts:269-275 | The active index is the greatest index whose time is at or before the position, or -1. Every later line starts after it. |
| `LyricsFetcher.ActiveLineMonotone` | src/utils/lyricsFetcher.ts:269-275 | A later playback position never gives an earlier active line. |
| `LyricsFetcher.ActiveLineIndex` | src/utils/lyricsFetcher.ts:265-275 | The backward scan with `break` computes the active index at progress/1000 seconds. |
| `LyricsFetcher.LineIdInjective` | src/utils/lyricsFetcher.ts:277 | Different line indices give different `lyric-line-N` ids. |
| `LyricsFetcher.HighlightTick` | src/utils/lyricsFetcher.ts:264-301 | With an active line the highlight becomes its id. With none, a set highlight is cleared and an unset one is left alone. The view scrolls only for a newly active, rendered line while the view is idle or stopped. Scrolling after a stop clears the stopped flag and sets the idle flag. |
| `LyricsFetcher.SeekOnClick` | src/utils/lyricsFetcher.ts:212-217 | A click seeks exactly when there is no drag, nothing is selected, the target is a lyric line and its time is ≥ 0. The seek goes to time×1000 ms. |
| `LyricsFetcher.PlainLinesNotSeekable` | src/utils/lyricsFetcher.ts:196-217 | Clicking a line of the plain-text fallback never seeks. |
| `LyricsFetcher.OnLyricsClick` | src/utils/lyricsFetcher.ts:208-228 | A seeking click highlights the clicked line's id. Any other click leaves the highlight alone. |
| `LyricsFetcher.CeilSeconds` | src/utils/lyricsFetcher.ts:67-68 | The duration in whole seconds is the least s with ms ≤ s×1000. |
| `LyricsFetcher.FirstMatch` | src/utils/lyricsFetcher.ts:132-138 | Picks the first search result whose track name and duration equal the track's, or reports that none does. |
| `LyricsFetcher.FindMatchingSong` | src/utils/lyricsFetcher.ts:132-143 | The loop with early return finds exactly that first match. |
| `LyricsFetcher.PostProcessUrl` | src/utils/lyricsFetcher.ts:83 | After the three replacements, no `%20`, `%28` or `%29` remains in the URL. |
| `LyricsFetcher.PostProcessUrlPlain` | src/utils/lyricsFetcher.ts:83 | A URL with no `%` comes back unchanged. |
| `LyricsFetcher.PostProcessUrlOneEscape` | src/utils/lyricsFetcher.ts:83 | A URL with one escape `%20`, `%28` or `%29` and no other `%` comes back with that escape replaced by `+`, `(` or `)` and every other character kept in place. |
| `LyricsFetcher.Outcome` | src/utils/lyricsFetcher.ts:53-116 | A fetch ends in one of four ways: no track playing, track info missing (no artists), lyrics shown (a song was chosen), or "title by first artist" not found. |
| `LyricsFetcher.LyricsAfterFetch` | src/utils/lyricsFetcher.ts:99-116 | When no lyrics are shown, the lyrics are left empty. |
| `LyricsFetcher.DirectLookupFirst` | src/utils/lyricsFetcher.ts:89-116 | A direct result with synced text, even empty text, is used. Otherwise the first matching search result is used, and with no match nothing is shown. |
| `LyricsFetcher.FetchAndDisplayLyrics` | src/utils/lyricsFetcher.ts:34-118 | The outcome is as above, the lyrics are those of the chosen song (or none), a timer runs only when lyrics are shown, and the highlight is cleared. |
| `Translate.Pack` | src/utils/translate.ts:103-137 | Batching always sends at least one batch: the final batch is sent even when empty. |
| `Translate.PackFromSuffix` | src/utils/translate.ts:103-125 | Batching from line i on, with an open batch, is batching the remaining lines. |
| `Translate.PackLossless` | src/utils/translate.ts:103-125 | The batches, concatenated, are the open batch followed by every line plus `@@`, in order. |
| `Translate.BatchesLossless` | src/utils/translate.ts:100-137 | The concatenation of all sent batches equals the concatenation of `line + "@@"` over all lines. |
| `Translate.NoLinesOneEmptyBatch` | src/utils/translate.ts:126-127 | With no lyrics, one empty batch is still sent. |
| `Translate.PackCuts` | src/utils/translate.ts:103-125 | The cut points lie between the start line and the number of lines, and the last one is the number of lines. |
| `Translate.PackFromCuts` | src/utils/translate.ts:103-125 | From line i on, the batches are the open batch plus the lines before the first cut, then the `@@`-terminated runs of lines between consecutive cuts, which rise strictly. |
| `Translate.BatchesWholeLines` | src/utils/translate.ts:10-14 | Every line is sent whole, in exactly one batch, in order. There are cuts 0 = c[0] ≤ c[1] < … < c[m] = number of lines, one more than the batches, and batch k is lines c[k] to c[k+1]-1, each followed by `@@`. |
| `Translate.BatchCanExceedBudget` | src/utils/translate.ts:104-123 | The count is reset to 2, not to the new line's length plus 2. So three lines of 700 UTF-16 units give a second batch of 1404 units, over the 800 budget. |
| `Translate.WideLineSentAfterEmptyBatch` | src/utils/translate.ts:104-109 | A line of 400 characters above U+FFFF has a `.length` of 800, so it does not fit the empty first batch. An empty batch is sent first, then the line. |
| `Translate.Stitch` | src/utils/translate.ts:83-93 | The stitched lyrics are no longer than the lyrics, and no stitched line is empty. |
| `Translate.StitchComplete` | src/utils/translate.ts:86-91 | When every line has a non-empty piece, line i gets piece i and keeps its time. |
| `Translate.StitchPaired` | src/utils/translate.ts:83-93 | The stitched lyrics are exactly the lines whose piece exists and is not empty, in order. Each has its own time and the piece at its own position, whatever happened to earlier pieces. |
| `Translate.FailedBatchShifts` | src/utils/translate.ts:114-118 | When the batch of a middle line fails, the later translations move up. With three lines of 800 units, each sent alone, and the second line's batch failing, the second line shows the third line's translation and the third line shows none. |
| `Translate.StickTranslationLyrics` | src/utils/translate.ts:83-93 | The push loop over the `@@` pieces computes the stitched lyrics. |
| `Translate.SplitTerminated` | src/utils/translate.ts:85 | Splitting the `@@`-terminated text gives the lines back, plus a trailing empty piece, when no line holds `@@` or ends with `@`. |
| `Translate.EchoText` | src/utils/translate.ts:114-136 | With a service that echoes its input, the translated text is the batches concatenated. |
| `Translate.EchoRoundTrip` | src/utils/translate.ts:83-137 | With an echoing service, the translated lyrics equal the lyrics when no line is empty, holds `@@` or ends with `@`. |
| `Translate.TrailingAtShifts` | src/utils/translate.ts:85-91 | For any characters a and b other than `@`, the lines `a@` and `b` come back from the echo round trip as `a` and `@b`: the trailing `@` moves to the next line. |
| `Translate.TranslatedSnoc` | src/utils/translate.ts:114-118 | One more batch appends its translation to the output, or nothing when that translation fails. |
| `Translate.NoAnswerText` | src/utils/translate.ts:114-136 | When every request fails, the output text is empty, however many batches there are. |
| `Translate.NoPieces` | src/utils/translate.ts:88-90 | An output with no text pairs no line. |
| `Translate.NoAnswerNothing` | src/utils/translate.ts:114-136 | When every translation fails, no line is translated. |
| `Translate.FreshAll` | src/utils/translate.ts:96-130 | The request is fresh up to check m exactly when every check before m saw it as the active request. |
| `Translate.StaleReading` | src/utils/translate.ts:96-130 | One stale check before m means the request is not fresh up to m. |
| `Translate.SendBatch` | src/utils/translate.ts:109-118 | One batch is sent and the staleness check follows. When the request is still current, the batch's translation, or nothing on failure, is appended to the output; otherwise the output is unchanged. |
| `Translate.PackAndSend` | src/utils/translate.ts:103-125 | The loop sends a prefix of the batching while the request stays current. When it completes, the open batch is the last batch and the output is the translation of those sent. |
| `Translate.SendBatches` | src/utils/translate.ts:96-137 | The batches sent are a prefix of the batching, with the request current at every check before each one. It stops at the first stale check. When it completes, all batches were sent and the output is their translations in order. |
| `Translate.SendPacked` | src/utils/translate.ts:103-137 | After a passing first check, the batches sent are a prefix of the batching, fresh at every check before them. When the last check also passes, all were sent and the output is their translations. |
| `Translate.ProcessFullLyrics` | src/utils/translate.ts:95-149 | Translated lyrics are stored exactly when the request is current at all checks: on entry, after each batch and before the update. They are then the stitched translation, and they are inserted into the page exactly when translation is on. |
| `Translate.RequestLanguage` | src/utils/translate.ts:62-65 | `zh` is requested as `zh-Hans`, and the language requested is never `zh`. Every other preference is requested unchanged. |
| `LyricsPage.SetDisplayAll` | src/components/lyricsPage.tsx:48-50 | Every element of the list gets the given display. |
| `LyricsPage.Without` | src/components/lyricsPage.tsx:324 | Removing the container keeps every other child and drops the container. |
| `LyricsPage.WithoutConcat` | src/components/lyricsPage.tsx:324 | Removal keeps the order of the remaining children: removing from a concatenation removes from each part, in place. |
| `LyricsPage.ShowLyricsPage` | src/components/lyricsPage.tsx:23-304 | Nothing changes when the page is active or there is no main view. Otherwise the children are saved with their parent and hidden, and the container is appended after them. Then the page is active and the lyrics are fetched: a timer runs only when lyrics are shown, and no line is highlighted. |
| `LyricsPage.CloseLyricsPage` | src/components/lyricsPage.tsx:308-340 | Nothing changes unless the page is active with saved state. Otherwise the timer, highlight and memorized text are cleared, the container is removed, every saved child gets display `''`, and the page is inactive with no saved state. |
| `LyricsPage.ShowThenClose` | src/components/lyricsPage.tsx:41-340 | Opening then closing gives back the child list, inactive with nothing saved, and every child ends with display `''`. |
| `LyricsPage.CopySource` | src/components/lyricsPage.tsx:253-269 | The copy text is the memorized text, else a non-empty selection, else the lyrics text. |
| `LyricsPage.NothingToCopy` | src/components/lyricsPage.tsx:253-291 | There is nothing to copy exactly when all three sources are empty or missing. |
| `LyricsPage.CopyClick` | src/components/lyricsPage.tsx:271-291 | Non-empty text is copied, with a success or failure notice. Empty text gives "No lyrics to copy." as an error. |
| `LyricsPage.MemorizedWins` | src/components/lyricsPage.tsx:255-257 | A memorized selection is copied whatever else is selected or shown. |
| `LyricsPage.CtrlCNotice` | src/components/lyricsPage.tsx:208-230 | Only Ctrl+C acts. With a selection it reports the copy command's answer; without one it reports "No text selected to copy.". |
| `PageEventHandlers.MouseDown` | src/components/lyricsPage/eventHandlers.ts:32-36 | A press records its point and ends any drag. |
| `PageEventHandlers.MouseMove` | src/components/lyricsPage/eventHandlers.ts:38-48 | A drag starts only with the left button held and a move of more than 5 px on an axis from a recorded press. A drag, once started, stays on. |
| `PageEventHandlers.MouseUp` | src/components/lyricsPage/eventHandlers.ts:50-60 | At the end of a drag a non-empty selection is memorized, and otherwise the memory is cleared. Without a drag the memory is kept. Dragging is always off afterwards. |
| `PageEventHandlers.PressThenMove` | src/components/lyricsPage/eventHandlers.ts:32-48 | After a press and one move, a drag has started exactly when the left button is held and the move exceeds 5 px on an axis. |
| `PageEventHandlers.NoDragWithoutPress` | src/components/lyricsPage/eventHandlers.ts:38-48 | With no press recorded (undefined start point) and no drag, a move starts no drag, whatever the buttons and position. |
| `PageEventHandlers.ScrollWatch.constructor` | src/components/lyricsPage/eventHandlers.ts:63 | No timeout is pending at first. |
| `PageEventHandlers.ScrollWatch.OnScroll` | src/components/lyricsPage/eventHandlers.ts:65-75 | A scroll clears both flags and restarts the 2000 ms timeout. |
| `PageEventHandlers.ScrollWatch.OnClock` | src/components/lyricsPage/eventHandlers.ts:72-74 | A due timeout marks the view stopped and is gone. Otherwise nothing changes. |
| `PageEventHandlers.RunScrollEvents` | src/components/lyricsPage/eventHandlers.ts:63-75 | After any sequence of scrolls and clock readings, the view is stopped exactly when the clock has reached 2000 ms past the last scroll, and it is not idle. With no scroll both flags are unchanged. |
| `PageEventHandlers.CopyButtonClick` | src/components/lyricsPage/eventHandlers.ts:112-141 | The button does nothing while plain text is shown. Otherwise it acts like the page's copy click. |
| `PageEventHandlers.SettingsButtonClick` | src/components/lyricsPage/eventHandlers.ts:151-155 | A hidden menu is shown, and any other menu is hidden. |
| `PageEventHandlers.SettingsButtonTwice` | src/components/lyricsPage/eventHandlers.ts:151-155 | Two clicks give back a shown or hidden menu. |
| `PageEventHandlers.PageClick` | src/components/lyricsPage/eventHandlers.ts:161-166 | An open menu closes on a click outside it and off the gear. Otherwise it is unchanged. |
| `PageEventHandlers.SavedLanguage` | src/components/lyricsPage/eventHandlers.ts:171 | The startup language is the stored one, or `any` when none or an empty one is stored. |
| `PageEventHandlers.TranslationSettingRoundTrip` | src/components/lyricsPage/eventHandlers.ts:209-219 | A switch value stored with `toString` reads back as the same value. |
| `PageEventHandlers.Settings.constructor` | src/components/lyricsPage/eventHandlers.ts:168-171 | The panel starts over the given storage. |
| `PageEventHandlers.Settings.Load` | src/components/lyricsPage/eventHandlers.ts:171-211 | Startup sets the language and its menu from storage (default `any`). It sets the translation switch and its checkbox on only for a stored `"true"`. |
| `PageEventHandlers.Settings.LanguageChanged` | src/components/lyricsPage/eventHandlers.ts:176-182 | A new language is used and stored under its key. |
| `PageEventHandlers.Settings.RequestLanguage` | src/utils/translate.ts:62-65 | Before each request a stored `zh` preference is replaced by `zh-Hans`, and the language requested is the preference after that replacement. |
| `PageEventHandlers.Settings.TranslationToggled` | src/components/lyricsPage/eventHandlers.ts:212-221 | With no lyrics the checkbox flips back and nothing is stored. Otherwise translations are applied and the new value is stored as a string. |
| `PageEventHandlers.LanguageSurvivesRestart` | src/components/lyricsPage/eventHandlers.ts:171-180 | A non-empty language chosen in the menu is the one loaded at the next start. |
| `PageEventHandlers.TranslationSurvivesRestart` | src/components/lyricsPage/eventHandlers.ts:209-219 | An accepted switch change is the one loaded at the next start. |
| `GlobalEventHandlers.OnKeyDown` | src/event-handlers/globalEventHandlers.ts:16-25 | Any other key changes nothing: state, main view and saved elements. Ctrl+L closes an open page, with the results of `CloseLyricsPage`; the lyrics are kept, and a main view that is not the saved parent keeps its children. It opens a closed one when there is a main view, with the results of `ShowLyricsPage`; the remembered selection is kept. Otherwise it changes nothing. It keeps the page state consistent. |
| `GlobalEventHandlers.OnNavigate` | src/event-handlers/globalEventHandlers.ts:28-34 | Navigation closes an open page with a saved state: the timer, highlight and remembered selection are cleared, the saved children are shown again, the container is removed from the saved parent, and the lyrics are kept. A closed page, or one with nothing saved, is left untouched. It keeps the page state consistent and ends inactive. |
| `GlobalEventHandlers.WaitForPlayer` | src/event-handlers/globalEventHandlers.ts:39-43 | At most 100 polls are made, each one made while the data was missing. Fewer than 100 means the data arrived. |
| `GlobalEventHandlers.Initialise` | src/event-handlers/globalEventHandlers.ts:37-53 | After the wait, the button is scheduled exactly when there is a player. Song changes are listened to exactly when there is a player that offers `addEventListener`. |
| `GlobalEventHandlers.OnSongChange` | src/event-handlers/globalEventHandlers.ts:54-68 | The timer, highlight and memorized text are always cleared. The lyrics are fetched again only while the page is open, and are untouched otherwise. |

## Left out

- DOM construction and styling: HTML and CSS text, `innerHTML`, classes, focus and `scrollIntoView`. The `active` class is represented by `currentHighlightedLine` alone, and a scroll is a boolean result of the tick.
- The lyrics container is modelled as one element appended to the main view. Its contents, and the error, loading and header elements, are not modelled.
- Network calls, the clipboard, `execCommand`, notifications and local storage become inputs and results. Local storage is a `map` field of `Settings`.
- `URLSearchParams` encoding and the text of the search query (`q=` + title + artists) are not modelled. Only the `%20`/`%28`/`%29` post-processing is.
- Timers are not real time. The highlight timer's id is an input. The scroll timeout fires on a clock reading at or after its due time.
- JavaScript numbers are not floating point here. Line times are exact reals, and progress and coordinates are integers.
- `handleTranslations`, `insertTranslations`, `getActiveLyricRequestUri`, `setTranslatedLyrics`, `preferredLanguage`, `setPreferredLanguage`, `translationEnabled`, `isPlainText`, `scrolledAndStopped` and `isIdle` are not defined in the modelled files. They appear as inputs, results or the plain fields of `ViewFlags` and `Settings`. The preference `translate` reads and writes back is `Settings.preferredLanguage`, and `Settings.RequestLanguage` is that read and write-back. The translation service in `Translate` is a function of the batch alone, so the language is not part of a request there.
- The language menu's notification text and the album rotation toggle (rotation state and angle arithmetic) are not modelled.
- src/utils/colorExtractor.ts, src/components/lyricsPage/utils.ts, src/utils/albumImageFetcher.ts, src/app.tsx and the generated bundles are not part of this model.
- The drag handlers in src/components/lyricsPage.tsx:161-196 are the same as those in src/components/lyricsPage/eventHandlers.ts:32-60. `MouseDown`, `MouseMove` and `MouseUp` model both. The Ctrl+C handler of eventHandlers.ts:80-99 is the one in lyricsPage.tsx:208-230 and is modelled once by `CtrlCNotice`. The copy button of lyricsPage.tsx has no plain-text guard; that of eventHandlers.ts has one (`CopyButtonClick`).
- LyricsState.State.SetCurrentLyrics: stores the lyrics by value. The source stores the array by reference, and later `push`es are visible through the state. The model writes those pushes to `currentLyrics` directly, which has the same effect for the one array involved.
- LyricsState.PageSnapshot: the `topBar` and `originalTopBarDisplay` fields are declared by the state type but never set by the page code. The model stores `None` for both.
- LyricsFetcher.TagTime: the contract bounds the time by the tag's whole seconds. The exact fraction (÷100 for two digits, ÷1000 for three) is the function's definition. `SecondsNotRangeChecked` works it out for one line.
- LyricsPage.CloseLyricsPage: `remove()` takes the container out of whatever parent holds it. The model removes it from the saved parent, which is where `ShowLyricsPage` appends it. The style element's removal is not modelled.
- LyricsFetcher.FetchAndDisplayLyrics, LyricsPage.ShowLyricsPage, GlobalEventHandlers.OnSongChange and GlobalEventHandlers.OnKeyDown: `fetchAndDisplayLyrics` is `async`. It awaits the service at src/utils/lyricsFetcher.ts:84, 90 and 105, and its callers (src/components/lyricsPage.tsx:304, src/event-handlers/globalEventHandlers.ts:63) do not await it. In the model the fetch completes before the caller returns, so two interleavings are not captured. A page closed while its fetch is pending still gets lyrics and a running highlight timer when the fetch completes. Of two overlapping fetches (a song change during a fetch), the one that completes last sets the lyrics, with no staleness check.
- Translate.ProcessFullLyrics: the translation service is a function, so the same batch always gets the same answer. The ordering and concurrency of overlapping calls are not modelled; each staleness check reads the active request from an input sequence.
- Translate.EchoRoundTrip: the round trip also needs no line to end with `@`, because `"a@" + "@@"` splits at the first `@@`. `TrailingAtShifts` shows the failure.
