/**
 * Fetching and displaying lyrics: the LRC line parser with its
 * instrumental override and plain-text fallback, the highlight timer's
 * active-line step, click-to-seek, the search fallback's matching rule,
 * the duration in whole seconds and the URL post-processing.
 */
module LyricsFetcher {
  import opened Wrappers
  import opened Text
  import opened LyricsState

  /** A record returned by the lyrics service, reduced to the fields the plugin reads. */
  datatype Song = Song(
    trackName: string,
    duration: real,
    instrumental: bool,
    plainLyrics: Option<string>,
    syncedLyrics: Option<string>)

  // ---------------------------------------------------------------------
  // Generic map-and-filter
  // ---------------------------------------------------------------------

  /** The present results of `f` over `xs`, in order (`xs.map(f).filter(Boolean)`). */
  function FilterMap<A, B>(xs: seq<A>, f: A -> Option<B>): (ys: seq<B>)
    ensures |ys| <= |xs|
  {
    if xs == [] then []
    else FilterMap(xs[..|xs| - 1], f) + Kept(f(xs[|xs| - 1]))
  }

  function Kept<B>(o: Option<B>): seq<B> {
    if o.Some? then [o.value] else []
  }

  /** Filtering one more input appends its present result, if any. */
  lemma FilterMapSnoc<A, B>(xs: seq<A>, x: A, f: A -> Option<B>)
    ensures FilterMap(xs + [x], f) == FilterMap(xs, f) + Kept(f(x))
  {
    assert (xs + [x])[..|xs|] == xs;
  }

  /** Filtering a concatenation filters each part: survivors keep their input order. */
  lemma {:induction false} FilterMapAppend<A, B>(xs: seq<A>, zs: seq<A>, f: A -> Option<B>)
    ensures FilterMap(xs + zs, f) == FilterMap(xs, f) + FilterMap(zs, f)
    decreases |zs|
  {
    if zs == [] {
      assert xs + zs == xs;
    } else {
      var front := zs[..|zs| - 1];
      assert (xs + zs)[..|xs + zs| - 1] == xs + front;
      FilterMapAppend(xs, front, f);
    }
  }

  /** Every survivor is a present result of `f` on some input. */
  lemma {:induction false} FilterMapAll<A, B>(xs: seq<A>, f: A -> Option<B>, p: B -> bool)
    requires forall x :: f(x).Some? ==> p(f(x).value)
    ensures forall k :: 0 <= k < |FilterMap(xs, f)| ==> p(FilterMap(xs, f)[k])
  {
    if xs != [] {
      FilterMapAll(xs[..|xs| - 1], f, p);
    }
  }

  /** Nothing survives exactly when `f` gives nothing for every input. */
  lemma {:induction false} FilterMapEmpty<A, B>(xs: seq<A>, f: A -> Option<B>)
    ensures FilterMap(xs, f) == [] <==> forall i :: 0 <= i < |xs| ==> f(xs[i]).None?
  {
    if xs != [] {
      var front := xs[..|xs| - 1];
      var last := xs[|xs| - 1];
      FilterMapEmpty(front, f);
      assert FilterMap(xs, f) == FilterMap(front, f) + Kept(f(last));
      if forall i :: 0 <= i < |xs| ==> f(xs[i]).None? {
        assert forall i :: 0 <= i < |front| ==> f(front[i]).None? by {
          forall i | 0 <= i < |front| ensures f(front[i]).None? {
            assert front[i] == xs[i];
          }
        }
      } else {
        var j :| 0 <= j < |xs| && f(xs[j]).Some?;
        if j < |front| {
          assert front[j] == xs[j];
        }
      }
    }
  }

  // ---------------------------------------------------------------------
  // LRC time tags: /\[(\d{2}):(\d{2})\.(\d{2,3})\](.*)/
  // ---------------------------------------------------------------------

  /** At `p` stands `[dd:dd.` then `fracLen` digits and `]`. */
  predicate TagAt(line: string, p: nat, fracLen: nat) {
    && p + 8 + fracLen <= |line|
    && line[p] == '[' && IsDigit(line[p + 1]) && IsDigit(line[p + 2]) && line[p + 3] == ':'
    && IsDigit(line[p + 4]) && IsDigit(line[p + 5]) && line[p + 6] == '.'
    && AllDigits(line[p + 7..p + 7 + fracLen]) && line[p + 7 + fracLen] == ']'
  }

  /** The time-tag part of the pattern matches at `p`, with two or three fraction digits. */
  predicate TagMatchesAt(line: string, p: nat) {
    TagAt(line, p, 3) || TagAt(line, p, 2)
  }

  datatype TagMatch = TagMatch(pos: nat, fracLen: nat)

  /**
   * The leftmost position at or after `from` where the pattern matches.
   * The fraction takes three digits when it can (`\d{2,3}` is greedy).
   */
  function FindTag(line: string, from: nat): (m: Option<TagMatch>)
    decreases |line| - from
    ensures m.Some? ==> from <= m.value.pos && (m.value.fracLen == 2 || m.value.fracLen == 3)
    ensures m.Some? ==> TagAt(line, m.value.pos, m.value.fracLen)
  {
    if from >= |line| then None
    else if TagAt(line, from, 3) then Some(TagMatch(from, 3))
    else if TagAt(line, from, 2) then Some(TagMatch(from, 2))
    else FindTag(line, from + 1)
  }

  /**
   * The tag found is the leftmost one at or after `from`, with three
   * fraction digits whenever they match there; no tag is found only when
   * there is none.
   */
  lemma {:induction false} FindTagLeftmost(line: string, from: nat)
    ensures FindTag(line, from).Some? ==>
              (FindTag(line, from).value.fracLen == 2 ==> !TagAt(line, FindTag(line, from).value.pos, 3))
              && forall p :: from <= p < FindTag(line, from).value.pos ==> !TagMatchesAt(line, p)
    ensures FindTag(line, from).None? ==> forall p :: from <= p ==> !TagMatchesAt(line, p)
    decreases |line| - from
  {
    if from < |line| && !TagAt(line, from, 3) && !TagAt(line, from, 2) {
      FindTagLeftmost(line, from + 1);
    }
  }

  /**
   * minutes * 60 + seconds + fraction / 100 (two digits) or / 1000 (three
   * digits). The seconds field is not range-checked.
   */
  function TagTime(line: string, m: TagMatch): (t: real)
    requires m.fracLen == 2 || m.fracLen == 3
    requires TagAt(line, m.pos, m.fracLen)
    ensures var whole := DigitsValue(line[m.pos + 1..m.pos + 3]) * 60 + DigitsValue(line[m.pos + 4..m.pos + 6]);
      whole as real <= t < whole as real + 1.0
  {
    var p := m.pos;
    assert AllDigits(line[p + 1..p + 3]) && AllDigits(line[p + 4..p + 6]);
    var minutes := DigitsValue(line[p + 1..p + 3]);
    var seconds := DigitsValue(line[p + 4..p + 6]);
    var fraction := DigitsValue(line[p + 7..p + 7 + m.fracLen]);
    assert Pow10(2) == 100 && Pow10(3) == 1000;
    (minutes * 60 + seconds) as real + fraction as real / (if m.fracLen == 3 then 1000.0 else 100.0)
  }

  /** What `(.*)` captures after the tag: up to the first line terminator. */
  function TagText(line: string, m: TagMatch): string
    requires m.pos + 8 + m.fracLen <= |line|
  {
    UntilLineTerminator(line[m.pos + 8 + m.fracLen..])
  }

  /**
   * One line of synced lyrics: the first time tag anywhere in the line
   * gives the time, the trimmed rest of the line the text. Lines with no
   * tag or with nothing after it are dropped.
   */
  function ParseSyncedLine(line: string): (r: Option<Lyric>)
    ensures r.Some? ==> r.value.time >= 0.0 && r.value.line != []
  {
    match FindTag(line, 0)
    case None => None
    case Some(m) =>
      var text := Trim(TagText(line, m));
      if text != "" then Some(Lyric(TagTime(line, m), text)) else None
  }

  /**
   * A line whose leftmost tag is at `p` gives an entry exactly when the
   * text after that tag is not all white space; the entry's time is that
   * tag's, read with three fraction digits when they match, and its text
   * is the text after the tag, trimmed.
   */
  lemma ParseSyncedLineSpec(line: string, p: nat)
    requires TagMatchesAt(line, p)
    requires forall q :: 0 <= q < p ==> !TagMatchesAt(line, q)
    ensures var m := TagMatch(p, if TagAt(line, p, 3) then 3 else 2);
            ParseSyncedLine(line) == if AllSpace(TagText(line, m)) then None else Some(Lyric(TagTime(line, m), Trim(TagText(line, m))))
  {
    FindTagAt(line, 0, p);
  }

  /** A line with no tag anywhere gives no entry. */
  lemma ParseSyncedLineNoTag(line: string)
    requires forall q :: !TagMatchesAt(line, q)
    ensures ParseSyncedLine(line) == None
  {
    FindTagNone(line, 0);
  }

  /** With no match at or after `from`, the search finds nothing. */
  lemma {:induction false} FindTagNone(line: string, from: nat)
    requires forall q :: from <= q ==> !TagMatchesAt(line, q)
    ensures FindTag(line, from) == None
    decreases |line| - from
  {
    if from < |line| {
      assert !TagMatchesAt(line, from);
      FindTagNone(line, from + 1);
    }
  }

  /** The search from `from` stops at the first match `p`, taking three fraction digits when they match. */
  lemma {:induction false} FindTagAt(line: string, from: nat, p: nat)
    requires from <= p && TagMatchesAt(line, p)
    requires forall q :: from <= q < p ==> !TagMatchesAt(line, q)
    ensures FindTag(line, from) == Some(TagMatch(p, if TagAt(line, p, 3) then 3 else 2))
    decreases p - from
  {
    if from < p {
      assert !TagMatchesAt(line, from);
      FindTagAt(line, from + 1, p);
    }
  }

  /** `[00:75.50]` followed by the character `c`. */
  function ExampleLine(c: char): string {
    ['[', '0', '0', ':', '7', '5', '.', '5', '0', ']', c]
  }

  /** The seconds field is not range-checked: `[00:75.50]` is 75.5 seconds. */
  lemma SecondsNotRangeChecked(c: char)
    requires !IsJsSpace(c) && !IsLineTerminator(c)
    ensures ParseSyncedLine(ExampleLine(c)) == Some(Lyric(75.5, [c]))
  {
    ExampleTag(c);
    ExampleTime(c);
    ExampleText(c);
  }

  lemma ExampleTag(c: char)
    ensures FindTag(ExampleLine(c), 0) == Some(TagMatch(0, 2))
  {
    var line := ExampleLine(c);
    assert !TagAt(line, 0, 3) by {
      assert line[7..10][2] == ']';
    }
    assert AllDigits(line[7..9]);
  }

  lemma ExampleTime(c: char)
    ensures TagAt(ExampleLine(c), 0, 2) && TagTime(ExampleLine(c), TagMatch(0, 2)) == 75.5
  {
    var line := ExampleLine(c);
    assert AllDigits(line[7..9]);
    assert DigitsValue(line[1..3]) == 0 by { TwoDigits(line[1..3]); }
    assert DigitsValue(line[4..6]) == 75 by { TwoDigits(line[4..6]); }
    assert DigitsValue(line[7..9]) == 50 by { TwoDigits(line[7..9]); }
  }

  lemma ExampleText(c: char)
    requires !IsJsSpace(c) && !IsLineTerminator(c)
    ensures Trim(TagText(ExampleLine(c), TagMatch(0, 2))) == [c]
  {
    assert ExampleLine(c)[10..] == [c];
    OneCharText(c);
  }

  lemma OneCharText(c: char)
    requires !IsJsSpace(c) && !IsLineTerminator(c)
    ensures Trim(UntilLineTerminator([c])) == [c]
  {
    assert UntilLineTerminator([c]) == [c] + UntilLineTerminator([]);
    assert TrimStart([c]) == [c];
    assert TrimEnd([c]) == [c];
  }

  lemma TwoDigits(s: string)
    requires |s| == 2 && AllDigits(s)
    ensures DigitsValue(s) == DigitValue(s[0]) * 10 + DigitValue(s[1])
  {
    assert s[..1][..0] == [];
  }

  /** One line of plain lyrics: its trimmed text, unsynced (time -1), unless blank. */
  function PlainLine(line: string): (r: Option<Lyric>)
    ensures r.Some? ==> r.value.time == -1.0 && r.value.line != []
  {
    var text := Trim(line);
    if text != "" then Some(Lyric(-1.0, text)) else None
  }

  /** A plain line gives an entry exactly when it is not blank, and the entry is the trimmed line. */
  lemma PlainLineSpec(line: string)
    ensures PlainLine(line).Some? <==> !AllSpace(line)
    ensures PlainLine(line).Some? ==> PlainLine(line).value.line == Trim(line)
  {
  }

  function SyncedLyrics(text: string): seq<Lyric> {
    FilterMap(Split(text, "\n"), ParseSyncedLine)
  }

  function PlainLyrics(text: string): seq<Lyric> {
    FilterMap(Split(text, "\n"), PlainLine)
  }

  const InstrumentalLine := Lyric(0.0, "Instrumental, Enjoy!")

  /** A string field that JavaScript treats as true: present and non-empty. */
  predicate Given(s: Option<string>) {
    s.Some? && s.value != ""
  }

  /**
   * What `currentLyrics` holds after a song is displayed: the instrumental
   * line, else the parsed synced lines, and the plain lines only when
   * nothing else survived.
   */
  function DisplayedLyrics(song: Song): (lyrics: seq<Lyric>)
    ensures song.instrumental ==> lyrics == [InstrumentalLine]
  {
    var synced :=
      if song.instrumental then [InstrumentalLine]
      else if Given(song.syncedLyrics) then SyncedLyrics(song.syncedLyrics.value)
      else [];
    if synced == [] && Given(song.plainLyrics) then PlainLyrics(song.plainLyrics.value) else synced
  }

  predicate AllSynced(lyrics: seq<Lyric>) {
    forall k :: 0 <= k < |lyrics| ==> lyrics[k].time >= 0.0
  }

  predicate AllUnsynced(lyrics: seq<Lyric>) {
    forall k :: 0 <= k < |lyrics| ==> lyrics[k].time == -1.0
  }

  /** Displayed lyrics never mix timed and untimed lines, and no line is blank. */
  lemma DisplayedLyricsShape(song: Song)
    ensures AllSynced(DisplayedLyrics(song)) || AllUnsynced(DisplayedLyrics(song))
    ensures NoBlankLine(DisplayedLyrics(song))
  {
    if !song.instrumental && Given(song.syncedLyrics) {
      SyncedShape(song.syncedLyrics.value);
    }
    if Given(song.plainLyrics) {
      PlainShape(song.plainLyrics.value);
    }
  }

  predicate NoBlankLine(lyrics: seq<Lyric>) {
    forall k :: 0 <= k < |lyrics| ==> lyrics[k].line != ""
  }

  /** Parsed synced lines are all timed and none is blank. */
  lemma SyncedShape(text: string)
    ensures AllSynced(SyncedLyrics(text)) && NoBlankLine(SyncedLyrics(text))
  {
    FilterMapAll(Split(text, "\n"), ParseSyncedLine, (l: Lyric) => l.time >= 0.0 && l.line != "");
  }

  /** Plain lines are all untimed and none is blank. */
  lemma PlainShape(text: string)
    ensures AllUnsynced(PlainLyrics(text)) && NoBlankLine(PlainLyrics(text))
  {
    FilterMapAll(Split(text, "\n"), PlainLine, (l: Lyric) => l.time == -1.0 && l.line != "");
  }

  /**
   * Plain text is shown only when the song is not instrumental and no
   * synced line survived; it is then every non-blank line, trimmed, in
   * order, with time -1.
   */
  lemma PlainFallback(song: Song)
    ensures DisplayedLyrics(song) != [] && DisplayedLyrics(song)[0].time == -1.0
            ==> !song.instrumental
                && (Given(song.syncedLyrics) ==> SyncedLyrics(song.syncedLyrics.value) == [])
                && DisplayedLyrics(song) == PlainLyrics(song.plainLyrics.value)
  {
    var timed := (l: Lyric) => l.time >= 0.0;
    if !song.instrumental && Given(song.syncedLyrics) {
      FilterMapAll(Split(song.syncedLyrics.value, "\n"), ParseSyncedLine, timed);
    }
  }

  /**
   * `displaySyncedLyrics`, as it changes the state: clear the lyrics,
   * the timer and the highlight, fill the lyrics (pushing the plain lines
   * one by one into the current array), then start the highlight timer,
   * whose id the host supplies.
   */
  method DisplaySyncedLyrics(st: State, song: Song, timer: nat)
    modifies st`currentLyrics, st`highlightInterval, st`currentHighlightedLine
    ensures st.currentLyrics == DisplayedLyrics(song)
    ensures st.highlightInterval == Some(timer) && st.currentHighlightedLine == None
  {
    ClearLyrics(st);
    FillLyrics(st, song);
    st.SetHighlightInterval(Some(timer));
  }

  /** Empty the lyrics, stop the highlight timer if one runs and forget the highlighted line. */
  method ClearLyrics(st: State)
    modifies st`currentLyrics, st`highlightInterval, st`currentHighlightedLine
    ensures st.currentLyrics == [] && st.highlightInterval == None && st.currentHighlightedLine == None
  {
    st.SetCurrentLyrics([]);
    if st.highlightInterval.Some? {
      st.SetHighlightInterval(None);
    }
    st.SetCurrentHighlightedLine(None);
  }

  /**
   * Fill the emptied lyrics: the instrumental line, else the parsed
   * synced lines, then the plain lines when nothing is there yet.
   */
  method FillLyrics(st: State, song: Song)
    requires st.currentLyrics == []
    modifies st`currentLyrics
    ensures st.currentLyrics == DisplayedLyrics(song)
  {
    if song.instrumental {
      st.currentLyrics := st.currentLyrics + [InstrumentalLine];
    } else if Given(song.syncedLyrics) {
      st.SetCurrentLyrics(SyncedLyrics(song.syncedLyrics.value));
    }
    if |st.currentLyrics| == 0 && Given(song.plainLyrics) {
      AppendPlainLines(st, Split(song.plainLyrics.value, "\n"));
    }
  }

  /**
   * The plain-text fallback: push every non-blank line, trimmed, with
   * time -1. The pushes are gathered in a local list and stored once; no
   * other code runs between them, so the final state is the same.
   */
  method AppendPlainLines(st: State, lines: seq<string>)
    modifies st`currentLyrics
    ensures st.currentLyrics == old(st.currentLyrics) + FilterMap(lines, PlainLine)
  {
    var pushed := PlainLines(lines);
    st.currentLyrics := st.currentLyrics + pushed;
  }

  /** The lyrics the fallback pushes, one line at a time. */
  method PlainLines(lines: seq<string>) returns (pushed: seq<Lyric>)
    ensures pushed == FilterMap(lines, PlainLine)
  {
    pushed := [];
    for i := 0 to |lines|
      invariant pushed == FilterMap(lines[..i], PlainLine)
    {
      PlainStep(lines, i);
      pushed := pushed + Kept(PlainLine(lines[i]));
    }
    assert lines[..|lines|] == lines;
  }

  /** Filtering one more line of the fallback appends its plain lyric, if any. */
  lemma PlainStep(lines: seq<string>, i: nat)
    requires i < |lines|
    ensures FilterMap(lines[..i + 1], PlainLine) == FilterMap(lines[..i], PlainLine) + Kept(PlainLine(lines[i]))
  {
    assert lines[..i + 1] == lines[..i] + [lines[i]];
    FilterMapSnoc(lines[..i], lines[i], PlainLine);
  }

  // ---------------------------------------------------------------------
  // The highlight timer
  // ---------------------------------------------------------------------

  /** Playback progress, given in milliseconds, as seconds. */
  function Seconds(progressMs: int): real {
    progressMs as real / 1000.0
  }

  /** The greatest index whose time is at or before `t`, or -1. */
  function LastLineAtOrBefore(lyrics: seq<Lyric>, t: real): (i: int)
    ensures -1 <= i < |lyrics|
    ensures i >= 0 ==> lyrics[i].time <= t
    ensures forall j :: i < j < |lyrics| ==> lyrics[j].time > t
  {
    if lyrics == [] then -1
    else if lyrics[|lyrics| - 1].time <= t then |lyrics| - 1
    else LastLineAtOrBefore(lyrics[..|lyrics| - 1], t)
  }

  /** As playback moves forward, the active line never moves back. */
  lemma ActiveLineMonotone(lyrics: seq<Lyric>, t1: real, t2: real)
    requires t1 <= t2
    ensures LastLineAtOrBefore(lyrics, t1) <= LastLineAtOrBefore(lyrics, t2)
  {
  }

  /** The backward scan of the timer tick. */
  method ActiveLineIndex(lyrics: seq<Lyric>, progressMs: int) returns (index: int)
    ensures index == LastLineAtOrBefore(lyrics, Seconds(progressMs))
  {
    var seconds := Seconds(progressMs);
    index := -1;
    var i := |lyrics| - 1;
    while i >= 0
      invariant -1 <= i < |lyrics|
      invariant forall j :: i < j < |lyrics| ==> lyrics[j].time > seconds
    {
      if lyrics[i].time <= seconds {
        index := i;
        break;
      }
      i := i - 1;
    }
  }

  /** The element id of the line at `index`. */
  function LineId(index: nat): string {
    "lyric-line-" + NatToString(index)
  }

  /** Distinct lines have distinct ids. */
  lemma LineIdInjective(i: nat, j: nat)
    requires LineId(i) == LineId(j)
    ensures i == j
  {
    assert LineId(i)[11..] == NatToString(i);
    assert LineId(j)[11..] == NatToString(j);
    NatToStringInjective(i, j);
  }

  /**
   * One tick of the highlight timer. `lineRendered` says whether the
   * element of the new active line is in the document; the result says
   * whether the view scrolls to it.
   */
  method HighlightTick(st: State, flags: ViewFlags, progressMs: int, lineRendered: bool) returns (scrollToLine: bool)
    modifies st`currentHighlightedLine, flags
    ensures var i := LastLineAtOrBefore(st.currentLyrics, Seconds(progressMs));
      && (i >= 0 ==> st.currentHighlightedLine == Some(LineId(i)))
      && (i < 0 && Truthy(old(st.currentHighlightedLine)) ==> st.currentHighlightedLine == None)
      && (i < 0 && !Truthy(old(st.currentHighlightedLine)) ==> st.currentHighlightedLine == old(st.currentHighlightedLine))
    ensures var i := LastLineAtOrBefore(st.currentLyrics, Seconds(progressMs));
      var moved := i >= 0 && Some(LineId(i)) != old(st.currentHighlightedLine);
      && scrollToLine == (moved && lineRendered && (old(flags.idle) || old(flags.scrolledAndStopped)))
      && (moved && lineRendered && old(flags.scrolledAndStopped) ==> !flags.scrolledAndStopped && flags.idle)
      && (!(moved && lineRendered && old(flags.scrolledAndStopped))
          ==> flags.scrolledAndStopped == old(flags.scrolledAndStopped) && flags.idle == old(flags.idle))
  {
    var index := ActiveLineIndex(st.currentLyrics, progressMs);
    var newId := if index != -1 then Some(LineId(index)) else None;
    scrollToLine := false;
    if newId.Some? && newId != st.currentHighlightedLine {
      if lineRendered && flags.idle {
        scrollToLine := true;
      }
      if lineRendered && flags.scrolledAndStopped {
        scrollToLine := true;
        flags.SetScrolledAndStopped(false);
        flags.SetIdle(true);
      }
      st.SetCurrentHighlightedLine(newId);
    } else if newId.None? && Truthy(st.currentHighlightedLine) {
      st.SetCurrentHighlightedLine(None);
    }
  }

  // ---------------------------------------------------------------------
  // Click to seek
  // ---------------------------------------------------------------------

  /** The target of a click in the lyrics: a line element (its id and `data-time`) or anything else. */
  datatype ClickTarget = OtherElement | LineElement(id: string, dataTime: real)

  /**
   * Where a click seeks, in milliseconds: only a click on a line, with no
   * drag and no selection, on a line whose time is not negative.
   */
  function SeekOnClick(isDragging: bool, selectedLength: nat, target: ClickTarget): (seekMs: Option<real>)
    ensures seekMs.Some? <==> !isDragging && selectedLength == 0 && target.LineElement? && target.dataTime >= 0.0
    ensures seekMs.Some? ==> seekMs.value == target.dataTime * 1000.0
  {
    if !isDragging && selectedLength == 0 && target.LineElement? && target.dataTime >= 0.0
    then Some(target.dataTime * 1000.0)
    else None
  }

  /** Clicking an unsynced line never seeks. */
  lemma PlainLinesNotSeekable(text: string, k: nat, id: string, isDragging: bool, selectedLength: nat)
    requires k < |PlainLyrics(text)|
    ensures SeekOnClick(isDragging, selectedLength, LineElement(id, PlainLyrics(text)[k].time)).None?
  {
    FilterMapAll(Split(text, "\n"), PlainLine, (l: Lyric) => l.time == -1.0);
  }

  /** The click listener on the lyrics: seek and highlight the clicked line. */
  method OnLyricsClick(st: State, selectedLength: nat, target: ClickTarget) returns (seekMs: Option<real>)
    modifies st`currentHighlightedLine
    ensures seekMs == SeekOnClick(st.isDragging, selectedLength, target)
    ensures seekMs.Some? ==> st.currentHighlightedLine == Some(target.id)
    ensures seekMs.None? ==> st.currentHighlightedLine == old(st.currentHighlightedLine)
  {
    seekMs := SeekOnClick(st.isDragging, selectedLength, target);
    if seekMs.Some? {
      st.SetCurrentHighlightedLine(Some(target.id));
    }
  }

  // ---------------------------------------------------------------------
  // Fetching
  // ---------------------------------------------------------------------

  /** `Math.ceil(ms / 1000)`. */
  function CeilSeconds(ms: int): (s: int)
    ensures (s - 1) * 1000 < ms <= s * 1000
  {
    (ms + 999) / 1000
  }

  /** The track as the player describes it. */
  datatype Track = Track(name: string, artists: seq<string>, albumName: Option<string>, durationMs: Option<int>)

  /** The duration sent to the service: whole seconds, rounded up, 0 when unknown. */
  function DurationSeconds(track: Track): int {
    CeilSeconds(track.durationMs.GetOr(0))
  }

  predicate MatchesTrack(song: Song, title: string, durationSeconds: int) {
    song.trackName == title && song.duration == durationSeconds as real
  }

  /** The first search result with the same title and the same duration. */
  function FirstMatch(songs: seq<Song>, title: string, durationSeconds: int): (r: Option<nat>)
    ensures r.Some? ==> r.value < |songs| && MatchesTrack(songs[r.value], title, durationSeconds)
    ensures r.Some? ==> forall j :: 0 <= j < r.value ==> !MatchesTrack(songs[j], title, durationSeconds)
    ensures r.None? ==> forall j :: 0 <= j < |songs| ==> !MatchesTrack(songs[j], title, durationSeconds)
  {
    if songs == [] then None
    else if MatchesTrack(songs[0], title, durationSeconds) then Some(0)
    else match FirstMatch(songs[1..], title, durationSeconds)
      case None => None
      case Some(i) => Some(i + 1)
  }

  /** The loop of the search fallback, which returns at the first match. */
  method FindMatchingSong(songs: seq<Song>, title: string, durationSeconds: int) returns (found: Option<nat>)
    ensures found == FirstMatch(songs, title, durationSeconds)
  {
    for i := 0 to |songs|
      invariant forall j :: 0 <= j < i ==> !MatchesTrack(songs[j], title, durationSeconds)
    {
      if MatchesTrack(songs[i], title, durationSeconds) {
        return Some(i);
      }
    }
    return None;
  }

  /**
   * The request URL after post-processing: `%20` becomes `+`, then `%28`
   * becomes `(`, then `%29` becomes `)`. None of the three escapes is
   * left afterwards.
   */
  function PostProcessUrl(url: string): (r: string)
    ensures Free(r, "%20") && Free(r, "%28") && Free(r, "%29")
  {
    var a := ReplaceAll(url, "%20", '+');
    var b := ReplaceAll(a, "%28", '(');
    var c := ReplaceAll(b, "%29", ')');
    ReplaceAllFree(url, "%20", '+', "%20");
    ReplaceAllFree(a, "%28", '(', "%20");
    ReplaceAllFree(a, "%28", '(', "%28");
    ReplaceAllFree(b, "%29", ')', "%20");
    ReplaceAllFree(b, "%29", ')', "%28");
    ReplaceAllFree(b, "%29", ')', "%29");
    c
  }

  /** A `%`-free string holds no escape that starts with `%`. */
  lemma NoPercentFree(s: string, pat: string)
    requires |pat| > 0 && pat[0] == '%' && '%' !in s
    ensures Free(s, pat)
  {
    forall k | 0 <= k <= |s| ensures !OccursAt(s, pat, k) {
      if k + |pat| <= |s| {
        assert s[k..k + |pat|][0] == s[k] && s[k] in s;
      }
    }
  }

  /**
   * In `x + e + y`, where the only `%` is the first character of `e`, a
   * different pattern of the same length that starts with `%` never occurs,
   * and no occurrence of any pattern starting with `%` begins inside `x`.
   */
  lemma OneEscapeOccurrences(x: string, e: string, y: string, pat: string)
    requires |e| == |pat| > 0 && e[0] == '%' && pat[0] == '%'
    requires '%' !in x && '%' !in e[1..] && '%' !in y
    ensures forall k :: 0 <= k < |x| ==> !OccursAt(x + e + y, pat, k)
    ensures e != pat ==> Free(x + e + y, pat)
  {
    var s := x + e + y;
    forall k | 0 <= k <= |s| - |pat| ensures s[k..k + |pat|][0] == s[k] && (k != |x| ==> s[k] != '%') {
      if k < |x| {
        assert s[k] == x[k];
      } else if k >= |x| + |e| {
        assert s[k] == y[k - |x| - |e|];
      } else if k > |x| {
        assert s[k] == e[1..][k - |x| - 1];
      }
    }
    assert s[|x|..|x| + |e|] == e;
  }

  /** A URL with no `%` comes back unchanged. */
  lemma PostProcessUrlPlain(url: string)
    requires '%' !in url
    ensures PostProcessUrl(url) == url
  {
    NoPercentFree(url, "%20");
    NoPercentFree(url, "%28");
    NoPercentFree(url, "%29");
    ReplaceAllUnchanged(url, "%20", '+');
    ReplaceAllUnchanged(url, "%28", '(');
    ReplaceAllUnchanged(url, "%29", ')');
  }

  /** The one escape between two `%`-free stretches becomes its character; the rest is kept. */
  lemma PostProcessUrlOneEscape(x: string, e: string, y: string, ch: char)
    requires (e == "%20" && ch == '+') || (e == "%28" && ch == '(') || (e == "%29" && ch == ')')
    requires '%' !in x && '%' !in y
    ensures PostProcessUrl(x + e + y) == x + [ch] + y
  {
    var s := x + e + y;
    var r := x + [ch] + y;
    assert '%' !in r;
    NoPercentFree(y, e);
    ReplaceAllUnchanged(y, e, ch);
    OneEscapeOccurrences(x, e, y, "%20");
    OneEscapeOccurrences(x, e, y, "%28");
    OneEscapeOccurrences(x, e, y, "%29");
    ReplaceAllSplice(x, e, y, ch);
    assert ReplaceAll(s, e, ch) == r;
    NoPercentFree(r, "%20");
    NoPercentFree(r, "%28");
    NoPercentFree(r, "%29");
    if e == "%20" {
      ReplaceAllUnchanged(r, "%28", '(');
      ReplaceAllUnchanged(r, "%29", ')');
    } else if e == "%28" {
      ReplaceAllUnchanged(s, "%20", '+');
      ReplaceAllUnchanged(r, "%29", ')');
    } else {
      ReplaceAllUnchanged(s, "%20", '+');
      ReplaceAllUnchanged(s, "%28", '(');
    }
  }

  /** The song whose lyrics end up displayed, if any. */
  function ChosenSong(track: Track, direct: Option<Song>, search: Option<seq<Song>>): Option<Song> {
    if direct.Some? && direct.value.syncedLyrics.Some? then direct
    else if search.Some? then
      match FirstMatch(search.value, track.name, DurationSeconds(track))
      case Some(i) => Some(search.value[i])
      case None => None
    else None
  }

  datatype FetchOutcome = NoTrackPlaying | TrackInfoMissing | LyricsShown | LyricsNotFound(details: string)

  /**
   * How a fetch ends: no track, a track without artists, lyrics shown,
   * or the "not found" message naming the title and the first artist.
   */
  function Outcome(track: Option<Track>, direct: Option<Song>, search: Option<seq<Song>>): (outcome: FetchOutcome)
    ensures track.None? <==> outcome == NoTrackPlaying
    ensures outcome == TrackInfoMissing <==> track.Some? && track.value.artists == []
    ensures outcome == LyricsShown <==> track.Some? && track.value.artists != [] && ChosenSong(track.value, direct, search).Some?
    ensures outcome.LyricsNotFound? ==> outcome.details == track.value.name + " by " + track.value.artists[0]
  {
    if track.None? then NoTrackPlaying
    else if track.value.artists == [] then TrackInfoMissing
    else if ChosenSong(track.value, direct, search).Some? then LyricsShown
    else LyricsNotFound(track.value.name + " by " + track.value.artists[0])
  }

  /** The lyrics held after a fetch: those of the chosen song, or none. */
  function LyricsAfterFetch(track: Option<Track>, direct: Option<Song>, search: Option<seq<Song>>): (lyrics: seq<Lyric>)
    ensures Outcome(track, direct, search) != LyricsShown ==> lyrics == []
  {
    if Outcome(track, direct, search) == LyricsShown
    then DisplayedLyrics(ChosenSong(track.value, direct, search).value)
    else []
  }

  /**
   * The direct lookup wins whenever it returns synced text, even an
   * empty one; the search results are consulted only otherwise.
   */
  lemma DirectLookupFirst(track: Track, direct: Option<Song>, search: Option<seq<Song>>)
    requires track.artists != []
    ensures direct.Some? && direct.value.syncedLyrics.Some? ==>
      LyricsAfterFetch(Some(track), direct, search) == DisplayedLyrics(direct.value)
    ensures (direct.None? || direct.value.syncedLyrics.None?) && search.Some? ==>
      match FirstMatch(search.value, track.name, DurationSeconds(track))
      case Some(i) => LyricsAfterFetch(Some(track), direct, search) == DisplayedLyrics(search.value[i])
      case None => LyricsAfterFetch(Some(track), direct, search) == []
  {
  }

  method FetchAndDisplayLyrics(st: State, track: Option<Track>, direct: Option<Song>, search: Option<seq<Song>>, timer: nat)
    returns (outcome: FetchOutcome)
    modifies st`currentLyrics, st`highlightInterval, st`currentHighlightedLine
    ensures outcome == Outcome(track, direct, search)
    ensures st.currentLyrics == LyricsAfterFetch(track, direct, search)
    ensures st.highlightInterval == (if outcome == LyricsShown then Some(timer) else None)
    ensures st.currentHighlightedLine == None
  {
    if st.highlightInterval.Some? {
      st.SetHighlightInterval(None);
    }
    st.SetCurrentHighlightedLine(None);
    st.SetCurrentLyrics([]);
    if track.None? {
      return NoTrackPlaying;
    }
    var t := track.value;
    if t.artists == [] {
      return TrackInfoMissing;
    }
    var durationSeconds := CeilSeconds(t.durationMs.GetOr(0));
    if direct.Some? && direct.value.syncedLyrics.Some? {
      DisplaySyncedLyrics(st, direct.value, timer);
      return LyricsShown;
    }
    var found: Option<nat> := None;
    if search.Some? {
      found := FindMatchingSong(search.value, t.name, durationSeconds);
    }
    if found.Some? {
      DisplaySyncedLyrics(st, search.value[found.value], timer);
      return LyricsShown;
    }
    // The failure branch resets the display again.
    st.SetHighlightInterval(None);
    st.SetCurrentHighlightedLine(None);
    st.SetCurrentLyrics([]);
    return LyricsNotFound(t.name + " by " + t.artists[0]);
  }
}
