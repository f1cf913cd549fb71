/**
 * Translation of the displayed lyrics: the lines are sent to a
 * translation service in batches, each line followed by the `@@` marker,
 * the translated text is split at the markers again and the pieces are
 * paired with the original lines' times. A request that has become stale
 * (the active lyrics request changed meanwhile) is dropped.
 */
module Translate {
  import opened Wrappers
  import opened Text
  import opened LyricsState

  const Marker := "@@"
  /**
   * A line is added to the open batch only while its length plus the
   * batch's count stays below this. Lengths are JavaScript `.length`
   * values: UTF-16 code units (`JsLength`).
   */
  const BatchBudget := 800

  /** The text lines of the lyrics, in order. */
  function Lines(lyrics: seq<Lyric>): (lines: seq<string>)
    ensures |lines| == |lyrics| && forall i :: 0 <= i < |lyrics| ==> lines[i] == lyrics[i].line
  {
    seq(|lyrics|, i requires 0 <= i < |lyrics| => lyrics[i].line)
  }

  /** Every line followed by the marker, all concatenated. */
  function Terminated(lines: seq<string>): string {
    if lines == [] then "" else lines[0] + Marker + Terminated(lines[1..])
  }

  /**
   * The batches the loop sends, from the open `batch` whose counted
   * length is `count`. A line joins the open batch while its length plus
   * the count stays under the budget; otherwise the open batch is sent
   * and a new one starts with the line, its count set to 2 (the marker
   * only). The last open batch is always sent.
   */
  function Pack(lines: seq<string>, batch: string, count: nat): (batches: seq<string>)
    ensures |batches| >= 1
  {
    if lines == [] then [batch]
    else if JsLength(lines[0]) + count < BatchBudget then Pack(lines[1..], batch + lines[0] + Marker, count + JsLength(lines[0]) + 2)
    else [batch] + Pack(lines[1..], lines[0] + Marker, 2)
  }

  /** `Pack` of the lines from index `i` on, stated by index as the loop walks them. */
  function PackFrom(lines: seq<string>, i: nat, batch: string, count: nat): seq<string>
    requires i <= |lines|
    decreases |lines| - i
  {
    if i == |lines| then [batch]
    else if JsLength(lines[i]) + count < BatchBudget then PackFrom(lines, i + 1, batch + lines[i] + Marker, count + JsLength(lines[i]) + 2)
    else [batch] + PackFrom(lines, i + 1, lines[i] + Marker, 2)
  }

  /** Packing by index agrees with packing the suffix. */
  lemma {:induction false} PackFromSuffix(lines: seq<string>, i: nat, batch: string, count: nat)
    requires i <= |lines|
    ensures PackFrom(lines, i, batch, count) == Pack(lines[i..], batch, count)
    decreases |lines| - i
  {
    if i < |lines| {
      assert lines[i..][0] == lines[i] && lines[i..][1..] == lines[i + 1..];
      if JsLength(lines[i]) + count < BatchBudget {
        PackFromSuffix(lines, i + 1, batch + lines[i] + Marker, count + JsLength(lines[i]) + 2);
      } else {
        PackFromSuffix(lines, i + 1, lines[i] + Marker, 2);
      }
    }
  }

  /** One step of packing by index: the line joins the open batch, or closes it. */
  lemma PackFromStep(lines: seq<string>, i: nat, batch: string, count: nat)
    requires i < |lines|
    ensures JsLength(lines[i]) + count < BatchBudget ==>
      PackFrom(lines, i, batch, count) == PackFrom(lines, i + 1, batch + lines[i] + Marker, count + JsLength(lines[i]) + 2)
    ensures JsLength(lines[i]) + count >= BatchBudget ==>
      PackFrom(lines, i, batch, count) == [batch] + PackFrom(lines, i + 1, lines[i] + Marker, 2)
  {
  }

  /**
   * Where the batches of `PackFrom(lines, i, batch, count)` end: the open
   * batch takes the lines before the first cut, and each later batch the
   * lines from the previous cut up to its own. The last cut is `|lines|`.
   */
  function PackCuts(lines: seq<string>, i: nat, count: nat): (r: seq<nat>)
    requires i <= |lines|
    ensures |r| >= 1 && r[|r| - 1] == |lines|
    ensures forall k :: 0 <= k < |r| ==> i <= r[k] <= |lines|
    decreases |lines| - i
  {
    if i == |lines| then [|lines|]
    else if JsLength(lines[i]) + count < BatchBudget then PackCuts(lines, i + 1, count + JsLength(lines[i]) + 2)
    else [i] + PackCuts(lines, i + 1, 2)
  }

  /**
   * `b` is the open batch followed by the terminated runs of lines between
   * the rising cuts `c`, which start at or after line `i` and end at the
   * last line.
   */
  predicate RunsBetween(lines: seq<string>, i: nat, batch: string, b: seq<string>, c: seq<nat>) {
    && |c| == |b| >= 1 && i <= |lines| && c[|c| - 1] == |lines|
    && (forall k :: 0 <= k < |c| ==> i <= c[k] <= |lines|)
    && (forall k :: 0 < k < |c| ==> c[k - 1] < c[k])
    && b[0] == batch + Terminated(lines[i..c[0]])
    && (forall k :: 0 < k < |b| ==> b[k] == Terminated(lines[c[k - 1]..c[k]]))
  }

  /** The batches packed from line `i` are the runs between the cuts from line `i`. */
  lemma {:induction false} PackFromCuts(lines: seq<string>, i: nat, batch: string, count: nat)
    requires i <= |lines|
    ensures RunsBetween(lines, i, batch, PackFrom(lines, i, batch, count), PackCuts(lines, i, count))
    decreases |lines| - i
  {
    if i == |lines| {
      assert lines[i..i] == [];
    } else if JsLength(lines[i]) + count < BatchBudget {
      PackFromCuts(lines, i + 1, batch + lines[i] + Marker, count + JsLength(lines[i]) + 2);
      RunsExtendOpen(lines, i, batch, PackFrom(lines, i, batch, count), PackCuts(lines, i, count));
    } else {
      PackFromCuts(lines, i + 1, lines[i] + Marker, 2);
      RunsStartNew(lines, i, batch, PackFrom(lines, i + 1, lines[i] + Marker, 2), PackCuts(lines, i + 1, 2));
    }
  }

  /** Line `i` joins the open batch. */
  lemma RunsExtendOpen(lines: seq<string>, i: nat, batch: string, b: seq<string>, c: seq<nat>)
    requires i < |lines| && RunsBetween(lines, i + 1, batch + lines[i] + Marker, b, c)
    ensures RunsBetween(lines, i, batch, b, c)
  {
    TerminatedFront(lines, i, c[0]);
  }

  /** The open batch is closed and line `i` starts the next one. */
  lemma RunsStartNew(lines: seq<string>, i: nat, batch: string, b: seq<string>, c: seq<nat>)
    requires i < |lines| && RunsBetween(lines, i + 1, lines[i] + Marker, b, c)
    ensures RunsBetween(lines, i, batch, [batch] + b, [i] + c)
  {
    var b', c' := [batch] + b, [i] + c;
    assert lines[i..i] == [];
    TerminatedFront(lines, i, c[0]);
    forall k | 0 < k < |b'| ensures b'[k] == Terminated(lines[c'[k - 1]..c'[k]]) {
      assert b'[k] == b[k - 1] && c'[k] == c[k - 1];
    }
  }

  /** Terminating a run of lines that starts at line `i`: line `i`, the marker, then the rest of the run. */
  lemma TerminatedFront(lines: seq<string>, i: nat, j: nat)
    requires i < j <= |lines|
    ensures Terminated(lines[i..j]) == lines[i] + Marker + Terminated(lines[i + 1..j])
  {
    assert lines[i..j][0] == lines[i] && lines[i..j][1..] == lines[i + 1..j];
  }

  /** The cut points of the batches the loop sends, starting with 0. */
  function BatchCuts(lines: seq<string>): seq<nat> {
    [0] + PackCuts(lines, 0, 0)
  }

  /**
   * The cuts `c` rise from 0 to the number of lines, and batch k of `b` is
   * the lines from cut k up to cut k + 1, each followed by the marker.
   * Only the first run can be empty.
   */
  predicate CutInto(lines: seq<string>, b: seq<string>, c: seq<nat>) {
    && |c| == |b| + 1 && c[0] == 0 && c[|b|] == |lines|
    && (forall k :: 0 <= k < |c| ==> c[k] <= |lines|)
    && (forall k :: 0 < k < |b| ==> c[k] < c[k + 1])
    && (forall k :: 0 <= k < |b| ==> c[k] <= c[k + 1] && b[k] == Terminated(lines[c[k]..c[k + 1]]))
  }

  /** Every line is sent whole, in exactly one batch, and in order. */
  lemma BatchesWholeLines(lines: seq<string>)
    ensures CutInto(lines, Batches(lines), BatchCuts(lines))
  {
    PackFromSuffix(lines, 0, "", 0);
    assert lines[0..] == lines;
    PackFromCuts(lines, 0, "", 0);
    RunsFromStart(lines, Batches(lines), PackCuts(lines, 0, 0));
  }

  /** Runs packed from line 0 into an empty open batch, with the cut 0 put in front. */
  lemma RunsFromStart(lines: seq<string>, b: seq<string>, c': seq<nat>)
    requires RunsBetween(lines, 0, "", b, c')
    ensures CutInto(lines, b, [0] + c')
  {
    FrontCutInRange(lines, b, c', [0] + c');
    FrontCutRuns(lines, b, c', [0] + c');
  }

  lemma FrontCutInRange(lines: seq<string>, b: seq<string>, c': seq<nat>, c: seq<nat>)
    requires RunsBetween(lines, 0, "", b, c') && c == [0] + c'
    ensures forall k :: 0 <= k < |c| ==> c[k] <= |lines|
    ensures forall k :: 0 < k < |b| ==> c[k] < c[k + 1]
  {
    forall k | 0 <= k < |c| ensures c[k] <= |lines| {
      if k > 0 { assert c[k] == c'[k - 1]; }
    }
    forall k | 0 < k < |b| ensures c[k] < c[k + 1] {
      assert c[k] == c'[k - 1] && c[k + 1] == c'[k];
    }
  }

  lemma FrontCutRuns(lines: seq<string>, b: seq<string>, c': seq<nat>, c: seq<nat>)
    requires RunsBetween(lines, 0, "", b, c') && c == [0] + c'
    requires forall k :: 0 <= k < |c| ==> c[k] <= |lines|
    ensures forall k :: 0 <= k < |b| ==> c[k] <= c[k + 1] && b[k] == Terminated(lines[c[k]..c[k + 1]])
  {
    forall k | 0 <= k < |b| ensures c[k] <= c[k + 1] && b[k] == Terminated(lines[c[k]..c[k + 1]]) {
      if k == 0 {
        assert c[1] == c'[0] && b[0] == "" + Terminated(lines[0..c'[0]]);
      } else {
        assert c[k] == c'[k - 1] && c[k + 1] == c'[k];
      }
    }
  }

  function Batches(lines: seq<string>): seq<string> {
    Pack(lines, "", 0)
  }

  /** Batching loses and reorders nothing. */
  lemma {:induction false} PackLossless(lines: seq<string>, batch: string, count: nat)
    ensures Concat(Pack(lines, batch, count)) == batch + Terminated(lines)
  {
    if lines == [] {
      assert Concat([batch]) == batch + Concat([]);
    } else if JsLength(lines[0]) + count < BatchBudget {
      PackLossless(lines[1..], batch + lines[0] + Marker, count + JsLength(lines[0]) + 2);
    } else {
      var rest := Pack(lines[1..], lines[0] + Marker, 2);
      PackLossless(lines[1..], lines[0] + Marker, 2);
      assert ([batch] + rest)[0] == batch && ([batch] + rest)[1..] == rest;
    }
  }

  lemma BatchesLossless(lines: seq<string>)
    ensures Concat(Batches(lines)) == Terminated(lines)
  {
    PackLossless(lines, "", 0);
  }

  /** With no lyrics, one empty batch is still sent. */
  lemma NoLinesOneEmptyBatch()
    ensures Batches([]) == [""]
  {
  }

  /**
   * The count is reset to 2 when a batch is started, not to the length
   * of the line that starts it, so a batch can exceed the budget: three
   * lines of 700 code units give a second batch of 1404 code units.
   */
  lemma BatchCanExceedBudget(x: string)
    requires JsLength(x) == 700
    ensures Batches([x, x, x]) == [x + Marker, x + Marker + x + Marker]
    ensures JsLength(Batches([x, x, x])[1]) == 1404 > BatchBudget
  {
    var lines := [x, x, x];
    assert lines[1..] == [x, x] && lines[1..][1..] == [x] && lines[1..][1..][1..] == [];
    assert "" + x + Marker == x + Marker;
    calc {
      Batches(lines);
      Pack([x, x, x], "", 0);
      Pack([x, x], x + Marker, 702);
      [x + Marker] + Pack([x], x + Marker, 2);
      [x + Marker] + Pack([], x + Marker + x + Marker, 704);
    }
    MarkerLength();
    JsLengthAppend(x, Marker);
    JsLengthAppend(x + Marker, x);
    JsLengthAppend(x + Marker + x, Marker);
  }

  lemma MarkerLength()
    ensures JsLength(Marker) == 2
  {
    assert Marker[..1] == ['@'] && ['@'][..0] == [];
  }

  /**
   * `.length` counts UTF-16 code units, so a line of 400 characters
   * above U+FFFF counts 800: it misses the budget even in an empty batch,
   * and an empty batch is sent before it.
   */
  lemma WideLineSentAfterEmptyBatch(x: string)
    requires |x| == 400 && forall i :: 0 <= i < |x| ==> x[i] as int > 0xFFFF
    ensures Batches([x]) == ["", x + Marker]
  {
    JsLengthAstral(x);
    assert [x][0] == x && [x][1..] == [];
    calc {
      Batches([x]);
      Pack([x], "", 0);
      [""] + Pack([], x + Marker, 2);
    }
  }

  /** The translated text: the service's answers in batch order, a failed batch adding nothing. */
  function TranslatedText(batches: seq<string>, translator: string -> Option<string>): string {
    if batches == [] then ""
    else TranslatedText(batches[..|batches| - 1], translator) + translator(batches[|batches| - 1]).GetOr("")
  }

  /**
   * Pair the lyrics with the translated pieces by position: line `i`
   * gets piece `i` when that piece exists and is not empty, and is
   * skipped otherwise.
   */
  function Stitch(lyrics: seq<Lyric>, parts: seq<string>): (r: seq<Lyric>)
    ensures |r| <= |lyrics|
    ensures forall k :: 0 <= k < |r| ==> r[k].line != ""
  {
    if lyrics == [] then []
    else
      var i := |lyrics| - 1;
      Stitch(lyrics[..i], parts) + (if i < |parts| && parts[i] != "" then [Lyric(lyrics[i].time, parts[i])] else [])
  }

  /** The positions below `n` whose piece exists and is not empty, in increasing order. */
  function KeptIndices(parts: seq<string>, n: nat): seq<nat> {
    if n == 0 then []
    else KeptIndices(parts, n - 1) + (if n - 1 < |parts| && parts[n - 1] != "" then [n - 1] else [])
  }

  /**
   * `r` pairs the lyrics with the pieces at the rising positions `idx`:
   * entry k is line idx[k]'s time with piece idx[k], and `idx` holds
   * exactly the positions of lines whose piece exists and is not empty.
   */
  predicate PairedAt(lyrics: seq<Lyric>, parts: seq<string>, r: seq<Lyric>, idx: seq<nat>) {
    && |idx| == |r|
    && (forall k :: 0 <= k < |idx| ==> idx[k] < |lyrics| && idx[k] < |parts| && parts[idx[k]] != "")
    && (forall k :: 0 <= k < |idx| ==> r[k] == Lyric(lyrics[idx[k]].time, parts[idx[k]]))
    && (forall k, l :: 0 <= k < l < |idx| ==> idx[k] < idx[l])
    && (forall i :: 0 <= i < |lyrics| && i < |parts| && parts[i] != "" ==> i in idx)
  }

  /**
   * Line `i` is paired with piece `i`, whatever came before it: the
   * stitched lyrics are the lines whose piece is present and not empty,
   * in order, each with its own time and the piece at its own position.
   */
  lemma {:induction false} StitchPaired(lyrics: seq<Lyric>, parts: seq<string>)
    ensures PairedAt(lyrics, parts, Stitch(lyrics, parts), KeptIndices(parts, |lyrics|))
  {
    if lyrics != [] {
      var n := |lyrics| - 1;
      StitchPaired(lyrics[..n], parts);
      PairedSnoc(lyrics, parts, Stitch(lyrics[..n], parts), KeptIndices(parts, n));
    }
  }

  /** One more line: its piece, when present and not empty, is paired at the end. */
  lemma PairedSnoc(lyrics: seq<Lyric>, parts: seq<string>, r: seq<Lyric>, idx: seq<nat>)
    requires lyrics != [] && PairedAt(lyrics[..|lyrics| - 1], parts, r, idx)
    ensures var n := |lyrics| - 1;
            var keep := n < |parts| && parts[n] != "";
            PairedAt(lyrics, parts, r + (if keep then [Lyric(lyrics[n].time, parts[n])] else []),
                     idx + (if keep then [n] else []))
  {
    var n := |lyrics| - 1;
    var keep := n < |parts| && parts[n] != "";
    var r' := r + (if keep then [Lyric(lyrics[n].time, parts[n])] else []);
    var idx' := idx + (if keep then [n] else []);
    forall k | 0 <= k < |idx'| ensures r'[k] == Lyric(lyrics[idx'[k]].time, parts[idx'[k]]) {
      if k < |idx| {
        assert idx'[k] == idx[k] && r'[k] == r[k] && lyrics[..n][idx[k]] == lyrics[idx[k]];
      }
    }
    forall i | 0 <= i < |lyrics| && i < |parts| && parts[i] != "" ensures i in idx' {
      if i < n {
        assert i in idx;
      } else {
        assert idx'[|idx|] == n;
      }
    }
  }

  /** When every line has its piece, the result is the lyrics with their texts replaced, times kept. */
  lemma {:induction false} StitchComplete(lyrics: seq<Lyric>, parts: seq<string>)
    requires |lyrics| <= |parts|
    requires forall i :: 0 <= i < |lyrics| ==> parts[i] != ""
    ensures |Stitch(lyrics, parts)| == |lyrics|
    ensures forall i :: 0 <= i < |lyrics| ==> Stitch(lyrics, parts)[i] == Lyric(lyrics[i].time, parts[i])
  {
    if lyrics != [] {
      StitchComplete(lyrics[..|lyrics| - 1], parts);
    }
  }

  /** `stickTranslationLyrics`: split at the marker and pair by position. */
  method StickTranslationLyrics(lyrics: seq<Lyric>, outputQuery: string) returns (translated: seq<Lyric>)
    ensures translated == Stitch(lyrics, Split(outputQuery, Marker))
  {
    var parts := Split(outputQuery, Marker);
    translated := [];
    for i := 0 to |lyrics|
      invariant translated == Stitch(lyrics[..i], parts)
    {
      assert lyrics[..i + 1][..i] == lyrics[..i];
      if i < |parts| && parts[i] != "" {
        translated := translated + [Lyric(lyrics[i].time, parts[i])];
      }
    }
    assert lyrics[..|lyrics|] == lyrics;
  }

  /** What the translated lyrics are when every request stays current. */
  function TranslatedLyrics(lyrics: seq<Lyric>, translator: string -> Option<string>): seq<Lyric> {
    Stitch(lyrics, Split(TranslatedText(Batches(Lines(lyrics)), translator), Marker))
  }

  /** A line the marker splitting gives back unchanged: no marker inside, no trailing `@`. */
  predicate Splittable(line: string) {
    Free(line, Marker) && (line == [] || line[|line| - 1] != '@')
  }

  /** Splitting the terminated text gives back the lines, plus the empty piece after the last marker. */
  lemma {:induction false} SplitTerminated(lines: seq<string>)
    requires forall i :: 0 <= i < |lines| ==> Splittable(lines[i])
    ensures Split(Terminated(lines), Marker) == lines + [""]
  {
    if lines == [] {
      SplitEmpty();
    } else {
      var l := lines[0];
      var rest := Terminated(lines[1..]);
      var s := l + Marker + rest;
      assert Terminated(lines) == s;
      FirstMarker(l, rest);
      SplitAt(s, Marker, |l|);
      assert s[..|l|] == l && s[|l| + 2..] == rest;
      SplitTerminated(lines[1..]);
      assert lines == [l] + lines[1..];
    }
  }

  /** The empty text splits into one empty piece. */
  lemma SplitEmpty()
    ensures Split("", Marker) == [""]
  {
    assert IndexOfFrom("", Marker, 0).None?;
  }

  /** In a splittable line followed by the marker, the first marker is the one appended. */
  lemma FirstMarker(l: string, rest: string)
    requires Splittable(l)
    ensures IndexOfFrom(l + Marker + rest, Marker, 0) == Some(|l|)
  {
    var s := l + Marker + rest;
    assert OccursAt(s, Marker, |l|) by {
      assert s[|l|..|l| + 2] == Marker;
    }
    forall k | 0 <= k < |l| ensures !OccursAt(s, Marker, k) {
      if k + 2 <= |l| {
        assert s[k..k + 2] == l[k..k + 2];
        assert !OccursAt(l, Marker, k);
      } else {
        assert s[k] == l[|l| - 1];
      }
    }
    IndexOfFromFirst(s, Marker, 0, |l|);
  }

  /** The translated text with every answer present and equal to its request is the terminated text. */
  lemma {:induction false} EchoText(batches: seq<string>)
    ensures TranslatedText(batches, Echo) == Concat(batches)
  {
    if batches != [] {
      var front := batches[..|batches| - 1];
      var last := batches[|batches| - 1];
      EchoText(front);
      ConcatAppend(front, [last]);
      assert front + [last] == batches;
      assert Concat([last]) == last + Concat([]);
    }
  }

  /** A service that answers every request with the request itself. */
  function Echo(query: string): Option<string> {
    Some(query)
  }

  /**
   * Round trip: with a service that echoes its input, the translated
   * lyrics are the lyrics, provided no line is empty, holds the marker or
   * ends with `@`.
   */
  lemma EchoRoundTrip(lyrics: seq<Lyric>)
    requires forall i :: 0 <= i < |lyrics| ==> lyrics[i].line != "" && Splittable(lyrics[i].line)
    ensures TranslatedLyrics(lyrics, Echo) == lyrics
  {
    var lines := Lines(lyrics);
    EchoText(Batches(lines));
    BatchesLossless(lines);
    SplitTerminated(lines);
    StitchComplete(lyrics, lines + [""]);
  }

  /**
   * A line ending with `@` loses it to the next line in the round trip:
   * the lines `a@` and `b` come back as `a` and `@b`.
   */
  lemma TrailingAtShifts(a: char, b: char, t0: real, t1: real)
    requires a != '@' && b != '@'
    ensures TranslatedLyrics([Lyric(t0, [a, '@']), Lyric(t1, [b])], Echo) == [Lyric(t0, [a]), Lyric(t1, ['@', b])]
  {
    var lyrics := [Lyric(t0, [a, '@']), Lyric(t1, [b])];
    var parts := [[a], ['@', b], []];
    TrailingAtPieces(lyrics, a, b);
    StitchComplete(lyrics, parts);
    var r := Stitch(lyrics, parts);
    assert r[0] == Lyric(t0, [a]) && r[1] == Lyric(t1, ['@', b]);
  }

  lemma TrailingAtPieces(lyrics: seq<Lyric>, a: char, b: char)
    requires a != '@' && b != '@'
    requires |lyrics| == 2 && lyrics[0].line == [a, '@'] && lyrics[1].line == [b]
    ensures Split(TranslatedText(Batches(Lines(lyrics)), Echo), Marker) == [[a], ['@', b], []]
  {
    var lines := Lines(lyrics);
    assert lines == [[a, '@'], [b]];
    var batches := Batches(lines);
    EchoText(batches);
    BatchesLossless(lines);
    TrailingAtTerminated(a, b);
    TrailingAtSplit(a, b);
  }

  lemma TrailingAtTerminated(a: char, b: char)
    ensures Terminated([[a, '@'], [b]]) == [a, '@', '@', '@', b, '@', '@']
  {
    var lines := [[a, '@'], [b]];
    assert lines[1..] == [[b]] && lines[1..][1..] == [];
    assert Terminated([[b]]) == [b] + Marker + Terminated([]);
    assert Terminated(lines) == [a, '@'] + Marker + Terminated([[b]]);
  }

  lemma TrailingAtSplit(a: char, b: char)
    requires a != '@' && b != '@'
    ensures Split([a, '@', '@', '@', b, '@', '@'], Marker) == [[a], ['@', b], []]
  {
    var s := [a, '@', '@', '@', b, '@', '@'];
    assert s[0..2][0] == a && s[1..3] == Marker;
    assert !OccursAt(s, Marker, 0) && OccursAt(s, Marker, 1);
    IndexOfFromFirst(s, Marker, 0, 1);
    SplitAt(s, Marker, 1);
    assert s[..1] == [a] && s[3..] == ['@', b, '@', '@'];
    TrailingAtSplitRest(b);
  }

  lemma TrailingAtSplitRest(b: char)
    requires b != '@'
    ensures Split(['@', b, '@', '@'], Marker) == [['@', b], []]
  {
    var t := ['@', b, '@', '@'];
    assert t[0..2][1] == b && t[1..3][0] == b && t[2..4] == Marker;
    assert !OccursAt(t, Marker, 0) && !OccursAt(t, Marker, 1) && OccursAt(t, Marker, 2);
    IndexOfFromFirst(t, Marker, 0, 2);
    SplitAt(t, Marker, 2);
    assert t[..2] == ['@', b] && t[4..] == [];
    SplitEmpty();
  }

  /** A service that fails every request. */
  function NoAnswer(query: string): Option<string> {
    None
  }

  /** When every request fails, no line gets a translation. */
  lemma {:induction false} NoAnswerNothing(lyrics: seq<Lyric>)
    ensures TranslatedLyrics(lyrics, NoAnswer) == []
  {
    NoAnswerText(Batches(Lines(lyrics)));
    assert IndexOfFrom("", Marker, 0).None?;
    NoPieces(lyrics, [""]);
  }

  lemma {:induction false} NoAnswerText(batches: seq<string>)
    ensures TranslatedText(batches, NoAnswer) == ""
  {
    if batches != [] {
      NoAnswerText(batches[..|batches| - 1]);
    }
  }

  /** Lines beyond the first get nothing from a single piece, and the first gets nothing from an empty one. */
  lemma {:induction false} NoPieces(lyrics: seq<Lyric>, parts: seq<string>)
    requires parts == [""]
    ensures Stitch(lyrics, parts) == []
  {
    if lyrics != [] {
      NoPieces(lyrics[..|lyrics| - 1], parts);
    }
  }

  /** A service that answers every request with the request itself, except that it fails on `failed`. */
  function EchoExcept(failed: string): string -> Option<string> {
    q => if q == failed then None else Some(q)
  }

  /**
   * A failed batch shifts the later translations onto earlier lines: three
   * lines of 800 UTF-16 units are sent one per batch, and when the second
   * line's batch fails, the second line is shown the third line's
   * translation and the third line gets none.
   */
  lemma FailedBatchShifts(a: string, b: string, c: string, t0: real, t1: real, t2: real)
    requires JsLength(a) == 800 && JsLength(b) == 800 && JsLength(c) == 800
    requires Splittable(a) && Splittable(c) && b != a && b != c
    ensures TranslatedLyrics([Lyric(t0, a), Lyric(t1, b), Lyric(t2, c)], EchoExcept(b + Marker))
         == [Lyric(t0, a), Lyric(t1, c)]
  {
    var lyrics := [Lyric(t0, a), Lyric(t1, b), Lyric(t2, c)];
    var lines := Lines(lyrics);
    assert lines == [a, b, c];
    OneLinePerBatch(a, b, c);
    FailedBatchText(a, b, c);
    var text := TranslatedText(Batches(lines), EchoExcept(b + Marker));
    TerminatedPair(a, c);
    SplitTerminated([a, c]);
    var parts := Split(text, Marker);
    assert parts == [a, c, ""];
    StitchTwoOfThree(lyrics, parts);
  }

  /** With the second line's batch failing, the text holds the first and third lines. */
  lemma FailedBatchText(a: string, b: string, c: string)
    requires b != a && b != c
    ensures TranslatedText(["", a + Marker, b + Marker, c + Marker], EchoExcept(b + Marker)) == a + Marker + c + Marker
  {
    var f := EchoExcept(b + Marker);
    assert (a + Marker)[..|a|] == a && (c + Marker)[..|c|] == c;
    TextSkipsFailed(a + Marker, b + Marker, c + Marker, f);
  }

  /** The text of four batches of which only the third fails. */
  lemma TextSkipsFailed(x: string, y: string, z: string, f: string -> Option<string>)
    requires f("") == Some("") && f(x) == Some(x) && f(y) == None && f(z) == Some(z)
    ensures TranslatedText(["", x, y, z], f) == x + z
  {
    TranslatedSnoc([], "", f);
    TranslatedSnoc([""], x, f);
    TranslatedSnoc(["", x], y, f);
    TranslatedSnoc(["", x, y], z, f);
    assert [] + [""] == [""] && [""] + [x] == ["", x] && ["", x] + [y] == ["", x, y] && ["", x, y] + [z] == ["", x, y, z];
  }

  /** Three lines and the pieces `a`, `c` and an empty one: the first two lines are kept. */
  lemma StitchTwoOfThree(lyrics: seq<Lyric>, parts: seq<string>)
    requires |lyrics| == 3 && |parts| == 3 && parts[0] != "" && parts[1] != "" && parts[2] == ""
    ensures Stitch(lyrics, parts) == [Lyric(lyrics[0].time, parts[0]), Lyric(lyrics[1].time, parts[1])]
  {
    var l0, l1 := Lyric(lyrics[0].time, parts[0]), Lyric(lyrics[1].time, parts[1]);
    assert lyrics[..2][..1] == lyrics[..1] && lyrics[..1][..0] == [];
    calc {
      Stitch(lyrics, parts);
      Stitch(lyrics[..2], parts);
      Stitch(lyrics[..1], parts) + [l1];
      Stitch([], parts) + [l0] + [l1];
    }
  }

  /** Two lines, each followed by the marker. */
  lemma TerminatedPair(a: string, c: string)
    ensures Terminated([a, c]) == a + Marker + c + Marker
  {
    assert [a, c][1..] == [c] && [c][1..] == [];
    assert Terminated([c]) == c + Marker + "";
  }

  /** Lines of 800 units do not fit an open batch, so each is sent alone after an empty first batch. */
  lemma OneLinePerBatch(a: string, b: string, c: string)
    requires JsLength(a) == 800 && JsLength(b) == 800 && JsLength(c) == 800
    ensures Batches([a, b, c]) == ["", a + Marker, b + Marker, c + Marker]
  {
    var lines := [a, b, c];
    assert lines[1..] == [b, c] && lines[1..][1..] == [c] && lines[1..][1..][1..] == [];
    calc {
      Batches(lines);
      Pack([a, b, c], "", 0);
      [""] + Pack([b, c], a + Marker, 2);
      [""] + [a + Marker] + Pack([c], b + Marker, 2);
      [""] + [a + Marker] + [b + Marker] + Pack([], c + Marker, 2);
    }
  }

  /** The first `m` readings of the active request all equal `uri`. */
  predicate Fresh(activeUri: nat -> string, uri: string, m: nat) {
    m == 0 || (Fresh(activeUri, uri, m - 1) && activeUri(m - 1) == uri)
  }

  /** `Fresh` holds exactly when each of the first `m` readings is `uri`. */
  lemma {:induction false} FreshAll(activeUri: nat -> string, uri: string, m: nat)
    ensures Fresh(activeUri, uri, m) <==> forall k :: 0 <= k < m ==> activeUri(k) == uri
  {
    if m > 0 {
      FreshAll(activeUri, uri, m - 1);
    }
  }

  /** One stale reading among the first `m` makes them not fresh. */
  lemma {:induction false} StaleReading(activeUri: nat -> string, uri: string, j: nat, m: nat)
    requires j < m && activeUri(j) != uri
    ensures !Fresh(activeUri, uri, m)
  {
    if j < m - 1 {
      StaleReading(activeUri, uri, j, m - 1);
    }
  }

  /** Translating one more batch appends its answer, or nothing. */
  lemma TranslatedSnoc(sent: seq<string>, batch: string, translator: string -> Option<string>)
    ensures TranslatedText(sent + [batch], translator) == TranslatedText(sent, translator) + translator(batch).GetOr("")
  {
    assert (sent + [batch])[..|sent|] == sent;
  }

  /** Sending one batch moves it from the front of the rest to the end of the sent ones. */
  lemma AppendAssoc(sent: seq<string>, batch: string, rest: seq<string>)
    ensures sent + ([batch] + rest) == (sent + [batch]) + rest
  {
  }

  /** The batches sent so far lead the full list of batches. */
  lemma SentPrefix(sent: seq<string>, rest: seq<string>, all: seq<string>)
    requires all == sent + rest
    ensures |sent| <= |all| && all[..|sent|] == sent
  {
    assert all[..|sent|] == sent;
  }

  /**
   * One batch of `processFullLyrics`: translate it, then read the active
   * request; when it is still `requestUri`, append the answer (a failed
   * request adds nothing). `sent` counts the batches translated so far.
   */
  method SendBatch(sent: seq<string>, outputQuery: string, batch: string, requestUri: string,
                   activeUri: nat -> string, translator: string -> Option<string>)
    returns (current: bool, sent': seq<string>, outputQuery': string)
    ensures sent' == sent + [batch]
    ensures current <==> activeUri(|sent'|) == requestUri
    ensures outputQuery' == if current then outputQuery + translator(batch).GetOr("") else outputQuery
  {
    var data := translator(batch);
    sent' := sent + [batch];
    outputQuery' := outputQuery;
    if requestUri != activeUri(|sent'|) {
      return false, sent', outputQuery';
    }
    if data.Some? {
      outputQuery' := outputQuery + data.value;
    }
    current := true;
  }

  /**
   * The batching loop of `processFullLyrics` with its staleness checks:
   * `activeUri(k)` is the active request as read by the k-th check (one
   * at the start, one after each batch is translated). `completed` says
   * that every check found the request still current.
   */
  method SendBatches(lyrics: seq<Lyric>, requestUri: string, activeUri: nat -> string,
                     translator: string -> Option<string>)
    returns (completed: bool, sent: seq<string>, outputQuery: string)
    ensures |sent| <= |Batches(Lines(lyrics))| && sent == Batches(Lines(lyrics))[..|sent|]
    ensures Fresh(activeUri, requestUri, |sent|)
    ensures completed <==> Fresh(activeUri, requestUri, |Batches(Lines(lyrics))| + 1)
    ensures !completed ==> activeUri(|sent|) != requestUri
    ensures completed ==> sent == Batches(Lines(lyrics)) && outputQuery == TranslatedText(sent, translator)
  {
    var lines := Lines(lyrics);
    PackFromSuffix(lines, 0, "", 0);
    assert lines[0..] == lines;
    completed, sent, outputQuery := false, [], "";
    if requestUri == activeUri(0) {
      completed, sent, outputQuery := SendPacked(lines, requestUri, activeUri, translator);
    }
    if !completed {
      StaleReading(activeUri, requestUri, |sent|, |Batches(lines)| + 1);
    }
  }

  /** The loop and the final batch, after the first check has passed. */
  method SendPacked(lines: seq<string>, requestUri: string, activeUri: nat -> string,
                    translator: string -> Option<string>)
    returns (completed: bool, sent: seq<string>, outputQuery: string)
    requires activeUri(0) == requestUri
    ensures |sent| <= |PackFrom(lines, 0, "", 0)| && sent == PackFrom(lines, 0, "", 0)[..|sent|]
    ensures Fresh(activeUri, requestUri, |sent|) && (completed <==> activeUri(|sent|) == requestUri)
    ensures completed ==> sent == PackFrom(lines, 0, "", 0) && outputQuery == TranslatedText(sent, translator)
  {
    ghost var batches := PackFrom(lines, 0, "", 0);
    var batchQuery;
    completed, sent, outputQuery, batchQuery := PackAndSend(lines, requestUri, activeUri, translator);
    if completed {
      TranslatedSnoc(sent, batchQuery, translator);
      completed, sent, outputQuery := SendBatch(sent, outputQuery, batchQuery, requestUri, activeUri, translator);
      assert batches[..|sent|] == sent;
    }
  }

  /**
   * The loop of `SendBatches` over the lines, after the first check has
   * passed: it stops at the first stale check, and otherwise ends with
   * the open last batch not yet sent.
   */
  method PackAndSend(lines: seq<string>, requestUri: string, activeUri: nat -> string,
                     translator: string -> Option<string>)
    returns (current: bool, sent: seq<string>, outputQuery: string, batchQuery: string)
    requires activeUri(0) == requestUri
    ensures Fresh(activeUri, requestUri, |sent|) && (current <==> activeUri(|sent|) == requestUri)
    ensures current ==> sent + [batchQuery] == PackFrom(lines, 0, "", 0) && outputQuery == TranslatedText(sent, translator)
    ensures !current ==> |sent| <= |PackFrom(lines, 0, "", 0)| && PackFrom(lines, 0, "", 0)[..|sent|] == sent
  {
    ghost var batches := PackFrom(lines, 0, "", 0);
    sent := [];
    outputQuery := "";
    var lengthCount: nat := 0;
    batchQuery := "";
    for i := 0 to |lines|
      invariant sent + PackFrom(lines, i, batchQuery, lengthCount) == batches
      invariant outputQuery == TranslatedText(sent, translator)
      invariant Fresh(activeUri, requestUri, |sent| + 1)
    {
      var line := lines[i];
      PackFromStep(lines, i, batchQuery, lengthCount);
      if JsLength(line) + lengthCount < BatchBudget {
        batchQuery := batchQuery + line + Marker;
        lengthCount := lengthCount + JsLength(line) + 2;
      } else {
        ghost var rest := PackFrom(lines, i + 1, line + Marker, 2);
        AppendAssoc(sent, batchQuery, rest);
        TranslatedSnoc(sent, batchQuery, translator);
        current, sent, outputQuery := SendBatch(sent, outputQuery, batchQuery, requestUri, activeUri, translator);
        if !current {
          SentPrefix(sent, rest, batches);
          return;
        }
        batchQuery := "";
        lengthCount := 0;
        batchQuery := line + Marker;
        lengthCount := lengthCount + 2;
      }
    }
    assert PackFrom(lines, |lines|, batchQuery, lengthCount) == [batchQuery];
    current := true;
  }

  /**
   * `processFullLyrics`: translate in batches, pair the pieces with the
   * lines and, if the request is still current before the update (the
   * check after the last batch's), store the result and insert it into
   * the page when translation is switched on. Returns the stored
   * translation, if any, whether it was inserted, and the batches sent.
   */
  method ProcessFullLyrics(lyrics: seq<Lyric>, requestUri: string, activeUri: nat -> string,
                           translator: string -> Option<string>, translationEnabled: bool)
    returns (update: Option<seq<Lyric>>, inserted: bool, sent: seq<string>)
    ensures |sent| <= |Batches(Lines(lyrics))| && sent == Batches(Lines(lyrics))[..|sent|]
    ensures Fresh(activeUri, requestUri, |sent|)
    ensures |sent| < |Batches(Lines(lyrics))| ==> activeUri(|sent|) != requestUri
    ensures update.Some? <==> Fresh(activeUri, requestUri, |Batches(Lines(lyrics))| + 2)
    ensures update.Some? ==> update.value == TranslatedLyrics(lyrics, translator)
    ensures inserted <==> update.Some? && translationEnabled
  {
    var completed, outputQuery;
    completed, sent, outputQuery := SendBatches(lyrics, requestUri, activeUri, translator);
    if !completed {
      return None, false, sent;
    }
    var translated := StickTranslationLyrics(lyrics, outputQuery);
    if requestUri != activeUri(|sent| + 1) {
      return None, false, sent;
    }
    update := Some(translated);
    inserted := translationEnabled;
  }

  /** The language requested for a stored preference: `zh` is sent as `zh-Hans`, any other value as it is. */
  function RequestLanguage(preferred: string): (lang: string)
    ensures lang != "zh"
    ensures preferred != "zh" ==> lang == preferred
    ensures preferred == "zh" ==> lang == "zh-Hans"
  {
    if preferred == "zh" then "zh-Hans" else preferred
  }
}
