/** The LilyPond rendering of the sheet-music service: MIDI pitch to LilyPond
    pitch name, beat count to the nearest standard LilyPond duration, the token
    list (notes with rests for gaps) and its grouping into lines of eight, and
    the per-instrument clef and display name. Reading the MIDI file, estimating
    its tempo and running the LilyPond compiler are not part of this module: the
    notes of each track and the first tempo estimate arrive as parameters. */
module SheetMusic {
  import opened Util
  import opened Notes
  import Sorting

  // ---------------------------------------------------------------------------
  // Pitches

  /** `PITCH_TO_LILY`, indexed by pitch class. */
  const PitchNames: seq<string> := ["c", "cis", "d", "dis", "e", "f", "fis", "g", "gis", "a", "ais", "b"]

  predicate IsMark(c: char) { c == '\'' || c == ',' }

  /** `k` apostrophes above the middle octave, `-k` commas below it. */
  function OctaveMarks(k: int): string {
    if k > 0 then Repeat('\'', k) else if k < 0 then Repeat(',', -k) else ""
  }

  /** `midi_note_to_lily`. Python's `%` and `//` by 12 agree with Dafny's
      Euclidean operators because the divisor is positive. */
  function MidiNoteToLily(pitch: int): string {
    var name := PitchNames[pitch % 12];
    var octave := pitch / 12 - 1;
    var lilyOctave := octave - 3;
    name + OctaveMarks(lilyOctave)
  }

  /** The length of the leading pitch name of a LilyPond pitch. */
  function NameLength(s: string): (n: nat)
    ensures n <= |s|
  {
    if s == [] || IsMark(s[0]) then 0 else 1 + NameLength(s[1..])
  }

  function NameIndex(name: string, from: nat): Option<nat>
    decreases |PitchNames| - from
  {
    if from >= |PitchNames| then None
    else if PitchNames[from] == name then Some(from)
    else NameIndex(name, from + 1)
  }

  function MarksValue(m: string): Option<int> {
    if forall i | 0 <= i < |m| :: m[i] == '\'' then Some(|m|)
    else if forall i | 0 <= i < |m| :: m[i] == ',' then Some(-|m|)
    else None
  }

  /** Reads a MIDI pitch back from its LilyPond name: the inverse of
      `MidiNoteToLily`. */
  function LilyToMidi(s: string): Option<int> {
    var n := NameLength(s);
    var index := NameIndex(s[..n], 0);
    var marks := MarksValue(s[n..]);
    if index.Some? && marks.Some? then Some((marks.value + 4) * 12 + index.value) else None
  }

  lemma PitchNamesHaveNoMarks(j: nat)
    requires j < |PitchNames|
    ensures |PitchNames[j]| > 0
    ensures forall i | 0 <= i < |PitchNames[j]| :: !IsMark(PitchNames[j][i])
    ensures PitchNames[j][0] in "abcdefg"
  {
  }

  lemma {:induction false} NameLengthOfSplit(name: string, marks: string)
    requires forall i | 0 <= i < |name| :: !IsMark(name[i])
    requires marks == [] || IsMark(marks[0])
    ensures NameLength(name + marks) == |name|
  {
    if name == [] {
      assert name + marks == marks;
    } else {
      assert (name + marks)[1..] == name[1..] + marks;
      NameLengthOfSplit(name[1..], marks);
    }
  }

  lemma NameIndexOfPitchName(j: nat)
    requires j < |PitchNames|
    ensures NameIndex(PitchNames[j], 0) == Some(j)
  {
    assert forall i, k | 0 <= i < k < |PitchNames| :: PitchNames[i] != PitchNames[k];
    NameIndexFrom(j, 0);
  }

  lemma {:induction false} NameIndexFrom(j: nat, from: nat)
    requires from <= j < |PitchNames|
    requires forall i, k | 0 <= i < k < |PitchNames| :: PitchNames[i] != PitchNames[k]
    ensures NameIndex(PitchNames[j], from) == Some(j)
    decreases j - from
  {
    if from < j {
      NameIndexFrom(j, from + 1);
    }
  }

  lemma MarksValueOfOctaveMarks(k: int)
    ensures MarksValue(OctaveMarks(k)) == Some(k)
    ensures OctaveMarks(k) == [] || IsMark(OctaveMarks(k)[0])
  {
    var m := OctaveMarks(k);
    if k < 0 {
      assert m[0] == ',';
      assert !(forall i | 0 <= i < |m| :: m[i] == '\'');
    }
  }

  /** Decoding the rendered pitch gives the pitch back. */
  lemma MidiNoteToLilyRoundTrip(pitch: int)
    ensures LilyToMidi(MidiNoteToLily(pitch)) == Some(pitch)
  {
    var j := pitch % 12;
    var k := pitch / 12 - 1 - 3;
    var name := PitchNames[j];
    var marks := OctaveMarks(k);
    var s := name + marks;
    assert s == MidiNoteToLily(pitch);
    PitchNamesHaveNoMarks(j);
    MarksValueOfOctaveMarks(k);
    NameLengthOfSplit(name, marks);
    assert s[..|name|] == name;
    assert s[|name|..] == marks;
    NameIndexOfPitchName(j);
    assert (k + 4) * 12 + j == pitch;
  }

  /** Distinct pitches get distinct names. */
  lemma MidiNoteToLilyInjective(p: int, q: int)
    requires MidiNoteToLily(p) == MidiNoteToLily(q)
    ensures p == q
  {
    MidiNoteToLilyRoundTrip(p);
    MidiNoteToLilyRoundTrip(q);
  }

  /** A rendered pitch is a letter `a`..`g` first, and never carries both
      apostrophes and commas. */
  lemma MidiNoteToLilyShape(pitch: int)
    ensures MidiNoteToLily(pitch)[0] in "abcdefg"
    ensures !('\'' in MidiNoteToLily(pitch) && ',' in MidiNoteToLily(pitch))
  {
    var j := pitch % 12;
    var k := pitch / 12 - 4;
    PitchNamesHaveNoMarks(j);
    var name := PitchNames[j];
    var marks := OctaveMarks(k);
    var s := MidiNoteToLily(pitch);
    assert s == name + marks;
    assert s[0] == name[0];
    var c := if k > 0 then '\'' else ',';
    assert forall i | 0 <= i < |marks| :: marks[i] == c;
    assert forall i | 0 <= i < |s| :: s[i] == c || !IsMark(s[i]) by {
      forall i | 0 <= i < |s| ensures s[i] == c || !IsMark(s[i]) {
        if i < |name| {
          assert s[i] == name[i];
        } else {
          assert s[i] == marks[i - |name|];
        }
      }
    }
  }

  /** MIDI 60, middle C, is `c'`. */
  lemma MiddleC()
    ensures MidiNoteToLily(60) == "c'"
  {
    assert OctaveMarks(1) == Repeat('\'', 1);
  }

  // ---------------------------------------------------------------------------
  // Durations

  /** The quantisation table of `duration_to_lily`, longest first. */
  const StandardDurations: seq<(real, string)> := [
    (4.0, "1"), (3.0, "2."), (2.0, "2"), (1.5, "4."), (1.0, "4"),
    (0.75, "8."), (0.5, "8"), (0.375, "16."), (0.25, "16"), (0.125, "32")]

  function Abs(x: real): real { if x < 0.0 then -x else x }

  /** Distance from a beat count to the table entry `i`. */
  function Diff(beats: real, i: nat): real
    requires i < |StandardDurations|
  {
    Abs(beats - StandardDurations[i].0)
  }

  /** Among the first `n` entries, `j` is nearest to `beats`, and every entry
      before it is strictly farther: ties go to the earlier, longer value. */
  ghost predicate IsFirstNearest(beats: real, j: nat, n: nat)
    requires n <= |StandardDurations|
  {
    && j < n
    && (forall i | 0 <= i < j :: Diff(beats, i) > Diff(beats, j))
    && (forall i | j < i < n :: Diff(beats, i) >= Diff(beats, j))
  }

  /** The scan of the first `n` entries, keeping the first strictly nearer
      one. */
  function FirstNearest(beats: real, n: nat): (j: nat)
    requires 1 <= n <= |StandardDurations|
    ensures j < n
  {
    if n == 1 then 0
    else
      var j := FirstNearest(beats, n - 1);
      if Diff(beats, n - 1) < Diff(beats, j) then n - 1 else j
  }

  lemma {:induction false} FirstNearestIsNearest(beats: real, n: nat)
    requires 1 <= n <= |StandardDurations|
    ensures IsFirstNearest(beats, FirstNearest(beats, n), n)
  {
    if n > 1 {
      FirstNearestIsNearest(beats, n - 1);
    }
  }

  lemma FirstNearestUnique(beats: real, j: nat, j': nat, n: nat)
    requires n <= |StandardDurations|
    requires IsFirstNearest(beats, j, n) && IsFirstNearest(beats, j', n)
    ensures j == j'
  {
    var d, d' := Diff(beats, j), Diff(beats, j');
  }

  /** The LilyPond code `duration_to_lily` picks. */
  function Quantise(beats: real): string {
    StandardDurations[FirstNearest(beats, |StandardDurations|)].1
  }

  datatype Distance = Finite(d: real) | Infinite

  predicate Below(x: real, d: Distance) {
    d.Infinite? || x < d.d
  }

  /** `duration_to_lily`: a scan of the table keeping the first strictly
      nearer entry. The quarter-note default is replaced at the first entry,
      since every distance is below infinity. */
  method DurationToLily(beats: real) returns (code: string)
    ensures code == Quantise(beats)
  {
    var bestMatch := "4";
    var bestDiff := Infinite;
    for k := 0 to |StandardDurations|
      invariant k == 0 ==> bestDiff == Infinite
      invariant k > 0 ==> bestDiff == Finite(Diff(beats, FirstNearest(beats, k)))
      invariant k > 0 ==> bestMatch == StandardDurations[FirstNearest(beats, k)].1
    {
      var (value, lilyDur) := StandardDurations[k];
      var diff := Abs(beats - value);
      if Below(diff, bestDiff) {
        bestDiff := Finite(diff);
        bestMatch := lilyDur;
      }
    }
    code := bestMatch;
  }

  /** The code picked for `beats` is that of the first nearest entry of the
      whole table, and of no other entry. */
  lemma QuantiseIsFirstNearest(beats: real, j: nat)
    requires j < |StandardDurations|
    ensures IsFirstNearest(beats, j, |StandardDurations|) <==> FirstNearest(beats, |StandardDurations|) == j
    ensures IsFirstNearest(beats, j, |StandardDurations|) ==> Quantise(beats) == StandardDurations[j].1
  {
    FirstNearestIsNearest(beats, |StandardDurations|);
    if IsFirstNearest(beats, j, |StandardDurations|) {
      FirstNearestUnique(beats, j, FirstNearest(beats, |StandardDurations|), |StandardDurations|);
    }
  }

  /** An exact table value maps to its own code. */
  lemma QuantiseExact(j: nat)
    requires j < |StandardDurations|
    ensures Quantise(StandardDurations[j].0) == StandardDurations[j].1
  {
    var b := StandardDurations[j].0;
    assert Diff(b, j) == 0.0;
    assert forall i | 0 <= i < |StandardDurations| && i != j :: Diff(b, i) > 0.0;
    QuantiseIsFirstNearest(b, j);
  }

  /** Halfway between two table values the earlier, longer value wins:
      3.5 beats is a whole note, 0.1875 a sixteenth. */
  lemma QuantiseTiesGoToLonger()
    ensures Quantise(3.5) == "1"
    ensures Quantise(0.1875) == "16"
  {
    assert IsFirstNearest(3.5, 0, |StandardDurations|);
    QuantiseIsFirstNearest(3.5, 0);
    assert IsFirstNearest(0.1875, 8, |StandardDurations|);
    QuantiseIsFirstNearest(0.1875, 8);
  }

  /** Four beats or more is a whole note; an eighth of a beat or less is a
      thirty-second. */
  lemma QuantiseSaturates(beats: real)
    ensures beats >= 4.0 ==> Quantise(beats) == "1"
    ensures beats <= 0.125 ==> Quantise(beats) == "32"
  {
    if beats >= 4.0 {
      assert IsFirstNearest(beats, 0, |StandardDurations|);
      QuantiseIsFirstNearest(beats, 0);
    }
    if beats <= 0.125 {
      assert IsFirstNearest(beats, 9, |StandardDurations|);
      QuantiseIsFirstNearest(beats, 9);
    }
  }

  // ---------------------------------------------------------------------------
  // Tokens

  /** The shortest note and the smallest gap that gets a rest, in beats. */
  const MinBeats: real := 0.125

  function Beats(seconds: real, tempo: int): real {
    seconds * (tempo as real / 60.0)
  }

  function Clamped(beats: real): real {
    if beats < MinBeats then MinBeats else beats
  }

  /** The token of one note: its pitch and its clamped, quantised length. */
  function PitchToken(n: MidiNote, tempo: int): string {
    MidiNoteToLily(n.pitch) + Quantise(Clamped(Beats(n.end - n.start, tempo)))
  }

  function GapBeats(notes: seq<MidiNote>, i: nat, tempo: int): real
    requires 0 < i < |notes|
  {
    Beats(notes[i].start - notes[i - 1].end, tempo)
  }

  /** The rest placed before note `i`, if the silence since the previous note
      ends is at least `MinBeats`. */
  function RestBefore(notes: seq<MidiNote>, i: nat, tempo: int): seq<string>
    requires i < |notes|
  {
    if i > 0 && GapBeats(notes, i, tempo) >= MinBeats then ["r" + Quantise(GapBeats(notes, i, tempo))] else []
  }

  /** The tokens of the first `n` notes. */
  function Tokens(notes: seq<MidiNote>, tempo: int, n: nat): seq<string>
    requires n <= |notes|
  {
    if n == 0 then [] else Tokens(notes, tempo, n - 1) + NoteTokens(notes, n - 1, tempo)
  }

  /** The tokens note `i` contributes: its rest, if any, then its pitch. */
  function NoteTokens(notes: seq<MidiNote>, i: nat, tempo: int): seq<string>
    requires i < |notes|
  {
    RestBefore(notes, i, tempo) + [PitchToken(notes[i], tempo)]
  }

  predicate IsRest(token: string) {
    |token| > 0 && token[0] == 'r'
  }

  /** The token of one note in the loop of `generate_lilypond`: its length in
      beats at the given tempo, raised to `MinBeats`, then quantised. */
  method NoteToken(note: MidiNote, tempo: int) returns (token: string)
    ensures token == PitchToken(note, tempo)
  {
    var durationSeconds := note.end - note.start;
    var durationBeats := Beats(durationSeconds, tempo);
    if durationBeats < 0.125 {
      durationBeats := 0.125;
    }
    var lilyPitch := MidiNoteToLily(note.pitch);
    var lilyDur := DurationToLily(durationBeats);
    token := lilyPitch + lilyDur;
  }

  /** The rest the loop inserts before note `i`: none before the first note
      or after a gap shorter than `MinBeats`. */
  method GapToken(notes: seq<MidiNote>, i: nat, tempo: int) returns (rest: seq<string>)
    requires i < |notes|
    ensures rest == RestBefore(notes, i, tempo)
  {
    rest := [];
    if i > 0 {
      var gap := notes[i].start - notes[i - 1].end;
      var gapBeats := Beats(gap, tempo);
      if gapBeats >= 0.125 {
        var restDur := DurationToLily(gapBeats);
        rest := ["r" + restDur];
      }
    }
  }

  /** The token-building loop of `generate_lilypond`. */
  method BuildTokens(notes: seq<MidiNote>, tempo: int) returns (tokens: seq<string>)
    ensures tokens == Tokens(notes, tempo, |notes|)
  {
    tokens := [];
    for i := 0 to |notes|
      invariant tokens == Tokens(notes, tempo, i)
    {
      var token := NoteToken(notes[i], tempo);
      var rest := GapToken(notes, i, tempo);
      tokens := tokens + rest + [token];
    }
  }

  lemma PitchTokenIsNotRest(n: MidiNote, tempo: int)
    ensures !IsRest(PitchToken(n, tempo))
  {
    MidiNoteToLilyShape(n.pitch);
    assert PitchToken(n, tempo)[0] == MidiNoteToLily(n.pitch)[0];
  }

  /** The tokens that are not rests, in order. */
  function NonRests(tokens: seq<string>): seq<string> {
    if tokens == [] then []
    else NonRests(tokens[..|tokens| - 1]) + (if IsRest(tokens[|tokens| - 1]) then [] else [tokens[|tokens| - 1]])
  }

  lemma {:induction false} NonRestsAppend(s: seq<string>, t: seq<string>)
    ensures NonRests(s + t) == NonRests(s) + NonRests(t)
  {
    if t != [] {
      NonRestsAppend(s, t[..|t| - 1]);
      assert (s + t)[..|s + t| - 1] == s + t[..|t| - 1];
    } else {
      assert s + t == s;
    }
  }

  /** Of the tokens of one note only its pitch token is not a rest. */
  lemma NoteTokensNonRests(notes: seq<MidiNote>, i: nat, tempo: int)
    requires i < |notes|
    ensures NonRests(NoteTokens(notes, i, tempo)) == [PitchToken(notes[i], tempo)]
  {
    var rest := RestBefore(notes, i, tempo);
    var last := [PitchToken(notes[i], tempo)];
    assert NoteTokens(notes, i, tempo) == rest + last;
    NonRestsAppend(rest, last);
    if rest != [] {
      assert rest[..0] == [];
      assert IsRest(rest[0]);
    }
    assert NonRests(rest) == [];
    PitchTokenIsNotRest(notes[i], tempo);
    assert last[..0] == [];
  }

  /** One pitch token per note, without the rests: the reference the token
      list is compared with. */
  function PitchTokens(notes: seq<MidiNote>, tempo: int, n: nat): (r: seq<string>)
    requires n <= |notes|
    ensures |r| == n
  {
    if n == 0 then [] else PitchTokens(notes, tempo, n - 1) + [PitchToken(notes[n - 1], tempo)]
  }

  lemma {:induction false} PitchTokensAt(notes: seq<MidiNote>, tempo: int, n: nat, i: nat)
    requires i < n <= |notes|
    ensures PitchTokens(notes, tempo, n)[i] == PitchToken(notes[i], tempo)
  {
    if i < n - 1 {
      PitchTokensAt(notes, tempo, n - 1, i);
    }
  }

  /** Leaving out the rests, the tokens are one pitch token per note, in the
      order of the notes. */
  lemma {:induction false} OnePitchTokenPerNote(notes: seq<MidiNote>, tempo: int, n: nat)
    requires n <= |notes|
    ensures NonRests(Tokens(notes, tempo, n)) == PitchTokens(notes, tempo, n)
  {
    if n > 0 {
      OnePitchTokenPerNote(notes, tempo, n - 1);
      var prev := Tokens(notes, tempo, n - 1);
      var step := NoteTokens(notes, n - 1, tempo);
      assert Tokens(notes, tempo, n) == prev + step;
      NonRestsAppend(prev, step);
      NoteTokensNonRests(notes, n - 1, tempo);
    }
  }

  /** Every prefix of the notes renders to a prefix of the tokens. */
  lemma {:induction false} TokensPrefix(notes: seq<MidiNote>, tempo: int, m: nat, n: nat)
    requires m <= n <= |notes|
    ensures Tokens(notes, tempo, m) <= Tokens(notes, tempo, n)
    decreases n - m
  {
    if m < n {
      TokensPrefix(notes, tempo, m, n - 1);
      var a := Tokens(notes, tempo, m);
      var b := Tokens(notes, tempo, n - 1);
      var c := Tokens(notes, tempo, n);
      assert c == b + NoteTokens(notes, n - 1, tempo);
      assert c[..|b|] == b;
      assert c[..|a|] == b[..|a|];
    }
  }

  /** The token just before the pitch token of note `i > 0` is a rest exactly
      when the gap since the previous note ends is at least `MinBeats` beats;
      the first note is never preceded by a rest. */
  lemma RestExactlyAtGaps(notes: seq<MidiNote>, tempo: int, i: nat)
    requires i < |notes|
    ensures var t := Tokens(notes, tempo, i + 1);
            && t <= Tokens(notes, tempo, |notes|)
            && t[|t| - 1] == PitchToken(notes[i], tempo)
            && (i == 0 ==> t == [PitchToken(notes[0], tempo)])
            && (i > 0 ==> |t| >= 2 && (IsRest(t[|t| - 2]) <==> GapBeats(notes, i, tempo) >= MinBeats))
  {
    TokensPrefix(notes, tempo, i + 1, |notes|);
    var t := Tokens(notes, tempo, i + 1);
    if i > 0 {
      var prev := Tokens(notes, tempo, i);
      assert prev == Tokens(notes, tempo, i - 1) + RestBefore(notes, i - 1, tempo) + [PitchToken(notes[i - 1], tempo)];
      PitchTokenIsNotRest(notes[i - 1], tempo);
      if GapBeats(notes, i, tempo) >= MinBeats {
        assert t[|t| - 2] == "r" + Quantise(GapBeats(notes, i, tempo));
      } else {
        assert t[|t| - 2] == PitchToken(notes[i - 1], tempo);
      }
    }
  }

  /** A note shorter than `MinBeats` is written as a thirty-second note. */
  lemma ShortNotesClamped(n: MidiNote, tempo: int)
    requires Beats(n.end - n.start, tempo) < MinBeats
    ensures PitchToken(n, tempo) == MidiNoteToLily(n.pitch) + "32"
  {
    QuantiseSaturates(MinBeats);
  }

  // ---------------------------------------------------------------------------
  // Lines

  const NotesPerLine: nat := 8

  function Min(a: int, b: int): int { if a < b then a else b }

  /** The chunking loop: consecutive slices of eight tokens. */
  method ChunkTokens(tokens: seq<string>) returns (lines: seq<seq<string>>)
    ensures Flatten(lines) == tokens
    ensures |lines| == (|tokens| + NotesPerLine - 1) / NotesPerLine
    ensures forall k | 0 <= k < |lines| :: 0 < |lines[k]| <= NotesPerLine
    ensures forall k | 0 <= k < |lines| - 1 :: |lines[k]| == NotesPerLine
  {
    lines := [];
    var i := 0;
    while i < |tokens|
      invariant i == NotesPerLine * |lines|
      invariant |lines| > 0 ==> i - NotesPerLine < |tokens|
      invariant Flatten(lines) == tokens[..Min(i, |tokens|)]
      invariant forall k | 0 <= k < |lines| :: 0 < |lines[k]| <= NotesPerLine
      invariant forall k | 0 <= k < |lines| - 1 :: |lines[k]| == NotesPerLine
      invariant |lines| > 0 ==> |lines[|lines| - 1]| == Min(i, |tokens|) - (i - NotesPerLine)
    {
      var chunk := tokens[i..Min(i + NotesPerLine, |tokens|)];
      FlattenAppend(lines, chunk);
      assert tokens[..Min(i + NotesPerLine, |tokens|)] == tokens[..i] + chunk;
      lines := lines + [chunk];
      i := i + NotesPerLine;
    }
    assert tokens[..Min(i, |tokens|)] == tokens;
  }

  /** `"    " + " ".join(chunk)` for each line. */
  function RenderLines(lines: seq<seq<string>>): (r: seq<string>)
    ensures |r| == |lines|
    ensures forall k | 0 <= k < |lines| :: r[k] == "    " + Join(lines[k], " ")
  {
    if lines == [] then [] else RenderLines(lines[..|lines| - 1]) + ["    " + Join(lines[|lines| - 1], " ")]
  }

  // ---------------------------------------------------------------------------
  // Instruments

  /** `INSTRUMENT_CLEF`. */
  const InstrumentClef: map<string, string> := map[
    "piano" := "treble", "guitare" := "treble", "basse" := "bass", "violon" := "treble",
    "flute" := "treble", "voix" := "treble", "saxophone" := "treble", "trompette" := "treble"]

  /** `INSTRUMENT_DISPLAY`. */
  const InstrumentDisplay: map<string, string> := map[
    "piano" := "Piano", "guitare" := "Guitare", "basse" := "Basse", "violon" := "Violon",
    "flute" := "Fl\U{FB}te", "voix" := "Voix", "saxophone" := "Saxophone", "trompette" := "Trompette"]

  /** Only the bass guitar reads the bass clef; every other instrument, known
      or not, reads treble. */
  function ClefFor(instrument: string): (clef: string)
    ensures clef == "bass" <==> instrument == "basse"
    ensures clef != "bass" ==> clef == "treble"
  {
    if instrument in InstrumentClef then InstrumentClef[instrument] else "treble"
  }

  /** Known instruments get their table name, others their id capitalised. */
  function DisplayNameFor(instrument: string): (name: string)
    ensures instrument in InstrumentDisplay ==> name == InstrumentDisplay[instrument]
    ensures instrument !in InstrumentDisplay ==> name == Capitalize(instrument)
  {
    if instrument in InstrumentDisplay then InstrumentDisplay[instrument] else Capitalize(instrument)
  }

  // ---------------------------------------------------------------------------
  // The notes block of a score

  /** The parts of the generated `.ly` source that depend on the input. */
  datatype Score = Score(clef: string, displayName: string, tempo: int, lines: seq<seq<string>>, notesBlock: string)

  datatype Generated = Generated(score: Score) | ValueError(message: string)

  const DefaultTempo: int := 120

  /** `generate_lilypond` up to the written source: lower-case the instrument,
      refuse a file whose first track is missing or empty, sort that track by
      start, build the tokens and group them into lines. `firstTempo` is the
      first tempo estimate of the file, already rounded, if it has one. */
  method GenerateLilypond(tracks: seq<seq<MidiNote>>, instrument: string, firstTempo: Option<int>)
    returns (g: Generated)
    ensures g.ValueError? <==> |tracks| == 0 || |tracks[0]| == 0
    ensures g.ValueError? ==> g.message == "No notes found in MIDI file"
    ensures g.Generated? ==>
      var inst := Lower(instrument);
      var notes := Sorting.SortBy(tracks[0], NoteStart);
      var tempo := firstTempo.GetOr(DefaultTempo);
      && g.score.clef == ClefFor(inst)
      && g.score.displayName == DisplayNameFor(inst)
      && g.score.tempo == tempo
      && Flatten(g.score.lines) == Tokens(notes, tempo, |notes|)
      && |g.score.lines| == (|Tokens(notes, tempo, |notes|)| + NotesPerLine - 1) / NotesPerLine
      && (forall k | 0 <= k < |g.score.lines| :: 0 < |g.score.lines[k]| <= NotesPerLine)
      && (forall k | 0 <= k < |g.score.lines| - 1 :: |g.score.lines[k]| == NotesPerLine)
      && g.score.notesBlock == Join(RenderLines(g.score.lines), "\n")
  {
    var inst := Lower(instrument);
    var tempo := if firstTempo.Some? then firstTempo.value else DefaultTempo;
    if |tracks| == 0 || |tracks[0]| == 0 {
      return ValueError("No notes found in MIDI file");
    }
    var notes := Sorting.SortBy(tracks[0], NoteStart);
    var tokens := BuildTokens(notes, tempo);
    var clef := ClefFor(inst);
    var displayName := DisplayNameFor(inst);
    var lines := ChunkTokens(tokens);
    var rendered := RenderLines(lines);
    g := Generated(Score(clef, displayName, tempo, lines, Join(rendered, "\n")));
  }
}
