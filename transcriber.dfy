/** The part of the transcription service around the pitch-detection model:
    per-instrument pitch-range filtering, the MIDI program lookup, and the
    start-sorted note-event list handed to clients. The model's inference and
    MIDI file writing are not part of this module; the detected notes arrive as
    a parameter, one list per detected instrument track. */
module Transcriber {
  import opened Util
  import opened Notes
  import Sorting

  datatype PitchRange = PitchRange(lo: int, hi: int)

  /** `INSTRUMENT_PROGRAMS`: General MIDI program per instrument id. */
  const InstrumentPrograms: map<string, int> := map[
    "piano" := 0, "guitare" := 25, "basse" := 33, "violon" := 40,
    "flute" := 73, "voix" := 52, "saxophone" := 65, "trompette" := 56]

  /** `INSTRUMENT_RANGES`: playable MIDI pitch range per instrument id. */
  const InstrumentRanges: map<string, PitchRange> := map[
    "piano" := PitchRange(21, 108), "guitare" := PitchRange(40, 88),
    "basse" := PitchRange(28, 60), "violon" := PitchRange(55, 103),
    "flute" := PitchRange(60, 96), "voix" := PitchRange(48, 84),
    "saxophone" := PitchRange(49, 80), "trompette" := PitchRange(55, 82)]

  /** The full MIDI range, used for instruments without an entry. */
  const FullRange: PitchRange := PitchRange(0, 127)

  function RangeFor(instrument: string): (r: PitchRange)
    ensures instrument in InstrumentRanges ==> r == InstrumentRanges[instrument]
    ensures instrument !in InstrumentRanges ==> r == FullRange
    ensures 0 <= r.lo <= r.hi <= 127
  {
    if instrument in InstrumentRanges then InstrumentRanges[instrument] else FullRange
  }

  function ProgramFor(instrument: string): (p: int)
    ensures instrument in InstrumentPrograms ==> p == InstrumentPrograms[instrument]
    ensures instrument !in InstrumentPrograms ==> p == 0
    ensures 0 <= p < 128
  {
    if instrument in InstrumentPrograms then InstrumentPrograms[instrument] else 0
  }

  /** Every range in the table is a non-empty interval of MIDI pitches, and both
      tables know the same instruments. */
  lemma TablesWellFormed()
    ensures forall k | k in InstrumentRanges ::
      0 <= InstrumentRanges[k].lo <= InstrumentRanges[k].hi <= 127
    ensures InstrumentRanges.Keys == InstrumentPrograms.Keys
  {
  }

  predicate InRange(n: MidiNote, r: PitchRange) {
    r.lo <= n.pitch <= r.hi
  }

  /** The notes of `s` whose pitch lies in `r` (bounds included), in order. */
  function KeptNotes(s: seq<MidiNote>, r: PitchRange): (kept: seq<MidiNote>)
    ensures |kept| <= |s|
  {
    if s == [] then []
    else KeptNotes(s[..|s| - 1], r) + (if InRange(s[|s| - 1], r) then [s[|s| - 1]] else [])
  }

  /** A note is kept exactly when it is among the input notes and in range. */
  lemma {:induction false} KeptNotesMembers(s: seq<MidiNote>, r: PitchRange, n: MidiNote)
    ensures n in KeptNotes(s, r) <==> n in s && InRange(n, r)
  {
    if s != [] {
      KeptNotesMembers(s[..|s| - 1], r, n);
      assert s == s[..|s| - 1] + [s[|s| - 1]];
    }
  }

  lemma {:induction false} KeptNotesAppend(s: seq<MidiNote>, t: seq<MidiNote>, r: PitchRange)
    ensures KeptNotes(s + t, r) == KeptNotes(s, r) + KeptNotes(t, r)
  {
    if t != [] {
      var u := t[..|t| - 1];
      KeptNotesAppend(s, u, r);
      assert (s + t)[..|s + t| - 1] == s + u;
      assert t[..|t| - 1] == u;
    } else {
      assert s + t == s;
    }
  }

  /** The nested loop over every detected track and note that copies the notes
      within the instrument's range into the output track. */
  method FilterByRange(tracks: seq<seq<MidiNote>>, r: PitchRange) returns (kept: seq<MidiNote>)
    ensures kept == KeptNotes(Flatten(tracks), r)
  {
    kept := [];
    var i := 0;
    while i < |tracks|
      invariant 0 <= i <= |tracks|
      invariant kept == KeptNotes(Flatten(tracks[..i]), r)
    {
      var track := tracks[i];
      var j := 0;
      assert track[..0] == [];
      while j < |track|
        invariant 0 <= j <= |track|
        invariant kept == KeptNotes(Flatten(tracks[..i]), r) + KeptNotes(track[..j], r)
      {
        var note := track[j];
        assert track[..j + 1][..j] == track[..j];
        if r.lo <= note.pitch <= r.hi {
          kept := kept + [MidiNote(note.velocity, note.pitch, note.start, note.end)];
        }
        j := j + 1;
      }
      assert track[..j] == track;
      assert tracks[..i + 1] == tracks[..i] + [track];
      FlattenAppend(tracks[..i], track);
      KeptNotesAppend(Flatten(tracks[..i]), track, r);
      i := i + 1;
    }
    assert tracks[..i] == tracks;
  }

  /** The client-facing record of one kept note; the display name comes from
      the MIDI library's pitch naming, given here as `nameOf`. */
  function ToEvent(n: MidiNote, nameOf: int -> string): NoteEvent {
    NoteEvent(n.start, n.end, n.pitch, n.velocity, nameOf(n.pitch))
  }

  /** The event records of `kept`, one per note, in the same order. */
  function ToEvents(kept: seq<MidiNote>, nameOf: int -> string): (events: seq<NoteEvent>)
    ensures |events| == |kept|
    ensures forall i | 0 <= i < |kept| :: events[i] == ToEvent(kept[i], nameOf)
  {
    seq(|kept|, i requires 0 <= i < |kept| => ToEvent(kept[i], nameOf))
  }

  method BuildNoteEvents(kept: seq<MidiNote>, nameOf: int -> string) returns (events: seq<NoteEvent>)
    ensures events == ToEvents(kept, nameOf)
  {
    events := [];
    var i := 0;
    while i < |kept|
      invariant 0 <= i <= |kept|
      invariant |events| == i
      invariant forall k | 0 <= k < i :: events[k] == ToEvent(kept[k], nameOf)
    {
      var note := kept[i];
      events := events + [NoteEvent(note.start, note.end, note.pitch, note.velocity, nameOf(note.pitch))];
      i := i + 1;
    }
    assert events == ToEvents(kept, nameOf);
  }

  datatype Transcription = Transcription(
    program: int,
    trackName: string,
    kept: seq<MidiNote>,
    noteEvents: seq<NoteEvent>,
    noteCount: int)

  /** `transcribe_audio` after inference: look the instrument up (lower-cased),
      keep the in-range notes, build the event list and sort it by start. */
  method Transcribe(instrument: string, detected: seq<seq<MidiNote>>, nameOf: int -> string)
    returns (t: Transcription)
    ensures t.program == ProgramFor(Lower(instrument))
    ensures t.trackName == Capitalize(Lower(instrument))
    ensures t.kept == KeptNotes(Flatten(detected), RangeFor(Lower(instrument)))
    ensures t.noteEvents == Sorting.SortBy(ToEvents(t.kept, nameOf), EventStart)
    ensures StartSorted(t.noteEvents)
    ensures t.noteCount == |t.noteEvents| == |t.kept|
    ensures forall e :: e in t.noteEvents <==>
      exists i | 0 <= i < |t.kept| :: e == ToEvent(t.kept[i], nameOf)
  {
    var inst := Lower(instrument);
    var range := RangeFor(inst);
    var program := ProgramFor(inst);
    var kept := FilterByRange(detected, range);
    var events := BuildNoteEvents(kept, nameOf);
    var sorted := Sorting.SortBy(events, EventStart);
    Sorting.SortByOrdered(events, EventStart);
    assert forall e :: e in sorted <==> e in events by {
      forall e ensures e in sorted <==> e in events {
        assert e in sorted <==> e in multiset(sorted);
        assert e in events <==> e in multiset(events);
      }
    }
    t := Transcription(program, Capitalize(inst), kept, sorted, |sorted|);
  }
}
