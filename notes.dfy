/** The two note shapes the backend handles: the transcription library's note
    (pitch, velocity, start and end in seconds) and the note event served to
    clients, which adds a display name. */
module Notes {
  import Sorting

  /** One entry of a job's `note_events` list. */
  datatype NoteEvent = NoteEvent(start: real, end: real, pitch: int, velocity: int, name: string)

  /** A `pretty_midi.Note`. */
  datatype MidiNote = MidiNote(velocity: int, pitch: int, start: real, end: real)

  function EventStart(n: NoteEvent): real { n.start }

  function NoteStart(n: MidiNote): real { n.start }

  /** A note-event store: ordered by start time. */
  ghost predicate StartSorted(s: seq<NoteEvent>) {
    Sorting.SortedBy(s, EventStart)
  }
}
