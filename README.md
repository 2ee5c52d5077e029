# Partition Generator: a verified model of its core

Partition Generator turns a YouTube link into sheet music. The Flask
backend stores a job and runs it through three stages: download the audio,
transcribe it to MIDI notes, and render the notes as a LilyPond score. Every
stage broadcasts a snapshot of the job. REST endpoints then serve the job's
status, its PDF, its audio and its notes. A socket-driven realtime session
replays the notes against a playback clock. The React client shows a
three-stage progress bar, validates the link and previews its thumbnail, and
highlights the notes that sound while the audio plays.

This project models that core in Dafny and proves properties of the model.
There is one module per concern:

| file | module | models |
|---|---|---|
| `util.dfy` | `Util` | optional values, Python truth tests, ASCII case mapping, integer printing, joining |
| `sorting.dfy` | `Sorting` | Python's stable key sort, as an insertion sort proved ordered, a permutation and stable |
| `notes.dfy` | `Notes` | the MIDI note and the client note-event records |
| `realtime.dfy` | `Realtime` | the `RealtimeSession` class: playback clock, seek cursor, the two note queries, the state snapshot |
| `transcriber.dfy` | `Transcriber` | instrument tables, the pitch-range filter, the sorted note-event list |
| `sheet_music.dfy` | `SheetMusic` | pitch and duration rendering, the token loop, the lines of eight, clef and display name |
| `app.dfy` | `App` | jobs, the pipeline and its broadcasts, the REST guards, the per-connection session map |
| `progress_bar.dfy` | `ProgressBar` | `getStepState` over `STEP_ORDER` |
| `youtube_input.dfy` | `YouTubeInput` | `isValidUrl`, `extractThumbnail`, the `thumbnail` derivation |
| `realtime_listener.dfy` | `RealtimeListener` | `formatTime`, the highlight filter, `isNotePast`, `isNoteActive`, the 200-note timeline |

The code's own form is kept:

- Objects whose fields change are classes. This covers the realtime session
  and the server with its `jobs` and `realtime_sessions` dictionaries.
- The code's loops are methods with loop invariants. Each is proved equal to
  a reference function, or proved to satisfy a characterising predicate:
  - equal to a reference function: the two early-break queries, the
    quantiser, the token loop, the range-filter loop and the note-event loop;
  - satisfying a characterising property: the seek scan (the cursor
    predicate `IsScanCursor`) and the chunking loop (the lines flatten back
    to the tokens, their count, and their lengths).
- Each reference function then carries its own lemmas.

Time, randomness and the collaborators are the model's inputs:

- The current instant is a `now: real` parameter.
- The fresh job id is a string parameter.
- File existence is a boolean parameter.
- The audio download, the pitch-detection model and the LilyPond stage appear
  as outcomes: a value, or the message of the exception they raise.

`start` (`backend/services/realtime.py:24-27`) has no already-playing guard,
so a second start moves a playing clock back to its last pause offset. The
model keeps this, and `Realtime.RestartRewindsPlayingClock` gives a concrete
case.

## Model

| member | source | states |
|---|---|---|
| `Sorting.SortBy` | backend/services/transcriber.py:90 | the sorted list is a permutation of the input, of the same length |
| `Sorting.SortByOrdered` | backend/services/realtime.py:17 | the result of the key sort is ordered by the key |
| `Sorting.SortByStable` | backend/services/transcriber.py:90 | for every key value, the elements with that key keep their input order (stability) |
| `Sorting.SortBySorted` | backend/services/realtime.py:17 | sorting an already sorted list returns it unchanged |
| `Realtime.ActiveNotesAt` | backend/services/realtime.py:53-62 | the reference filter: a note is in the result iff it is in the list and `start <= pos <= end` |
| `Realtime.UpcomingNotesAt` | backend/services/realtime.py:64-73 | the reference filter: a note is in the result iff it is in the list and `pos < start <= pos + window` |
| `Realtime.ActiveScanStops` | backend/services/realtime.py:60-61 | on a start-sorted list, no note at or after the first one starting after `pos` is active, so the early break loses nothing |
| `Realtime.UpcomingScanStops` | backend/services/realtime.py:71-72 | on a start-sorted list, no note at or after the first one starting after `pos + window` is upcoming |
| `Realtime.NoUpcomingInEmptyWindow` | backend/services/realtime.py:69 | a zero or negative window gives no upcoming notes |
| `Realtime.QueriesEmptyPastTheEnd` | backend/services/realtime.py:53-73 | once every note has started and ended, both queries are empty |
| `Realtime.StartPositionsAtPauseOffset` | backend/services/realtime.py:24-27 | `start` leaves the clock playing, at `pause_offset` at the instant of the call, then advancing with time |
| `Realtime.StartTwiceAtOneInstant` | backend/services/realtime.py:24-27 | two starts at the same instant equal one start |
| `Realtime.RestartRewindsPlayingClock` | backend/services/realtime.py:24-27 | without an already-playing guard, a second start ten seconds later moves a playing clock from 10 back to 0 |
| `Realtime.PauseIdempotent` | backend/services/realtime.py:29-33 | pause is idempotent, leaves the clock paused, and freezes the position it had at the call |
| `Realtime.ResumeContinues` | backend/services/realtime.py:24-33 | pausing and then starting resumes from the paused position |
| `Realtime.SeekMovesPosition` | backend/services/realtime.py:35-39 | seek keeps the playing flag and stores the position unclamped; at the call instant the position is the requested one, and a playing clock runs on from it |
| `Realtime.SyncReconciles` | backend/app.py:275-285 | after a sync, the clock is in the requested play state at the requested position, whatever its state before |
| `Realtime.SeekThenQueryExample` | backend/services/realtime.py:53-73 | with notes [4,6] and [7,8], after a seek to 5, the first is active and the second is upcoming in the default window |
| `Realtime.ProgressWithinTrack` | backend/services/realtime.py:83 | progress is 0 for a non-positive duration, and lies in [0,1] for a position within the track |
| `Realtime.RealtimeSession.constructor` | backend/services/realtime.py:11-22 | the notes are stably sorted by start; the clock is paused at 0; the cursor is 0 |
| `Realtime.RealtimeSession.Start` | backend/services/realtime.py:24-27 | the new clock is `Started` of the old one; the cursor is unchanged |
| `Realtime.RealtimeSession.Pause` | backend/services/realtime.py:29-33 | the new clock is `Paused` of the old one; the cursor is unchanged |
| `Realtime.RealtimeSession.Seek` | backend/services/realtime.py:35-45 | the new clock is `Sought` of the old one; the cursor is the last note starting at or before the position, or 0 if none, and stays below `max(1, len)` |
| `Realtime.RealtimeSession.GetActiveNotes` | backend/services/realtime.py:47-62 | the early-break scan returns exactly `ActiveNotesAt` at the current position |
| `Realtime.RealtimeSession.GetUpcomingNotes` | backend/services/realtime.py:47-73 | the early-break scan returns exactly `UpcomingNotesAt` at the current position |
| `Realtime.RealtimeSession.ToState` | backend/services/realtime.py:75-84 | the snapshot holds position, play flag, both queries with the default 2-second window, and progress |
| `Transcriber.RangeFor` | backend/services/transcriber.py:54 | the table range, or (0, 127) for an unknown instrument; always within 0..127 |
| `Transcriber.ProgramFor` | backend/services/transcriber.py:57 | the table program, or 0 for an unknown instrument |
| `Transcriber.TablesWellFormed` | backend/services/transcriber.py:11-32 | every range satisfies `0 <= lo <= hi <= 127`; both tables know the same instruments |
| `Transcriber.KeptNotesMembers` | backend/services/transcriber.py:60-62 | a note is kept iff it was detected and its pitch lies within the range, bounds included |
| `Transcriber.FilterByRange` | backend/services/transcriber.py:60-70 | the nested loop over tracks and notes yields exactly the in-range notes, in detection order, as unchanged copies |
| `Transcriber.ToEvents` | backend/services/transcriber.py:81-88 | one event per kept note, in order, each carrying the note's start, end, pitch and velocity |
| `Transcriber.BuildNoteEvents` | backend/services/transcriber.py:80-88 | the loop yields exactly `ToEvents` of the kept notes |
| `Transcriber.Transcribe` | backend/services/transcriber.py:48-95 | the instrument is lower-cased before both lookups. The events are the stable start sort of the kept notes' events, so they are ordered by start. The event list and the note count both equal the number of in-range notes |
| `SheetMusic.MidiNoteToLilyRoundTrip` | backend/services/sheet_music.py:40-52 | parsing the rendered name (pitch class name, then `k` apostrophes or `-k` commas, with `k = p div 12 - 4`) gives the pitch back |
| `SheetMusic.MidiNoteToLilyInjective` | backend/services/sheet_music.py:10-52 | distinct pitches render to distinct strings |
| `SheetMusic.MidiNoteToLilyShape` | backend/services/sheet_music.py:40-52 | a rendered pitch starts with a letter a..g and never contains both an apostrophe and a comma |
| `SheetMusic.MiddleC` | backend/services/sheet_music.py:45 | MIDI 60 renders as `c'` |
| `SheetMusic.FirstNearestIsNearest` | backend/services/sheet_music.py:74-78 | the scan's choice is strictly nearer than every earlier entry and at least as near as every later one |
| `SheetMusic.FirstNearestUnique` | backend/services/sheet_music.py:74-78 | at most one entry is the first nearest |
| `SheetMusic.DurationToLily` | backend/services/sheet_music.py:55-80 | the loop, whose `'4'` default is replaced at the first entry, returns the code of the first nearest table entry |
| `SheetMusic.QuantiseIsFirstNearest` | backend/services/sheet_music.py:58-80 | an entry is the scan's choice iff it is the first nearest; the result is then that entry's code, so always one of the ten |
| `SheetMusic.QuantiseExact` | backend/services/sheet_music.py:58-80 | an exact table value maps to its own code |
| `SheetMusic.QuantiseTiesGoToLonger` | backend/services/sheet_music.py:76 | with the strict `<`, 3.5 beats is a whole note and 0.1875 a sixteenth: ties go to the earlier, longer value |
| `SheetMusic.QuantiseSaturates` | backend/services/sheet_music.py:58-80 | four beats or more is `1`; an eighth of a beat or less is `32` |
| `SheetMusic.NoteToken` | backend/services/sheet_music.py:120-138 | the note token is the pitch followed by the quantised, clamped length in beats |
| `SheetMusic.GapToken` | backend/services/sheet_music.py:131-136 | a rest is inserted before note `i > 0` only for a gap of at least 0.125 beats |
| `SheetMusic.BuildTokens` | backend/services/sheet_music.py:118-138 | the loop yields exactly the reference token list `Tokens` |
| `SheetMusic.OnePitchTokenPerNote` | backend/services/sheet_music.py:118-138 | without the rests, the tokens are one pitch token per note, in note order |
| `SheetMusic.TokensPrefix` | backend/services/sheet_music.py:118-138 | each prefix of the notes renders to a prefix of the tokens |
| `SheetMusic.RestExactlyAtGaps` | backend/services/sheet_music.py:131-138 | the first note has no rest before it. For `i > 0`, a rest precedes note `i`'s pitch token iff `(start_i - end_{i-1}) * tempo / 60 >= 0.125` |
| `SheetMusic.ShortNotesClamped` | backend/services/sheet_music.py:123-125 | a note shorter than 0.125 beats is written as a thirty-second |
| `SheetMusic.ChunkTokens` | backend/services/sheet_music.py:145-149 | the lines concatenate back to the tokens; there are ⌈n/8⌉ lines, each of 1 to 8 tokens, all but the last of exactly 8 |
| `SheetMusic.RenderLines` | backend/services/sheet_music.py:149 | one rendered line per chunk: four spaces, then the chunk's tokens joined by single spaces |
| `SheetMusic.ClefFor` | backend/services/sheet_music.py:141 | the clef is `bass` iff the instrument is `basse`, and `treble` otherwise, including for unknown instruments |
| `SheetMusic.DisplayNameFor` | backend/services/sheet_music.py:142 | the table name; an unknown instrument gets its id capitalised |
| `SheetMusic.GenerateLilypond` | backend/services/sheet_music.py:97-151 | ValueError `No notes found in MIDI file` iff there is no track or the first track is empty. Otherwise the lines are the chunked tokens of the start-sorted first track at the first tempo (120 if none), with the clef and display name of the lower-cased instrument |
| `App.PipelineTrace` | backend/app.py:94-146 | a run broadcasts between 2 and 6 snapshots |
| `App.PipelineSucceeds` | backend/app.py:96-140 | when all stages succeed: six snapshots stepping downloading 10, downloaded 30, transcribing 40, transcribed 70, generating 80, complete 100; the job ends complete with title, audio, notes and PDF set |
| `App.PipelineProgresses` | backend/app.py:96-146 | progress never decreases; every snapshot but the last is processing; the last is complete iff no stage raised, and error iff one did |
| `App.PipelineFails` | backend/app.py:142-146 | when a stage raises, the last snapshot is the one before it with status and step error and that stage's message, every other field kept, so progress stays; nothing a later stage sets is set, the duration included after a failed download |
| `App.PipelineKeepsIdentity` | backend/app.py:94-146 | no snapshot changes the job's id, url or instrument |
| `App.NoteCount` | backend/app.py:164 | the note count is the number of notes, or 0 when the list is absent or empty |
| `App.GetStatus` | backend/app.py:150-166 | 404 `Job not found` iff the id is unknown. Otherwise 200 with the job's id, status, step, progress, title, error and duration, and its note count; the view has no file-path field |
| `App.DownloadPdf` | backend/app.py:170-185 | 404 for an unknown job; 400 unless complete with a PDF path; 404 if the file is missing. Otherwise the PDF, named `partition_<instrument>_<id>.pdf` |
| `App.StreamAudio` | backend/app.py:189-200 | 404 for an unknown job, and 404 without an audio path or file; otherwise the WAV file |
| `App.GetNotes` | backend/app.py:204-217 | 404 for an unknown job; 400 whenever the notes are absent or empty, whatever the status; otherwise the notes, duration, title and instrument |
| `App.NewJobServesNothing` | backend/app.py:66-79 | a new job is pending, queued, at progress 0, with no error, title or duration. It serves no notes, PDF, audio or realtime session |
| `App.SuccessfulRunServesPdf` | backend/app.py:136-185 | after a fully successful run, the status counts the transcribed notes and the PDF is served |
| `App.NotesOutliveSheetFailure` | backend/app.py:142-146 | when only the sheet stage fails, the job is in error, yet its notes are served and a realtime session can start |
| `App.InstrumentsAgreeWithTables` | backend/app.py:42-51 | every listed instrument has a range, a program, a clef and the same display name; `piano` is listed; every ranged instrument is listed |
| `App.Server.constructor` | backend/app.py:33-34 | both stores start empty |
| `App.Server.StartTranscription` | backend/app.py:56-86 | a missing or empty URL gives 400 `URL YouTube requise` and no new job. Otherwise a new job is stored under the fresh id, with the instrument defaulting to `piano`, and the reply is 202 |
| `App.Server.Emit` | backend/app.py:99 | the store holds the new snapshot, which is appended to the broadcasts |
| `App.Server.RunPipeline` | backend/app.py:89-146 | the broadcasts are extended by exactly `PipelineTrace`, and the store ends with its last snapshot |
| `App.Server.RealtimeStart` | backend/app.py:233-244 | the job is ready iff it exists with non-empty notes, whatever its status. An unready job gets the error `Job not found or not ready`. A ready job gets a fresh session over its notes, replacing the connection's old one, left playing, with its state sent |
| `App.Server.RealtimeSeek` | backend/app.py:248-253 | without a session nothing happens; otherwise the session seeks (to 0 if no position) and its state is sent |
| `App.Server.RealtimePause` | backend/app.py:257-262 | without a session nothing happens; otherwise the session pauses and its state is sent |
| `App.Server.RealtimeResume` | backend/app.py:266-271 | without a session nothing happens; otherwise the session starts and its state is sent |
| `App.Server.RealtimeSync` | backend/app.py:275-285 | without a session nothing happens; otherwise a seek, then a start or a pause (pause if the flag is missing), and its state is sent |
| `ProgressBar.IndexOfFinds` | frontend/src/components/ProgressBar.jsx:15-18 | `indexOf` gives the first occurrence, or -1 exactly when the step is not listed |
| `ProgressBar.StageStatesByIndex` | frontend/src/components/ProgressBar.jsx:17-25 | the three stage states depend only on the step's index in `STEP_ORDER`; an unlisted step counts as not started |
| `ProgressBar.StageTable` | frontend/src/components/ProgressBar.jsx:9-25 | all pending for queued, error, missing or unknown steps; [active, pending, pending] for downloading/downloaded; [done, active, pending] for transcribing/transcribed; [done, done, active] for generating/complete |
| `ProgressBar.StageStatesShape` | frontend/src/components/ProgressBar.jsx:17-25 | for every step, the states read done, then at most one active, then pending |
| `ProgressBar.FallbackUnreachable` | frontend/src/components/ProgressBar.jsx:23 | for the three stages, the second `done` test never decides |
| `YouTubeInput.IsValidUrlMatchesPattern` | frontend/src/components/YouTubeInput.jsx:7-10 | a link is valid iff it splits into an optional `http://`/`https://`, an optional `www.`, and a rest starting with `youtube.com/watch?v=`, `youtube.com/shorts/` or `youtu.be/` |
| `YouTubeInput.ValidUrlExtends` | frontend/src/components/YouTubeInput.jsx:8-9 | validity is prefix-only: every extension of a valid link is valid |
| `YouTubeInput.MatchAtIsId` | frontend/src/components/YouTubeInput.jsx:13 | a captured id is exactly 11 characters of `[A-Za-z0-9_-]` |
| `YouTubeInput.FirstSomeIsLeftmost` | frontend/src/components/YouTubeInput.jsx:13 | the search returns the match at the leftmost start position that has one, and nothing iff no position has one |
| `YouTubeInput.ExtractThumbnailSpec` | frontend/src/components/YouTubeInput.jsx:12-15 | the thumbnail URL wraps the 11 id characters after the leftmost marker followed by 11 such characters; there is none iff no marker has them |
| `YouTubeInput.Thumbnail` | frontend/src/components/YouTubeInput.jsx:17 | a thumbnail exists only for a non-empty, valid value, and for such a value it is `extractThumbnail`'s |
| `YouTubeInput.ValidWithoutThumbnail` | frontend/src/components/YouTubeInput.jsx:8-17 | `youtu.be/abc` is valid but has no thumbnail |
| `RealtimeListener.MinutesAndSeconds` | frontend/src/components/RealtimeListener.jsx:100-101 | for `s >= 0`, the minutes are `⌊s⌋ div 60` and JavaScript's `⌊s % 60⌋` is `⌊s⌋ mod 60` |
| `RealtimeListener.PaddedTwoDigits` | frontend/src/components/RealtimeListener.jsx:102 | a number below 60 pads to exactly its two decimal digits |
| `RealtimeListener.FormatTimeNonNegative` | frontend/src/components/RealtimeListener.jsx:99-103 | for `s >= 0` the label is the minutes, `:`, and the two digits of the leftover seconds, which lie in 00..59 |
| `RealtimeListener.FormatTimeMinutes` | frontend/src/components/RealtimeListener.jsx:99-103 | 150 seconds read `2:30` |
| `RealtimeListener.FormatTimePadded` | frontend/src/components/RealtimeListener.jsx:99-103 | 5.5 seconds read `0:05` |
| `RealtimeListener.FormatTimeNegative` | frontend/src/components/RealtimeListener.jsx:99-103 | -5 seconds read `-1:-5`: floor for the minutes, JavaScript's sign-keeping `%` for the seconds |
| `RealtimeListener.ClientActiveMatchesServer` | frontend/src/components/RealtimeListener.jsx:35-37 | the client's filter selects exactly the server's `ActiveNotesAt`, in the same order |
| `RealtimeListener.ClientAgreesWithSession` | frontend/src/components/RealtimeListener.jsx:35-37 | on a session's sorted notes, the client highlights what the session reports as active at that position |
| `RealtimeListener.PastIsNotSounding` | frontend/src/components/RealtimeListener.jsx:111-113 | a note in the active set at time `t` is not past at `t` |
| `RealtimeListener.IsNoteActive` | frontend/src/components/RealtimeListener.jsx:105-109 | a note is active iff some highlighted note has the same start and pitch |
| `RealtimeListener.ActiveByStartAndPitch` | frontend/src/components/RealtimeListener.jsx:105-109 | identity is by start and pitch only: an ended note is marked active while another note with its start and pitch sounds |
| `RealtimeListener.TimelineCoversNotes` | frontend/src/components/RealtimeListener.jsx:183-197 | the timeline lists the first `min(200, n)` notes. The truncation line appears iff `n > 200`, and its count plus the shown notes is `n` |

## Left out

- Threads: the pipeline runs in a background thread (`backend/app.py:82-84`). The model runs it to its end in one call, so a status read in the middle of a run is not modelled.
- Flask routing, JSON decoding, the SocketIO transport and `send_file` are left out. A body that is not JSON is also not modelled.
- A request field that is present but `null` is treated like a missing one. The same goes for `position` and `instrument`.
- Connect and disconnect only print, so they are not modelled (`backend/app.py:222-229`). Sessions are never removed.
- The external collaborators are not modelled: yt-dlp (`backend/services/youtube.py` is not part of this model), the pitch-detection model, and MIDI file parsing and writing. They appear only as the values or errors they produce.
- `pretty_midi.note_number_to_name` is a parameter `nameOf`.
- `App.PipelineTrace` and the other pipeline members take the `Transcription` outcome as a parameter. The link to `Transcriber.Transcribe` is the type, not a call.
- The LilyPond stage is not modelled: tempo estimation (the first estimate arrives as `firstTempo`), the `.ly` header and score template, writing the file, and running the compiler. A non-zero compiler exit is only printed, so no error path is lost.
- Detected tracks give `GenerateLilypond` its notes directly. Reading them back from the written MIDI file is not modelled.
- Floating point: times and beats are exact reals. The rounding `round(pos, 3)`, `round(pos / d, 4)` and `round(note.start, 3)` is left out.
- `uuid4` is not modelled: the fresh id is a parameter, and collisions are not considered.
- `Util.Lower` and `Util.Capitalize` map ASCII letters only, whereas Python's `str.lower` and `str.capitalize` cover all of Unicode.
- One `now` per handler: the several `time.time()` calls inside one handler are taken to return the same instant.
- `get_instruments` is only its constant list, `App.Instruments`.
- The React rendering, hooks, animation-frame loop, audio element, and `App.jsx`, `SheetViewer.jsx` and `InstrumentSelector.jsx` are left out. They are UI with no logic beyond static lists.
- JavaScript `NaN` and infinities, and non-string values passed to `isValidUrl`, are not modelled.
