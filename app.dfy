/** The Flask backend: the job store, the three-stage pipeline each job runs
    (download, transcription, sheet music) with the snapshots it broadcasts,
    the read-only REST endpoints over the store, and the per-connection
    realtime sessions driven by socket events.

    The collaborators (audio download, the pitch-detection model, the
    LilyPond stage) appear as the outcomes they produce: a value, or the
    message of the exception they raise. File existence is a boolean
    parameter, and the fresh job id a string parameter. */
module App {
  import opened Util
  import opened Notes
  import Sorting
  import Realtime
  import Transcriber
  import SheetMusic

  // ---------------------------------------------------------------------------
  // Jobs

  datatype Status = Pending | Processing | Complete | Error

  datatype Step = Queued | Downloading | Downloaded | Transcribing | Transcribed | Generating | Completed | Failed

  /** One entry of the `jobs` store. */
  datatype Job = Job(
    id: string,
    status: Status,
    step: Step,
    progress: int,
    url: string,
    instrument: string,
    title: string,
    error: Option<string>,
    pdfPath: Option<string>,
    audioPath: Option<string>,
    noteEvents: Option<seq<NoteEvent>>,
    duration: real)

  const DefaultInstrument: string := "piano"

  /** The record `start_transcription` stores for a new job. */
  function NewJob(id: string, url: string, instrument: string): Job {
    Job(id, Pending, Queued, 0, url, instrument, "", None, None, None, None, 0.0)
  }

  // ---------------------------------------------------------------------------
  // The pipeline

  /** What a collaborator call produced: its value, or the message of the
      exception it raised. */
  datatype Outcome<T> = Done(data: T) | Raised(message: string)

  /** The result of the audio download. */
  datatype Download = Download(title: string, audioPath: string, duration: real)

  /** The result of the LilyPond stage. */
  datatype Sheet = Sheet(lyPath: string, pdfPath: string)

  /** The catch-all handler: the job keeps every field it had and becomes an
      error carrying the exception's message. */
  function Errored(j: Job, message: string): Job {
    j.(status := Error, step := Failed, error := Some(message))
  }

  /** The snapshots `run_pipeline` broadcasts, in order, when the download,
      transcription and sheet stages produce `d`, `t` and `s`; a stage runs
      only after the previous one succeeded. The last snapshot is the job as
      the store holds it afterwards. */
  function PipelineTrace(j: Job, d: Outcome<Download>, t: Outcome<Transcriber.Transcription>, s: Outcome<Sheet>): (trace: seq<Job>)
    ensures 2 <= |trace| <= 6
  {
    var j1 := j.(status := Processing, step := Downloading, progress := 10);
    if d.Raised? then [j1, Errored(j1, d.message)]
    else
      var j2 := j1.(title := d.data.title, audioPath := Some(d.data.audioPath), duration := d.data.duration,
                    progress := 30, step := Downloaded);
      var j3 := j2.(step := Transcribing, progress := 40);
      if t.Raised? then [j1, j2, j3, Errored(j3, t.message)]
      else
        var j4 := j3.(noteEvents := Some(t.data.noteEvents), progress := 70, step := Transcribed);
        var j5 := j4.(step := Generating, progress := 80);
        if s.Raised? then [j1, j2, j3, j4, j5, Errored(j5, s.message)]
        else
          var j6 := j5.(pdfPath := Some(s.data.pdfPath), progress := 100, step := Completed, status := Complete);
          [j1, j2, j3, j4, j5, j6]
  }

  function Last<T>(s: seq<T>): T
    requires s != []
  {
    s[|s| - 1]
  }

  /** The message of the first stage that raised, if any. */
  function FirstFailure(d: Outcome<Download>, t: Outcome<Transcriber.Transcription>, s: Outcome<Sheet>): Option<string> {
    if d.Raised? then Some(d.message)
    else if t.Raised? then Some(t.message)
    else if s.Raised? then Some(s.message)
    else None
  }

  /** A run in which every stage succeeds broadcasts six snapshots with the
      fixed step and progress sequence, and leaves the job complete with its
      title, audio, notes and PDF set. */
  lemma PipelineSucceeds(j: Job, d: Outcome<Download>, t: Outcome<Transcriber.Transcription>, s: Outcome<Sheet>)
    requires d.Done? && t.Done? && s.Done?
    ensures var trace := PipelineTrace(j, d, t, s);
      && |trace| == 6
      && [trace[0].step, trace[1].step, trace[2].step, trace[3].step, trace[4].step, trace[5].step]
         == [Downloading, Downloaded, Transcribing, Transcribed, Generating, Completed]
      && [trace[0].progress, trace[1].progress, trace[2].progress, trace[3].progress, trace[4].progress, trace[5].progress]
         == [10, 30, 40, 70, 80, 100]
      && Last(trace).status == Complete
      && Last(trace).error == j.error
      && Last(trace).title == d.data.title
      && Last(trace).audioPath == Some(d.data.audioPath)
      && Last(trace).duration == d.data.duration
      && Last(trace).noteEvents == Some(t.data.noteEvents)
      && Last(trace).pdfPath == Some(s.data.pdfPath)
  {
  }

  /** Broadcast progress never goes down; every snapshot before the last is
      still processing, and the last is complete exactly when no stage
      raised. */
  lemma PipelineProgresses(j: Job, d: Outcome<Download>, t: Outcome<Transcriber.Transcription>, s: Outcome<Sheet>)
    ensures var trace := PipelineTrace(j, d, t, s);
      && (forall a, b | 0 <= a < b < |trace| :: trace[a].progress <= trace[b].progress)
      && (forall a | 0 <= a < |trace| - 1 :: trace[a].status == Processing)
      && (Last(trace).status == Complete <==> FirstFailure(d, t, s).None?)
      && (Last(trace).status == Error <==> FirstFailure(d, t, s).Some?)
  {
  }

  /** When a stage raises, the last snapshot is an error carrying its message
      at the progress of the snapshot before it, and nothing a later stage
      would have set is set. */
  lemma PipelineFails(j: Job, d: Outcome<Download>, t: Outcome<Transcriber.Transcription>, s: Outcome<Sheet>)
    requires FirstFailure(d, t, s).Some?
    ensures var trace := PipelineTrace(j, d, t, s);
      && Last(trace).status == Error
      && Last(trace).step == Failed
      && Last(trace).error == FirstFailure(d, t, s)
      && Last(trace) == Errored(trace[|trace| - 2], FirstFailure(d, t, s).value)
      && Last(trace).progress == trace[|trace| - 2].progress
      && Last(trace).pdfPath == j.pdfPath
      && (d.Raised? ==> |trace| == 2 && Last(trace).audioPath == j.audioPath && Last(trace).title == j.title
                        && Last(trace).duration == j.duration)
      && (d.Raised? || t.Raised? ==> Last(trace).noteEvents == j.noteEvents)
      && (d.Done? && t.Done? ==> |trace| == 6 && Last(trace).noteEvents == Some(t.data.noteEvents))
  {
  }

  /** No snapshot changes the job's identity, source or instrument. */
  lemma PipelineKeepsIdentity(j: Job, d: Outcome<Download>, t: Outcome<Transcriber.Transcription>, s: Outcome<Sheet>)
    ensures forall k | 0 <= k < |PipelineTrace(j, d, t, s)| ::
      var snap := PipelineTrace(j, d, t, s)[k];
      snap.id == j.id && snap.url == j.url && snap.instrument == j.instrument
  {
  }

  // ---------------------------------------------------------------------------
  // REST endpoints

  /** A JSON body with its HTTP status, or an error message with its status. */
  datatype Response<T> = Success(code: int, value: T) | Failure(code: int, message: string)

  /** The fields `get_status` returns: no file path among them. */
  datatype StatusView = StatusView(
    id: string, status: Status, step: Step, progress: int, title: string,
    error: Option<string>, noteCount: nat, duration: real)

  function NoteCount(notes: Option<seq<NoteEvent>>): (n: nat)
    ensures NonEmpty(notes) ==> n == |notes.value|
    ensures !NonEmpty(notes) ==> n == 0
  {
    if notes.Some? then |notes.value| else 0
  }

  /** `get_status`. */
  function GetStatus(jobs: map<string, Job>, id: string): (r: Response<StatusView>)
    ensures r.Failure? <==> id !in jobs
    ensures r.Failure? ==> r == Failure(404, "Job not found")
    ensures r.Success? ==> r.code == 200 && r.value.noteCount == NoteCount(jobs[id].noteEvents)
    ensures r.Success? ==> r.value.progress == jobs[id].progress && r.value.status == jobs[id].status
    ensures r.Success? ==>
      && r.value.id == jobs[id].id && r.value.step == jobs[id].step && r.value.title == jobs[id].title
      && r.value.error == jobs[id].error && r.value.duration == jobs[id].duration
  {
    if id !in jobs then Failure(404, "Job not found")
    else
      var j := jobs[id];
      Success(200, StatusView(j.id, j.status, j.step, j.progress, j.title, j.error, NoteCount(j.noteEvents), j.duration))
  }

  /** The file `send_file` serves. */
  datatype FileReply = FileReply(path: string, mimetype: string, downloadName: Option<string>)

  predicate PdfReady(j: Job) {
    j.status == Complete && Truthy(j.pdfPath)
  }

  /** `download_pdf`; `pdfExists` says whether the job's PDF is on disk. */
  function DownloadPdf(jobs: map<string, Job>, id: string, pdfExists: bool): (r: Response<FileReply>)
    ensures id !in jobs ==> r == Failure(404, "Job not found")
    ensures id in jobs && !PdfReady(jobs[id]) ==> r == Failure(400, "PDF not ready")
    ensures id in jobs && PdfReady(jobs[id]) && !pdfExists ==> r == Failure(404, "PDF file not found")
    ensures r.Success? <==> id in jobs && PdfReady(jobs[id]) && pdfExists
    ensures r.Success? ==>
      && r.code == 200 && r.value.path == jobs[id].pdfPath.value
      && r.value.mimetype == "application/pdf"
      && r.value.downloadName == Some("partition_" + jobs[id].instrument + "_" + id + ".pdf")
  {
    if id !in jobs then Failure(404, "Job not found")
    else
      var j := jobs[id];
      if !PdfReady(j) then Failure(400, "PDF not ready")
      else if !pdfExists then Failure(404, "PDF file not found")
      else Success(200, FileReply(j.pdfPath.value, "application/pdf", Some("partition_" + j.instrument + "_" + id + ".pdf")))
  }

  /** `stream_audio`; `audioExists` says whether the job's audio is on disk. */
  function StreamAudio(jobs: map<string, Job>, id: string, audioExists: bool): (r: Response<FileReply>)
    ensures id !in jobs ==> r == Failure(404, "Job not found")
    ensures id in jobs && !(Truthy(jobs[id].audioPath) && audioExists) ==> r == Failure(404, "Audio not available")
    ensures r.Success? <==> id in jobs && Truthy(jobs[id].audioPath) && audioExists
    ensures r.Success? ==> r == Success(200, FileReply(jobs[id].audioPath.value, "audio/wav", None))
  {
    if id !in jobs then Failure(404, "Job not found")
    else
      var j := jobs[id];
      if !Truthy(j.audioPath) || !audioExists then Failure(404, "Audio not available")
      else Success(200, FileReply(j.audioPath.value, "audio/wav", None))
  }

  /** The body `get_notes` returns. */
  datatype NotesView = NotesView(notes: seq<NoteEvent>, duration: real, title: string, instrument: string)

  /** `get_notes`: whatever the status, only a non-empty note list is served. */
  function GetNotes(jobs: map<string, Job>, id: string): (r: Response<NotesView>)
    ensures id !in jobs ==> r == Failure(404, "Job not found")
    ensures id in jobs && !NonEmpty(jobs[id].noteEvents) ==> r == Failure(400, "Notes not available yet")
    ensures r.Success? <==> id in jobs && NonEmpty(jobs[id].noteEvents)
    ensures r.Success? ==>
      && r.code == 200 && r.value.notes == jobs[id].noteEvents.value
      && r.value.duration == jobs[id].duration && r.value.title == jobs[id].title
      && r.value.instrument == jobs[id].instrument
  {
    if id !in jobs then Failure(404, "Job not found")
    else
      var j := jobs[id];
      if !NonEmpty(j.noteEvents) then Failure(400, "Notes not available yet")
      else Success(200, NotesView(j.noteEvents.value, j.duration, j.title, j.instrument))
  }

  /** Whether `realtime_start` accepts a job id: the job must exist and have a
      non-empty note list; its status does not matter. */
  predicate SessionReady(jobs: map<string, Job>, jobId: Option<string>) {
    jobId.Some? && jobId.value in jobs && NonEmpty(jobs[jobId.value].noteEvents)
  }

  /** A job just created serves nothing yet: no notes, no PDF, no audio, no
      realtime session, and its status shows it queued with nothing counted. */
  lemma NewJobServesNothing(jobs: map<string, Job>, id: string, url: string, instrument: string, exists': bool)
    ensures var js := jobs[id := NewJob(id, url, instrument)];
      && GetStatus(js, id) == Success(200, StatusView(id, Pending, Queued, 0, "", None, 0, 0.0))
      && DownloadPdf(js, id, exists') == Failure(400, "PDF not ready")
      && StreamAudio(js, id, exists') == Failure(404, "Audio not available")
      && GetNotes(js, id) == Failure(400, "Notes not available yet")
      && !SessionReady(js, Some(id))
  {
  }

  /** After a run whose stages all succeed, the status counts the notes the
      transcription produced and the PDF can be downloaded once on disk. */
  lemma SuccessfulRunServesPdf(jobs: map<string, Job>, id: string,
                               d: Outcome<Download>, t: Outcome<Transcriber.Transcription>, s: Outcome<Sheet>)
    requires id in jobs && d.Done? && t.Done? && s.Done? && s.data.pdfPath != ""
    ensures var js := jobs[id := Last(PipelineTrace(jobs[id], d, t, s))];
      && GetStatus(js, id).value.noteCount == |t.data.noteEvents|
      && GetStatus(js, id).value.status == Complete
      && DownloadPdf(js, id, true).Success?
      && DownloadPdf(js, id, true).value.path == s.data.pdfPath
      && (d.data.audioPath != "" ==> StreamAudio(js, id, true).Success?)
  {
  }

  /** A job whose sheet stage raised still serves its notes and can be
      listened to in real time, though its PDF is never ready. */
  lemma NotesOutliveSheetFailure(jobs: map<string, Job>, id: string,
                                 d: Outcome<Download>, t: Outcome<Transcriber.Transcription>, s: Outcome<Sheet>, exists': bool)
    requires id in jobs && d.Done? && t.Done? && s.Raised? && t.data.noteEvents != []
    ensures var js := jobs[id := Last(PipelineTrace(jobs[id], d, t, s))];
      && GetStatus(js, id).value.status == Error
      && GetNotes(js, id) == Success(200, NotesView(t.data.noteEvents, d.data.duration, d.data.title, jobs[id].instrument))
      && SessionReady(js, Some(id))
      && DownloadPdf(js, id, exists') == Failure(400, "PDF not ready")
  {
  }

  // ---------------------------------------------------------------------------
  // Instruments

  datatype Instrument = Instrument(id: string, name: string, icon: string)

  /** The list `get_instruments` returns. */
  const Instruments: seq<Instrument> := [
    Instrument("piano", "Piano", "\U{1F3B9}"),
    Instrument("guitare", "Guitare", "\U{1F3B8}"),
    Instrument("basse", "Basse", "\U{1F3B8}"),
    Instrument("violon", "Violon", "\U{1F3BB}"),
    Instrument("flute", "Fl\U{FB}te", "\U{1FA88}"),
    Instrument("voix", "Voix", "\U{1F3A4}"),
    Instrument("saxophone", "Saxophone", "\U{1F3B7}"),
    Instrument("trompette", "Trompette", "\U{1F3BA}")]

  /** Every listed instrument has a pitch range, a MIDI program, a clef and a
      display name, the display name being the one listed; the default
      instrument is among them; and no table knows an instrument the list
      does not offer. */
  lemma InstrumentsAgreeWithTables()
    ensures forall k | 0 <= k < |Instruments| ::
      && Instruments[k].id in Transcriber.InstrumentRanges
      && Instruments[k].id in Transcriber.InstrumentPrograms
      && Instruments[k].id in SheetMusic.InstrumentClef
      && SheetMusic.DisplayNameFor(Instruments[k].id) == Instruments[k].name
    ensures exists k | 0 <= k < |Instruments| :: Instruments[k].id == DefaultInstrument
    ensures forall id | id in Transcriber.InstrumentRanges :: exists k | 0 <= k < |Instruments| :: Instruments[k].id == id
  {
    assert Instruments[0].id == DefaultInstrument;
    forall id | id in Transcriber.InstrumentRanges
      ensures exists k | 0 <= k < |Instruments| :: Instruments[k].id == id
    {
      if id == "piano" { assert Instruments[0].id == id; }
      else if id == "guitare" { assert Instruments[1].id == id; }
      else if id == "basse" { assert Instruments[2].id == id; }
      else if id == "violon" { assert Instruments[3].id == id; }
      else if id == "flute" { assert Instruments[4].id == id; }
      else if id == "voix" { assert Instruments[5].id == id; }
      else if id == "saxophone" { assert Instruments[6].id == id; }
      else { assert Instruments[7].id == id; }
    }
  }

  // ---------------------------------------------------------------------------
  // The server state

  /** What a socket handler sends back to the connection that sent the event. */
  datatype Reply = StateReply(sid: string, state: Realtime.SessionState) | ErrorReply(sid: string, message: string)

  /** The two module-level stores, with the `job_update` broadcasts and the
      replies to socket events recorded in order. */
  class Server {
    var jobs: map<string, Job>
    var sessions: map<string, Realtime.RealtimeSession>
    var broadcasts: seq<Job>
    var replies: seq<Reply>

    ghost predicate Valid()
      reads this, sessions.Values
    {
      forall sid | sid in sessions :: sessions[sid].Valid()
    }

    constructor()
      ensures Valid()
      ensures jobs == map[] && sessions == map[] && broadcasts == [] && replies == []
    {
      jobs := map[];
      sessions := map[];
      broadcasts := [];
      replies := [];
    }

    /** `start_transcription`: refuse a missing or empty URL, otherwise store a
        new job under `freshId` and accept. The pipeline itself is
        `RunPipeline`. */
    method StartTranscription(url: Option<string>, instrument: Option<string>, freshId: string)
      returns (r: Response<string>)
      modifies this
      ensures !Truthy(url) ==> r == Failure(400, "URL YouTube requise") && jobs == old(jobs)
      ensures Truthy(url) ==>
        && r == Success(202, freshId)
        && jobs == old(jobs)[freshId := NewJob(freshId, url.value, instrument.GetOr(DefaultInstrument))]
      ensures sessions == old(sessions) && broadcasts == old(broadcasts) && replies == old(replies)
    {
      var inst := if instrument.Some? then instrument.value else DefaultInstrument;
      if url.None? || url.value == "" {
        return Failure(400, "URL YouTube requise");
      }
      jobs := jobs[freshId := NewJob(freshId, url.value, inst)];
      r := Success(202, freshId);
    }

    /** Stores the job's new state and broadcasts it. */
    method Emit(id: string, job: Job)
      modifies this
      ensures jobs == old(jobs)[id := job]
      ensures broadcasts == old(broadcasts) + [job]
      ensures sessions == old(sessions) && replies == old(replies)
    {
      jobs := jobs[id := job];
      broadcasts := broadcasts + [job];
    }

    /** `run_pipeline` for the job `id`, its stages producing `d`, `t` and
        `s`: the store ends with the last broadcast snapshot. */
    method RunPipeline(id: string, d: Outcome<Download>, t: Outcome<Transcriber.Transcription>, s: Outcome<Sheet>)
      requires id in jobs
      modifies this
      ensures broadcasts == old(broadcasts) + PipelineTrace(old(jobs[id]), d, t, s)
      ensures jobs == old(jobs)[id := Last(PipelineTrace(old(jobs[id]), d, t, s))]
      ensures sessions == old(sessions) && replies == old(replies)
    {
      var job := jobs[id];
      job := job.(status := Processing, step := Downloading, progress := 10);
      Emit(id, job);
      if d.Raised? {
        job := job.(status := Error, step := Failed, error := Some(d.message));
        Emit(id, job);
        return;
      }
      job := job.(title := d.data.title, audioPath := Some(d.data.audioPath), duration := d.data.duration);
      job := job.(progress := 30, step := Downloaded);
      Emit(id, job);
      job := job.(step := Transcribing, progress := 40);
      Emit(id, job);
      if t.Raised? {
        job := job.(status := Error, step := Failed, error := Some(t.message));
        Emit(id, job);
        return;
      }
      job := job.(noteEvents := Some(t.data.noteEvents), progress := 70, step := Transcribed);
      Emit(id, job);
      job := job.(step := Generating, progress := 80);
      Emit(id, job);
      if s.Raised? {
        job := job.(status := Error, step := Failed, error := Some(s.message));
        Emit(id, job);
        return;
      }
      job := job.(pdfPath := Some(s.data.pdfPath), progress := 100, step := Completed, status := Complete);
      Emit(id, job);
    }

    /** `handle_realtime_start`: for a ready job, a new paused session over its
        notes replaces any session of the connection, is started at `now` and
        its state is sent; otherwise an error is sent. */
    method RealtimeStart(sid: string, jobId: Option<string>, now: real)
      requires Valid()
      modifies this
      ensures Valid()
      ensures jobs == old(jobs) && broadcasts == old(broadcasts)
      ensures !SessionReady(jobs, jobId) ==>
        sessions == old(sessions) && replies == old(replies) + [ErrorReply(sid, "Job not found or not ready")]
      ensures SessionReady(jobs, jobId) ==>
        var job := jobs[jobId.value];
        && sid in sessions && fresh(sessions[sid])
        && sessions == old(sessions)[sid := sessions[sid]]
        && sessions[sid].noteEvents == Sorting.SortBy(job.noteEvents.value, EventStart)
        && sessions[sid].audioDuration == job.duration
        && sessions[sid].State() == Realtime.Started(Realtime.Clock(false, 0.0, 0.0), now)
        && replies == old(replies) + [StateReply(sid, Realtime.Snapshot(sessions[sid].noteEvents, job.duration, sessions[sid].State(), now))]
    {
      if !SessionReady(jobs, jobId) {
        replies := replies + [ErrorReply(sid, "Job not found or not ready")];
        return;
      }
      var job := jobs[jobId.value];
      var session := new Realtime.RealtimeSession(job.noteEvents.value, job.duration);
      sessions := sessions[sid := session];
      session.Start(now);
      var st := session.ToState(now);
      replies := replies + [StateReply(sid, st)];
    }

    /** `handle_realtime_seek`; a missing position is 0. */
    method RealtimeSeek(sid: string, position: Option<real>, now: real)
      requires Valid()
      modifies this, if sid in sessions then {sessions[sid]} else {}
      ensures Valid()
      ensures jobs == old(jobs) && sessions == old(sessions) && broadcasts == old(broadcasts)
      ensures sid !in sessions ==> replies == old(replies)
      ensures sid in sessions ==>
        var session := sessions[sid];
        && session.State() == Realtime.Sought(old(session.State()), position.GetOr(0.0), now)
        && replies == old(replies) + [StateReply(sid, Realtime.Snapshot(session.noteEvents, session.audioDuration, session.State(), now))]
    {
      if sid in sessions {
        var session := sessions[sid];
        session.Seek(if position.Some? then position.value else 0.0, now);
        var st := session.ToState(now);
        replies := replies + [StateReply(sid, st)];
      }
    }

    /** `handle_realtime_pause`. */
    method RealtimePause(sid: string, now: real)
      requires Valid()
      modifies this, if sid in sessions then {sessions[sid]} else {}
      ensures Valid()
      ensures jobs == old(jobs) && sessions == old(sessions) && broadcasts == old(broadcasts)
      ensures sid !in sessions ==> replies == old(replies)
      ensures sid in sessions ==>
        var session := sessions[sid];
        && session.State() == Realtime.Paused(old(session.State()), now)
        && replies == old(replies) + [StateReply(sid, Realtime.Snapshot(session.noteEvents, session.audioDuration, session.State(), now))]
    {
      if sid in sessions {
        var session := sessions[sid];
        session.Pause(now);
        var st := session.ToState(now);
        replies := replies + [StateReply(sid, st)];
      }
    }

    /** `handle_realtime_resume`. */
    method RealtimeResume(sid: string, now: real)
      requires Valid()
      modifies this, if sid in sessions then {sessions[sid]} else {}
      ensures Valid()
      ensures jobs == old(jobs) && sessions == old(sessions) && broadcasts == old(broadcasts)
      ensures sid !in sessions ==> replies == old(replies)
      ensures sid in sessions ==>
        var session := sessions[sid];
        && session.State() == Realtime.Started(old(session.State()), now)
        && replies == old(replies) + [StateReply(sid, Realtime.Snapshot(session.noteEvents, session.audioDuration, session.State(), now))]
    {
      if sid in sessions {
        var session := sessions[sid];
        session.Start(now);
        var st := session.ToState(now);
        replies := replies + [StateReply(sid, st)];
      }
    }

    /** `handle_realtime_sync`: a seek to the player's position (0 if missing),
        then a start or a pause as the player is playing or not (not playing if
        missing). */
    method RealtimeSync(sid: string, position: Option<real>, playing: Option<bool>, now: real)
      requires Valid()
      modifies this, if sid in sessions then {sessions[sid]} else {}
      ensures Valid()
      ensures jobs == old(jobs) && sessions == old(sessions) && broadcasts == old(broadcasts)
      ensures sid !in sessions ==> replies == old(replies)
      ensures sid in sessions ==>
        var session := sessions[sid];
        && session.State() == Realtime.Synced(old(session.State()), position.GetOr(0.0), playing.GetOr(false), now)
        && replies == old(replies) + [StateReply(sid, Realtime.Snapshot(session.noteEvents, session.audioDuration, session.State(), now))]
    {
      if sid in sessions {
        var session := sessions[sid];
        session.Seek(if position.Some? then position.value else 0.0, now);
        if playing.Some? && playing.value {
          session.Start(now);
        } else {
          session.Pause(now);
        }
        var st := session.ToState(now);
        replies := replies + [StateReply(sid, st)];
      }
    }
  }
}
