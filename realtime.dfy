/** The realtime listening session: a two-state playback clock (playing or
    paused) over a start-sorted list of note events, with queries for the
    notes sounding now and the notes about to start.

    Wall-clock time is never read: every operation that consults the clock
    takes the current instant as its `now` parameter. */
module Realtime {
  import opened Notes
  import Sorting

  /** The look-ahead of `get_upcoming_notes` when the caller gives none. */
  const DefaultWindow: real := 2.0

  predicate IsActive(n: NoteEvent, pos: real) {
    n.start <= pos <= n.end
  }

  predicate IsUpcoming(n: NoteEvent, pos: real, window: real) {
    pos < n.start <= pos + window
  }

  /** The notes of `s` sounding at `pos`, in their order in `s`. */
  function ActiveNotesAt(s: seq<NoteEvent>, pos: real): (r: seq<NoteEvent>)
    ensures forall n :: n in r <==> n in s && IsActive(n, pos)
  {
    if s == [] then []
    else
      assert s == s[..|s| - 1] + [s[|s| - 1]];
      ActiveNotesAt(s[..|s| - 1], pos) + (if IsActive(s[|s| - 1], pos) then [s[|s| - 1]] else [])
  }

  /** The notes of `s` starting in `(pos, pos + window]`, in their order in `s`. */
  function UpcomingNotesAt(s: seq<NoteEvent>, pos: real, window: real): (r: seq<NoteEvent>)
    ensures forall n :: n in r <==> n in s && IsUpcoming(n, pos, window)
  {
    if s == [] then []
    else
      assert s == s[..|s| - 1] + [s[|s| - 1]];
      UpcomingNotesAt(s[..|s| - 1], pos, window)
        + (if IsUpcoming(s[|s| - 1], pos, window) then [s[|s| - 1]] else [])
  }

  lemma PrefixSorted(s: seq<NoteEvent>, n: nat)
    requires StartSorted(s) && n <= |s|
    ensures StartSorted(s[..n])
  {
    forall i, j | 0 <= i < j < n ensures EventStart(s[..n][i]) <= EventStart(s[..n][j]) {
      assert s[..n][i] == s[i] && s[..n][j] == s[j];
    }
  }

  /** On a start-sorted list nothing at or after the first note starting after
      `pos` is active, so the scan may stop there. */
  lemma {:induction false} ActiveScanStops(s: seq<NoteEvent>, pos: real, i: nat)
    requires StartSorted(s) && i < |s| && s[i].start > pos
    ensures ActiveNotesAt(s, pos) == ActiveNotesAt(s[..i], pos)
  {
    var last := |s| - 1;
    assert EventStart(s[i]) <= EventStart(s[last]) || i == last;
    if i < last {
      var t := s[..last];
      PrefixSorted(s, last);
      assert t[i] == s[i];
      assert t[..i] == s[..i];
      ActiveScanStops(t, pos, i);
    } else {
      assert s[..i] == s[..last];
    }
  }

  /** On a start-sorted list nothing at or after the first note starting after
      `pos + window` is upcoming, so the scan may stop there. */
  lemma {:induction false} UpcomingScanStops(s: seq<NoteEvent>, pos: real, window: real, i: nat)
    requires StartSorted(s) && i < |s| && s[i].start > pos + window
    ensures UpcomingNotesAt(s, pos, window) == UpcomingNotesAt(s[..i], pos, window)
  {
    var last := |s| - 1;
    assert EventStart(s[i]) <= EventStart(s[last]) || i == last;
    if i < last {
      var t := s[..last];
      PrefixSorted(s, last);
      assert t[i] == s[i];
      assert t[..i] == s[..i];
      UpcomingScanStops(t, pos, window, i);
    } else {
      assert s[..i] == s[..last];
    }
  }

  /** A negative (or zero) window sees nothing coming. */
  lemma {:induction false} NoUpcomingInEmptyWindow(s: seq<NoteEvent>, pos: real, window: real)
    requires window <= 0.0
    ensures UpcomingNotesAt(s, pos, window) == []
  {
    if s != [] {
      NoUpcomingInEmptyWindow(s[..|s| - 1], pos, window);
    }
  }

  /** Past every note's end nothing is active; past every note's start nothing
      is upcoming, whatever the window. */
  lemma {:induction false} QueriesEmptyPastTheEnd(s: seq<NoteEvent>, pos: real, window: real)
    requires forall i | 0 <= i < |s| :: s[i].end < pos && s[i].start <= pos
    ensures ActiveNotesAt(s, pos) == []
    ensures UpcomingNotesAt(s, pos, window) == []
  {
    if s != [] {
      QueriesEmptyPastTheEnd(s[..|s| - 1], pos, window);
    }
  }

  // ---------------------------------------------------------------------------
  // The playback clock

  /** The three clock fields of a session: `is_playing`, `start_time` and
      `pause_offset`. */
  datatype Clock = Clock(isPlaying: bool, startTime: real, pauseOffset: real)

  /** `get_current_position`. */
  function Position(c: Clock, now: real): real {
    if c.isPlaying then now - c.startTime else c.pauseOffset
  }

  /** `start`: no guard, so a playing clock is rebased on `pause_offset` too. */
  function Started(c: Clock, now: real): Clock {
    Clock(true, now - c.pauseOffset, c.pauseOffset)
  }

  /** `pause`: only a playing clock changes. */
  function Paused(c: Clock, now: real): Clock {
    if c.isPlaying then Clock(false, c.startTime, now - c.startTime) else c
  }

  /** The clock part of `seek`: the position is taken as given, unclamped. */
  function Sought(c: Clock, position: real, now: real): Clock {
    Clock(c.isPlaying, if c.isPlaying then now - position else c.startTime, position)
  }

  /** The `realtime_sync` handler: a seek followed by start or pause. */
  function Synced(c: Clock, position: real, playing: bool, now: real): Clock {
    var sought := Sought(c, position, now);
    if playing then Started(sought, now) else Paused(sought, now)
  }

  /** `start` always leaves the clock playing, positioned at `pause_offset` at
      the instant of the call, whether or not it was playing before. */
  lemma StartPositionsAtPauseOffset(c: Clock, now: real, later: real)
    ensures Started(c, now).isPlaying
    ensures Position(Started(c, now), now) == c.pauseOffset
    ensures Position(Started(c, now), later) == c.pauseOffset + (later - now)
  {
  }

  /** Two starts at one instant are one start. */
  lemma StartTwiceAtOneInstant(c: Clock, now: real)
    ensures Started(Started(c, now), now) == Started(c, now)
  {
  }

  /** Because `start` has no already-playing guard, a second start at a later
      instant moves a playing clock back to the last pause offset instead of
      leaving it running. */
  lemma RestartRewindsPlayingClock()
    ensures Position(Started(Clock(false, 0.0, 0.0), 0.0), 10.0) == 10.0
    ensures Position(Started(Started(Clock(false, 0.0, 0.0), 0.0), 10.0), 10.0) == 0.0
  {
    assert Started(Clock(false, 0.0, 0.0), 0.0) == Clock(true, 0.0, 0.0);
    assert Started(Clock(true, 0.0, 0.0), 10.0) == Clock(true, 10.0, 0.0);
  }

  /** `pause` is idempotent, and freezes the position it had at its call. */
  lemma PauseIdempotent(c: Clock, now: real, later: real)
    ensures Paused(Paused(c, now), later) == Paused(c, now)
    ensures !Paused(c, now).isPlaying
    ensures Position(Paused(c, now), later) == Position(c, now)
  {
  }

  /** Resuming after a pause continues from the paused position. */
  lemma ResumeContinues(c: Clock, pausedAt: real, resumedAt: real)
    ensures Position(Started(Paused(c, pausedAt), resumedAt), resumedAt) == Position(c, pausedAt)
  {
  }

  /** `seek` keeps the playing flag; the position at the same instant is the
      requested one, and a playing clock then runs on from it. */
  lemma SeekMovesPosition(c: Clock, position: real, now: real, later: real)
    ensures Sought(c, position, now).isPlaying == c.isPlaying
    ensures Sought(c, position, now).pauseOffset == position
    ensures Position(Sought(c, position, now), now) == position
    ensures c.isPlaying ==> Position(Sought(c, position, now), later) == position + (later - now)
  {
  }

  /** A sync leaves the clock in the reported play state at the reported
      position, whatever its state before. */
  lemma SyncReconciles(c: Clock, position: real, playing: bool, now: real)
    ensures Synced(c, position, playing, now).isPlaying == playing
    ensures Position(Synced(c, position, playing, now), now) == position
  {
  }

  // ---------------------------------------------------------------------------
  // Session snapshots

  /** The dictionary `to_state` returns. */
  datatype SessionState = SessionState(
    position: real,
    isPlaying: bool,
    activeNotes: seq<NoteEvent>,
    upcomingNotes: seq<NoteEvent>,
    progress: real)

  function ProgressFraction(pos: real, duration: real): real {
    if duration > 0.0 then pos / duration else 0.0
  }

  /** What `to_state` reports for a store, a duration and a clock at `now`. */
  function Snapshot(notes: seq<NoteEvent>, duration: real, c: Clock, now: real): SessionState {
    var pos := Position(c, now);
    SessionState(pos, c.isPlaying, ActiveNotesAt(notes, pos),
                 UpcomingNotesAt(notes, pos, DefaultWindow), ProgressFraction(pos, duration))
  }

  /** Seeking to 5 over notes [4, 6] and [7, 8]: the first is active and the
      second is upcoming within the default two-second window. */
  lemma SeekThenQueryExample(c: Clock, now: real, duration: real)
    ensures var notes := [NoteEvent(4.0, 6.0, 60, 100, "C4"), NoteEvent(7.0, 8.0, 62, 100, "D4")];
            var st := Snapshot(notes, duration, Sought(c, 5.0, now), now);
            st.position == 5.0 && st.activeNotes == [notes[0]] && st.upcomingNotes == [notes[1]]
  {
    var notes := [NoteEvent(4.0, 6.0, 60, 100, "C4"), NoteEvent(7.0, 8.0, 62, 100, "D4")];
    var pos := Position(Sought(c, 5.0, now), now);
    assert pos == 5.0;
    assert notes[..1] == [notes[0]];
    assert [notes[0]][..0] == [];
    assert ActiveNotesAt([notes[0]], pos) == [notes[0]];
    assert ActiveNotesAt(notes, pos) == ActiveNotesAt(notes[..1], pos);
    assert UpcomingNotesAt([notes[0]], pos, DefaultWindow) == [];
    assert UpcomingNotesAt(notes, pos, DefaultWindow) == UpcomingNotesAt(notes[..1], pos, DefaultWindow) + [notes[1]];
  }

  /** The progress fraction is `pos / duration` for a positive duration and 0
      otherwise; within the track it lies in [0, 1]. */
  lemma ProgressWithinTrack(pos: real, duration: real)
    ensures duration <= 0.0 ==> ProgressFraction(pos, duration) == 0.0
    ensures 0.0 <= pos <= duration && duration > 0.0 ==> 0.0 <= ProgressFraction(pos, duration) <= 1.0
  {
  }

  // ---------------------------------------------------------------------------
  // The session object

  function Max1(n: nat): nat { if n < 1 then 1 else n }

  /** `k` is the index `seek` leaves in `current_index`: the last note starting
      at or before `p`, or 0 when there is none. */
  ghost predicate IsScanCursor(s: seq<NoteEvent>, p: real, k: int) {
    && 0 <= k < Max1(|s|)
    && ((exists j | 0 <= j < |s| :: s[j].start <= p) ==>
          s[k].start <= p && forall j | k < j < |s| :: s[j].start > p)
    && ((forall j | 0 <= j < |s| :: s[j].start > p) ==> k == 0)
  }

  class RealtimeSession {
    const noteEvents: seq<NoteEvent>
    const audioDuration: real
    var currentIndex: int
    var isPlaying: bool
    var startTime: real
    var pauseOffset: real

    ghost predicate Valid()
      reads this
    {
      StartSorted(noteEvents) && 0 <= currentIndex < Max1(|noteEvents|)
    }

    function State(): Clock
      reads this
    {
      Clock(isPlaying, startTime, pauseOffset)
    }

    /** A new session holds the notes stably sorted by start and a paused
        clock at position 0. */
    constructor(events: seq<NoteEvent>, duration: real)
      ensures Valid()
      ensures noteEvents == Sorting.SortBy(events, EventStart) && audioDuration == duration
      ensures currentIndex == 0 && State() == Clock(false, 0.0, 0.0)
    {
      noteEvents := Sorting.SortBy(events, EventStart);
      audioDuration := duration;
      currentIndex := 0;
      isPlaying := false;
      startTime := 0.0;
      pauseOffset := 0.0;
      Sorting.SortByOrdered(events, EventStart);
    }

    method Start(now: real)
      requires Valid()
      modifies this
      ensures Valid() && currentIndex == old(currentIndex)
      ensures State() == Started(old(State()), now)
    {
      isPlaying := true;
      startTime := now - pauseOffset;
    }

    method Pause(now: real)
      requires Valid()
      modifies this
      ensures Valid() && currentIndex == old(currentIndex)
      ensures State() == Paused(old(State()), now)
    {
      if isPlaying {
        pauseOffset := now - startTime;
        isPlaying := false;
      }
    }

    method Seek(position: real, now: real)
      requires Valid()
      modifies this
      ensures Valid()
      ensures State() == Sought(old(State()), position, now)
      ensures IsScanCursor(noteEvents, position, currentIndex)
    {
      pauseOffset := position;
      if isPlaying {
        startTime := now - position;
      }
      currentIndex := 0;
      var i := 0;
      while i < |noteEvents|
        invariant 0 <= i <= |noteEvents|
        invariant forall j | 0 <= j < i :: noteEvents[j].start <= position
        invariant currentIndex == if i == 0 then 0 else i - 1
        invariant State() == Sought(old(State()), position, now)
      {
        if noteEvents[i].start > position {
          forall j | i < j < |noteEvents| ensures noteEvents[j].start > position {
            assert EventStart(noteEvents[i]) <= EventStart(noteEvents[j]);
          }
          break;
        }
        currentIndex := i;
        i := i + 1;
      }
    }

    method GetActiveNotes(now: real) returns (active: seq<NoteEvent>)
      requires Valid()
      ensures active == ActiveNotesAt(noteEvents, Position(State(), now))
    {
      var pos := Position(State(), now);
      active := [];
      var i := 0;
      while i < |noteEvents|
        invariant 0 <= i <= |noteEvents|
        invariant active == ActiveNotesAt(noteEvents[..i], pos)
      {
        var note := noteEvents[i];
        assert noteEvents[..i + 1][..i] == noteEvents[..i];
        if note.start <= pos <= note.end {
          active := active + [note];
        } else if note.start > pos {
          ActiveScanStops(noteEvents, pos, i);
          return;
        }
        i := i + 1;
      }
      assert noteEvents[..i] == noteEvents;
    }

    method GetUpcomingNotes(now: real, window: real) returns (upcoming: seq<NoteEvent>)
      requires Valid()
      ensures upcoming == UpcomingNotesAt(noteEvents, Position(State(), now), window)
    {
      var pos := Position(State(), now);
      upcoming := [];
      var i := 0;
      while i < |noteEvents|
        invariant 0 <= i <= |noteEvents|
        invariant upcoming == UpcomingNotesAt(noteEvents[..i], pos, window)
      {
        var note := noteEvents[i];
        assert noteEvents[..i + 1][..i] == noteEvents[..i];
        if pos < note.start <= pos + window {
          upcoming := upcoming + [note];
        } else if note.start > pos + window {
          UpcomingScanStops(noteEvents, pos, window, i);
          return;
        }
        i := i + 1;
      }
      assert noteEvents[..i] == noteEvents;
    }

    method ToState(now: real) returns (st: SessionState)
      requires Valid()
      ensures st == Snapshot(noteEvents, audioDuration, State(), now)
    {
      var pos := Position(State(), now);
      var active := GetActiveNotes(now);
      var upcoming := GetUpcomingNotes(now, DefaultWindow);
      var progress := if audioDuration > 0.0 then pos / audioDuration else 0.0;
      st := SessionState(pos, isPlaying, active, upcoming, progress);
    }
  }
}
