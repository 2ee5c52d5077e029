/** The pure helpers of the realtime listening view of the web client: the
    clock label, the notes it highlights as sounding, the notes it greys out
    as past, and the 200-note cut of the timeline. */
module RealtimeListener {
  import opened Util
  import opened Notes
  import Realtime

  // ---------------------------------------------------------------------------
  // formatTime

  function Floor(x: real): int { x.Floor }

  /** `Math.trunc`: rounding toward zero. */
  function Trunc(x: real): int {
    if x >= 0.0 then x.Floor else -((-x).Floor)
  }

  /** JavaScript's `%` on numbers: the remainder keeps the sign of the
      dividend. */
  function JsRem(a: real, b: real): real
    requires b != 0.0
  {
    a - b * (Trunc(a / b) as real)
  }

  /** `formatTime`. */
  function FormatTime(seconds: real): string {
    var m := Floor(seconds / 60.0);
    var s := Floor(JsRem(seconds, 60.0));
    IntToString(m) + ":" + PadStart2(IntToString(s))
  }

  /** Splitting a non-negative time: the minutes and seconds the label shows
      are the whole minutes and the whole seconds left over. */
  lemma MinutesAndSeconds(seconds: real)
    requires seconds >= 0.0
    ensures var f := Floor(seconds);
      && Floor(seconds / 60.0) == f / 60
      && Floor(JsRem(seconds, 60.0)) == f % 60
  {
    var f := Floor(seconds);
    var q := f / 60;
    var r := f % 60;
    assert f == 60 * q + r;
    assert (f as real) <= seconds < (f as real) + 1.0;
    assert (60 * q) as real <= seconds < (60 * q + 60) as real;
    assert (q as real) <= seconds / 60.0 < (q as real) + 1.0;
    assert Floor(seconds / 60.0) == q;
    assert Trunc(seconds / 60.0) == q;
    var rem := JsRem(seconds, 60.0);
    assert rem == seconds - 60.0 * (q as real);
    assert (r as real) <= rem < (r as real) + 1.0;
  }

  /** A number below 60, zero-padded to two digits. */
  lemma PaddedTwoDigits(n: nat)
    requires n < 60
    ensures PadStart2(IntToString(n)) == [DigitChar(n / 10), DigitChar(n % 10)]
  {
    if n >= 10 {
      assert NatToString(n) == NatToString(n / 10) + [DigitChar(n % 10)];
    }
  }

  /** For a non-negative time the label is the whole minutes, a colon, and the
      two digits of the whole seconds left over, which lie in 00..59. */
  lemma FormatTimeNonNegative(seconds: real)
    requires seconds >= 0.0
    ensures var f := Floor(seconds);
      && 0 <= f % 60 < 60
      && (f / 60) * 60 + f % 60 == f
      && FormatTime(seconds) == NatToString(f / 60) + ":" + [DigitChar((f % 60) / 10), DigitChar((f % 60) % 10)]
  {
    MinutesAndSeconds(seconds);
    PaddedTwoDigits(Floor(seconds) % 60);
  }

  /** Two and a half minutes read `2:30`. */
  lemma FormatTimeMinutes()
    ensures FormatTime(150.0) == "2:30"
  {
    FormatTimeNonNegative(150.0);
    assert Floor(150.0) == 150;
  }

  /** Seconds below ten are padded. */
  lemma FormatTimePadded()
    ensures FormatTime(5.5) == "0:05"
  {
    FormatTimeNonNegative(5.5);
    assert Floor(5.5) == 5;
  }

  /** A negative time keeps both signs: the minutes round down, the seconds
      toward zero. */
  lemma FormatTimeNegative()
    ensures FormatTime(-5.0) == "-1:-5"
  {
    assert Floor(-5.0 / 60.0) == -1;
    assert Trunc(-5.0 / 60.0) == 0;
    assert JsRem(-5.0, 60.0) == -5.0;
    assert Floor(JsRem(-5.0, 60.0)) == -5;
    assert IntToString(-1) == "-1" by { assert NatToString(1) == "1"; }
    assert IntToString(-5) == "-5" by { assert NatToString(5) == "5"; }
    assert PadStart2("-5") == "-5";
  }

  // ---------------------------------------------------------------------------
  // Highlighting

  /** The predicate of the client's `notes.filter`. */
  predicate Sounding(n: NoteEvent, time: real) {
    n.start <= time && n.end >= time
  }

  /** `notes.filter(...)`: the notes sounding at `time`, in list order. */
  function ClientActive(notes: seq<NoteEvent>, time: real): seq<NoteEvent> {
    if notes == [] then []
    else (if Sounding(notes[0], time) then [notes[0]] else []) + ClientActive(notes[1..], time)
  }

  lemma {:induction false} ClientActiveAppend(s: seq<NoteEvent>, t: seq<NoteEvent>, time: real)
    ensures ClientActive(s + t, time) == ClientActive(s, time) + ClientActive(t, time)
  {
    if s == [] {
      assert s + t == t;
    } else {
      assert (s + t)[0] == s[0];
      assert (s + t)[1..] == s[1..] + t;
      ClientActiveAppend(s[1..], t, time);
    }
  }

  /** The client's highlight filter and the server session's active-note query
      select the same notes in the same order. */
  lemma {:induction false} ClientActiveMatchesServer(notes: seq<NoteEvent>, time: real)
    ensures ClientActive(notes, time) == Realtime.ActiveNotesAt(notes, time)
  {
    if notes != [] {
      var init := notes[..|notes| - 1];
      var last := notes[|notes| - 1];
      ClientActiveMatchesServer(init, time);
      assert notes == init + [last];
      ClientActiveAppend(init, [last], time);
      assert ClientActive([last], time) == (if Sounding(last, time) then [last] else []) by {
        assert [last][1..] == [];
      }
    }
  }

  /** On the notes of a session, the client highlights exactly what the
      session reports as active at the same position. */
  lemma ClientAgreesWithSession(s: Realtime.RealtimeSession, now: real)
    requires s.Valid()
    ensures ClientActive(s.noteEvents, Realtime.Position(s.State(), now))
      == Realtime.ActiveNotesAt(s.noteEvents, Realtime.Position(s.State(), now))
  {
    ClientActiveMatchesServer(s.noteEvents, Realtime.Position(s.State(), now));
  }

  /** `isNotePast`. */
  predicate IsNotePast(n: NoteEvent, currentTime: real) {
    n.end < currentTime
  }

  /** At one instant a note is never both past and sounding. */
  lemma PastIsNotSounding(notes: seq<NoteEvent>, n: NoteEvent, time: real)
    requires n in ClientActive(notes, time)
    ensures !IsNotePast(n, time)
  {
    ClientActiveMatchesServer(notes, time);
  }

  /** `isNoteActive`: some highlighted note has the same start and pitch. */
  function IsNoteActive(active: seq<NoteEvent>, n: NoteEvent): (b: bool)
    ensures b <==> exists a | a in active :: a.start == n.start && a.pitch == n.pitch
  {
    if active == [] then false
    else (active[0].start == n.start && active[0].pitch == n.pitch) || IsNoteActive(active[1..], n)
  }

  /** Notes are told apart by start and pitch only: a note that has ended is
      still marked active while another note of the same pitch and start
      sounds. */
  lemma ActiveByStartAndPitch()
    ensures var held := NoteEvent(1.0, 3.0, 60, 90, "C4");
            var short := NoteEvent(1.0, 1.5, 60, 40, "C4");
            var active := ClientActive([held, short], 2.0);
            && active == [held]
            && IsNotePast(short, 2.0)
            && IsNoteActive(active, short)
  {
    var held := NoteEvent(1.0, 3.0, 60, 90, "C4");
    var short := NoteEvent(1.0, 1.5, 60, 40, "C4");
    assert [held, short][1..] == [short];
    assert [short][1..] == [];
    assert ClientActive([short], 2.0) == [];
    assert ClientActive([held, short], 2.0) == [held] + ClientActive([short], 2.0);
    assert held in [held];
  }

  // ---------------------------------------------------------------------------
  // The timeline

  const TimelineLimit: nat := 200

  /** `notes.slice(0, 200)`. */
  function Visible(notes: seq<NoteEvent>): seq<NoteEvent> {
    if |notes| <= TimelineLimit then notes else notes[..TimelineLimit]
  }

  /** The count the truncation line shows, present only when it is shown. */
  function TruncationCount(notes: seq<NoteEvent>): Option<nat> {
    if |notes| > TimelineLimit then Some(|notes| - TimelineLimit) else None
  }

  /** The timeline lists the first `min(200, n)` notes in order, and the
      truncation line, shown exactly when there are more, counts the rest. */
  lemma TimelineCoversNotes(notes: seq<NoteEvent>)
    ensures Visible(notes) <= notes
    ensures |Visible(notes)| == if |notes| < TimelineLimit then |notes| else TimelineLimit
    ensures TruncationCount(notes).Some? <==> |notes| > TimelineLimit
    ensures |Visible(notes)| + TruncationCount(notes).GetOr(0) == |notes|
  {
  }
}
