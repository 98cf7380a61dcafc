/** The chord listener: notes arriving as OSC key-on messages are gathered
    into a pending chord, and a one-shot timer started by the first note of
    the chord moves the pending notes into the queue of live chords when it
    fires. The OSC server, its thread and the real-time timer thread are not
    modelled: a message is a call to `KeyOnHandler` with the arrival time, and
    the timer firing is a call to `TimerFire`. */
module Listener {
  import opened Wrappers

  /** The notes of a sequence of chords, one chord after the other. */
  function Flatten(chords: seq<seq<int>>): seq<int>
  {
    if chords == [] then [] else Flatten(chords[..|chords| - 1]) + chords[|chords| - 1]
  }

  /** Queueing one more chord adds its notes at the end. */
  lemma FlattenAppend(chords: seq<seq<int>>, chord: seq<int>)
    ensures Flatten(chords + [chord]) == Flatten(chords) + chord
  {
    assert (chords + [chord])[..|chords|] == chords;
  }

  /** Every note of the flattened chords comes from one of them. */
  lemma {:induction false} FlattenMembers(chords: seq<seq<int>>, n: int)
    ensures n in Flatten(chords) <==> exists i :: 0 <= i < |chords| && n in chords[i]
  {
    if chords != [] {
      var init, last := chords[..|chords| - 1], chords[|chords| - 1];
      assert Flatten(chords) == Flatten(init) + last;
      FlattenMembers(init, n);
      if n in Flatten(init) {
        var i :| 0 <= i < |init| && n in init[i];
        assert chords[i] == init[i];
      } else if n in last {
        assert n in chords[|chords| - 1];
      }
      if exists i :: 0 <= i < |chords| && n in chords[i] {
        var i :| 0 <= i < |chords| && n in chords[i];
        if i < |init| {
          assert chords[i] == init[i];
        }
      }
    }
  }

  /** Arrival times that all fall inside the window opened by the first:
      none before it, and none `duration` or more after it. */
  predicate InWindow(times: seq<real>, duration: real)
  {
    forall j :: 0 < j < |times| ==> times[0] <= times[j] < times[0] + duration
  }

  /** A note arriving before the window of a chord closes, and no earlier
      than the chord's last note, keeps the chord inside its window. */
  lemma InWindowAppend(times: seq<real>, now: real, duration: real)
    requires InWindow(times, duration)
    requires times != [] ==> times[|times| - 1] <= now < times[0] + duration
    ensures InWindow(times + [now], duration)
  {
    if times != [] {
      assert times[0] <= times[|times| - 1];
    }
  }

  class KeyboardListener {
    const port: int
    /** Seconds between the first note of a chord and the timer firing. */
    const chordDuration: real
    /** The queue of finished chords, oldest first. */
    var liveChords: seq<seq<int>>
    /** The notes of the chord being gathered, in arrival order. */
    var currentChordNotes: seq<int>
    var listening: bool
    /** The firing time of the pending timer; None when no timer is pending
        (none was started, or the last one fired or was cancelled). */
    var chordTimer: Option<real>
    /** Every note received, in arrival order. */
    ghost var received: seq<int>
    /** The arrival time of each pending note. */
    ghost var arrivals: seq<real>
    /** The arrival times of the notes of each queued chord. */
    ghost var liveArrivals: seq<seq<real>>

    /** A timer is pending exactly while a chord is being gathered, due
        `chordDuration` after the chord's first note; no queued chord is
        empty; the queued chords followed by the pending notes are the notes
        received, in order; and every chord, queued or pending, holds only
        notes that arrived within `chordDuration` of its first note. */
    ghost predicate Valid()
      reads this
    {
      && (chordTimer.Some? <==> currentChordNotes != [])
      && |arrivals| == |currentChordNotes|
      && (currentChordNotes != [] ==> chordTimer == Some(arrivals[0] + chordDuration))
      && InWindow(arrivals, chordDuration)
      && (forall i :: 0 <= i < |liveChords| ==> liveChords[i] != [])
      && |liveArrivals| == |liveChords|
      && (forall i :: 0 <= i < |liveChords| ==> |liveArrivals[i]| == |liveChords[i]| && InWindow(liveArrivals[i], chordDuration))
      && Flatten(liveChords) + currentChordNotes == received
    }

    constructor (port: int, chordDuration: real)
      ensures Valid()
      ensures this.port == port && this.chordDuration == chordDuration
      ensures liveChords == [] && currentChordNotes == [] && chordTimer == None && !listening
      ensures received == [] && arrivals == [] && liveArrivals == []
    {
      this.port := port;
      this.chordDuration := chordDuration;
      liveChords := [];
      currentChordNotes := [];
      listening := false;
      chordTimer := None;
      received := [];
      arrivals := [];
      liveArrivals := [];
    }

    /** `key_on_handler` at time `now`: the first value of the message is
        appended to the pending chord, and the chord timer is started when
        this is the chord's first note. Later notes do not restart it, so the
        chord closes a fixed time after its first note. A message without
        values raises IndexError and changes nothing. Messages arrive in
        time order, and a timer that has come due has fired before the next
        message is handled. */
    method KeyOnHandler(args: seq<int>, now: real) returns (error: Option<PyError>)
      requires Valid()
      requires currentChordNotes != [] ==> arrivals[|arrivals| - 1] <= now < chordTimer.value
      modifies this
      ensures Valid()
      ensures error.Some? <==> args == []
      ensures error.Some? ==> error.value == IndexError && unchanged(this)
      ensures error.None? ==>
                && currentChordNotes == old(currentChordNotes) + [args[0]]
                && received == old(received) + [args[0]]
                && arrivals == old(arrivals) + [now] && liveArrivals == old(liveArrivals)
                && chordTimer == (if old(currentChordNotes) == [] then Some(now + chordDuration) else old(chordTimer))
                && liveChords == old(liveChords) && listening == old(listening)
    {
      if args == [] {
        return Some(IndexError);
      }
      var note := args[0];
      if currentChordNotes == [] {
        StartChordTimer(now);
      }
      InWindowAppend(arrivals, now, chordDuration);
      currentChordNotes := currentChordNotes + [note];
      received := received + [note];
      arrivals := arrivals + [now];
      error := None;
    }

    /** `start_chord_timer`: any pending timer is cancelled and a new one is
        set to fire `chordDuration` after `now`, so at most one is pending. */
    method StartChordTimer(now: real)
      modifies this
      ensures chordTimer == Some(now + chordDuration)
      ensures liveChords == old(liveChords) && currentChordNotes == old(currentChordNotes)
      ensures listening == old(listening) && received == old(received)
      ensures arrivals == old(arrivals) && liveArrivals == old(liveArrivals)
    {
      chordTimer := Some(now + chordDuration);
    }

    /** `finalize_chord`: a copy of the pending notes becomes the newest
        live chord, and the pending notes are cleared. */
    method FinalizeChord()
      modifies this
      ensures liveChords == old(liveChords) + [old(currentChordNotes)]
      ensures currentChordNotes == []
      ensures chordTimer == old(chordTimer) && listening == old(listening) && received == old(received)
      ensures liveArrivals == old(liveArrivals) + [old(arrivals)] && arrivals == []
    {
      var chord := currentChordNotes;
      liveChords := liveChords + [chord];
      currentChordNotes := [];
      liveArrivals := liveArrivals + [arrivals];
      arrivals := [];
    }

    /** The pending timer fires at time `now` when its time has come; the
        chord it closed is queued. */
    method TimerFire(now: real) returns (fired: bool)
      requires Valid()
      modifies this
      ensures Valid()
      ensures fired <==> old(chordTimer).Some? && old(chordTimer).value <= now
      ensures fired ==> && liveChords == old(liveChords) + [old(currentChordNotes)]
                        && currentChordNotes == [] && chordTimer == None
                        && liveArrivals == old(liveArrivals) + [old(arrivals)] && arrivals == []
      ensures !fired ==> unchanged(this)
      ensures listening == old(listening) && received == old(received)
    {
      if chordTimer.None? || now < chordTimer.value {
        return false;
      }
      FinalizeChord();
      chordTimer := None;
      FlattenAppend(old(liveChords), old(currentChordNotes));
      fired := true;
    }

    /** `start_listening`: the flag is raised once; a second call does nothing. */
    method StartListening()
      modifies this
      ensures listening
      ensures old(listening) ==> unchanged(this)
      ensures liveChords == old(liveChords) && currentChordNotes == old(currentChordNotes)
      ensures chordTimer == old(chordTimer) && received == old(received)
      ensures arrivals == old(arrivals) && liveArrivals == old(liveArrivals)
    {
      if !listening {
        listening := true;
      }
    }

    /** `stop_listening`: the flag is lowered once; the pending chord and its
        timer are left as they are. */
    method StopListening()
      modifies this
      ensures !listening
      ensures !old(listening) ==> unchanged(this)
      ensures liveChords == old(liveChords) && currentChordNotes == old(currentChordNotes)
      ensures chordTimer == old(chordTimer) && received == old(received)
      ensures arrivals == old(arrivals) && liveArrivals == old(liveArrivals)
    {
      if listening {
        listening := false;
      }
    }
  }

  /** Notes 60 and 64 arriving within the chord window, followed by the
      timer, make one chord [60, 64]. */
  method TwoNoteChord() returns (chords: seq<seq<int>>)
    ensures chords == [[60, 64]]
  {
    var listener := new KeyboardListener(50000, 1.0);
    var _ := listener.KeyOnHandler([60], 0.0);
    assert listener.currentChordNotes == [60] && listener.chordTimer == Some(1.0);
    var _ := listener.KeyOnHandler([64], 0.25);
    assert listener.currentChordNotes == [60, 64] && listener.liveChords == [];
    var early := listener.TimerFire(0.5);
    assert !early;
    var fired := listener.TimerFire(1.0);
    assert fired;
    chords := listener.liveChords;
  }

  /** A note arriving after the window of the first has closed starts a
      chord of its own: 60 at 0.0 and 64 at 5.0 make the chords [60] and
      [64]. */
  method LateNoteStartsNewChord() returns (chords: seq<seq<int>>)
    ensures chords == [[60], [64]]
  {
    var listener := new KeyboardListener(50000, 1.0);
    var _ := listener.KeyOnHandler([60], 0.0);
    assert listener.currentChordNotes == [60] && listener.liveChords == [];
    var first := listener.TimerFire(1.0);
    assert first && listener.liveChords == [[60]];
    var _ := listener.KeyOnHandler([64], 5.0);
    assert listener.currentChordNotes == [64] && listener.chordTimer == Some(6.0);
    var second := listener.TimerFire(6.0);
    assert second;
    chords := listener.liveChords;
  }
}
