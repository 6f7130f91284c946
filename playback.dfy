/** The playback timeline. Time is counted in ticks of the 24 kHz playback
    clock, so a chunk of n samples lasts exactly n ticks. A single cursor holds
    the earliest time the next chunk may start; each chunk starts at the later
    of the current time and the cursor, and the cursor moves to its end. */
module Playback {
  import opened Protocol
  import Pcm

  /** Sample rate of the playback buffers; one tick is one sample at this rate. */
  const SAMPLE_RATE: nat := 24000

  /** One buffer source started on the audio context. */
  datatype Segment = Segment(start: int, samples: seq<real>)

  function End(s: Segment): int
  {
    s.start + |s.samples|
  }

  /** A chunk as it reaches the scheduler: the clock reading then (the audio context's
      clock never reads below zero), and its bytes. */
  datatype Arrival = Arrival(now: nat, pcm: seq<byte>)

  /** A chunk the scheduler accepts: whole 16-bit samples, at least one of them. */
  predicate Playable(pcm: seq<byte>)
  {
    |pcm| % 2 == 0 && |pcm| >= 2
  }

  /** `Math.max(now, cursor)`: the start of a chunk arriving at `now`. */
  function StartTime(now: int, cursor: int): (t: int)
    ensures t >= now && t >= cursor
    ensures t == now || t == cursor
  {
    if now >= cursor then now else cursor
  }

  /** No segment starts before an earlier one has ended. */
  ghost predicate Disjoint(ss: seq<Segment>)
  {
    forall i, j :: 0 <= i < j < |ss| ==> End(ss[i]) <= ss[j].start
  }

  /** Every segment has ended by `cursor`. */
  ghost predicate Behind(ss: seq<Segment>, cursor: int)
  {
    forall i :: 0 <= i < |ss| ==> End(ss[i]) <= cursor
  }

  /** The cursor after the segments `done`, started from `cursor`. */
  function CursorAfter(cursor: int, done: seq<Segment>): int
  {
    if done == [] then cursor else End(done[|done| - 1])
  }

  /** The end of segment i-1, or the initial cursor for the first segment. */
  function PrevEnd(cursor: int, r: seq<Segment>, i: nat): int
    requires i <= |r|
  {
    if i == 0 then cursor else End(r[i - 1])
  }

  /** The segments a run of arrivals produces, starting from `cursor`. It is defined for any
      run, but only runs of playable chunks reach it: `playAudioChunk` throws on an
      odd-length or empty chunk before scheduling it, and the session's own statement about
      the runs it plays (`PlayedThrough`) includes that each of them was playable. */
  function ScheduleAll(cursor: int, arrivals: seq<Arrival>): (r: seq<Segment>)
    ensures |r| == |arrivals|
    decreases |arrivals|
  {
    if arrivals == [] then []
    else
      var done := ScheduleAll(cursor, arrivals[..|arrivals| - 1]);
      var a := arrivals[|arrivals| - 1];
      done + [Segment(StartTime(a.now, CursorAfter(cursor, done)), Pcm.Samples(a.pcm))]
  }

  /** Appending one arrival appends one segment, started at the later of its clock reading
      and the cursor the earlier arrivals left. */
  lemma ScheduleAllSnoc(cursor: int, arrivals: seq<Arrival>, a: Arrival)
    ensures var done := ScheduleAll(cursor, arrivals);
      && ScheduleAll(cursor, arrivals + [a])
           == done + [Segment(StartTime(a.now, CursorAfter(cursor, done)), Pcm.Samples(a.pcm))]
      && CursorAfter(cursor, ScheduleAll(cursor, arrivals + [a]))
           == StartTime(a.now, CursorAfter(cursor, done)) + |a.pcm| / 2
  {
    assert (arrivals + [a])[..|arrivals|] == arrivals;
  }

  /** Segment i of a run starts at max(now at arrival i, end of segment i-1), the initial
      cursor standing in for segment -1, and holds the decoded samples of chunk i. */
  lemma {:induction false} ScheduleAllAt(cursor: int, arrivals: seq<Arrival>, i: nat)
    requires i < |arrivals|
    ensures var r := ScheduleAll(cursor, arrivals);
      r[i] == Segment(StartTime(arrivals[i].now, PrevEnd(cursor, r, i)),
                      Pcm.Samples(arrivals[i].pcm))
    decreases |arrivals|
  {
    var n := |arrivals| - 1;
    var front := arrivals[..n];
    var done := ScheduleAll(cursor, front);
    var r := ScheduleAll(cursor, arrivals);
    assert r == done + [Segment(StartTime(arrivals[n].now, CursorAfter(cursor, done)),
                                Pcm.Samples(arrivals[n].pcm))];
    if i < n {
      ScheduleAllAt(cursor, front, i);
      assert r[i] == done[i] && front[i] == arrivals[i];
      if i > 0 {
        assert r[i - 1] == done[i - 1];
      }
    }
  }

  /** Segments never overlap, none starts before the initial cursor, the final cursor lies
      behind every segment and never below the initial cursor. */
  lemma {:induction false} ScheduleAllOrdered(cursor: int, arrivals: seq<Arrival>)
    ensures var r := ScheduleAll(cursor, arrivals);
      && (forall i :: 0 <= i < |r| ==> r[i].start >= cursor)
      && Disjoint(r)
      && Behind(r, CursorAfter(cursor, r))
      && CursorAfter(cursor, r) >= cursor
    decreases |arrivals|
  {
    if arrivals != [] {
      var n := |arrivals| - 1;
      var front := arrivals[..n];
      var a := arrivals[n];
      ScheduleAllOrdered(cursor, front);
      ScheduleAllSnoc(cursor, front, a);
      assert front + [a] == arrivals;
      var done := ScheduleAll(cursor, front);
      var c := CursorAfter(cursor, done);
      var last := Segment(StartTime(a.now, c), Pcm.Samples(a.pcm));
      var r := ScheduleAll(cursor, arrivals);
      assert r == done + [last];
      assert last.start >= c;
      assert CursorAfter(cursor, r) == End(last);
      forall i | 0 <= i < n
        ensures r[i] == done[i]
      {
      }
      assert Disjoint(r) by {
        forall i, j | 0 <= i < j < |r|
          ensures End(r[i]) <= r[j].start
        {
          if j < n {
            assert End(done[i]) <= done[j].start;
          } else {
            assert End(done[i]) <= c;
          }
        }
      }
      assert Behind(r, End(last)) by {
        forall i | 0 <= i < |r|
          ensures End(r[i]) <= End(last)
        {
          if i < n {
            assert End(done[i]) <= c;
          }
        }
      }
    }
  }

  /** For any run of arrivals: segment i+1 starts at max(now at its arrival, end of segment i),
      it lasts as many ticks as its chunk has samples, segments never overlap, nothing starts
      before the initial cursor or before its own arrival, and the cursor never moves backwards. */
  lemma ScheduleAllTimeline(cursor: int, arrivals: seq<Arrival>)
    ensures var r := ScheduleAll(cursor, arrivals);
      && (forall i :: 0 <= i < |r| ==>
            r[i].start == StartTime(arrivals[i].now, PrevEnd(cursor, r, i)))
      && (forall i :: 0 <= i < |r| ==> |r[i].samples| == |arrivals[i].pcm| / 2)
      && (forall i :: 0 <= i < |r| ==> r[i].start >= cursor && r[i].start >= arrivals[i].now)
      && Disjoint(r)
      && Behind(r, CursorAfter(cursor, r))
      && CursorAfter(cursor, r) >= cursor
  {
    var r := ScheduleAll(cursor, arrivals);
    ScheduleAllOrdered(cursor, arrivals);
    forall i | 0 <= i < |r|
      ensures r[i].start == StartTime(arrivals[i].now, PrevEnd(cursor, r, i))
      ensures |r[i].samples| == |arrivals[i].pcm| / 2
      ensures r[i].start >= arrivals[i].now
    {
      ScheduleAllAt(cursor, arrivals, i);
    }
  }

  /** The cursor after a run covers everything a prefix of the run left behind. */
  lemma {:induction false} CursorMonotone(cursor: int, arrivals: seq<Arrival>, k: nat)
    requires k <= |arrivals|
    ensures CursorAfter(cursor, ScheduleAll(cursor, arrivals[..k]))
         <= CursorAfter(cursor, ScheduleAll(cursor, arrivals))
    decreases |arrivals|
  {
    if k < |arrivals| {
      var n := |arrivals| - 1;
      assert arrivals[..n][..k] == arrivals[..k];
      CursorMonotone(cursor, arrivals[..n], k);
      var done := ScheduleAll(cursor, arrivals[..n]);
      ScheduleAllTimeline(cursor, arrivals[..n]);
      assert CursorAfter(cursor, done) >= cursor;
    } else {
      assert arrivals[..k] == arrivals;
    }
  }
}
