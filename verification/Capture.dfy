/**
 The microphone queue: samples cut into frames of 160, at most 100 of them
 waiting, the oldest dropped first.
 */
module Capture {
  import opened Wrappers

  const FRAME_SAMPLES: nat := 160
  const MAX_QUEUED_FRAMES: nat := 100

  type Sample = s: int | -0x8000 <= s <= 0x7FFF
  type Frame = seq<Sample>

  // ---------- Cutting ----------

  /** The whole frames at the front of a run of samples. */
  function Cut(samples: seq<Sample>): seq<Frame> {
    if |samples| < FRAME_SAMPLES then [] else [samples[..FRAME_SAMPLES]] + Cut(samples[FRAME_SAMPLES..])
  }

  /** The samples behind the last whole frame. */
  function Rest(samples: seq<Sample>): seq<Sample> {
    if |samples| < FRAME_SAMPLES then samples else Rest(samples[FRAME_SAMPLES..])
  }

  function Flatten(frames: seq<Frame>): seq<Sample> {
    if frames == [] then [] else frames[0] + Flatten(frames[1..])
  }

  /** The newest `n` frames. */
  function Newest(frames: seq<Frame>, n: nat): seq<Frame> {
    if |frames| <= n then frames else frames[|frames| - n..]
  }

  /** Cutting loses nothing: full frames, then fewer samples than one. */
  lemma {:induction false} CutIsExact(samples: seq<Sample>)
    ensures Flatten(Cut(samples)) + Rest(samples) == samples
    ensures forall i :: 0 <= i < |Cut(samples)| ==> |Cut(samples)[i]| == 160
    ensures |Rest(samples)| < 160
  {
    if |samples| >= FRAME_SAMPLES {
      CutIsExact(samples[FRAME_SAMPLES..]);
      assert Cut(samples)[1..] == Cut(samples[FRAME_SAMPLES..]);
      assert samples == samples[..FRAME_SAMPLES] + samples[FRAME_SAMPLES..];
    }
  }

  /** Cutting a long run is cutting its first part and then what that part left over. */
  lemma {:induction false} CutInParts(first: seq<Sample>, second: seq<Sample>)
    ensures Cut(first + second) == Cut(first) + Cut(Rest(first) + second)
    ensures Rest(first + second) == Rest(Rest(first) + second)
  {
    if |first| >= FRAME_SAMPLES {
      var head, tail := first[..FRAME_SAMPLES], first[FRAME_SAMPLES..];
      assert (first + second)[..FRAME_SAMPLES] == head && (first + second)[FRAME_SAMPLES..] == tail + second;
      CutInParts(tail, second);
      assert [head] + (Cut(tail) + Cut(Rest(tail) + second)) == [head] + Cut(tail) + Cut(Rest(tail) + second);
    } else {
      assert Cut(first) + Cut(first + second) == Cut(first + second);
    }
  }

  lemma NewestOfNewest(a: seq<Frame>, b: seq<Frame>, n: nat)
    ensures Newest(Newest(a, n) + b, n) == Newest(a + b, n)
  {
  }

  // ---------- The queue ----------

  /** How a frame left the queue. */
  datatype Fate = Delivered(frame: Frame) | Dropped(frame: Frame)

  function FramesOf(gone: seq<Fate>): (r: seq<Frame>)
    ensures |r| == |gone|
  {
    seq(|gone|, i requires 0 <= i < |gone| => gone[i].frame)
  }

  lemma FramesOfSnoc(gone: seq<Fate>, fate: Fate)
    ensures FramesOf(gone + [fate]) == FramesOf(gone) + [fate.frame]
  {
  }

  lemma CutStep(samples: seq<Sample>)
    ensures |samples| < FRAME_SAMPLES ==> Cut(samples) == [] && Rest(samples) == samples
    ensures |samples| >= FRAME_SAMPLES ==>
      && Cut(samples) == [samples[..FRAME_SAMPLES]] + Cut(samples[FRAME_SAMPLES..])
      && Rest(samples) == Rest(samples[FRAME_SAMPLES..])
  {
  }

  /** When frames only leave from a full queue, what stays is the newest of all. */
  lemma NewestOf(before: seq<Fate>, queue: seq<Frame>, cut: seq<Frame>, gone: seq<Fate>, pending: seq<Frame>)
    requires FramesOf(before) + queue + cut == FramesOf(gone) + pending
    requires |before| <= |gone| && |pending| <= MAX_QUEUED_FRAMES
    requires |gone| > |before| ==> |pending| == MAX_QUEUED_FRAMES
    ensures pending == Newest(queue + cut, MAX_QUEUED_FRAMES)
  {
    var all := FramesOf(gone) + pending;
    assert all[|before|..] == queue + cut;
    assert all[|gone|..] == pending;
  }

  /** All frames so far: gone, waiting, or still in the remainder; each drop behind a full queue. */
  ghost predicate Accounted(gone: seq<Fate>, pending: seq<Frame>, remainder: seq<Sample>, all: seq<Frame>) {
    && FramesOf(gone) + pending + Cut(remainder) == all
    && |pending| <= MAX_QUEUED_FRAMES
    && forall i :: 0 <= i < |gone| && gone[i].Dropped? ==> i + MAX_QUEUED_FRAMES < |all|
  }

  /** One frame moved from the remainder to a queue with room, or to a full one that drops its oldest. */
  lemma OneFrameOn(gone: seq<Fate>, pending: seq<Frame>, remainder: seq<Sample>, all: seq<Frame>)
    requires |remainder| >= FRAME_SAMPLES && Accounted(gone, pending, remainder, all)
    ensures var frame, left := remainder[..FRAME_SAMPLES], remainder[FRAME_SAMPLES..];
      && Rest(left) == Rest(remainder)
      && |pending| <= MAX_QUEUED_FRAMES
      && if |pending| < MAX_QUEUED_FRAMES then Accounted(gone, pending + [frame], left, all)
         else Accounted(gone + [Dropped(pending[0])], pending[1..] + [frame], left, all)
  {
    hide Cut, Rest, FramesOf;
    CutStep(remainder);
    var frame, left := remainder[..FRAME_SAMPLES], remainder[FRAME_SAMPLES..];
    Regroup(FramesOf(gone), pending, frame, Cut(left));
    if pending != [] { FramesOfSnoc(gone, Dropped(pending[0])); }
  }

  /** What a push starts from, and what it leaves when less than a frame is left. */
  lemma PushBegins(gone: seq<Fate>, pending: seq<Frame>, remainder: seq<Sample>, input: seq<Sample>, samples: seq<Sample>)
    requires Accounted(gone, pending, [], Cut(input)) && remainder == Rest(input)
    ensures Accounted(gone, pending, remainder + samples, Cut(input + samples))
    ensures Rest(remainder + samples) == Rest(input + samples)
    ensures Cut(input + samples) == FramesOf(gone) + pending + Cut(remainder + samples)
  {
    hide Cut, Rest, FramesOf;
    CutInParts(input, samples);
    CutStep([]);
    assert FramesOf(gone) + pending + [] == FramesOf(gone) + pending;
  }

  lemma NothingLeft(gone: seq<Fate>, pending: seq<Frame>, remainder: seq<Sample>, all: seq<Frame>)
    requires |remainder| < FRAME_SAMPLES
    ensures Accounted(gone, pending, remainder, all) <==> Accounted(gone, pending, [], all)
    ensures Accounted(gone, pending, remainder, all) ==> FramesOf(gone) + pending == all
    ensures Rest(remainder) == remainder
  {
    hide FramesOf;
    CutStep(remainder);
    CutStep([]);
    assert FramesOf(gone) + pending + [] == FramesOf(gone) + pending;
  }

  /** Between two moments frames left the queue only by being dropped. */
  ghost predicate OnlyDrops(before: seq<Fate>, gone: seq<Fate>) {
    before <= gone && forall i :: |before| <= i < |gone| ==> gone[i].Dropped?
  }

  lemma DropsNothing(gone: seq<Fate>)
    ensures OnlyDrops(gone, gone)
  {
  }

  lemma OneMoreDrop(before: seq<Fate>, gone: seq<Fate>, frame: Frame)
    requires OnlyDrops(before, gone)
    ensures OnlyDrops(before, gone + [Dropped(frame)])
  {
  }

  lemma Regroup(gone: seq<Frame>, pending: seq<Frame>, frame: Frame, later: seq<Frame>)
    ensures gone + pending + ([frame] + later) == gone + (pending + [frame]) + later
    ensures pending != [] ==> gone + [pending[0]] + (pending[1..] + [frame]) + later == gone + pending + ([frame] + later)
  {
  }

  datatype Error = NotRunning | OpenFailed | Panicked

  class PipeWireCapture {
    var running: bool
    var pending: seq<Frame>
    var remainder: seq<Sample>

    /** Some thread panicked while it held the lock on the queue, which is refused from then on. */
    var poisoned: bool

    /** Samples pushed, and frames that left the queue, since it was last cleared. */
    ghost var input: seq<Sample>
    ghost var gone: seq<Fate>

    /**
     Everything pushed is accounted for, in order: frames delivered or dropped,
     then frames waiting, then the remainder. A frame was dropped only with a
     full queue of newer frames behind it.
     */
    ghost predicate Valid()
      reads this
    {
      && Accounted(gone, pending, [], Cut(input))
      && remainder == Rest(input)
    }

    constructor ()
      ensures Valid() && !running && !poisoned && pending == [] && remainder == []
    {
      running, poisoned := false, false;
      pending, remainder := [], [];
      input, gone := [], [];
    }

    /** Nothing waits, and nothing was pushed or has left since. */
    ghost predicate Cleared()
      reads this
    {
      pending == [] && remainder == [] && input == [] && gone == []
    }

    twostate predicate SameQueue()
      reads this
    {
      pending == old(pending) && remainder == old(remainder) && input == old(input) && gone == old(gone)
    }

    method ClearQueue()
      requires Valid()
      modifies this`pending, this`remainder, this`input, this`gone
      ensures Valid() && if poisoned then SameQueue() else Cleared()
    {
      if poisoned {
        return;
      }
      pending, remainder := [], [];
      input, gone := [], [];
    }

    /** `push_samples`: frames leave only by being dropped. */
    method PushSamples(samples: seq<Sample>)
      requires Valid()
      modifies this`pending, this`remainder, this`input, this`gone
      ensures Valid() && (poisoned ==> SameQueue())
      ensures !poisoned ==> input == old(input) + samples
      ensures !poisoned ==> Queue(pending, remainder) == Push(Queue(old(pending), old(remainder)), samples)
      ensures OnlyDrops(old(gone), gone)
    {
      if poisoned {
        DropsNothing(gone);
        return;
      }
      hide Cut, Rest, FramesOf, Newest, Push, Accounted, OnlyDrops;
      DropsNothing(gone);
      ghost var before, queue, start := gone, pending, remainder + samples;
      PushBegins(gone, pending, remainder, input, samples);
      input := input + samples;
      remainder := remainder + samples;
      while |remainder| >= FRAME_SAMPLES
        invariant input == old(input) + samples
        invariant Accounted(gone, pending, remainder, Cut(input)) && Rest(remainder) == Rest(input)
        invariant OnlyDrops(before, gone)
        invariant gone != before ==> |pending| == MAX_QUEUED_FRAMES
      {
        OneFrameOn(gone, pending, remainder, Cut(input));
        var frame := remainder[..FRAME_SAMPLES];
        remainder := remainder[FRAME_SAMPLES..];
        if |pending| >= MAX_QUEUED_FRAMES {
          OneMoreDrop(before, gone, pending[0]);
          gone := gone + [Dropped(pending[0])];
          pending := pending[1..];
        }
        pending := pending + [frame];
      }
      NothingLeft(gone, pending, remainder, Cut(input));
      NewestOf(before, queue, Cut(start), gone, pending);
      PushIs(Queue(queue, old(remainder)), samples);
    }

    /** `poll_frame`: the oldest waiting frame, or nothing; a stopped capture is emptied instead. */
    method PollFrame() returns (r: Result<Option<Frame>, Error>)
      requires Valid()
      modifies this`pending, this`remainder, this`input, this`gone
      ensures Valid() && (poisoned ==> SameQueue())
      ensures !running ==> r == Ok(None) && (!poisoned ==> Cleared())
      ensures running && poisoned ==> r == Err(OpenFailed)
      ensures running && !poisoned && old(pending) == [] ==> r == Ok(None) && SameQueue()
      ensures running && !poisoned && old(pending) != [] ==>
        && r == Ok(Some(old(pending)[0])) && pending == old(pending)[1..]
        && gone == old(gone) + [Delivered(old(pending)[0])]
        && remainder == old(remainder) && input == old(input)
    {
      if !running {
        ClearQueue();
        return Ok(None);
      }
      if poisoned {
        return Err(OpenFailed);
      }
      if pending == [] {
        return Ok(None);
      }
      r := Ok(Some(pending[0]));
      FramesOfSnoc(gone, Delivered(pending[0]));
      assert FramesOf(gone) + pending == FramesOf(gone) + [pending[0]] + pending[1..];
      gone := gone + [Delivered(pending[0])];
      pending := pending[1..];
    }

    /**
     `start`: a second start does nothing, so the queue lives on. A first start
     empties the queue before its worker runs; `early` is what that worker
     pushes before it reports whether the device opened.
     */
    method Start(succeeds: bool, early: seq<Sample>) returns (r: Result<(), Error>)
      requires Valid()
      modifies this`running, this`pending, this`remainder, this`input, this`gone
      ensures Valid() && (old(running) || poisoned ==> SameQueue())
      ensures old(running) ==> r == Ok(()) && running
      ensures !old(running) ==> running == succeeds && r == if succeeds then Ok(()) else Err(OpenFailed)
      ensures !old(running) && !poisoned ==> input == early && Queue(pending, remainder) == Push(Queue([], []), early)
    {
      if running {
        return Ok(());
      }
      ClearQueue();
      PushSamples(early);
      assert [] + early == early;
      if succeeds {
        running := true;
        return Ok(());
      }
      return Err(OpenFailed);
    }

    method Stop(panicked: bool) returns (r: Result<(), Error>)
      requires Valid()
      modifies this`running, this`pending, this`remainder, this`input, this`gone
      ensures Valid() && !running && (!old(running) || poisoned ==> SameQueue())
      ensures !old(running) ==> r == Err(NotRunning)
      ensures old(running) ==> r == (if panicked then Err(Panicked) else Ok(())) && (!poisoned ==> Cleared())
    {
      if !running {
        return Err(NotRunning);
      }
      running := false;
      ClearQueue();
      return if panicked then Err(Panicked) else Ok(());
    }
  }

  // ---------- Main results ----------

  datatype Queue = Queue(pending: seq<Frame>, remainder: seq<Sample>)

  /** What `PushSamples` promises of one push. */
  function Push(q: Queue, samples: seq<Sample>): Queue {
    Queue(Newest(q.pending + Cut(q.remainder + samples), MAX_QUEUED_FRAMES), Rest(q.remainder + samples))
  }

  lemma PushIs(q: Queue, samples: seq<Sample>)
    ensures var start := q.remainder + samples;
      Push(q, samples) == Queue(Newest(q.pending + Cut(start), MAX_QUEUED_FRAMES), Rest(start))
  {
  }

  function PushAll(q: Queue, parts: seq<seq<Sample>>): Queue
    decreases |parts|
  {
    if parts == [] then q else PushAll(Push(q, parts[0]), parts[1..])
  }

  function Concat(parts: seq<seq<Sample>>): seq<Sample> {
    if parts == [] then [] else parts[0] + Concat(parts[1..])
  }

  lemma PushTwice(q: Queue, a: seq<Sample>, b: seq<Sample>)
    ensures Push(Push(q, a), b) == Push(q, a + b)
  {
    hide Cut, Rest, Newest;
    var first := q.remainder + a;
    var left := Rest(first) + b;
    CutInParts(first, b);
    NewestOfNewest(q.pending + Cut(first), Cut(left), MAX_QUEUED_FRAMES);
    assert q.remainder + (a + b) == first + b;
    assert q.pending + Cut(first) + Cut(left) == q.pending + (Cut(first) + Cut(left));
  }

  /** However the samples are split across pushes, the queue and the remainder are those of one push. */
  lemma {:induction false} SplittingDoesNotMatter(q: Queue, parts: seq<seq<Sample>>)
    requires |q.pending| <= MAX_QUEUED_FRAMES && |q.remainder| < FRAME_SAMPLES
    ensures PushAll(q, parts) == Push(q, Concat(parts))
    decreases |parts|
  {
    if parts == [] {
      assert q.remainder + [] == q.remainder && q.pending + [] == q.pending;
    } else {
      PushKeepsBounds(q, parts[0]);
      SplittingDoesNotMatter(Push(q, parts[0]), parts[1..]);
      PushTwice(q, parts[0], Concat(parts[1..]));
    }
  }

  lemma PushKeepsBounds(q: Queue, samples: seq<Sample>)
    ensures var all := q.pending + Cut(q.remainder + samples);
      Push(q, samples).pending == if |all| <= 100 then all else all[|all| - 100..]
    ensures |Push(q, samples).pending| <= 100 && |Push(q, samples).remainder| < 160
  {
    CutIsExact(q.remainder + samples);
  }
}
