/**
 The daemon's end of the voice agent: one drain of the worker's events into the
 assistant transcript, the speaking flag and a hint for the screen.
 */
module VoiceBridge {
  import opened Wrappers
  import opened Text
  import opened VoiceWorker

  datatype Phase = Speaking | Listening

  const SESSION_ENDED: string := "Voice Agent session ended"
  const U32_MAX: nat := 0xFFFF_FFFF

  datatype Pump = Pump(note: Option<string>, phase: Option<Phase>, userTranscripts: seq<string>, speechStarts: nat)

  /** The bridge's two fields and what a drain has gathered so far. */
  datatype Drain = Drain(live: string, active: bool, pump: Pump)

  predicate EndsSpeech(e: BridgeEvent) {
    e.TranscriptDone? || e.AudioDone? || e.SpeechStarted? || e.Stopped?
  }

  predicate Deactivates(e: BridgeEvent) {
    EndsSpeech(e) || (e.Error? && !IsIdleCancelError(e.message))
  }

  function LiveAfter(live: string, e: BridgeEvent): string {
    match e
    case TranscriptDelta(text) => live + text
    case TranscriptDone(text) => if text != "" then text else live
    case SpeechStarted => ""
    case _ => live
  }

  function NoteAfter(note: Option<string>, live: string, e: BridgeEvent): Option<string> {
    match e
    case TranscriptDelta(_) => Some(live)
    case TranscriptDone(_) => Some(live)
    case SpeechStarted => Some("listening\U{2026}")
    case Error(message) => if IsIdleCancelError(message) then note else Some("Voice Agent: " + message)
    case Stopped => Some(SESSION_ENDED)
    case _ => note
  }

  function PumpStep(d: Drain, e: BridgeEvent): Drain {
    var live := LiveAfter(d.live, e);
    var heard := if e.UserTranscript? && Trim(e.text) != "" then [Trim(e.text)] else [];
    Drain(
      live,
      if e.AudioPlaying? then true else if Deactivates(e) then false else d.active,
      Pump(
        NoteAfter(d.pump.note, live, e),
        if e.AudioPlaying? then Some(Speaking) else if EndsSpeech(e) then Some(Listening) else d.pump.phase,
        d.pump.userTranscripts + heard,
        if e.SpeechStarted? && d.pump.speechStarts < U32_MAX then d.pump.speechStarts + 1 else d.pump.speechStarts))
  }

  function PumpAll(d: Drain, events: seq<BridgeEvent>): Drain {
    if events == [] then d else PumpStep(PumpAll(d, events[..|events| - 1]), events[|events| - 1])
  }

  lemma PumpNone(d: Drain)
    ensures PumpAll(d, []) == d
  {
  }

  lemma PumpOneMore(d: Drain, events: seq<BridgeEvent>, i: nat)
    requires i < |events|
    ensures PumpAll(d, events[..i + 1]) == PumpStep(PumpAll(d, events[..i]), events[i])
  {
    assert events[..i + 1][..i] == events[..i];
  }

  /** A drain that finds the channel closed. */
  function Hangup(d: Drain): Drain {
    d.(active := false, pump := d.pump.(note := Some(SESSION_ENDED), phase := Some(Listening)))
  }

  const NOTHING: Pump := Pump(None, None, [], 0)

  class VoiceAgentBridge {
    var liveTranscript: string
    var responseActive: bool

    /** `pump`: take every waiting event, then stop at an empty or a closed channel. */
    method PumpEvents(events: seq<BridgeEvent>, disconnected: bool) returns (pump: Pump)
      modifies this
      ensures var all := PumpAll(Drain(old(liveTranscript), old(responseActive), NOTHING), events);
        Drain(liveTranscript, responseActive, pump) == if disconnected then Hangup(all) else all
    {
      hide Trim, IsIdleCancelError, PumpAll;
      pump := NOTHING;
      PumpNone(Drain(liveTranscript, responseActive, NOTHING));
      ghost var start := Drain(liveTranscript, responseActive, NOTHING);
      assert events[..|events|] == events;
      for i := 0 to |events|
        invariant Drain(liveTranscript, responseActive, pump) == PumpAll(start, events[..i])
      {
        PumpOneMore(start, events, i);
        match events[i] {
          case AudioPlaying =>
            responseActive := true;
            pump := pump.(phase := Some(Speaking));
          case TranscriptDelta(delta) =>
            liveTranscript := liveTranscript + delta;
            pump := pump.(note := Some(liveTranscript));
          case TranscriptDone(text) =>
            if text != "" {
              liveTranscript := text;
            }
            responseActive := false;
            pump := pump.(note := Some(liveTranscript), phase := Some(Listening));
          case AudioDone =>
            responseActive := false;
            pump := pump.(phase := Some(Listening));
          case SpeechStarted =>
            liveTranscript := "";
            responseActive := false;
            pump := pump.(note := Some("listening\U{2026}"), phase := Some(Listening));
            if pump.speechStarts < U32_MAX {
              pump := pump.(speechStarts := pump.speechStarts + 1);
            }
          case UserTranscript(text) =>
            var trimmed := Trim(text);
            if trimmed != "" {
              pump := pump.(userTranscripts := pump.userTranscripts + [trimmed]);
            }
          case Error(message) =>
            if !IsIdleCancelError(message) {
              pump := pump.(note := Some("Voice Agent: " + message));
              responseActive := false;
            }
          case Stopped =>
            responseActive := false;
            pump := pump.(note := Some(SESSION_ENDED), phase := Some(Listening));
        }
      }
      if disconnected {
        responseActive := false;
        pump := pump.(note := Some(SESSION_ENDED), phase := Some(Listening));
      }
    }
  }

  // ---------- Main results ----------

  /** The bridge speaks exactly when the last event that matters was "audio is playing". */
  lemma {:induction false} SpeaksAfterLastStart(d: Drain, events: seq<BridgeEvent>)
    ensures PumpAll(d, events).active <==>
      || (d.active && forall j :: 0 <= j < |events| ==> !Deactivates(events[j]))
      || (exists i :: 0 <= i < |events| && events[i].AudioPlaying?
            && forall j :: i < j < |events| ==> !Deactivates(events[j]))
  {
    hide Deactivates;
    if events != [] {
      var k := |events| - 1;
      SpeaksAfterLastStart(d, events[..k]);
      var last := events[k];
      assert !(last.AudioPlaying? && Deactivates(last)) by { PlayingDoesNotDeactivate(last); }
      if last.AudioPlaying? {
        assert events[k].AudioPlaying?;
      }
    }
  }

  lemma PlayingDoesNotDeactivate(e: BridgeEvent)
    ensures !(e.AudioPlaying? && Deactivates(e))
  {
  }

  function WithoutUserSpeech(events: seq<BridgeEvent>): seq<BridgeEvent> {
    if events == [] then []
    else
      WithoutUserSpeech(events[..|events| - 1])
      + (if events[|events| - 1].UserTranscript? then [] else [events[|events| - 1]])
  }

  /** What the operator says never touches the assistant's line, its flag, the note or the phase. */
  lemma {:induction false} UserSpeechStaysApart(d: Drain, events: seq<BridgeEvent>)
    ensures var all, quiet := PumpAll(d, events), PumpAll(d, WithoutUserSpeech(events));
      && all.live == quiet.live && all.active == quiet.active
      && all.pump.note == quiet.pump.note && all.pump.phase == quiet.pump.phase
      && all.pump.speechStarts == quiet.pump.speechStarts
  {
    if events != [] {
      var k := |events| - 1;
      UserSpeechStaysApart(d, events[..k]);
      var quiet := WithoutUserSpeech(events[..k]);
      if events[k].UserTranscript? {
        assert quiet + [] == quiet;
      } else {
        assert (quiet + [events[k]])[..|quiet|] == quiet;
      }
    }
  }

  // ---------- The assistant's line ----------

  /** What the assistant said, piece by piece, in the order it came. */
  function Deltas(events: seq<BridgeEvent>): string {
    if events == [] then ""
    else if events[0].TranscriptDelta? then events[0].text + Deltas(events[1..])
    else Deltas(events[1..])
  }

  /** The line starts afresh: with nothing when the operator speaks, or with the whole of it once it is known. */
  predicate StartsLine(e: BridgeEvent) {
    e.SpeechStarted? || (e.TranscriptDone? && e.text != "")
  }

  lemma {:induction false} DeltasSnoc(events: seq<BridgeEvent>, e: BridgeEvent)
    ensures Deltas(events + [e]) == Deltas(events) + (if e.TranscriptDelta? then e.text else "")
  {
    if events == [] {
      assert [e][1..] == [];
    } else {
      DeltasSnoc(events[1..], e);
      assert (events + [e])[1..] == events[1..] + [e];
    }
  }

  /** While nothing starts the line afresh, it grows at its end by every piece. */
  lemma {:induction false} LineGrows(d: Drain, events: seq<BridgeEvent>)
    requires forall i :: 0 <= i < |events| ==> !StartsLine(events[i])
    ensures PumpAll(d, events).live == d.live + Deltas(events)
  {
    if events == [] {
      assert d.live + "" == d.live;
    } else {
      var k := |events| - 1;
      LineGrows(d, events[..k]);
      DeltasSnoc(events[..k], events[k]);
      assert events == events[..k] + [events[k]];
    }
  }

  lemma {:induction false} PumpInTwo(d: Drain, a: seq<BridgeEvent>, b: seq<BridgeEvent>)
    ensures PumpAll(d, a + b) == PumpAll(PumpAll(d, a), b)
  {
    if b == [] {
      assert a + b == a;
    } else {
      PumpInTwo(d, a, b[..|b| - 1]);
      assert (a + b)[..|a + b| - 1] == a + b[..|b| - 1];
    }
  }

  /** And from its last fresh start on it is what it started with, and every piece since, in order. */
  lemma LineSinceStart(d: Drain, before: seq<BridgeEvent>, start: BridgeEvent, after: seq<BridgeEvent>)
    requires StartsLine(start) && forall i :: 0 <= i < |after| ==> !StartsLine(after[i])
    ensures PumpAll(d, before + [start] + after).live ==
      (if start.TranscriptDone? then start.text else "") + Deltas(after)
  {
    PumpInTwo(d, before + [start], after);
    PumpOneMore(d, before + [start], |before|);
    assert (before + [start])[..|before| + 1] == before + [start];
    LineGrows(PumpAll(d, before + [start]), after);
  }

  // ---------- What else a drain gathers ----------

  /** The operator's words, trimmed, but for the blank ones. */
  function SaidByUser(events: seq<BridgeEvent>): seq<string> {
    if events == [] then []
    else
      var last := events[|events| - 1];
      SaidByUser(events[..|events| - 1])
      + (if last.UserTranscript? && Trim(last.text) != "" then [Trim(last.text)] else [])
  }

  function Starts(events: seq<BridgeEvent>): nat {
    if events == [] then 0
    else Starts(events[..|events| - 1]) + (if events[|events| - 1].SpeechStarted? then 1 else 0)
  }

  /** The operator's words and barge-ins are gathered whole, the latter up to 32 bits. */
  lemma {:induction false} GatheredExactly(d: Drain, events: seq<BridgeEvent>)
    requires d.pump.speechStarts <= 0xFFFF_FFFF
    ensures var pump := PumpAll(d, events).pump;
      && pump.userTranscripts == d.pump.userTranscripts + SaidByUser(events)
      && pump.speechStarts == (if d.pump.speechStarts + Starts(events) <= 0xFFFF_FFFF
                               then d.pump.speechStarts + Starts(events) else 0xFFFF_FFFF)
  {
    hide Trim, IsIdleCancelError;
    if events == [] {
      assert d.pump.userTranscripts + [] == d.pump.userTranscripts;
    } else {
      GatheredExactly(d, events[..|events| - 1]);
    }
  }

  /** The note and the phase after one event: whatever that event says, or else as before. */
  lemma HintExactly(d: Drain, e: BridgeEvent)
    ensures var (d', noise) := (PumpStep(d, e), e.Error? && IsIdleCancelError(e.message));
      && d'.pump.note ==
           (if e.TranscriptDelta? || e.TranscriptDone? then Some(d'.live)
            else if e.SpeechStarted? then Some("listening\U{2026}")
            else if e.Stopped? then Some("Voice Agent session ended")
            else if e.Error? && !noise then Some("Voice Agent: " + e.message)
            else d.pump.note)
      && d'.pump.phase ==
           (if e.AudioPlaying? then Some(Speaking)
            else if e.TranscriptDone? || e.AudioDone? || e.SpeechStarted? || e.Stopped? then Some(Listening)
            else d.pump.phase)
      && d'.active == (e.AudioPlaying? || (d.active &&
           (e.TranscriptDelta? || e.UserTranscript? || noise)))
  {
    hide Trim, IsIdleCancelError;
  }

  /** A drain that finds the channel closed: the session is over, whatever the events were. */
  lemma HangupExactly(d: Drain)
    ensures var d' := Hangup(d);
      && !d'.active && d'.pump.note == Some("Voice Agent session ended") && d'.pump.phase == Some(Listening)
      && d'.live == d.live && d'.pump.userTranscripts == d.pump.userTranscripts && d'.pump.speechStarts == d.pump.speechStarts
  {
  }
}
