/**
 The voice-agent worker: one thread that takes commands from the daemon and
 events from the realtime socket, and plays the assistant's audio. Commands and
 events come in any order.
 */
module VoiceWorker {
  import opened Wrappers
  import opened Text

  type Pid = nat

  datatype BridgeEvent =
    | TranscriptDelta(text: string)
    | TranscriptDone(text: string)
    | AudioPlaying
    | AudioDone
    | SpeechStarted
    | UserTranscript(text: string)
    | Error(message: string)
    | Stopped

  /**
   One thing that happens: a command or a socket event the worker takes up, the
   exit of a player, or another thread that plays through the same module, which
   kills the remembered player or makes its own the remembered one.
   */
  datatype Input =
    | Pcm(uploaded: bool)
    | Cancel
    | Context
    | SetRoomRoute(enabled: bool)
    | Stop
    | Disconnected
    | OutputAudioDelta(started: bool, written: bool, error: string)
    | ServerTranscriptDelta(text: string)
    | ServerTranscriptDone(text: string)
    | InputTranscript(text: string)
    | ServerSpeechStarted
    | SpeechStopped
    | ServerError(message: string)
    | AudioOrResponseDone
    | Quiet
    | SocketClosed
    | Reaped(pid: Pid)
    | OtherInterrupts
    | OtherRemembers

  /** What happens outside the worker's loop, also after it returned. */
  predicate IsOutside(input: Input) {
    input.Reaped? || input.OtherInterrupts? || input.OtherRemembers?
  }

  predicate IsCommand(input: Input) {
    input.Pcm? || input.Cancel? || input.Context? || input.SetRoomRoute? || input.Stop? || input.Disconnected?
  }

  /** What the worker does that others can see. */
  datatype Action = Posted(event: BridgeEvent) | CancelSent | Wrote(pid: Pid) | ContextSent | SessionClosed

  /**
   `open` is the player whose pipe the worker holds, `last` the one player the
   playback module remembers, whoever started it; `audible` holds the worker's
   players whose process still runs; `started` counts all players ever started.
   */
  datatype Players = Players(open: Option<Pid>, last: Option<Pid>, audible: set<Pid>, started: nat)

  datatype State = State(
    players: Players,
    responseActive: bool,
    roomRoute: bool,
    roomCancelled: bool,
    returned: bool,
    actions: seq<Action>)

  const INITIAL: State := State(Players(None, None, {}, 0), false, false, false, false, [])

  // ---------- Server noise ----------

  predicate ContainsFrom(hay: string, needle: string, i: nat)
    requires i <= |hay|
    decreases |hay| - i
  {
    needle <= hay[i..] || (i < |hay| && ContainsFrom(hay, needle, i + 1))
  }

  function Lower(s: string): string {
    if s == [] then [] else [ToAsciiLowercase(s[0])] + Lower(s[1..])
  }

  predicate IsIdleCancelError(message: string) {
    ContainsFrom(Lower(message), "no active response", 0) || ContainsFrom(Lower(message), "cancellation failed", 0)
  }

  // ---------- The step ----------

  function Do(s: State, action: Action): State {
    s.(actions := s.actions + [action])
  }

  function Post(s: State, event: BridgeEvent): State {
    Do(s, Posted(event))
  }

  /** `interrupt_playback`: kill the process remembered last. */
  function InterruptPlayback(p: Players): Players {
    match p.last
    case None => p
    case Some(pid) => p.(audible := p.audible - {pid}, last := None)
  }

  /** `abort_va_player`: kill the open player, then whatever is still remembered. */
  function AbortPlayer(p: Players): Players {
    match p.open
    case None => InterruptPlayback(p)
    case Some(pid) =>
      InterruptPlayback(Players(None, if p.last == Some(pid) then None else p.last, p.audible - {pid}, p.started))
  }

  /** `finish_va_player`: close the pipe; the process plays out what it holds. */
  function FinishPlayer(p: Players): Players {
    p.(open := None)
  }

  /** `play_pcm_pipe_start`: interrupt, then a new process that is remembered. */
  function OpenPlayer(p: Players): Players {
    var quiet := InterruptPlayback(p);
    Players(Some(quiet.started), Some(quiet.started), quiet.audible + {quiet.started}, quiet.started + 1)
  }

  /** `write_va_audio`: open a player on the first chunk, then write; a failed write aborts it. */
  function WriteAudio(p: Players, startOk: bool, writeOk: bool): (r: Players)
    ensures WriteSucceeds(p, startOk, writeOk) ==> r.open.Some?
  {
    if p.open.None? && !startOk then InterruptPlayback(p)
    else
      var ready := if p.open.Some? then p else OpenPlayer(p);
      if writeOk then ready else AbortPlayer(ready)
  }

  predicate WriteSucceeds(p: Players, startOk: bool, writeOk: bool) {
    (p.open.Some? || startOk) && writeOk
  }

  function Return(s: State): State {
    Post(s, Stopped).(returned := true)
  }

  function Aborted(s: State): State {
    s.(players := AbortPlayer(s.players))
  }

  function Finished(s: State): State {
    s.(players := FinishPlayer(s.players))
  }

  /** A chunk tried, and noted when it went through. */
  function Played(s: State, startOk: bool, writeOk: bool): State {
    var tried := s.(players := WriteAudio(s.players, startOk, writeOk));
    if WriteSucceeds(s.players, startOk, writeOk) then Do(tried, Wrote(tried.players.open.value)) else tried
  }

  /** The open player is never reaped: its process is waited for only once its pipe is closed. */
  function Outside(p: Players, input: Input): Players
    requires IsOutside(input)
  {
    match input
    case Reaped(pid) =>
      if p.open == Some(pid) then p
      else p.(audible := p.audible - {pid}, last := if p.last == Some(pid) then None else p.last)
    case OtherInterrupts => InterruptPlayback(p)
    case OtherRemembers => p.(last := Some(p.started), started := p.started + 1)
  }

  /** One turn of `worker_loop`, or something outside it. After it returned only the latter happens. */
  function Step(s: State, input: Input): State {
    if IsOutside(input) then s.(players := Outside(s.players, input))
    else if s.returned then s
    else
      match input
      case Pcm(true) => s
      case Pcm(false) => Do(Return(Post(Aborted(s), Error("Voice Agent audio upload failed"))), SessionClosed)
      case Cancel => Aborted(Do(s, CancelSent)).(responseActive := false)
      case Context => Do(s, ContextSent)
      case SetRoomRoute(true) =>
        Aborted(Do(s.(roomRoute := true), CancelSent)).(responseActive := false, roomCancelled := true)
      case SetRoomRoute(false) => s.(roomRoute := false, roomCancelled := false)
      case Stop => Return(Do(Aborted(Do(s, CancelSent)), SessionClosed))
      case Disconnected => Return(Do(Aborted(s), SessionClosed))
      case OutputAudioDelta(startOk, writeOk, error) =>
        if s.roomRoute then
          var cancelled := if s.roomCancelled then s else Do(s, CancelSent).(roomCancelled := true);
          Aborted(cancelled).(responseActive := false)
        else
          var played := Played(s.(responseActive := true), startOk, writeOk);
          if !WriteSucceeds(s.players, startOk, writeOk) then Post(played, Error(error))
          else if s.players.open.None? then Post(played, AudioPlaying)
          else played
      case ServerTranscriptDelta(text) => Post(s, TranscriptDelta(text))
      case ServerTranscriptDone(text) => Post(Finished(s).(responseActive := false), TranscriptDone(text))
      case InputTranscript(text) => Post(s, UserTranscript(text))
      case ServerSpeechStarted =>
        var had := s.responseActive || s.players.open.Some?;
        var told := if had || s.roomRoute then Do(Aborted(s), CancelSent) else Aborted(s);
        Post(told.(roomCancelled := s.roomRoute, responseActive := false), SpeechStarted)
      case SpeechStopped =>
        if s.roomRoute && !s.roomCancelled then
          Aborted(Do(s, CancelSent).(roomCancelled := true)).(responseActive := false)
        else s
      case ServerError(message) =>
        Post(if IsIdleCancelError(message) then s else Aborted(s).(responseActive := false), Error(message))
      case AudioOrResponseDone => Post(Finished(s).(responseActive := false), AudioDone)
      case Quiet => s
      case SocketClosed => Return(Post(Aborted(s), Error("Voice Agent socket closed")))
  }

  function Run(s: State, inputs: seq<Input>): State {
    if inputs == [] then s else Step(Run(s, inputs[..|inputs| - 1]), inputs[|inputs| - 1])
  }

  // ---------- The worker ----------

  class Worker {
    var player: Option<Pid>
    var lastPlayer: Option<Pid>
    var audible: set<Pid>
    var started: nat
    var responseActive: bool
    var roomRoute: bool
    var roomCancelled: bool
    var returned: bool
    var actions: seq<Action>

    function View(): State
      reads this
    {
      State(Players(player, lastPlayer, audible, started), responseActive, roomRoute, roomCancelled, returned, actions)
    }

    constructor ()
      ensures View() == INITIAL
    {
      player, lastPlayer, audible, started := None, None, {}, 0;
      responseActive, roomRoute, roomCancelled, returned := false, false, false, false;
      actions := [];
    }

    method Interrupt()
      modifies this`audible, this`lastPlayer
      ensures View() == old(View()).(players := InterruptPlayback(old(View()).players))
    {
      if lastPlayer.Some? {
        audible := audible - {lastPlayer.value};
        lastPlayer := None;
      }
    }

    method Abort()
      modifies this`player, this`audible, this`lastPlayer
      ensures View() == Aborted(old(View()))
    {
      if player.Some? {
        var pid := player.value;
        player := None;
        audible := audible - {pid};
        if lastPlayer == Some(pid) {
          lastPlayer := None;
        }
      }
      Interrupt();
    }

    method Write(startOk: bool, writeOk: bool) returns (ok: bool)
      modifies this`player, this`audible, this`lastPlayer, this`started, this`actions
      ensures View() == Played(old(View()), startOk, writeOk)
      ensures ok == WriteSucceeds(old(View()).players, startOk, writeOk)
    {
      if player.None? {
        Interrupt();
        if !startOk {
          return false;
        }
        player := Some(started);
        lastPlayer := Some(started);
        audible := audible + {started};
        started := started + 1;
      }
      if !writeOk {
        Abort();
        return false;
      }
      actions := actions + [Wrote(player.value)];
      return true;
    }

    method Emit(action: Action)
      modifies this`actions
      ensures View() == Do(old(View()), action)
    {
      actions := actions + [action];
    }

    method OnUpload(uploaded: bool)
      requires !returned
      modifies this
      ensures View() == Step(old(View()), Pcm(uploaded))
    {
      hide AbortPlayer, InterruptPlayback;
      if !uploaded {
        Abort();
        Emit(Posted(Error("Voice Agent audio upload failed")));
        Emit(Posted(Stopped));
        Emit(SessionClosed);
        returned := true;
      }
    }

    method OnCommand(input: Input)
      requires !returned
      requires input.Cancel? || input.Context? || input.SetRoomRoute?
      modifies this
      ensures View() == Step(old(View()), input)
    {
      hide AbortPlayer, InterruptPlayback;
      match input {
        case Cancel =>
          Emit(CancelSent);
          Abort();
          responseActive := false;
        case Context => Emit(ContextSent);
        case SetRoomRoute(enabled) =>
          roomRoute := enabled;
          if enabled {
            Emit(CancelSent);
            Abort();
            responseActive := false;
            roomCancelled := true;
          } else {
            roomCancelled := false;
          }
      }
    }

    /** `Stop`, and a command channel whose other end is gone. */
    method OnStop(disconnected: bool)
      requires !returned
      modifies this
      ensures View() == Step(old(View()), if disconnected then Disconnected else Stop)
    {
      hide AbortPlayer, InterruptPlayback;
      if !disconnected {
        Emit(CancelSent);
      }
      Abort();
      Emit(SessionClosed);
      Emit(Posted(Stopped));
      returned := true;
    }

    method OnAudio(startOk: bool, writeOk: bool, error: string)
      requires !returned
      modifies this
      ensures View() == Step(old(View()), OutputAudioDelta(startOk, writeOk, error))
    {
      if roomRoute {
        if !roomCancelled {
          Emit(CancelSent);
          roomCancelled := true;
        }
        Abort();
        responseActive := false;
        return;
      }
      var firstChunk := player.None?;
      responseActive := true;
      var ok := Write(startOk, writeOk);
      if !ok {
        Emit(Posted(Error(error)));
      } else if firstChunk {
        Emit(Posted(AudioPlaying));
      }
    }

    method OnSpeechStarted()
      requires !returned
      modifies this
      ensures View() == Step(old(View()), ServerSpeechStarted)
    {
      var had := responseActive || player.Some?;
      Abort();
      if had || roomRoute {
        Emit(CancelSent);
      }
      roomCancelled := roomRoute;
      responseActive := false;
      Emit(Posted(SpeechStarted));
    }

    method OnEvent(input: Input)
      requires !returned
      requires input.ServerTranscriptDelta? || input.ServerTranscriptDone? || input.InputTranscript?
        || input.AudioOrResponseDone? || input.Quiet?
      modifies this
      ensures View() == Step(old(View()), input)
    {
      match input {
        case ServerTranscriptDelta(text) => Emit(Posted(TranscriptDelta(text)));
        case ServerTranscriptDone(text) =>
          player := None;
          responseActive := false;
          Emit(Posted(TranscriptDone(text)));
        case InputTranscript(text) => Emit(Posted(UserTranscript(text)));
        case AudioOrResponseDone =>
          player := None;
          responseActive := false;
          Emit(Posted(AudioDone));
        case Quiet =>
      }
    }

    method OnSpeechStopped()
      requires !returned
      modifies this
      ensures View() == Step(old(View()), SpeechStopped)
    {
      if roomRoute && !roomCancelled {
        Emit(CancelSent);
        roomCancelled := true;
        Abort();
        responseActive := false;
      }
    }

    method OnServerError(message: string)
      requires !returned
      modifies this
      ensures View() == Step(old(View()), ServerError(message))
    {
      hide IsIdleCancelError, AbortPlayer, InterruptPlayback;
      if !IsIdleCancelError(message) {
        Abort();
        responseActive := false;
      }
      Emit(Posted(Error(message)));
    }

    method OnSocketClosed()
      requires !returned
      modifies this
      ensures View() == Step(old(View()), SocketClosed)
    {
      hide AbortPlayer, InterruptPlayback;
      Abort();
      Emit(Posted(Error("Voice Agent socket closed")));
      Emit(Posted(Stopped));
      returned := true;
    }
  }

  // ---------- Main results ----------

  /** Players whose first chunk was written, in the order they were started. */
  function Heard(actions: seq<Action>): seq<Pid> {
    if actions == [] then []
    else
      var front, last := actions[..|actions| - 1], actions[|actions| - 1];
      if last.Wrote? && last.pid !in Heard(front) then Heard(front) + [last.pid] else Heard(front)
  }

  /** How many times the daemon is told that audio is playing. */
  function Announcements(actions: seq<Action>): nat {
    if actions == [] then 0
    else
      Announcements(actions[..|actions| - 1]) + (if actions[|actions| - 1] == Posted(AudioPlaying) then 1 else 0)
  }

  predicate Invariant(s: State) {
    // The room route is honoured.
    && s.roomCancelled == s.roomRoute
    && (s.roomRoute ==> s.players.open == None && !s.responseActive)
    // Every player that was heard was announced, once.
    && Announcements(s.actions) == |Heard(s.actions)|
    && (s.players.open.Some? ==> s.players.open.value in Heard(s.actions))
    && (forall pid <- Heard(s.actions) :: pid < s.players.started)
  }

  lemma Snoc(actions: seq<Action>, action: Action)
    ensures Heard(actions + [action]) ==
      if action.Wrote? && action.pid !in Heard(actions) then Heard(actions) + [action.pid] else Heard(actions)
    ensures Announcements(actions + [action]) ==
      Announcements(actions) + (if action == Posted(AudioPlaying) then 1 else 0)
  {
    assert (actions + [action])[..|actions|] == actions;
  }

  /** Actions that neither write audio nor announce it leave both counts alone. */
  predicate IsSilent(action: Action) {
    !action.Wrote? && action != Posted(AudioPlaying)
  }

  lemma SilentKeeps(s: State, action: Action)
    requires Invariant(s) && IsSilent(action)
    ensures Invariant(Do(s, action))
  {
    Snoc(s.actions, action);
  }

  lemma AbortKeeps(s: State)
    requires Invariant(s)
    ensures Invariant(Aborted(s)) && Aborted(s).players.open == None
  {
  }

  lemma WriteKeeps(s: State, startOk: bool, writeOk: bool)
    requires Invariant(s) && !s.roomRoute
    ensures var played := Played(s, startOk, writeOk);
      Invariant(if WriteSucceeds(s.players, startOk, writeOk) && s.players.open.None? then Post(played, AudioPlaying) else played)
  {
    hide Heard, Announcements;
    if WriteSucceeds(s.players, startOk, writeOk) {
      var pid := WriteAudio(s.players, startOk, writeOk).open.value;
      Snoc(s.actions, Wrote(pid));
      Snoc(s.actions + [Wrote(pid)], Posted(AudioPlaying));
    }
  }

  lemma ReturnKeeps(s: State)
    requires Invariant(s)
    ensures Invariant(Return(s))
  {
    SilentKeeps(s, Posted(Stopped));
  }

  lemma CommandKeeps(s: State, input: Input)
    requires Invariant(s) && !s.returned
    requires IsCommand(input)
    ensures Invariant(Step(s, input))
  {
    hide Heard, Announcements;
    AbortKeeps(s);
    var aborted := Aborted(s);
    SilentKeeps(s, CancelSent);
    AbortKeeps(Do(s, CancelSent));
    match input {
      case Pcm(uploaded) =>
        var told := Post(aborted, Error("Voice Agent audio upload failed"));
        SilentKeeps(aborted, Posted(Error("Voice Agent audio upload failed")));
        ReturnKeeps(told);
        SilentKeeps(Return(told), SessionClosed);
      case Cancel =>
      case Context => SilentKeeps(s, ContextSent);
      case SetRoomRoute(enabled) => SetRoomRouteKeeps(s, enabled);
      case Stop =>
        SilentKeeps(Aborted(Do(s, CancelSent)), SessionClosed);
        ReturnKeeps(Do(Aborted(Do(s, CancelSent)), SessionClosed));
      case Disconnected =>
        SilentKeeps(aborted, SessionClosed);
        ReturnKeeps(Do(aborted, SessionClosed));
    }
  }

  /** Turning the room route on silences the worker in the same step. */
  lemma SetRoomRouteKeeps(s: State, enabled: bool)
    requires Invariant(s) && !s.returned
    ensures Invariant(Step(s, SetRoomRoute(enabled)))
  {
    Snoc(s.actions, CancelSent);
  }

  lemma EventKeeps(s: State, input: Input)
    requires Invariant(s) && !s.returned
    requires !IsCommand(input) && !IsOutside(input)
    ensures Invariant(Step(s, input))
  {
    hide Heard, Announcements, IsIdleCancelError;
    AbortKeeps(s);
    var aborted := Aborted(s);
    match input {
      case OutputAudioDelta(startOk, writeOk, error) =>
        if !s.roomRoute {
          var active := s.(responseActive := true);
          WriteKeeps(active, startOk, writeOk);
          if !WriteSucceeds(s.players, startOk, writeOk) {
            SilentKeeps(Played(active, startOk, writeOk), Posted(Error(error)));
          }
        }
      case ServerTranscriptDelta(text) => SilentKeeps(s, Posted(TranscriptDelta(text)));
      case ServerTranscriptDone(text) =>
        SilentKeeps(Finished(s).(responseActive := false), Posted(TranscriptDone(text)));
      case InputTranscript(text) => SilentKeeps(s, Posted(UserTranscript(text)));
      case ServerSpeechStarted =>
        SilentKeeps(aborted, CancelSent);
        var told := if s.responseActive || s.players.open.Some? || s.roomRoute then Do(aborted, CancelSent) else aborted;
        SilentKeeps(told.(roomCancelled := s.roomRoute, responseActive := false), Posted(SpeechStarted));
      case SpeechStopped =>
      case ServerError(message) =>
        SilentKeeps(if IsIdleCancelError(message) then s else aborted.(responseActive := false), Posted(Error(message)));
      case AudioOrResponseDone => SilentKeeps(Finished(s).(responseActive := false), Posted(AudioDone));
      case Quiet =>
      case SocketClosed =>
        SilentKeeps(aborted, Posted(Error("Voice Agent socket closed")));
        ReturnKeeps(Post(aborted, Error("Voice Agent socket closed")));
    }
  }

  /** Every command, every socket event and everything other threads do keeps the invariant. */
  lemma StepKeepsInvariant(s: State, input: Input)
    requires Invariant(s)
    ensures Invariant(Step(s, input))
  {
    hide Heard, Announcements;
    if !s.returned && !IsOutside(input) {
      if IsCommand(input) {
        CommandKeeps(s, input);
      } else {
        EventKeeps(s, input);
      }
    }
  }

  lemma {:induction false} RunKeepsInvariant(inputs: seq<Input>)
    ensures Invariant(Run(INITIAL, inputs))
  {
    if inputs != [] {
      RunKeepsInvariant(inputs[..|inputs| - 1]);
      StepKeepsInvariant(Run(INITIAL, inputs[..|inputs| - 1]), inputs[|inputs| - 1]);
    }
  }

  /** `later` adds to the actions of `s`, and none of what it adds writes audio. */
  ghost predicate AddsNoAudio(before: seq<Action>, after: seq<Action>) {
    && before <= after
    && forall i :: |before| <= i < |after| ==> !after[i].Wrote?
  }

  lemma NothingAdded(before: seq<Action>)
    ensures AddsNoAudio(before, before)
  {
  }

  lemma OneMoreAction(before: seq<Action>, after: seq<Action>, action: Action)
    requires AddsNoAudio(before, after) && !action.Wrote?
    ensures AddsNoAudio(before, after + [action])
  {
  }

  lemma CommandsWriteNoAudio(s: State, input: Input)
    requires IsCommand(input)
    ensures AddsNoAudio(s.actions, Step(s, input).actions)
  {
    hide AddsNoAudio;
    var before := s.actions;
    var failed, cancelled := before + [Posted(Error("Voice Agent audio upload failed"))], before + [CancelSent];
    NothingAdded(before);
    match input {
      case Pcm(_) =>
        OneMoreAction(before, before, Posted(Error("Voice Agent audio upload failed")));
        OneMoreAction(before, failed, Posted(Stopped));
        OneMoreAction(before, failed + [Posted(Stopped)], SessionClosed);
      case Stop =>
        OneMoreAction(before, before, CancelSent);
        OneMoreAction(before, cancelled, SessionClosed);
        OneMoreAction(before, cancelled + [SessionClosed], Posted(Stopped));
      case Disconnected =>
        OneMoreAction(before, before, SessionClosed);
        OneMoreAction(before, before + [SessionClosed], Posted(Stopped));
      case Context => OneMoreAction(before, before, ContextSent);
      case _ => OneMoreAction(before, before, CancelSent);
    }
  }

  lemma EventsWriteNoAudio(s: State, input: Input)
    requires !IsCommand(input) && !IsOutside(input) && (s.roomRoute || !input.OutputAudioDelta?)
    ensures AddsNoAudio(s.actions, Step(s, input).actions)
  {
    hide AddsNoAudio, IsIdleCancelError;
    var before := s.actions;
    NothingAdded(before);
    match input {
      case ServerSpeechStarted =>
        OneMoreAction(before, before, CancelSent);
        OneMoreAction(before, before, Posted(SpeechStarted));
        OneMoreAction(before, before + [CancelSent], Posted(SpeechStarted));
      case SocketClosed =>
        var closed := Posted(Error("Voice Agent socket closed"));
        OneMoreAction(before, before, closed);
        OneMoreAction(before, before + [closed], Posted(Stopped));
      case ServerTranscriptDelta(text) => OneMoreAction(before, before, Posted(TranscriptDelta(text)));
      case ServerTranscriptDone(text) => OneMoreAction(before, before, Posted(TranscriptDone(text)));
      case InputTranscript(text) => OneMoreAction(before, before, Posted(UserTranscript(text)));
      case ServerError(message) => OneMoreAction(before, before, Posted(Error(message)));
      case AudioOrResponseDone => OneMoreAction(before, before, Posted(AudioDone));
      case _ => OneMoreAction(before, before, CancelSent);
    }
  }

  /** Audio is written only for an audio chunk that arrives outside the room route. */
  lemma OnlyAudioWritesAudio(s: State, input: Input)
    requires s.roomRoute || !input.OutputAudioDelta?
    ensures AddsNoAudio(s.actions, Step(s, input).actions)
  {
    if IsOutside(input) {
      NothingAdded(s.actions);
    } else if IsCommand(input) {
      CommandsWriteNoAudio(s, input);
    } else {
      EventsWriteNoAudio(s, input);
    }
  }

  // ---------- Who sounds ----------

  /**
   A player of the worker still sounds, and nothing knows its name any more: its
   pipe is closed and another thread's player took the remembered place.
   */
  predicate Orphaned(p: Players) {
    p.open == None && exists pid <- p.audible :: p.last != Some(pid)
  }

  /** A chunk that opens a player and is written, by a running worker, outside the room route, beside an orphan. */
  predicate DoublesVoice(s: State, input: Input) {
    && input.OutputAudioDelta? && input.started && input.written
    && !s.returned && !s.roomRoute && Orphaned(s.players)
  }

  /** What stops the assistant's voice: the operator speaks or cancels, the room takes over, the session ends. */
  predicate Silences(input: Input) {
    || input.ServerSpeechStarted? || input.Cancel? || (input.SetRoomRoute? && input.enabled)
    || input.Stop? || input.Disconnected? || input.SocketClosed?
    || (input.Pcm? && !input.uploaded) || (input.ServerError? && !IsIdleCancelError(input.message))
  }

  /** In every reachable state: whatever sounds was started; and under the room route, it is not the remembered player. */
  predicate PlayersInvariant(s: State) {
    && (forall pid <- s.players.audible :: pid < s.players.started)
    && (s.roomRoute ==> s.players.open == None && (s.players.last.Some? ==> s.players.last.value !in s.players.audible))
  }

  /** An abort kills the open and the remembered player, and forgets both. */
  lemma AbortExactly(p: Players)
    ensures var p' := AbortPlayer(p);
      && p'.open == None && p'.last == None && p'.started == p.started
      && p'.audible == set pid | pid in p.audible && p.open != Some(pid) && p.last != Some(pid)
  {
  }

  /** A chunk adds a voice only by opening a player and getting through; that player is then the remembered one. */
  lemma WriteExactly(p: Players, startOk: bool, writeOk: bool)
    requires forall pid <- p.audible :: pid < p.started
    ensures var p' := WriteAudio(p, startOk, writeOk);
      && p'.started >= p.started && (forall pid <- p'.audible :: pid < p'.started)
      && if p.open == None && startOk && writeOk
         then p'.audible == {p.started} + set pid | pid in p.audible && p.last != Some(pid)
         else p'.audible <= p.audible
  {
  }

  lemma OutsideShrinks(p: Players, input: Input)
    requires IsOutside(input)
    ensures Outside(p, input).audible <= p.audible && Outside(p, input).started >= p.started
    ensures Outside(p, input).open == p.open
    ensures Outside(p, input).last in {p.last, None} || Outside(p, input).last == Some(p.started)
  {
  }

  /** What a turn of the worker can do to the players, whatever else it does. */
  lemma TurnOfPlayers(s: State, input: Input)
    requires !IsOutside(input) && !s.returned
    ensures var p, s' := s.players, Step(s, input);
      if Silences(input) then s'.players == AbortPlayer(p)
      else if input.OutputAudioDelta? && !s.roomRoute then
        !s'.roomRoute && s'.players == WriteAudio(p, input.started, input.written)
      else
        (s'.roomRoute ==> s.roomRoute) && s'.players in {p, FinishPlayer(p), AbortPlayer(p)}
  {
    hide AbortPlayer, WriteAudio, FinishPlayer, IsIdleCancelError;
  }

  lemma StepKeepsPlayers(s: State, input: Input)
    requires PlayersInvariant(s)
    ensures PlayersInvariant(Step(s, input))
  {
    hide WriteAudio, AbortPlayer, Silences;
    AbortExactly(s.players);
    if IsOutside(input) {
      OutsideShrinks(s.players, input);
    } else if !s.returned {
      TurnOfPlayers(s, input);
      hide Step;
      if input.OutputAudioDelta? { WriteExactly(s.players, input.started, input.written); }
    }
  }

  lemma {:induction false} RunKeepsPlayers(inputs: seq<Input>)
    ensures PlayersInvariant(Run(INITIAL, inputs))
  {
    hide Step;
    if inputs != [] {
      RunKeepsPlayers(inputs[..|inputs| - 1]);
      StepKeepsPlayers(Run(INITIAL, inputs[..|inputs| - 1]), inputs[|inputs| - 1]);
    }
  }

  /** Where at most one player sounds, a step lets two sound exactly when it doubles the voice. */
  lemma StepLetsTwoSound(s: State, input: Input)
    requires PlayersInvariant(s) && |s.players.audible| <= 1
    ensures |Step(s, input).players.audible| > 1 <==> DoublesVoice(s, input)
  {
    hide WriteAudio, AbortPlayer, Silences;
    var before := s.players.audible;
    AbortExactly(s.players);
    if IsOutside(input) {
      OutsideShrinks(s.players, input);
      SubsetIsNoLarger(Step(s, input).players.audible, before);
    } else if !s.returned {
      TurnOfPlayers(s, input);
      hide Step;
      var after := Step(s, input).players.audible;
      if input.OutputAudioDelta? && !s.roomRoute && s.players.open == None && input.started && input.written {
        WriteExactly(s.players, true, true);
        VoicesAfterOpening(s.players, after);
      } else {
        if input.OutputAudioDelta? { WriteExactly(s.players, input.started, input.written); }
        SubsetIsNoLarger(after, before);
      }
    }
  }

  lemma VoicesAfterOpening(p: Players, after: set<Pid>)
    requires p.open == None && |p.audible| <= 1 && forall pid <- p.audible :: pid < p.started
    requires after == {p.started} + set pid | pid in p.audible && p.last != Some(pid)
    ensures |after| > 1 <==> Orphaned(p)
  {
    if Orphaned(p) {
      var orphan :| orphan in p.audible && p.last != Some(orphan);
      SubsetIsNoLarger({orphan, p.started}, after);
    } else {
      assert after == {p.started};
    }
  }

  lemma DoublingLetsTwoSound(s: State, input: Input)
    requires PlayersInvariant(s) && DoublesVoice(s, input)
    ensures |Step(s, input).players.audible| > 1
  {
    hide WriteAudio, Silences;
    TurnOfPlayers(s, input);
    WriteExactly(s.players, true, true);
    var orphan :| orphan in s.players.audible && s.players.last != Some(orphan);
    SubsetIsNoLarger({orphan, s.players.started}, Step(s, input).players.audible);
  }

  lemma {:induction false} SubsetIsNoLarger(a: set<Pid>, b: set<Pid>)
    requires a <= b
    ensures |a| <= |b|
  {
    if x :| x in a { SubsetIsNoLarger(a - {x}, b - {x}); }
  }

  // ---------- Results over every interleaving ----------

  lemma RunOneMore(inputs: seq<Input>, input: Input)
    ensures Run(INITIAL, inputs + [input]) == Step(Run(INITIAL, inputs), input)
  {
    assert (inputs + [input])[..|inputs|] == inputs;
  }

  /**
   In every interleaving of commands and events, while the room route is set the
   worker has no open player and no active response, and writes no assistant
   audio; a cancelled room is exactly a routed one. And nothing plays out any
   more exactly unless a player is orphaned.
   */
  lemma RoomIsSilent(inputs: seq<Input>, next: Input)
    ensures var s := Run(INITIAL, inputs);
      && s.roomCancelled == s.roomRoute
      && (s.roomRoute ==> s.players.open == None && !s.responseActive)
      && (s.roomRoute ==> AddsNoAudio(s.actions, Step(s, next).actions))
      && (s.roomRoute ==> (s.players.audible == {} <==> !Orphaned(s.players)))
  {
    hide Step, AddsNoAudio, Run;
    RunKeepsInvariant(inputs);
    RunKeepsPlayers(inputs);
    var s := Run(INITIAL, inputs);
    if s.roomRoute { OnlyAudioWritesAudio(s, next); }
  }

  /**
   In every run, a barge-in leaves nothing audible, not even a player that was
   closed and is still playing out what it holds, exactly when all that sounds is
   the open or the remembered player.
   */
  lemma BargeSilences(inputs: seq<Input>, input: Input)
    requires Silences(input) && !Run(INITIAL, inputs).returned
    ensures var p, p' := Run(INITIAL, inputs).players, Run(INITIAL, inputs + [input]).players;
      && p'.open == None
      && (p'.audible == {} <==> forall pid <- p.audible :: p.open == Some(pid) || p.last == Some(pid))
  {
    hide Step, AbortPlayer, Run;
    RunOneMore(inputs, input);
    TurnOfPlayers(Run(INITIAL, inputs), input);
    var p, p' := Run(INITIAL, inputs).players, Run(INITIAL, inputs + [input]).players;
    AbortExactly(p);
    assert forall pid <- p.audible :: pid in p'.audible <==> p.open != Some(pid) && p.last != Some(pid);
    if pid :| pid in p'.audible { assert pid in p.audible; }
  }

  /** At most one player sounds at every moment of the run. */
  ghost predicate OneAtATime(inputs: seq<Input>) {
    forall i :: 0 <= i <= |inputs| ==> |Run(INITIAL, inputs[..i]).players.audible| <= 1
  }

  ghost predicate NeverDoubles(inputs: seq<Input>) {
    forall i :: 0 <= i < |inputs| ==> !DoublesVoice(Run(INITIAL, inputs[..i]), inputs[i])
  }

  lemma {:induction false} OneAtATimeExactly(inputs: seq<Input>)
    ensures OneAtATime(inputs) <==> NeverDoubles(inputs)
  {
    hide Step, DoublesVoice, PlayersInvariant, Run;
    if inputs == [] {
      NobodySoundsAtFirst();
    } else {
      var front, last := inputs[..|inputs| - 1], inputs[|inputs| - 1];
      OneAtATimeExactly(front);
      assert front + [last] == inputs;
      RunOneMore(front, last);
      RunKeepsPlayers(front);
      var s := Run(INITIAL, front);
      if |s.players.audible| <= 1 { StepLetsTwoSound(s, last); }
      else if DoublesVoice(s, last) { DoublingLetsTwoSound(s, last); }
      OneMoreMoment(front, last);
      OneNow(front);
    }
  }

  lemma OneNow(inputs: seq<Input>)
    ensures OneAtATime(inputs) ==> |Run(INITIAL, inputs).players.audible| <= 1
  {
    hide Run;
    assert inputs[..|inputs|] == inputs;
  }

  lemma NobodySoundsAtFirst()
    ensures |Run(INITIAL, []).players.audible| == 0
  {
  }

  /** Both sides of the equivalence, one moment longer. */
  lemma OneMoreMoment(front: seq<Input>, last: Input)
    ensures OneAtATime(front + [last]) <==> OneAtATime(front) && |Run(INITIAL, front + [last]).players.audible| <= 1
    ensures NeverDoubles(front + [last]) <==> NeverDoubles(front) && !DoublesVoice(Run(INITIAL, front), last)
  {
    hide Run, DoublesVoice;
    var inputs := front + [last];
    var n := |front|;
    assert inputs[..n + 1] == inputs && inputs[..n] == front && inputs[n] == last;
    forall i | 0 <= i <= n ensures Run(INITIAL, inputs[..i]) == Run(INITIAL, front[..i]) {
      assert inputs[..i] == front[..i];
    }
    if OneAtATime(inputs) {
      assert forall i :: 0 <= i <= n ==> |Run(INITIAL, inputs[..i]).players.audible| <= 1;
      assert |Run(INITIAL, inputs[..n + 1]).players.audible| <= 1;
    }
    if NeverDoubles(inputs) {
      assert forall i :: 0 <= i < n ==> !DoublesVoice(Run(INITIAL, inputs[..i]), inputs[i]);
      assert !DoublesVoice(Run(INITIAL, inputs[..n]), inputs[n]);
    }
  }

  /**
   The daemon is told "audio is playing" exactly once for each player that got a
   first chunk through. And in every run at most one of the players sounds at any
   time exactly when no step doubles the voice.
   */
  lemma OneVoice(inputs: seq<Input>)
    ensures var s := Run(INITIAL, inputs);
      && Announcements(s.actions) == |Heard(s.actions)|
      && (forall i, j :: 0 <= i < j < |Heard(s.actions)| ==> Heard(s.actions)[i] != Heard(s.actions)[j])
    ensures OneAtATime(inputs) <==> NeverDoubles(inputs)
  {
    hide Run, Heard, Announcements, OneAtATime, NeverDoubles;
    RunKeepsInvariant(inputs);
    HeardOnce(Run(INITIAL, inputs).actions);
    OneAtATimeExactly(inputs);
  }

  /** After any run that leaves at most one player sounding, the next input lets two sound exactly when it doubles the voice. */
  lemma SecondVoice(inputs: seq<Input>, input: Input)
    requires |Run(INITIAL, inputs).players.audible| <= 1
    ensures |Run(INITIAL, inputs + [input]).players.audible| > 1 <==> DoublesVoice(Run(INITIAL, inputs), input)
  {
    hide Run, Step, DoublesVoice, PlayersInvariant;
    RunKeepsPlayers(inputs);
    RunOneMore(inputs, input);
    StepLetsTwoSound(Run(INITIAL, inputs), input);
  }

  /**
   While no other thread takes the remembered place, no player is orphaned: the
   worker alone, interrupted by others at any time, never lets two sound.
   */
  lemma {:induction false} AloneIsUndisturbed(inputs: seq<Input>)
    requires forall input <- inputs :: !input.OtherRemembers?
    ensures OneAtATime(inputs) && !Orphaned(Run(INITIAL, inputs).players)
    ensures forall pid <- Run(INITIAL, inputs).players.audible :: Run(INITIAL, inputs).players.last == Some(pid)
  {
    hide Step, OneAtATime;
    if inputs == [] {
      OneAtATimeExactly([]);
    } else {
      var front, last := inputs[..|inputs| - 1], inputs[|inputs| - 1];
      AloneIsUndisturbed(front);
      assert front + [last] == inputs;
      AloneStep(Run(INITIAL, front), last);
      OneMoreMoment(front, last);
      OneAtATimeExactly(front);
      OneAtATimeExactly(inputs);
    }
  }

  lemma AloneStep(s: State, input: Input)
    requires !input.OtherRemembers? && forall pid <- s.players.audible :: s.players.last == Some(pid)
    ensures var p := Step(s, input).players;
      forall pid <- p.audible :: p.last == Some(pid)
  {
    hide Silences;
    if !IsOutside(input) && !s.returned {
      hide Step;
      TurnOfPlayers(s, input);
    }
  }

  /**
   It does happen, however much comes between: a closed player plays out, another
   thread's player is remembered, a line of transcript arrives, and the next reply begins.
   */
  lemma TakeoverLetsTwoSound(text: string)
    ensures var chunk := OutputAudioDelta(true, true, "");
      var inputs := [chunk, AudioOrResponseDone, OtherRemembers, ServerTranscriptDelta(text)];
      |Run(INITIAL, inputs).players.audible| == 1 && |Run(INITIAL, inputs + [chunk]).players.audible| > 1
  {
    var chunk := OutputAudioDelta(true, true, "");
    var inputs := [chunk, AudioOrResponseDone, OtherRemembers, ServerTranscriptDelta(text)];
    OrphanPlaysOut(chunk, text);
    hide Run;
    assert 0 in Run(INITIAL, inputs).players.audible;
    SecondVoice(inputs, chunk);
  }

  lemma OrphanPlaysOut(chunk: Input, text: string)
    requires chunk == OutputAudioDelta(true, true, "")
    ensures var s := Run(INITIAL, [chunk, AudioOrResponseDone, OtherRemembers, ServerTranscriptDelta(text)]);
      s.players == Players(None, Some(1), {0}, 2) && !s.returned && !s.roomRoute
  {
    var inputs := [chunk, AudioOrResponseDone, OtherRemembers, ServerTranscriptDelta(text)];
    assert Run(INITIAL, []) == INITIAL && [] + [chunk] == inputs[..1] && inputs[..1] + [AudioOrResponseDone] == inputs[..2];
    assert inputs[..2] + [OtherRemembers] == inputs[..3] && inputs[..3] + [ServerTranscriptDelta(text)] == inputs;
    hide Run, IsIdleCancelError;
    RunOneMore([], chunk);
    RunOneMore(inputs[..1], AudioOrResponseDone);
    RunOneMore(inputs[..2], OtherRemembers);
    RunOneMore(inputs[..3], ServerTranscriptDelta(text));
  }

  lemma {:induction false} HeardOnce(actions: seq<Action>)
    ensures forall i, j :: 0 <= i < j < |Heard(actions)| ==> Heard(actions)[i] != Heard(actions)[j]
  {
    if actions != [] { HeardOnce(actions[..|actions| - 1]); }
  }

  // ---------- What a turn does, exactly ----------

  /** The server is told to stop: by command, by the room, or because the operator talks over a reply. */
  predicate CallsOff(s: State, input: Input) {
    || input.Cancel? || input.Stop? || (input.SetRoomRoute? && input.enabled)
    || (input.ServerSpeechStarted? && (s.responseActive || s.players.open.Some? || s.roomRoute))
    || ((input.OutputAudioDelta? || input.SpeechStopped?) && s.roomRoute && !s.roomCancelled)
  }

  /** The worker's last turn. */
  predicate Ends(input: Input) {
    input.Stop? || input.Disconnected? || input.SocketClosed? || (input.Pcm? && !input.uploaded)
  }

  /** The reply is over: its player is closed and left to play out. */
  predicate Closes(input: Input) {
    input.ServerTranscriptDone? || input.AudioOrResponseDone?
  }

  /** A chunk, or the end of speech, that the room turns away. */
  predicate TurnedAway(s: State, input: Input) {
    s.roomRoute && (input.OutputAudioDelta? || (input.SpeechStopped? && !s.roomCancelled))
  }

  predicate ChunkArrives(s: State, input: Input) {
    input.OutputAudioDelta? && !s.roomRoute
  }

  /** The chunk gets through to a player, new or open. */
  predicate ChunkPlays(s: State, input: Input) {
    ChunkArrives(s, input) && (s.players.open.Some? || input.started) && input.written
  }

  /** What the daemon is told on a turn. */
  function PostedOn(s: State, input: Input): seq<BridgeEvent> {
    match input
    case ServerTranscriptDelta(text) => [TranscriptDelta(text)]
    case ServerTranscriptDone(text) => [TranscriptDone(text)]
    case InputTranscript(text) => [UserTranscript(text)]
    case ServerSpeechStarted => [SpeechStarted]
    case ServerError(message) => [Error(message)]
    case AudioOrResponseDone => [AudioDone]
    case OutputAudioDelta(_, _, error) =>
      if s.roomRoute then []
      else if !ChunkPlays(s, input) then [Error(error)]
      else if s.players.open == None then [AudioPlaying]
      else []
    case Pcm(uploaded) => if uploaded then [] else [Error("Voice Agent audio upload failed"), Stopped]
    case SocketClosed => [Error("Voice Agent socket closed"), Stopped]
    case Stop => [Stopped]
    case Disconnected => [Stopped]
    case _ => []
  }

  function PostedIn(actions: seq<Action>): seq<BridgeEvent> {
    if actions == [] then []
    else
      var last := actions[|actions| - 1];
      PostedIn(actions[..|actions| - 1]) + (if last.Posted? then [last.event] else [])
  }

  function Count(actions: seq<Action>, action: Action): nat {
    if actions == [] then 0
    else Count(actions[..|actions| - 1], action) + (if actions[|actions| - 1] == action then 1 else 0)
  }

  /** One more action: heard if it is posted, and counted under its own kind. */
  lemma OneMoreSaid(actions: seq<Action>, action: Action)
    ensures PostedIn(actions + [action]) == PostedIn(actions) + (if action.Posted? then [action.event] else [])
    ensures forall a :: Count(actions + [action], a) == Count(actions, a) + (if action == a then 1 else 0)
  {
    assert (actions + [action])[..|actions|] == actions;
  }

  /** What a turn leaves in the fields, the players aside. */
  lemma TurnOfFields(s: State, input: Input)
    requires !IsOutside(input) && !s.returned
    ensures FieldsAfter(s, input, Step(s, input))
  {
    hide AbortPlayer, WriteAudio, IsIdleCancelError, FinishPlayer;
    hide Step, FieldsAfter;
    if IsCommand(input) || input.OutputAudioDelta? { CommandFields(s, input); } else { EventFields(s, input); }
  }

  ghost predicate FieldsAfter(s: State, input: Input, s': State) {
    && s'.returned == Ends(input)
    && s'.roomRoute == (if input.SetRoomRoute? then input.enabled else s.roomRoute)
    && s'.roomCancelled == (if input.SetRoomRoute? then input.enabled
                            else if input.ServerSpeechStarted? then s.roomRoute
                            else if TurnedAway(s, input) then true
                            else s.roomCancelled)
    && s'.responseActive == (if Ends(input) then s.responseActive
                             else if ChunkArrives(s, input) then true
                             else s.responseActive && !Silences(input) && !Closes(input) && !TurnedAway(s, input))
  }

  lemma CommandFields(s: State, input: Input)
    requires (IsCommand(input) || input.OutputAudioDelta?) && !s.returned
    ensures FieldsAfter(s, input, Step(s, input))
  {
    hide AbortPlayer, WriteAudio, FinishPlayer;
  }

  lemma EventFields(s: State, input: Input)
    requires !IsOutside(input) && !IsCommand(input) && !input.OutputAudioDelta? && !s.returned
    ensures FieldsAfter(s, input, Step(s, input))
  {
    hide AbortPlayer, WriteAudio, FinishPlayer, IsIdleCancelError;
  }

  /** What it leaves of the players. */
  lemma TurnOfPlayersExactly(s: State, input: Input)
    requires !IsOutside(input) && !s.returned
    ensures var (p, p') := (s.players, Step(s, input).players);
      if Silences(input) || TurnedAway(s, input) then p' == AbortPlayer(p)
      else if ChunkArrives(s, input) then p' == WriteAudio(p, input.started, input.written)
      else if Closes(input) then p' == p.(open := None)
      else p' == p
  {
    hide AbortPlayer, WriteAudio, IsIdleCancelError;
  }

  /** A chunk: the open player, or a new one that is remembered; nothing open after a failure, and an abort after a failed write. */
  lemma ChunkExactly(p: Players, startOk: bool, writeOk: bool)
    ensures var p' := WriteAudio(p, startOk, writeOk);
      && p'.started == (if p.open == None && startOk then p.started + 1 else p.started)
      && p'.open == (if !writeOk || (p.open == None && !startOk) then None
                     else if p.open == None then Some(p.started)
                     else p.open)
      && p'.last == (if p.open == None then (if startOk && writeOk then Some(p.started) else None)
                     else if writeOk then p.last
                     else None)
  {
  }

  /** How often each kind of action is among the new ones; the posted events in order; the player written to. */
  datatype Gain = Gain(cancels: nat, contexts: nat, closes: nat, posted: seq<BridgeEvent>, wrote: Option<Pid>)

  ghost predicate Gains(a: seq<Action>, a': seq<Action>, gain: Gain) {
    && Count(a', CancelSent) == Count(a, CancelSent) + gain.cancels
    && Count(a', ContextSent) == Count(a, ContextSent) + gain.contexts
    && Count(a', SessionClosed) == Count(a, SessionClosed) + gain.closes
    && PostedIn(a') == PostedIn(a) + gain.posted
    && forall pid: Pid :: Count(a', Wrote(pid)) == Count(a, Wrote(pid)) + (if gain.wrote == Some(pid) then 1 else 0)
  }

  const NO_GAIN: Gain := Gain(0, 0, 0, [], None)

  lemma GainsNothing(a: seq<Action>)
    ensures Gains(a, a, NO_GAIN)
  {
    assert PostedIn(a) + [] == PostedIn(a);
  }

  lemma GainsOne(a: seq<Action>, a': seq<Action>, gain: Gain, action: Action)
    requires Gains(a, a', gain) && (action.Wrote? ==> gain.wrote == None)
    ensures Gains(a, a' + [action], match action
      case CancelSent => gain.(cancels := gain.cancels + 1)
      case ContextSent => gain.(contexts := gain.contexts + 1)
      case SessionClosed => gain.(closes := gain.closes + 1)
      case Posted(e) => gain.(posted := if gain.posted == [] then [e] else gain.posted + [e])
      case Wrote(pid) => gain.(wrote := Some(pid)))
  {
    hide Count, PostedIn;
    OneMoreSaid(a', action);
    if action.Posted? {
      assert PostedIn(a) + gain.posted + [action.event] == PostedIn(a) + (gain.posted + [action.event]);
      assert gain.posted == [] ==> PostedIn(a) + gain.posted == PostedIn(a);
    }
  }

  /** What others see of a turn. */
  function GainOf(s: State, input: Input): Gain {
    Gain(
      if CallsOff(s, input) then 1 else 0,
      if input.Context? then 1 else 0,
      if Ends(input) && !input.SocketClosed? then 1 else 0,
      PostedOn(s, input),
      if ChunkPlays(s, input) then WriteAudio(s.players, input.started, input.written).open else None)
  }

  /** Exactly that, on every turn. */
  lemma TurnOfActions(s: State, input: Input)
    requires !IsOutside(input) && !s.returned
    ensures Gains(s.actions, Step(s, input).actions, GainOf(s, input))
  {
    hide Gains, Step, GainOf;
    GainsNothing(s.actions);
    if Ends(input) { EndSays(s, input); }
    else if IsCommand(input) { CommandSays(s, input); }
    else if input.OutputAudioDelta? { AudioSays(s, input); }
    else if input.ServerSpeechStarted? || input.SpeechStopped? { SpeechSays(s, input); }
    else { EventSays(s, input); }
  }

  lemma EndSays(s: State, input: Input)
    requires Ends(input) && !s.returned && Gains(s.actions, s.actions, NO_GAIN)
    ensures Gains(s.actions, Step(s, input).actions, GainOf(s, input))
  {
    hide AbortPlayer, WriteAudio, Gains;
    var a := s.actions;
    match input {
      case Pcm(_) =>
        var error := Error("Voice Agent audio upload failed");
        TwoPosted(a, error, Stopped);
        GainsOne(a, a + [Posted(error)] + [Posted(Stopped)], NO_GAIN.(posted := [error, Stopped]), SessionClosed);
      case SocketClosed => TwoPosted(a, Error("Voice Agent socket closed"), Stopped);
      case Stop =>
        GainsOne(a, a, NO_GAIN, CancelSent);
        GainsOne(a, a + [CancelSent], NO_GAIN.(cancels := 1), SessionClosed);
        GainsOne(a, a + [CancelSent] + [SessionClosed], NO_GAIN.(cancels := 1, closes := 1), Posted(Stopped));
      case Disconnected =>
        GainsOne(a, a, NO_GAIN, SessionClosed);
        GainsOne(a, a + [SessionClosed], NO_GAIN.(closes := 1), Posted(Stopped));
    }
  }

  lemma TwoPosted(a: seq<Action>, first: BridgeEvent, second: BridgeEvent)
    requires Gains(a, a, NO_GAIN)
    ensures Gains(a, a + [Posted(first)] + [Posted(second)], NO_GAIN.(posted := [first, second]))
  {
    hide Gains;
    GainsOne(a, a, NO_GAIN, Posted(first));
    GainsOne(a, a + [Posted(first)], NO_GAIN.(posted := [first]), Posted(second));
    assert [first] + [second] == [first, second];
  }

  lemma CommandSays(s: State, input: Input)
    requires IsCommand(input) && !Ends(input) && !s.returned && Gains(s.actions, s.actions, NO_GAIN)
    ensures Gains(s.actions, Step(s, input).actions, GainOf(s, input))
  {
    hide AbortPlayer, WriteAudio, Gains;
    GainsOne(s.actions, s.actions, NO_GAIN, if input.Context? then ContextSent else CancelSent);
  }

  lemma AudioSays(s: State, input: Input)
    requires input.OutputAudioDelta? && !s.returned && Gains(s.actions, s.actions, NO_GAIN)
    ensures Gains(s.actions, Step(s, input).actions, GainOf(s, input))
  {
    hide AbortPlayer, WriteAudio, Gains;
    var a := s.actions;
    if s.roomRoute {
      GainsOne(a, a, NO_GAIN, CancelSent);
    } else if ChunkPlays(s, input) {
      var pid := WriteAudio(s.players, input.started, input.written).open.value;
      GainsOne(a, a, NO_GAIN, Wrote(pid));
      GainsOne(a, a + [Wrote(pid)], NO_GAIN.(wrote := Some(pid)), Posted(AudioPlaying));
    } else {
      GainsOne(a, a, NO_GAIN, Posted(Error(input.error)));
    }
  }

  lemma SpeechSays(s: State, input: Input)
    requires (input.ServerSpeechStarted? || input.SpeechStopped?) && !s.returned && Gains(s.actions, s.actions, NO_GAIN)
    ensures Gains(s.actions, Step(s, input).actions, GainOf(s, input))
  {
    hide AbortPlayer, WriteAudio, Gains;
    var a := s.actions;
    GainsOne(a, a, NO_GAIN, CancelSent);
    GainsOne(a, a, NO_GAIN, Posted(SpeechStarted));
    GainsOne(a, a + [CancelSent], NO_GAIN.(cancels := 1), Posted(SpeechStarted));
  }

  lemma EventSays(s: State, input: Input)
    requires !IsCommand(input) && !IsOutside(input) && !Ends(input) && !s.returned && Gains(s.actions, s.actions, NO_GAIN)
    requires !input.OutputAudioDelta? && !input.ServerSpeechStarted? && !input.SpeechStopped?
    ensures Gains(s.actions, Step(s, input).actions, GainOf(s, input))
  {
    hide AbortPlayer, WriteAudio, Gains, IsIdleCancelError;
    var posted := PostedOn(s, input);
    if posted != [] { GainsOne(s.actions, s.actions, NO_GAIN, Posted(posted[0])); }
  }

  lemma OutsideSaysNothing(s: State, input: Input)
    requires IsOutside(input) || s.returned
    ensures var s' := Step(s, input);
      && s'.actions == s.actions && s'.returned == s.returned && s'.responseActive == s.responseActive
      && s'.roomRoute == s.roomRoute && s'.roomCancelled == s.roomCancelled
      && s'.players == (if IsOutside(input) then Outside(s.players, input) else s.players)
  {
  }

  /** What other threads and exits do to the players. */
  lemma OutsideExactly(p: Players, input: Input)
    requires IsOutside(input)
    ensures var p' := Outside(p, input);
      && p'.open == p.open
      && match input
         case Reaped(pid) =>
           if p.open == Some(pid) then p' == p
           else
             && p'.audible == p.audible - {pid} && p'.started == p.started
             && p'.last == (if p.last == Some(pid) then None else p.last)
         case OtherInterrupts =>
           && p'.last == None && p'.started == p.started
           && p'.audible == (set pid | pid in p.audible && p.last != Some(pid))
         case OtherRemembers => p'.audible == p.audible && p'.last == Some(p.started) && p'.started == p.started + 1
  {
  }

  // ---------- The same over whole runs ----------

  /** The lines of the conversation among the posted events: whose they are, and in what order. */
  predicate IsLine(e: BridgeEvent) {
    e.TranscriptDelta? || e.TranscriptDone? || e.UserTranscript?
  }

  function Lines(events: seq<BridgeEvent>): seq<BridgeEvent> {
    if events == [] then []
    else
      var last := events[|events| - 1];
      Lines(events[..|events| - 1]) + (if IsLine(last) then [last] else [])
  }

  /** The line a socket event carries: the assistant's growing, the assistant's whole, or the operator's. */
  function LineOf(input: Input): seq<BridgeEvent> {
    match input
    case ServerTranscriptDelta(text) => [TranscriptDelta(text)]
    case ServerTranscriptDone(text) => [TranscriptDone(text)]
    case InputTranscript(text) => [UserTranscript(text)]
    case _ => []
  }

  /** The lines of the inputs that a still running worker took up. */
  function LinesHeard(inputs: seq<Input>): seq<BridgeEvent> {
    if inputs == [] then []
    else
      var front, last := inputs[..|inputs| - 1], inputs[|inputs| - 1];
      LinesHeard(front) + (if Run(INITIAL, front).returned then [] else LineOf(last))
  }

  lemma {:induction false} LinesConcat(a: seq<BridgeEvent>, b: seq<BridgeEvent>)
    ensures Lines(a + b) == Lines(a) + Lines(b)
  {
    if b == [] {
      assert a + b == a;
    } else {
      LinesConcat(a, b[..|b| - 1]);
      assert (a + b)[..|a + b| - 1] == a + b[..|b| - 1];
    }
  }

  lemma LinesOfPosted(s: State, input: Input)
    ensures Lines(PostedOn(s, input)) == LineOf(input)
  {
    hide Lines;
    var posted := PostedOn(s, input);
    LinesOfNone();
    if |posted| == 1 { LinesOfOne(posted[0]); }
    else if posted != [] { LinesOfTwo(posted); }
  }

  lemma LinesOfNone()
    ensures Lines([]) == []
  {
  }

  lemma LinesOfOne(e: BridgeEvent)
    ensures Lines([e]) == if IsLine(e) then [e] else []
  {
    assert [e][..0] == [];
  }

  lemma LinesOfTwo(events: seq<BridgeEvent>)
    requires |events| == 2 && !IsLine(events[0]) && !IsLine(events[1])
    ensures Lines(events) == []
  {
    LinesOfOne(events[0]);
    assert events[..1] == [events[0]];
  }

  /** In every run, what is passed on of the conversation is exactly what was heard of it, line by line. */
  lemma {:induction false} LinesAreKept(inputs: seq<Input>)
    ensures Lines(PostedIn(Run(INITIAL, inputs).actions)) == LinesHeard(inputs)
  {
    hide Step, PostedIn, PostedOn;
    if inputs == [] {
      NothingSaidYet();
    } else {
      var front, last := inputs[..|inputs| - 1], inputs[|inputs| - 1];
      LinesAreKept(front);
      var s := Run(INITIAL, front);
      if IsOutside(last) || s.returned {
        OutsideSaysNothing(s, last);
        assert LinesHeard(front) + [] == LinesHeard(front);
      } else {
        TurnOfActions(s, last);
        LinesConcat(PostedIn(s.actions), PostedOn(s, last));
        LinesOfPosted(s, last);
      }
    }
  }

  lemma NothingSaidYet()
    ensures PostedIn(INITIAL.actions) == []
  {
  }

  /** In every run, the next input calls the reply off exactly when it should, and once. */
  lemma RunCallsOff(inputs: seq<Input>, input: Input)
    ensures var s := Run(INITIAL, inputs);
      Count(Run(INITIAL, inputs + [input]).actions, CancelSent) == Count(s.actions, CancelSent) +
        (if s.returned then 0
         else if input.Cancel? || input.Stop? || (input.SetRoomRoute? && input.enabled) then 1
         else if input.ServerSpeechStarted? && (s.responseActive || s.players.open.Some? || s.roomRoute) then 1
         else 0)
  {
    hide Step, Count, PostedIn, Run;
    RunOneMore(inputs, input);
    RunKeepsInvariant(inputs);
    var s := Run(INITIAL, inputs);
    if IsOutside(input) || s.returned { OutsideSaysNothing(s, input); }
    else { TurnOfActions(s, input); }
  }

  /** In every run the worker has returned exactly when one of its inputs ended it. */
  lemma {:induction false} ReturnedExactly(inputs: seq<Input>)
    ensures var s := Run(INITIAL, inputs);
      s.returned <==> exists i :: 0 <= i < |inputs| && Ends(inputs[i])
  {
    hide Step;
    if inputs != [] {
      var front, last := inputs[..|inputs| - 1], inputs[|inputs| - 1];
      ReturnedExactly(front);
      assert inputs == front + [last];
      var s := Run(INITIAL, front);
      if IsOutside(last) || s.returned { OutsideSaysNothing(s, last); }
      else { TurnOfFields(s, last); }
      if Ends(last) { assert Ends(inputs[|inputs| - 1]); }
    }
  }

  // ---------- Noise ----------

  predicate Occurs(hay: string, needle: string, i: nat) {
    i + |needle| <= |hay| && hay[i..i + |needle|] == needle
  }

  lemma {:induction false} ContainsExactly(hay: string, needle: string, from: nat)
    requires from <= |hay|
    ensures ContainsFrom(hay, needle, from) <==> exists i: nat :: from <= i && Occurs(hay, needle, i)
    decreases |hay| - from
  {
    OccursHere(hay, needle, from);
    if from < |hay| { ContainsExactly(hay, needle, from + 1); }
    else { assert forall i: nat :: from < i ==> !Occurs(hay, needle, i); }
  }

  lemma OccursHere(hay: string, needle: string, from: nat)
    requires from <= |hay|
    ensures needle <= hay[from..] <==> Occurs(hay, needle, from)
  {
    if needle <= hay[from..] { assert hay[from..][..|needle|] == hay[from..from + |needle|]; }
    if Occurs(hay, needle, from) { assert hay[from..][..|needle|] == needle; }
  }

  lemma {:induction false} LowerExactly(s: string)
    ensures |Lower(s)| == |s|
    ensures forall i :: 0 <= i < |s| ==> Lower(s)[i] == if 'A' <= s[i] <= 'Z' then (s[i] as int + 32) as char else s[i]
  {
    if s != [] { LowerExactly(s[1..]); }
  }

  /** `needle` stands in the message somewhere, capital ASCII letters read as small ones. */
  ghost predicate Mentions(message: string, needle: string) {
    exists i: nat :: Occurs(Lower(message), needle, i)
  }

  /** A server error is noise exactly when it mentions that there was nothing to cancel. */
  lemma NoiseExactly(message: string)
    ensures IsIdleCancelError(message) <==>
      Mentions(message, "no active response") || Mentions(message, "cancellation failed")
  {
    hide ContainsFrom, Occurs;
    ContainsExactly(Lower(message), "no active response", 0);
    ContainsExactly(Lower(message), "cancellation failed", 0);
  }
}
