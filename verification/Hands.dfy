/**
 The confirmation gate in front of the tools: voice state, then permission, then
 one waiting record that an operator confirms or cancels. Everything the gate
 asks of other parts may answer differently at every step.
 */
module Hands {
  import opened Wrappers
  import opened Text
  import opened Decimal

  const U64_MAX: nat := 0xFFFF_FFFF_FFFF_FFFF
  const LOG_CAP: nat := 64
  const SINK_CAP: nat := 64

  const NOTIFY: string := "notify"
  const EMAIL_SEND: string := "email_send"
  const SHELL: string := "shell"
  const SOFTWARE_INSTALL: string := "software_install"
  const AGENT_MESSAGE: string := "agent_message"
  const GOAL_RUN: string := "goal_run"

  /** Registry risks and policy decisions share their three levels. */
  datatype Level = SafeLevel | ConfirmLevel | DenyLevel

  datatype VoiceState = Awake | Asleep | Hibernating

  datatype DispatchError =
    | Forbidden(name: string, state: VoiceState)
    | UnknownTool(name: string)
    | Denied(name: string)
    | Busy(pendingId: string)
    | UnknownPending(pendingId: string)
    | PendingMismatch(pendingId: string, name: string)
    | ConfirmForbidden(pendingId: string, state: VoiceState)
    | InvalidArgs(name: string, detail: string)
    | Connector(message: string)
    | ShellFailed(message: string)

  datatype ToolOutcome = OutRan | OutPending | OutConfirmed | OutCancelled | OutDenied | OutForbidden | OutUnknown

  datatype LogEntry = LogEntry(seqNo: nat, name: string, risk: Option<Level>, outcome: ToolOutcome, detail: Option<string>)

  datatype Pending = Pending(id: string, name: string, args: seq<string>, description: string)

  datatype RequestOutcome = Ran(name: string, detail: string) | Staged(pending: Pending)

  datatype Email = Email(to: string, subject: string, body: string)

  datatype ToolError =
    | ToolDenied(name: string)
    | ToolInvalidArgs(name: string, detail: string)
    | ToolUnknown(name: string)

  // ---------- What the rest of the daemon answers ----------

  /** A tool's own work: done; refused by the registry; failed outside; or refused before anything was noted. */
  datatype Work =
    | Done(detail: string)
    | Refused(error: ToolError)
    | FailedOutside(outside: DispatchError, message: string)
    | BadArgs(detail: string)

  /** An email: refused by the checks, sent through an account, or given to the mock or draft backend. */
  datatype EmailWork =
    | NotParsed(error: ToolError)
    | NotSent(why: string)
    | SentByAccount(detail: string)
    | Backend(message: Email, accepted: Result<string, string>)

  datatype Echo = Echo(expanded: string, readback: string, mustConfirm: bool)

  /** The answers of one step. */
  datatype World = World(
    state: VoiceState,
    risk: string -> Option<Level>,
    isMcp: string -> bool,
    isCtl: string -> bool,
    decision: string -> Level,
    denyDetail: string -> Option<string>,
    describe: string -> string,
    validate: (string, seq<string>) -> Option<ToolError>,
    echo: string -> Echo,
    looksLikeInstall: string -> bool,
    work: (string, seq<string>) -> Work,
    email: seq<string> -> EmailWork)

  // ---------- The record ----------

  /** A call that got as far as the tool itself: a command, an install, a message, a notification, anything. */
  datatype ToolRun = ToolRun(name: string, args: seq<string>)

  datatype State = State(
    pending: Option<Pending>,
    ctlEffect: Option<string>,
    teamEffect: Option<string>,
    sink: seq<string>,
    outbox: seq<Email>,
    ran: seq<ToolRun>,
    log: seq<LogEntry>,
    nextSeq: nat,
    nextPending: nat)

  const INITIAL: State := State(None, None, None, [], [], [], [], 0, 0)

  function SaturatingNext(n: nat): nat {
    if n < U64_MAX then n + 1 else n
  }

  function PushCapped<T>(items: seq<T>, cap: nat, item: T): seq<T>
    requires cap > 0
  {
    (if |items| == cap then items[1..] else items) + [item]
  }

  function Record(h: State, name: string, risk: Option<Level>, outcome: ToolOutcome, detail: Option<string>): State {
    var n := SaturatingNext(h.nextSeq);
    h.(nextSeq := n, log := PushCapped(h.log, LOG_CAP, LogEntry(n, name, risk, outcome, detail)))
  }

  function PushNotification(h: State, line: string): State {
    h.(sink := PushCapped(h.sink, SINK_CAP, line))
  }

  function StorePending(h: State, name: string, args: seq<string>, description: string): (State, Pending) {
    var n := SaturatingNext(h.nextPending);
    var pending := Pending(ToString(n), name, args, description);
    (Record(h.(nextPending := n, pending := Some(pending)), name, Some(ConfirmLevel), OutPending, None), pending)
  }

  function FailTool(h: State, error: ToolError): (State, DispatchError) {
    match error
    case ToolDenied(name) => (Record(h, name, Some(DenyLevel), OutDenied, None), Denied(name))
    case ToolInvalidArgs(name, detail) =>
      (Record(h, name, Some(ConfirmLevel), OutUnknown, Some(detail)), InvalidArgs(name, detail))
    case ToolUnknown(name) => (Record(h, name, None, OutUnknown, None), UnknownTool(name))
  }

  // ---------- Running a tool ----------

  type Step<T> = (State, Result<T, DispatchError>)

  function HandOver(h: State, name: string, args: seq<string>): State {
    h.(ran := h.ran + [ToolRun(name, args)])
  }

  /** What a tool's answer leaves behind. It was handed the call unless the call was refused first. */
  function Finish(h: State, name: string, args: seq<string>, work: Work): Step<string> {
    match work
    case Done(detail) => (HandOver(h, name, args), Ok(detail))
    case Refused(error) =>
      var (h', e) := FailTool(h, error);
      (h', Err(e))
    case FailedOutside(outside, message) =>
      (Record(HandOver(h, name, args), name, Some(ConfirmLevel), OutUnknown, Some(message)), Err(outside))
    case BadArgs(detail) => (h, Err(InvalidArgs(name, detail)))
  }

  function SendEmail(h: State, args: seq<string>, work: EmailWork): Step<string> {
    match work
    case NotParsed(error) => Finish(h, EMAIL_SEND, args, Refused(error))
    case NotSent(why) => Finish(h, EMAIL_SEND, args, FailedOutside(Connector(why), why))
    case SentByAccount(detail) => (HandOver(h, EMAIL_SEND, args), Ok(detail))
    case Backend(message, Ok(detail)) => (HandOver(h, EMAIL_SEND, args).(outbox := h.outbox + [message]), Ok(detail))
    case Backend(_, Err(why)) => Finish(h, EMAIL_SEND, args, FailedOutside(Connector(why), why))
  }

  function JoinWords(args: seq<string>): string {
    JoinWith(args, " ")
  }

  predicate IsTeamTool(name: string) {
    name == AGENT_MESSAGE || name == GOAL_RUN
  }

  /** `execute_confirm_row`. Never touches the waiting record. */
  function ConfirmRow(w: World, h: State, name: string, args: seq<string>): Step<string> {
    if w.isCtl(name) then
      var (h', r) := Finish(h, name, args, w.work(name, args));
      if r.Ok? then (h'.(ctlEffect := Some(name)), Ok("")) else (h', r)
    else if w.isMcp(name) then Finish(h, name, args, w.work(name, args))
    else if name == EMAIL_SEND then SendEmail(h, args, w.email(args))
    else if name == SHELL || name == SOFTWARE_INSTALL then Finish(h, name, [JoinWords(args)], w.work(name, [JoinWords(args)]))
    else
      var (h', r) := Finish(h, name, args, w.work(name, args));
      if r.Err? then (h', r)
      else if IsTeamTool(name) then (h'.(teamEffect := Some(name)), r)
      else if name == NOTIFY then (PushNotification(h', r.value), r)
      else (h', r)
  }

  /** `execute_registry`: what runs depends on the registry's row for the name. */
  function Execute(w: World, h: State, name: string, args: seq<string>): Step<string> {
    match w.risk(name)
    case Some(SafeLevel) => Finish(h, name, args, w.work(name, args))
    case Some(ConfirmLevel) => ConfirmRow(w, h, name, args)
    case Some(DenyLevel) => (Record(h, name, Some(DenyLevel), OutDenied, None), Err(Denied(name)))
    case None =>
      if w.isMcp(name) then ConfirmRow(w, h, name, args)
      else (Record(h, name, None, OutUnknown, None), Err(UnknownTool(name)))
  }

  /** A tool that ran at once: noted in the log, its detail handed back. */
  function NoteRan(r: Step<string>, name: string, risk: Level): Step<RequestOutcome> {
    match r.1
    case Err(e) => (r.0, Err(e))
    case Ok(detail) => (Record(r.0, name, Some(risk), OutRan, Some(detail)), Ok(Ran(name, detail)))
  }

  function InstallCommand(args: seq<string>): string {
    Trim(JoinWords(args))
  }

  function Install(w: World, h: State, args: seq<string>, alwaysAllow: bool): Step<RequestOutcome> {
    var command := InstallCommand(args);
    if command == "" then (h, Err(InvalidArgs(SOFTWARE_INSTALL, "software_install needs valid arguments")))
    else if !alwaysAllow then
      var (h', pending) := StorePending(h, SOFTWARE_INSTALL, [command], "Install software: " + command);
      (h', Ok(Staged(pending)))
    else NoteRan(Finish(h, SOFTWARE_INSTALL, [command], w.work(SOFTWARE_INSTALL, [command])), SOFTWARE_INSTALL, SafeLevel)
  }

  function Shell(w: World, h: State, args: seq<string>, alwaysAllow: bool): Step<RequestOutcome> {
    var original := JoinWords(args);
    if Trim(original) == "" then (h, Err(InvalidArgs(SHELL, "shell needs a command")))
    else
      var echo := w.echo(original);
      if w.looksLikeInstall(echo.expanded) then Install(w, h, [echo.expanded], false)
      else if !alwaysAllow && echo.mustConfirm then
        var (h', pending) := StorePending(h, SHELL, [echo.expanded], TrimEnd(echo.readback));
        (h', Ok(Staged(pending)))
      else
        NoteRan(Finish(h, SHELL, [echo.expanded], w.work(SHELL, [echo.expanded])), SHELL, if alwaysAllow then SafeLevel else ConfirmLevel)
  }

  // ---------- The gate's operations ----------

  function RunNow(w: World, h: State, name: string, args: seq<string>): Step<RequestOutcome> {
    if name == SHELL then Shell(w, h, args, true)
    else if name == SOFTWARE_INSTALL then Install(w, h, args, true)
    else if IsTeamTool(name) then
      var (h', r) := Finish(h, name, args, w.work(name, args));
      NoteRan((if r.Ok? then h'.(teamEffect := Some(name)) else h', r), name, SafeLevel)
    else NoteRan(Execute(w, h, name, args), name, SafeLevel)
  }

  function StageConfirm(w: World, h: State, name: string, args: seq<string>): Step<RequestOutcome> {
    if h.pending.Some? then
      var id := h.pending.value.id;
      (Record(h, name, Some(ConfirmLevel), OutPending, Some("busy: " + id)), Err(Busy(id)))
    else if name == SHELL then Shell(w, h, args, false)
    else if name == SOFTWARE_INSTALL then Install(w, h, args, false)
    else
      match w.validate(name, args)
      case Some(error) =>
        var (h', e) := FailTool(h, error);
        (h', Err(e))
      case None =>
        var (h', pending) := StorePending(h, name, args, w.describe(name));
        (h', Ok(Staged(pending)))
  }

  function Request(w: World, h: State, name: string, args: seq<string>): Step<RequestOutcome> {
    if w.state != Awake then (Record(h, name, None, OutForbidden, None), Err(Forbidden(name, w.state)))
    else if w.risk(name).None? && !w.isMcp(name) then (Record(h, name, None, OutUnknown, None), Err(UnknownTool(name)))
    else
      match w.decision(name)
      case DenyLevel => (Record(h, name, Some(DenyLevel), OutDenied, w.denyDetail(name)), Err(Denied(name)))
      case SafeLevel => RunNow(w, h, name, args)
      case ConfirmLevel => StageConfirm(w, h, name, args)
  }

  /** The checks a confirm and a cancel share: the id, then the optional name. */
  function Matching(h: State, id: string, expected: Option<string>): Step<Pending> {
    if h.pending.None? || h.pending.value.id != id then
      (Record(h, id, None, OutUnknown, Some("unknown pending")), Err(UnknownPending(id)))
    else if expected.Some? && expected.value != h.pending.value.name then
      (Record(h, h.pending.value.name, Some(ConfirmLevel), OutUnknown, Some("name mismatch: " + expected.value)),
       Err(PendingMismatch(id, expected.value)))
    else (h, Ok(h.pending.value))
  }

  function Confirm(w: World, h: State, id: string, expected: Option<string>): Step<string> {
    var (checked, match_) := Matching(h, id, expected);
    if match_.Err? then (checked, Err(match_.error))
    else
      var p := match_.value;
      if w.state != Awake then
        (Record(h, p.name, Some(ConfirmLevel), OutForbidden, None), Err(ConfirmForbidden(id, w.state)))
      else if w.decision(p.name) == DenyLevel then
        (Record(h, p.name, Some(DenyLevel), OutDenied, w.denyDetail(p.name)), Err(Denied(p.name)))
      else
        var (h', r) := Execute(w, h, p.name, p.args);
        if r.Err? then (h', r)
        else (Record(h'.(pending := None), p.name, Some(ConfirmLevel), OutConfirmed, Some(r.value)), r)
  }

  function Cancel(h: State, id: string, expected: Option<string>): Step<Pending> {
    var (checked, match_) := Matching(h, id, expected);
    if match_.Err? then (checked, match_)
    else (Record(h.(pending := None), match_.value.name, Some(ConfirmLevel), OutCancelled, None), match_)
  }

  function ClearPending(h: State): (State, Option<Pending>) {
    match h.pending
    case None => (h, None)
    case Some(p) =>
      (Record(h.(pending := None), p.name, Some(ConfirmLevel), OutCancelled, Some("cleared when acting stopped")), Some(p))
  }

  // ---------- The gate in place ----------

  class Gate {
    var pending: Option<Pending>
    var ctlEffect: Option<string>
    var teamEffect: Option<string>
    var sink: seq<string>
    var outbox: seq<Email>
    var ran: seq<ToolRun>
    var log: seq<LogEntry>
    var nextSeq: nat
    var nextPending: nat

    function View(): State
      reads this
    {
      State(pending, ctlEffect, teamEffect, sink, outbox, ran, log, nextSeq, nextPending)
    }

    constructor ()
      ensures View() == INITIAL
    {
      pending, ctlEffect, teamEffect := None, None, None;
      sink, outbox, ran, log := [], [], [], [];
      nextSeq, nextPending := 0, 0;
    }

    method Note(name: string, risk: Option<Level>, outcome: ToolOutcome, detail: Option<string>)
      modifies this`log, this`nextSeq
      ensures View() == Record(old(View()), name, risk, outcome, detail)
    {
      nextSeq := SaturatingNext(nextSeq);
      if |log| == LOG_CAP {
        log := log[1..];
      }
      log := log + [LogEntry(nextSeq, name, risk, outcome, detail)];
    }

    method PushNotificationLine(line: string)
      modifies this`sink
      ensures View() == PushNotification(old(View()), line)
    {
      if |sink| == SINK_CAP {
        sink := sink[1..];
      }
      sink := sink + [line];
    }

    method Store(name: string, args: seq<string>, description: string) returns (staged: Pending)
      modifies this`pending, this`nextPending, this`log, this`nextSeq
      ensures (View(), staged) == StorePending(old(View()), name, args, description)
    {
      nextPending := SaturatingNext(nextPending);
      staged := Pending(ToString(nextPending), name, args, description);
      pending := Some(staged);
      Note(name, Some(ConfirmLevel), OutPending, None);
    }

    method Fail(error: ToolError) returns (e: DispatchError)
      modifies this`log, this`nextSeq
      ensures (View(), e) == FailTool(old(View()), error)
    {
      match error {
        case ToolDenied(name) =>
          Note(name, Some(DenyLevel), OutDenied, None);
          e := Denied(name);
        case ToolInvalidArgs(name, detail) =>
          Note(name, Some(ConfirmLevel), OutUnknown, Some(detail));
          e := InvalidArgs(name, detail);
        case ToolUnknown(name) =>
          Note(name, None, OutUnknown, None);
          e := UnknownTool(name);
      }
    }

    method FinishWork(name: string, args: seq<string>, work: Work) returns (r: Result<string, DispatchError>)
      modifies this`ran, this`log, this`nextSeq
      ensures (View(), r) == Finish(old(View()), name, args, work)
    {
      match work {
        case Done(detail) =>
          ran := ran + [ToolRun(name, args)];
          r := Ok(detail);
        case Refused(error) =>
          var e := Fail(error);
          r := Err(e);
        case FailedOutside(outside, message) =>
          ran := ran + [ToolRun(name, args)];
          Note(name, Some(ConfirmLevel), OutUnknown, Some(message));
          r := Err(outside);
        case BadArgs(detail) => r := Err(InvalidArgs(name, detail));
      }
    }

    /** `execute_email_send`. */
    method ExecuteEmailSend(args: seq<string>, work: EmailWork) returns (r: Result<string, DispatchError>)
      modifies this`outbox, this`ran, this`log, this`nextSeq
      ensures (View(), r) == SendEmail(old(View()), args, work)
    {
      match work {
        case NotParsed(error) => r := FinishWork(EMAIL_SEND, args, Refused(error));
        case NotSent(why) => r := FinishWork(EMAIL_SEND, args, FailedOutside(Connector(why), why));
        case SentByAccount(detail) =>
          ran := ran + [ToolRun(EMAIL_SEND, args)];
          r := Ok(detail);
        case Backend(message, accepted) =>
          match accepted {
            case Ok(detail) =>
              ran := ran + [ToolRun(EMAIL_SEND, args)];
              outbox := outbox + [message];
              r := Ok(detail);
            case Err(why) => r := FinishWork(EMAIL_SEND, args, FailedOutside(Connector(why), why));
          }
      }
    }

    method ExecuteConfirmRow(w: World, name: string, args: seq<string>) returns (r: Result<string, DispatchError>)
      modifies this`ctlEffect, this`teamEffect, this`sink, this`outbox, this`ran, this`log, this`nextSeq
      ensures (View(), r) == ConfirmRow(w, old(View()), name, args)
    {
      if w.isCtl(name) {
        r := FinishWork(name, args, w.work(name, args));
        if r.Ok? {
          ctlEffect := Some(name);
          r := Ok("");
        }
        return;
      }
      if w.isMcp(name) {
        r := FinishWork(name, args, w.work(name, args));
        return;
      }
      if name == EMAIL_SEND {
        r := ExecuteEmailSend(args, w.email(args));
        return;
      }
      if name == SHELL || name == SOFTWARE_INSTALL {
        r := FinishWork(name, [JoinWords(args)], w.work(name, [JoinWords(args)]));
        return;
      }
      r := FinishWork(name, args, w.work(name, args));
      if r.Ok? {
        if IsTeamTool(name) {
          teamEffect := Some(name);
        } else if name == NOTIFY {
          PushNotificationLine(r.value);
        }
      }
    }

    method ExecuteRegistry(w: World, name: string, args: seq<string>) returns (r: Result<string, DispatchError>)
      modifies this`ctlEffect, this`teamEffect, this`sink, this`outbox, this`ran, this`log, this`nextSeq
      ensures (View(), r) == Execute(w, old(View()), name, args)
    {
      match w.risk(name) {
        case Some(SafeLevel) => r := FinishWork(name, args, w.work(name, args));
        case Some(ConfirmLevel) => r := ExecuteConfirmRow(w, name, args);
        case Some(DenyLevel) =>
          Note(name, Some(DenyLevel), OutDenied, None);
          r := Err(Denied(name));
        case None =>
          if w.isMcp(name) {
            r := ExecuteConfirmRow(w, name, args);
          } else {
            Note(name, None, OutUnknown, None);
            r := Err(UnknownTool(name));
          }
      }
    }

    method Ran(name: string, risk: Level, result: Result<string, DispatchError>)
      returns (r: Result<RequestOutcome, DispatchError>)
      modifies this`log, this`nextSeq
      ensures (View(), r) == NoteRan((old(View()), result), name, risk)
    {
      match result {
        case Err(e) => r := Err(e);
        case Ok(detail) =>
          Note(name, Some(risk), OutRan, Some(detail));
          r := Ok(RequestOutcome.Ran(name, detail));
      }
    }

    method RunSoftwareInstall(w: World, args: seq<string>, alwaysAllow: bool)
      returns (r: Result<RequestOutcome, DispatchError>)
      modifies this
      ensures (View(), r) == Install(w, old(View()), args, alwaysAllow)
    {
      var command := InstallCommand(args);
      if command == "" {
        return Err(InvalidArgs(SOFTWARE_INSTALL, "software_install needs valid arguments"));
      }
      if !alwaysAllow {
        var staged := Store(SOFTWARE_INSTALL, [command], "Install software: " + command);
        return Ok(Staged(staged));
      }
      var result := FinishWork(SOFTWARE_INSTALL, [command], w.work(SOFTWARE_INSTALL, [command]));
      r := Ran(SOFTWARE_INSTALL, SafeLevel, result);
    }

    method RunShell(w: World, args: seq<string>, alwaysAllow: bool) returns (r: Result<RequestOutcome, DispatchError>)
      modifies this
      ensures (View(), r) == Shell(w, old(View()), args, alwaysAllow)
    {
      var original := JoinWords(args);
      if Trim(original) == "" {
        return Err(InvalidArgs(SHELL, "shell needs a command"));
      }
      var echo := w.echo(original);
      if w.looksLikeInstall(echo.expanded) {
        r := RunSoftwareInstall(w, [echo.expanded], false);
        return;
      }
      if !alwaysAllow && echo.mustConfirm {
        var staged := Store(SHELL, [echo.expanded], TrimEnd(echo.readback));
        return Ok(Staged(staged));
      }
      var result := FinishWork(SHELL, [echo.expanded], w.work(SHELL, [echo.expanded]));
      r := Ran(SHELL, if alwaysAllow then SafeLevel else ConfirmLevel, result);
    }

    method RunTool(w: World, name: string, args: seq<string>) returns (r: Result<RequestOutcome, DispatchError>)
      modifies this
      ensures (View(), r) == RunNow(w, old(View()), name, args)
    {
      if name == SHELL {
        r := RunShell(w, args, true);
        return;
      }
      if name == SOFTWARE_INSTALL {
        r := RunSoftwareInstall(w, args, true);
        return;
      }
      var result;
      if IsTeamTool(name) {
        result := FinishWork(name, args, w.work(name, args));
        if result.Ok? {
          teamEffect := Some(name);
        }
      } else {
        result := ExecuteRegistry(w, name, args);
      }
      r := Ran(name, SafeLevel, result);
    }

    method Stage(w: World, name: string, args: seq<string>) returns (r: Result<RequestOutcome, DispatchError>)
      modifies this
      ensures (View(), r) == StageConfirm(w, old(View()), name, args)
    {
      if pending.Some? {
        var id := pending.value.id;
        Note(name, Some(ConfirmLevel), OutPending, Some("busy: " + id));
        return Err(Busy(id));
      }
      if name == SHELL {
        r := RunShell(w, args, false);
        return;
      }
      if name == SOFTWARE_INSTALL {
        r := RunSoftwareInstall(w, args, false);
        return;
      }
      match w.validate(name, args) {
        case Some(error) =>
          var e := Fail(error);
          r := Err(e);
        case None =>
          var staged := Store(name, args, w.describe(name));
          r := Ok(Staged(staged));
      }
    }

    /** `request`. */
    method RequestTool(w: World, name: string, args: seq<string>) returns (r: Result<RequestOutcome, DispatchError>)
      modifies this
      ensures (View(), r) == Request(w, old(View()), name, args)
    {
      if w.state != Awake {
        Note(name, None, OutForbidden, None);
        return Err(Forbidden(name, w.state));
      }
      if w.risk(name).None? && !w.isMcp(name) {
        Note(name, None, OutUnknown, None);
        return Err(UnknownTool(name));
      }
      match w.decision(name) {
        case DenyLevel =>
          Note(name, Some(DenyLevel), OutDenied, w.denyDetail(name));
          r := Err(Denied(name));
        case SafeLevel => r := RunTool(w, name, args);
        case ConfirmLevel => r := Stage(w, name, args);
      }
    }

    method CheckPending(id: string, expected: Option<string>) returns (r: Result<Pending, DispatchError>)
      modifies this`log, this`nextSeq
      ensures (View(), r) == Matching(old(View()), id, expected)
    {
      if pending.None? || pending.value.id != id {
        Note(id, None, OutUnknown, Some("unknown pending"));
        return Err(UnknownPending(id));
      }
      if expected.Some? && expected.value != pending.value.name {
        Note(pending.value.name, Some(ConfirmLevel), OutUnknown, Some("name mismatch: " + expected.value));
        return Err(PendingMismatch(id, expected.value));
      }
      return Ok(pending.value);
    }

    /** `confirm`. */
    method ConfirmTool(w: World, id: string, expected: Option<string>) returns (r: Result<string, DispatchError>)
      modifies this
      ensures (View(), r) == Confirm(w, old(View()), id, expected)
    {
      var checked := CheckPending(id, expected);
      if checked.Err? {
        return Err(checked.error);
      }
      var p := checked.value;
      if w.state != Awake {
        Note(p.name, Some(ConfirmLevel), OutForbidden, None);
        return Err(ConfirmForbidden(id, w.state));
      }
      if w.decision(p.name) == DenyLevel {
        Note(p.name, Some(DenyLevel), OutDenied, w.denyDetail(p.name));
        return Err(Denied(p.name));
      }
      r := ExecuteRegistry(w, p.name, p.args);
      if r.Ok? {
        pending := None;
        Note(p.name, Some(ConfirmLevel), OutConfirmed, Some(r.value));
      }
    }

    /** `cancel`. The voice state is not consulted. */
    method CancelTool(id: string, expected: Option<string>) returns (r: Result<Pending, DispatchError>)
      modifies this
      ensures (View(), r) == Cancel(old(View()), id, expected)
    {
      r := CheckPending(id, expected);
      if r.Ok? {
        pending := None;
        Note(r.value.name, Some(ConfirmLevel), OutCancelled, None);
      }
    }

    /** `clear_pending`. */
    method ClearWaiting() returns (cleared: Option<Pending>)
      modifies this
      ensures (View(), cleared) == ClearPending(old(View()))
    {
      cleared := pending;
      if cleared.Some? {
        pending := None;
        Note(cleared.value.name, Some(ConfirmLevel), OutCancelled, Some("cleared when acting stopped"));
      }
    }
  }

  // ---------- Steps and runs ----------

  datatype Op =
    | DoRequest(name: string, args: seq<string>)
    | DoConfirm(id: string, expected: Option<string>)
    | DoCancel(id: string, expected: Option<string>)
    | DoClear

  function Apply(w: World, h: State, op: Op): State {
    match op
    case DoRequest(name, args) => Request(w, h, name, args).0
    case DoConfirm(id, expected) => Confirm(w, h, id, expected).0
    case DoCancel(id, expected) => Cancel(h, id, expected).0
    case DoClear => ClearPending(h).0
  }

  predicate Succeeds(w: World, h: State, op: Op) {
    match op
    case DoRequest(name, args) => Request(w, h, name, args).1.Ok?
    case DoConfirm(id, expected) => Confirm(w, h, id, expected).1.Ok?
    case DoCancel(id, expected) => Cancel(h, id, expected).1.Ok?
    case DoClear => h.pending.Some?
  }

  /** The state after each of the first `n` steps; the world may be another at every step. */
  function After(steps: seq<(World, Op)>, n: nat): State
    requires n <= |steps|
  {
    if n == 0 then INITIAL else Apply(steps[n - 1].0, After(steps, n - 1), steps[n - 1].1)
  }

  /** The operator's words fit the waiting record: its id, and its name where one was given. */
  predicate Matches(h: State, id: string, expected: Option<string>) {
    && h.pending.Some?
    && h.pending.value.id == id
    && (expected.Some? ==> expected.value == h.pending.value.name)
  }

  /** The step may act: awake, not denied now, and either decided safe or confirmed by its own id and name. */
  predicate MayAct(w: World, h: State, op: Op) {
    && w.state == Awake
    && match op
       case DoRequest(name, _) => w.decision(name) == SafeLevel
       case DoConfirm(id, expected) => Matches(h, id, expected) && w.decision(h.pending.value.name) != DenyLevel
       case _ => false
  }

  /** The tool a step is about. */
  function ToolOf(h: State, op: Op): string {
    match op
    case DoRequest(name, _) => name
    case _ => if h.pending.Some? then h.pending.value.name else ""
  }

  predicate SameEffects(a: State, b: State) {
    a.sink == b.sink && a.outbox == b.outbox
  }

  // ---------- Effects are gated ----------

  lemma FinishKeeps(h: State, name: string, args: seq<string>, work: Work)
    ensures var (h', r) := Finish(h, name, args, work);
      && (h'.ran == h.ran || h'.ran == h.ran + [ToolRun(name, args)])
      && SameEffects(h, h') && h'.pending == h.pending && h'.nextPending == h.nextPending
  {
  }

  lemma SendEmailEffects(h: State, args: seq<string>, work: EmailWork)
    ensures var (h', r) := SendEmail(h, args, work);
      && (h'.ran == h.ran || h'.ran == h.ran + [ToolRun(EMAIL_SEND, args)])
      && h'.pending == h.pending && h'.nextPending == h.nextPending && h'.sink == h.sink
      && h'.outbox == (if work.Backend? && r.Ok? then h.outbox + [work.message] else h.outbox)
  {
  }

  /** At most one call was handed over, with these arguments, which two tools get as one line. */
  predicate HandsOver(h: State, h': State, name: string, args: seq<string>) {
    || h'.ran == h.ran
    || h'.ran == h.ran + [ToolRun(name, args)]
    || ((name == SHELL || name == SOFTWARE_INSTALL) && h'.ran == h.ran + [ToolRun(name, [JoinWords(args)])])
  }

  /** Running a tool's row: only `notify` fills the sink, only `email_send` the outbox, and only when it succeeds. */
  lemma ExecuteEffects(w: World, h: State, name: string, args: seq<string>)
    ensures var (h', r) := Execute(w, h, name, args);
      && h'.pending == h.pending && h'.nextPending == h.nextPending
      && HandsOver(h, h', name, args)
      && (r.Err? ==> SameEffects(h, h'))
      && (h'.sink == h.sink || (name == NOTIFY && r.Ok? && h'.sink == PushCapped(h.sink, SINK_CAP, r.value)))
      && (h'.outbox == h.outbox || (name == EMAIL_SEND && w.email(args).Backend? && h'.outbox == h.outbox + [w.email(args).message]))
  {
    hide Finish, SendEmail, JoinWords;
    FinishKeeps(h, name, args, w.work(name, args));
    FinishKeeps(h, name, [JoinWords(args)], w.work(name, [JoinWords(args)]));
    SendEmailEffects(h, args, w.email(args));
  }

  /** Asking for a shell line or an install runs nothing that the sink or the outbox could show. */
  lemma ShellEffects(w: World, h: State, args: seq<string>, alwaysAllow: bool)
    ensures SameEffects(h, Shell(w, h, args, alwaysAllow).0)
    ensures SameEffects(h, Install(w, h, args, alwaysAllow).0)
  {
  }

  /** `request`: the effects of a step decided safe, and of no other. */
  lemma RequestEffects(w: World, h: State, name: string, args: seq<string>)
    ensures var (h', r) := Request(w, h, name, args);
      && (!SameEffects(h, h') ==> w.state == Awake && w.decision(name) == SafeLevel && r.Ok?)
      && (h'.sink == h.sink || (name == NOTIFY && r.Ok? && h'.sink == PushCapped(h.sink, SINK_CAP, r.value.detail)))
      && (h'.outbox == h.outbox || (name == EMAIL_SEND && w.email(args).Backend? && h'.outbox == h.outbox + [w.email(args).message]))
  {
    hide Execute, Shell, Install;
    ShellEffects(w, h, args, true);
    ShellEffects(w, h, args, false);
    ExecuteEffects(w, h, name, args);
  }

  /**
   One step, in any state and any world: the sink and the outbox change only
   when the step may act and succeeds; so a failed step leaves both alone.
   What changes is one line for `notify`, one message for `email_send`.
   */
  lemma EffectsAreGated(w: World, h: State, op: Op)
    ensures var h' := Apply(w, h, op);
      && (!SameEffects(h, h') ==> MayAct(w, h, op) && Succeeds(w, h, op))
      && (h'.sink != h.sink ==>
            ToolOf(h, op) == NOTIFY && h'.sink != [] && h'.sink == PushCapped(h.sink, SINK_CAP, h'.sink[|h'.sink| - 1]))
      && (h'.outbox != h.outbox ==>
            ToolOf(h, op) == EMAIL_SEND && h.outbox <= h'.outbox && |h'.outbox| == |h.outbox| + 1)
  {
    hide Execute, Request;
    match op {
      case DoRequest(name, args) => RequestEffects(w, h, name, args);
      case DoConfirm(id, expected) =>
        if h.pending.Some? { ExecuteEffects(w, h, h.pending.value.name, h.pending.value.args); }
      case DoCancel(_, _) =>
      case DoClear =>
    }
  }

  /** The same over whole runs, with voice state and permissions changing between steps. */
  lemma RunEffectsAreGated(steps: seq<(World, Op)>, n: nat)
    requires n < |steps|
    ensures var ((w, op), h, h') := (steps[n], After(steps, n), After(steps, n + 1));
      && (!SameEffects(h, h') ==> MayAct(w, h, op) && Succeeds(w, h, op))
      && (h'.sink != h.sink ==>
            ToolOf(h, op) == NOTIFY && h'.sink != [] && h'.sink == PushCapped(h.sink, SINK_CAP, h'.sink[|h'.sink| - 1]))
      && (h'.outbox != h.outbox ==>
            ToolOf(h, op) == EMAIL_SEND && h.outbox <= h'.outbox && |h'.outbox| == |h.outbox| + 1)
  {
    hide Succeeds, Apply, MayAct, ToolOf;
    EffectsAreGated(steps[n].0, After(steps, n), steps[n].1);
  }

  // ---------- Tools are gated ----------

  /** What a shell line becomes. */
  function Expanded(w: World, args: seq<string>): string {
    w.echo(JoinWords(args)).expanded
  }

  /**
   The step may hand a call to a tool: awake, not denied now, and by a request
   decided safe, by a shell line that needs no confirming while nothing waits, or
   by a confirm of its own id and name.
   */
  predicate MayRun(w: World, h: State, op: Op) {
    && w.state == Awake
    && match op
       case DoRequest(name, args) =>
         || w.decision(name) == SafeLevel
         || (name == SHELL && w.decision(SHELL) == ConfirmLevel && h.pending == None && !w.echo(JoinWords(args)).mustConfirm)
       case DoConfirm(id, expected) => Matches(h, id, expected) && w.decision(h.pending.value.name) != DenyLevel
       case _ => false
  }

  /** The call is the step's own: the request's, expanded for the shell, which never installs; or the record's. */
  predicate IsOwnCall(w: World, h: State, op: Op, run: ToolRun) {
    match op
    case DoRequest(name, args) =>
      && run.name == name
      && (if name == SHELL then run.args == [Expanded(w, args)] && !w.looksLikeInstall(Expanded(w, args))
          else run.args == if name == SOFTWARE_INSTALL then [InstallCommand(args)] else args)
    case _ =>
      && h.pending.Some?
      && var p := h.pending.value;
      && run.name == p.name
      && (run.args == p.args || ((p.name == SHELL || p.name == SOFTWARE_INSTALL) && run.args == [JoinWords(p.args)]))
  }

  lemma ShellRuns(w: World, h: State, args: seq<string>, alwaysAllow: bool)
    ensures var h' := Shell(w, h, args, alwaysAllow).0;
      h'.ran != h.ran ==>
        && h'.ran == h.ran + [ToolRun(SHELL, [Expanded(w, args)])] && !w.looksLikeInstall(Expanded(w, args))
        && (alwaysAllow || !w.echo(JoinWords(args)).mustConfirm)
    ensures var h' := Install(w, h, args, alwaysAllow).0;
      h'.ran != h.ran ==> alwaysAllow && h'.ran == h.ran + [ToolRun(SOFTWARE_INSTALL, [InstallCommand(args)])]
  {
    hide ToString, JoinWords, Trim, TrimEnd, Finish;
    FinishKeeps(h, SHELL, [Expanded(w, args)], w.work(SHELL, [Expanded(w, args)]));
    FinishKeeps(h, SOFTWARE_INSTALL, [InstallCommand(args)], w.work(SOFTWARE_INSTALL, [InstallCommand(args)]));
  }

  lemma RequestRuns(w: World, h: State, name: string, args: seq<string>)
    ensures var (h', op) := (Request(w, h, name, args).0, DoRequest(name, args));
      h'.ran != h.ran ==>
        h'.ran != [] && h'.ran == h.ran + [h'.ran[|h'.ran| - 1]] && MayRun(w, h, op) && IsOwnCall(w, h, op, h'.ran[|h'.ran| - 1])
  {
    hide Execute, Shell, Install, JoinWords, Trim, Finish, ToString;
    ShellRuns(w, h, args, true);
    ShellRuns(w, h, args, false);
    ExecuteEffects(w, h, name, args);
    FinishKeeps(h, name, args, w.work(name, args));
  }

  /**
   One step, in any state and any world, hands at most one call to a tool, and
   then it may, and the call is its own. An install runs only when it was itself
   decided safe or confirmed: no shell line reaches one.
   */
  lemma ToolsAreGated(w: World, h: State, op: Op)
    ensures var h' := Apply(w, h, op);
      h'.ran != h.ran ==>
        h'.ran != [] && h'.ran == h.ran + [h'.ran[|h'.ran| - 1]] && MayRun(w, h, op) && IsOwnCall(w, h, op, h'.ran[|h'.ran| - 1])
  {
    hide Execute, Request, JoinWords, Trim;
    match op {
      case DoRequest(name, args) => RequestRuns(w, h, name, args);
      case DoConfirm(id, expected) =>
        if h.pending.Some? { ExecuteEffects(w, h, h.pending.value.name, h.pending.value.args); }
      case DoCancel(_, _) =>
      case DoClear =>
    }
  }

  // ---------- The waiting record ----------

  /** A confirm or cancel that fails keeps the record; one that succeeds takes exactly the record it named. */
  lemma FailureKeepsRecord(w: World, h: State, id: string, expected: Option<string>)
    ensures var (h', r) := Confirm(w, h, id, expected);
      && h'.pending == (if r.Ok? then None else h.pending)
      && (r.Ok? ==> Matches(h, id, expected))
    ensures var (h', r) := Cancel(h, id, expected);
      && h'.pending == (if r.Ok? then None else h.pending)
      && (r.Ok? <==> Matches(h, id, expected))
  {
    hide Execute;
    if h.pending.Some? { ExecuteEffects(w, h, h.pending.value.name, h.pending.value.args); }
  }

  /** The one request that stages a call without asking whether one waits. */
  predicate Reroutes(w: World, name: string, args: seq<string>) {
    && w.state == Awake
    && (w.risk(name).Some? || w.isMcp(name))
    && w.decision(name) == SafeLevel
    && name == SHELL
    && Trim(JoinWords(args)) != ""
    && var expanded := w.echo(JoinWords(args)).expanded;
    w.looksLikeInstall(expanded) && Trim(expanded) != ""
  }

  /**
   While a call waits, a request keeps it: except an always-allowed shell line
   that looks like an install, which replaces it, whatever it was.
   */
  lemma WaitingCallIsKept(w: World, h: State, name: string, args: seq<string>)
    requires h.pending.Some? && h.nextPending < U64_MAX && IdsInOrder(h)
    ensures Request(w, h, name, args).0.pending == h.pending <==> !Reroutes(w, name, args)
    ensures Reroutes(w, name, args) ==>
      var replaced := Request(w, h, name, args).0.pending;
      replaced.Some? && replaced.value.name == SOFTWARE_INSTALL && replaced.value.id == ToString(h.nextPending + 1)
  {
    hide Execute, ToString;
    ExecuteEffects(w, h, name, args);
    if h.pending.value.id == ToString(h.nextPending + 1) { ToStringInjective(h.nextPending, h.nextPending + 1); }
  }

  /** A second request that needs confirming is refused as busy with the first, which stays. */
  lemma SecondRequestIsBusy(w: World, h: State, name: string, args: seq<string>)
    requires h.pending.Some? && w.state == Awake && (w.risk(name).Some? || w.isMcp(name))
    requires w.decision(name) == ConfirmLevel
    ensures var (h', r) := Request(w, h, name, args);
      r == Err(Busy(h.pending.value.id)) && h'.pending == h.pending && SameEffects(h, h')
  {
  }

  // ---------- Asking first, then once ----------

  /** A tool of the registry that acts only once confirmed, and is neither a control nor an MCP tool. */
  predicate HasConfirmRow(w: World, name: string) {
    w.risk(name) == Some(ConfirmLevel) && !w.isCtl(name) && !w.isMcp(name)
  }

  predicate AsksFirst(w: World, name: string, args: seq<string>) {
    && w.state == Awake && HasConfirmRow(w, name) && w.decision(name) == ConfirmLevel && w.validate(name, args) == None
    && name != SHELL && name != SOFTWARE_INSTALL
  }

  /** A call that needs confirming waits with the very arguments asked for, and shows no effect yet. */
  lemma RequestWaits(w: World, h: State, name: string, args: seq<string>)
    requires h.pending == None && AsksFirst(w, name, args)
    ensures var (h', r) := Request(w, h, name, args);
      && SameEffects(h, h')
      && h'.pending == Some(Pending(ToString(SaturatingNext(h.nextPending)), name, args, w.describe(name)))
      && r == Ok(Staged(h'.pending.value))
  {
    hide ToString;
  }

  /** Once confirmed, a waiting notification appends its one line, and a waiting email its one message. */
  lemma ConfirmDelivers(w: World, h: State, id: string, expected: Option<string>)
    requires Matches(h, id, expected) && MayAct(w, h, DoConfirm(id, expected)) && HasConfirmRow(w, h.pending.value.name)
    ensures var (p, (h', r)) := (h.pending.value, Confirm(w, h, id, expected));
      && (p.name == NOTIFY && w.work(NOTIFY, p.args).Done? ==>
            var line := w.work(NOTIFY, p.args).detail;
            r == Ok(line) && h'.pending == None && h'.outbox == h.outbox && h'.sink == PushCapped(h.sink, SINK_CAP, line))
      && (p.name == EMAIL_SEND && w.email(p.args).Backend? && w.email(p.args).accepted.Ok? ==>
            r == Ok(w.email(p.args).accepted.value) && h'.pending == None && h'.sink == h.sink
            && h'.outbox == h.outbox + [w.email(p.args).message])
  {
  }

  /** Whatever became of a call that is gone, by confirm or cancel, its id acts no second time. */
  lemma GoneIdIsInert(w: World, h: State, id: string, expected: Option<string>)
    requires h.pending == None || h.pending.value.id != id
    ensures Confirm(w, h, id, expected).1 == Err(UnknownPending(id)) && SameEffects(h, Confirm(w, h, id, expected).0)
    ensures Cancel(h, id, expected).1 == Err(UnknownPending(id)) && SameEffects(h, Cancel(h, id, expected).0)
  {
  }

  /**
   Asked, confirmed, and confirmed again, each in another world: the effect of
   the very arguments asked for is there once, after the first confirm.
   */
  lemma ActsExactlyOnce(asked: World, now: World, later: World, h: State, name: string, args: seq<string>)
    requires h.pending == None && AsksFirst(asked, name, args)
    requires now.state == Awake && now.decision(name) != DenyLevel && HasConfirmRow(now, name)
    requires (name == NOTIFY && now.work(NOTIFY, args).Done?)
      || (name == EMAIL_SEND && now.email(args).Backend? && now.email(args).accepted.Ok?)
    ensures var h1 := Request(asked, h, name, args).0;
      && SameEffects(h, h1) && h1.pending.Some?
      && var id := h1.pending.value.id;
      var h2 := Confirm(now, h1, id, Some(name)).0;
      && SameEffects(h2, Confirm(later, h2, id, Some(name)).0)
      && h2.sink == (if name == NOTIFY then PushCapped(h.sink, SINK_CAP, now.work(NOTIFY, args).detail) else h.sink)
      && h2.outbox == (if name == EMAIL_SEND then h.outbox + [now.email(args).message] else h.outbox)
  {
    hide Request, Confirm;
    RequestWaits(asked, h, name, args);
    var h1 := Request(asked, h, name, args).0;
    var id := h1.pending.value.id;
    ConfirmDelivers(now, h1, id, Some(name));
    GoneIdIsInert(later, Confirm(now, h1, id, Some(name)).0, id, Some(name));
  }

  // ---------- Ids ----------

  /** The waiting record, if any, carries the newest id handed out. */
  predicate IdsInOrder(h: State) {
    h.pending.Some? ==> h.nextPending >= 1 && h.pending.value.id == ToString(h.nextPending)
  }

  predicate Resolves(w: World, h: State, op: Op) {
    !op.DoRequest? && Succeeds(w, h, op)
  }

  /** Ids only grow, a fresh record takes the next one, and otherwise the record stays or goes. */
  predicate IdsStep(h: State, h': State) {
    && IdsInOrder(h')
    && h.nextPending <= h'.nextPending <= h.nextPending + 1
    && (h'.nextPending > h.nextPending ==> h'.pending.Some?)
    && (h'.nextPending == h.nextPending ==> h'.pending == h.pending || h'.pending.None?)
  }

  lemma ShellIds(w: World, h: State, args: seq<string>, alwaysAllow: bool)
    requires IdsInOrder(h) && h.nextPending < U64_MAX
    ensures IdsStep(h, Shell(w, h, args, alwaysAllow).0) && IdsStep(h, Install(w, h, args, alwaysAllow).0)
  {
    hide ToString, JoinWords, Trim, TrimEnd, Finish;
    FinishKeeps(h, SHELL, [w.echo(JoinWords(args)).expanded], w.work(SHELL, [w.echo(JoinWords(args)).expanded]));
    FinishKeeps(h, SOFTWARE_INSTALL, [InstallCommand(args)], w.work(SOFTWARE_INSTALL, [InstallCommand(args)]));
  }

  lemma RequestIds(w: World, h: State, name: string, args: seq<string>)
    requires IdsInOrder(h) && h.nextPending < U64_MAX
    ensures IdsStep(h, Request(w, h, name, args).0)
  {
    hide Execute, ToString, Shell, Install;
    ShellIds(w, h, args, true);
    ShellIds(w, h, args, false);
    ExecuteEffects(w, h, name, args);
  }

  /** One step of any kind; a step that resolves a call leaves nothing waiting. */
  lemma StepKeepsIds(w: World, h: State, op: Op)
    requires IdsInOrder(h) && h.nextPending < U64_MAX
    ensures IdsStep(h, Apply(w, h, op))
    ensures Resolves(w, h, op) ==> h.pending.Some? && Apply(w, h, op).pending.None? && Apply(w, h, op).nextPending == h.nextPending
  {
    hide Execute, ToString, Request;
    match op {
      case DoRequest(name, args) => RequestIds(w, h, name, args);
      case DoConfirm(id, expected) =>
        if h.pending.Some? { ExecuteEffects(w, h, h.pending.value.name, h.pending.value.args); }
      case DoCancel(_, _) =>
      case DoClear =>
    }
  }

  lemma {:induction false} RunKeepsIds(steps: seq<(World, Op)>, n: nat)
    requires n <= |steps| && n < U64_MAX
    ensures IdsInOrder(After(steps, n)) && After(steps, n).nextPending <= n
  {
    hide Apply, ToString;
    if n > 0 {
      RunKeepsIds(steps, n - 1);
      StepKeepsIds(steps[n - 1].0, After(steps, n - 1), steps[n - 1].1);
    }
  }

  /** Between two states of a run the counter never falls, and it has grown wherever a call waits again. */
  lemma {:induction false} CounterGrows(steps: seq<(World, Op)>, i: nat, j: nat)
    requires i <= j <= |steps| && j < U64_MAX
    ensures After(steps, i).nextPending <= After(steps, j).nextPending
    ensures After(steps, i).pending.None? && After(steps, j).pending.Some? ==>
      After(steps, i).nextPending < After(steps, j).nextPending
    decreases j
  {
    hide Apply, ToString;
    if i < j {
      CounterGrows(steps, i, j - 1);
      RunKeepsIds(steps, j - 1);
      StepKeepsIds(steps[j - 1].0, After(steps, j - 1), steps[j - 1].1);
    }
  }

  /** Each id is resolved at most once: two steps that resolve a call resolve different ids. */
  lemma ResolvedOnce(steps: seq<(World, Op)>, i: nat, j: nat)
    requires i < j < |steps| && j < U64_MAX
    requires Resolves(steps[i].0, After(steps, i), steps[i].1)
    requires Resolves(steps[j].0, After(steps, j), steps[j].1)
    ensures After(steps, i).pending.Some? && After(steps, j).pending.Some?
    ensures After(steps, i).pending.value.id != After(steps, j).pending.value.id
  {
    hide Apply, Resolves, ToString;
    RunKeepsIds(steps, i);
    RunKeepsIds(steps, j);
    StepKeepsIds(steps[i].0, After(steps, i), steps[i].1);
    StepKeepsIds(steps[j].0, After(steps, j), steps[j].1);
    CounterGrows(steps, i + 1, j);
    if After(steps, i).pending.value.id == After(steps, j).pending.value.id {
      ToStringInjective(After(steps, i).nextPending, After(steps, j).nextPending);
    }
  }

  // ---------- What a confirm does, over whole runs ----------

  /**
   The request that put `p` on record: its own name and arguments; for a shell
   line, expanded; for an install, trimmed, whether asked for as such or as a
   shell line.
   */
  predicate StagedBy(w: World, op: Op, p: Pending) {
    && op.DoRequest? && w.state == Awake && w.decision(op.name) != DenyLevel
    && if p.name == SHELL then
         op.name == SHELL && p.args == [Expanded(w, op.args)] && w.decision(SHELL) == ConfirmLevel
       else if p.name == SOFTWARE_INSTALL then
         (op.name == SOFTWARE_INSTALL && p.args == [InstallCommand(op.args)])
         || (op.name == SHELL && p.args == [InstallCommand([Expanded(w, op.args)])])
       else op == DoRequest(p.name, p.args) && w.decision(p.name) == ConfirmLevel && w.validate(p.name, p.args) == None
  }

  lemma ShellStages(w: World, h: State, args: seq<string>, alwaysAllow: bool)
    ensures var h' := Shell(w, h, args, alwaysAllow).0;
      h'.pending == h.pending || (h'.pending.Some? && var p := h'.pending.value;
        || (p.name == SHELL && p.args == [Expanded(w, args)] && !alwaysAllow)
        || (p.name == SOFTWARE_INSTALL && p.args == [InstallCommand([Expanded(w, args)])]))
    ensures var h' := Install(w, h, args, alwaysAllow).0;
      h'.pending == h.pending
      || (h'.pending.Some? && h'.pending.value.name == SOFTWARE_INSTALL && h'.pending.value.args == [InstallCommand(args)])
  {
    hide ToString, JoinWords, Trim, TrimEnd, Finish;
    FinishKeeps(h, SHELL, [Expanded(w, args)], w.work(SHELL, [Expanded(w, args)]));
    FinishKeeps(h, SOFTWARE_INSTALL, [InstallCommand(args)], w.work(SOFTWARE_INSTALL, [InstallCommand(args)]));
  }

  /** A record that was not there before was staged by this very step. */
  lemma NewRecordIsStaged(w: World, h: State, op: Op)
    requires Apply(w, h, op).pending.Some? && Apply(w, h, op).pending != h.pending
    ensures StagedBy(w, op, Apply(w, h, op).pending.value)
  {
    hide Execute, ToString, Shell, Install, Finish;
    match op {
      case DoRequest(name, args) =>
        ShellStages(w, h, args, true);
        ShellStages(w, h, args, false);
        ExecuteEffects(w, h, name, args);
        FinishKeeps(h, name, args, w.work(name, args));
      case DoConfirm(id, expected) =>
        if h.pending.Some? { ExecuteEffects(w, h, h.pending.value.name, h.pending.value.args); }
      case DoCancel(_, _) =>
      case DoClear =>
    }
  }

  /** Whatever waits was staged by an earlier step, and has waited ever since. */
  lemma {:induction false} StagedEarlier(steps: seq<(World, Op)>, n: nat) returns (m: nat)
    requires n <= |steps| && After(steps, n).pending.Some?
    ensures m < n && StagedBy(steps[m].0, steps[m].1, After(steps, n).pending.value)
    ensures forall k :: m < k <= n ==> After(steps, k).pending == After(steps, n).pending
  {
    hide Apply, StagedBy;
    if After(steps, n - 1).pending == After(steps, n).pending {
      m := StagedEarlier(steps, n - 1);
    } else {
      m := n - 1;
      NewRecordIsStaged(steps[m].0, After(steps, m), steps[m].1);
    }
  }

  /** What a confirm shows: the notification or the message that today's world makes of the record's arguments. */
  lemma ConfirmShows(w: World, h: State, id: string, expected: Option<string>)
    ensures var h' := Confirm(w, h, id, expected).0;
      && (h'.sink != h.sink ==>
            && h.pending.Some? && w.work(NOTIFY, h.pending.value.args).Done?
            && h'.sink == PushCapped(h.sink, SINK_CAP, w.work(NOTIFY, h.pending.value.args).detail))
      && (h'.outbox != h.outbox ==>
            && h.pending.Some? && w.email(h.pending.value.args).Backend?
            && h'.outbox == h.outbox + [w.email(h.pending.value.args).message])
  {
    hide JoinWords, SendEmail;
    if h.pending.Some? {
      var p := h.pending.value;
      ExecuteEffects(w, h, p.name, p.args);
      SendEmailEffects(h, p.args, w.email(p.args));
    }
  }

  /**
   In every run, a confirm that shows an effect runs the very arguments some
   earlier step asked for, awake and under a decision to ask first, whose record
   has waited untouched since; and the effect is what those arguments make.
   */
  lemma ConfirmRunsWhatWasStaged(steps: seq<(World, Op)>, n: nat) returns (m: nat)
    requires n < |steps| && steps[n].1.DoConfirm? && !SameEffects(After(steps, n), After(steps, n + 1))
    ensures After(steps, n).pending.Some?
    ensures var ((w, op), p) := (steps[n], After(steps, n).pending.value);
      && op.id == p.id
      && m < n && steps[m].1 == DoRequest(p.name, p.args)
      && steps[m].0.state == Awake && steps[m].0.decision(p.name) == ConfirmLevel
      && (forall k :: m < k <= n ==> After(steps, k).pending == Some(p))
      && (After(steps, n + 1).sink != After(steps, n).sink ==>
            && p.name == NOTIFY && w.work(NOTIFY, p.args).Done?
            && After(steps, n + 1).sink == PushCapped(After(steps, n).sink, SINK_CAP, w.work(NOTIFY, p.args).detail))
      && (After(steps, n + 1).outbox != After(steps, n).outbox ==>
            && p.name == EMAIL_SEND && w.email(p.args).Backend?
            && After(steps, n + 1).outbox == After(steps, n).outbox + [w.email(p.args).message])
  {
    hide Confirm, Succeeds, PushCapped;
    var (w, op) := steps[n];
    RunEffectsAreGated(steps, n);
    ConfirmShows(w, After(steps, n), op.id, op.expected);
    m := StagedEarlier(steps, n);
  }

  /**
   In every run, a call is handed to a tool only by a step that may, and it is
   that step's own. A confirm hands over exactly what an earlier request, awake
   and not denied, put on record, and what has waited untouched since.
   */
  lemma RunToolsAreGated(steps: seq<(World, Op)>, n: nat) returns (m: nat)
    requires n < |steps| && After(steps, n + 1).ran != After(steps, n).ran
    ensures var ((w, op), h, h') := (steps[n], After(steps, n), After(steps, n + 1));
      && h'.ran != [] && h'.ran == h.ran + [h'.ran[|h'.ran| - 1]]
      && MayRun(w, h, op) && IsOwnCall(w, h, op, h'.ran[|h'.ran| - 1])
    ensures steps[n].1.DoConfirm? ==>
      && m < n && After(steps, n).pending.Some?
      && var p, ran := After(steps, n).pending.value, After(steps, n + 1).ran;
      && StagedBy(steps[m].0, steps[m].1, p) && (forall k :: m < k <= n ==> After(steps, k).pending == Some(p))
      && ran[|ran| - 1] == ToolRun(p.name, p.args)
  {
    hide Apply, StagedBy;
    ToolsAreGated(steps[n].0, After(steps, n), steps[n].1);
    m := 0;
    if steps[n].1.DoConfirm? {
      m := StagedEarlier(steps, n);
      OneLineIsOneWord(steps[m].0, steps[m].1, After(steps, n).pending.value);
    }
  }

  lemma OneLineIsOneWord(w: World, op: Op, p: Pending)
    requires StagedBy(w, op, p)
    ensures p.name == SHELL || p.name == SOFTWARE_INSTALL ==> [JoinWords(p.args)] == p.args
  {
  }

  /** In every run, two confirms that show an effect name different ids: no call takes effect twice. */
  lemma EffectsOfDifferentCalls(steps: seq<(World, Op)>, i: nat, j: nat)
    requires i < j < |steps| && j < U64_MAX
    requires steps[i].1.DoConfirm? && !SameEffects(After(steps, i), After(steps, i + 1))
    requires steps[j].1.DoConfirm? && !SameEffects(After(steps, j), After(steps, j + 1))
    ensures steps[i].1.id != steps[j].1.id
  {
    hide Succeeds;
    RunEffectsAreGated(steps, i);
    RunEffectsAreGated(steps, j);
    ResolvedOnce(steps, i, j);
  }

  // ---------- The call that is lost ----------

  /** A world whose operator always allows shell lines and is asked about the rest. */
  const SHELL_ALLOWED: World := World(
    Awake,
    name => if name == NOTIFY || name == SHELL then Some(ConfirmLevel) else None,
    _ => false,
    _ => false,
    name => if name == SHELL then SafeLevel else ConfirmLevel,
    _ => None,
    name => name,
    (_, _) => None,
    line => Echo(line, line, true),
    line => "apt install " <= line,
    (_, _) => Done("done"),
    _ => SentByAccount("sent"))

  /**
   From the start, in two steps: a notification waits for the operator, and an
   always-allowed shell line that installs takes its place. The notification's id
   is then unknown: it can be neither confirmed nor cancelled.
   */
  lemma WaitingCallCanBeLost(later: World, expected: Option<string>)
    ensures var steps := [(SHELL_ALLOWED, DoRequest(NOTIFY, ["hello"])), (SHELL_ALLOWED, DoRequest(SHELL, ["apt install x"]))];
      var (waiting, lost) := (After(steps, 1), After(steps, 2));
      && waiting.pending.Some? && waiting.pending.value.name == NOTIFY
      && lost.pending.Some? && lost.pending.value.name == SOFTWARE_INSTALL
      && Confirm(later, lost, waiting.pending.value.id, expected).1 == Err(UnknownPending(waiting.pending.value.id))
      && Cancel(lost, waiting.pending.value.id, expected).1 == Err(UnknownPending(waiting.pending.value.id))
  {
    hide Request, Confirm, Cancel, ToString;
    var steps := [(SHELL_ALLOWED, DoRequest(NOTIFY, ["hello"])), (SHELL_ALLOWED, DoRequest(SHELL, ["apt install x"]))];
    RequestWaits(SHELL_ALLOWED, INITIAL, NOTIFY, ["hello"]);
    RunKeepsIds(steps, 1);
    var waiting := After(steps, 1);
    assert Trim("apt install x") == "apt install x" by { TrimNoop("apt install x"); }
    WaitingCallIsKept(SHELL_ALLOWED, waiting, SHELL, ["apt install x"]);
    if ToString(1) == ToString(2) { ToStringInjective(1, 2); }
    GoneIdIsInert(later, After(steps, 2), waiting.pending.value.id, expected);
  }

  // ---------- What an answer means ----------

  /** Which of the tool's rows a confirmed or safe call takes. */
  datatype Row = SafeRow | ControlRow | McpRow | EmailRow | LineRow | TeamRow | NotifyRow | PlainRow | NoRow

  function RowOf(w: World, name: string): Row {
    var risk := w.risk(name);
    if risk == Some(SafeLevel) then SafeRow
    else if risk == Some(DenyLevel) || (risk == None && !w.isMcp(name)) then NoRow
    else if w.isCtl(name) then ControlRow
    else if w.isMcp(name) then McpRow
    else if name == "email_send" then EmailRow
    else if name == "shell" || name == "software_install" then LineRow
    else if name == "agent_message" || name == "goal_run" then TeamRow
    else if name == "notify" then NotifyRow
    else PlainRow
  }

  /** The call a tool gets; two tools get their words as one line. */
  function CallOf(w: World, name: string, args: seq<string>): ToolRun {
    ToolRun(name, if RowOf(w, name) == LineRow then [JoinWith(args, " ")] else args)
  }

  /** What the tool says when it succeeds on that call. */
  function SaysOf(w: World, name: string, args: seq<string>): Option<string> {
    var row, call := RowOf(w, name), CallOf(w, name, args);
    if row == NoRow then None
    else if row == EmailRow then
      match w.email(args)
      case SentByAccount(detail) => Some(detail)
      case Backend(_, Ok(detail)) => Some(detail)
      case _ => None
    else
      match w.work(call.name, call.args)
      case Done(detail) => Some(if row == ControlRow then "" else detail)
      case _ => None
  }

  /** All a successful call leaves behind: one call handed over, one line or message, one slot set, and nothing else. */
  predicate LeavesExactly(w: World, h: State, h': State, name: string, args: seq<string>, says: string) {
    var row := RowOf(w, name);
    && h'.ran == h.ran + [CallOf(w, name, args)]
    && h'.sink == (if row == NotifyRow then PushCapped(h.sink, 64, says) else h.sink)
    && h'.outbox == (if row == EmailRow && w.email(args).Backend? then h.outbox + [w.email(args).message] else h.outbox)
    && h'.ctlEffect == (if row == ControlRow then Some(name) else h.ctlEffect)
    && h'.teamEffect == (if row == TeamRow then Some(name) else h.teamEffect)
    && h'.nextPending == h.nextPending
  }

  /** A tool succeeds exactly when the world's answer to its own call says so, and then leaves exactly its mark. */
  lemma ExecuteExactly(w: World, h: State, name: string, args: seq<string>)
    ensures var (h', r) := Execute(w, h, name, args);
      && (r.Ok? <==> SaysOf(w, name, args).Some?)
      && (r.Ok? ==> r.value == SaysOf(w, name, args).value && LeavesExactly(w, h, h', name, args, r.value))
      && (r.Ok? ==> h'.pending == h.pending && h'.log == h.log && h'.nextSeq == h.nextSeq)
      && (r.Err? ==> SameEffects(h, h') && h'.ctlEffect == h.ctlEffect && h'.teamEffect == h.teamEffect && h'.pending == h.pending)
  {
    hide JoinWith, PushCapped, Finish, SendEmail;
    var call := CallOf(w, name, args);
    FinishExactly(h, name, args, w.work(name, args));
    FinishExactly(h, name, call.args, w.work(name, call.args));
    SendEmailExactly(h, args, w.email(args));
  }

  /** The same state but for the log and the call handed over. */
  predicate OnlyHandsOver(h: State, h': State, run: ToolRun) {
    h' == h.(ran := h.ran + [run])
  }

  predicate KeepsSlots(h: State, h': State) {
    SameEffects(h, h') && h'.ctlEffect == h.ctlEffect && h'.teamEffect == h.teamEffect && h'.pending == h.pending
  }

  lemma FinishExactly(h: State, name: string, args: seq<string>, work: Work)
    ensures var (h', r) := Finish(h, name, args, work);
      && (r.Ok? <==> work.Done?)
      && (r.Ok? ==> r.value == work.detail && OnlyHandsOver(h, h', ToolRun(name, args)))
      && KeepsSlots(h, h')
  {
    hide PushCapped;
  }

  lemma SendEmailExactly(h: State, args: seq<string>, work: EmailWork)
    ensures var (h', r) := SendEmail(h, args, work);
      && (r.Ok? <==> work.SentByAccount? || (work.Backend? && work.accepted.Ok?))
      && (r.Ok? ==>
            && r.value == (if work.SentByAccount? then work.detail else work.accepted.value)
            && h' == h.(ran := h.ran + [ToolRun("email_send", args)],
                        outbox := if work.Backend? then h.outbox + [work.message] else h.outbox))
      && (r.Err? ==> KeepsSlots(h, h'))
  {
    hide PushCapped;
  }

  /** How a tool fails: as its row is missing, as the registry refuses it, or as its own machinery says. */
  function ErrorOf(error: ToolError): DispatchError {
    match error
    case ToolDenied(name) => Denied(name)
    case ToolInvalidArgs(name, detail) => InvalidArgs(name, detail)
    case ToolUnknown(name) => UnknownTool(name)
  }

  lemma ExecuteFailsAs(w: World, h: State, name: string, args: seq<string>)
    ensures var (row, call, r) := (RowOf(w, name), CallOf(w, name, args), Execute(w, h, name, args).1);
      r.Err? ==>
        if row == NoRow then r.error == if w.risk(name).Some? then Denied(name) else UnknownTool(name)
        else if row == EmailRow then
          match w.email(args)
          case NotParsed(error) => r.error == ErrorOf(error)
          case NotSent(why) => r.error == Connector(why)
          case SentByAccount(_) => false
          case Backend(_, accepted) => accepted.Err? && r.error == Connector(accepted.error)
        else
          match w.work(call.name, call.args)
          case Done(_) => false
          case Refused(error) => r.error == ErrorOf(error)
          case FailedOutside(outside, _) => r.error == outside
          case BadArgs(detail) => r.error == InvalidArgs(name, detail)
  {
    hide JoinWith, PushCapped, Record;
  }

  /**
   A confirm answers Ok exactly when the record matches, the voice is awake, the
   tool is not denied now and it succeeds on the record's arguments; it answers
   what the tool said, the record is gone, and the tool's mark is exactly there.
   */
  lemma ConfirmExactly(w: World, h: State, id: string, expected: Option<string>)
    ensures var (h', r) := Confirm(w, h, id, expected);
      && (r.Ok? <==>
            && Matches(h, id, expected) && w.state == Awake && w.decision(h.pending.value.name) != DenyLevel
            && SaysOf(w, h.pending.value.name, h.pending.value.args).Some?)
      && (r.Ok? ==>
            && h.pending.Some? && var p := h.pending.value;
            && Some(r.value) == SaysOf(w, p.name, p.args)
            && LeavesExactly(w, h, h', p.name, p.args, r.value) && h'.pending == None)
  {
    hide Execute, JoinWith, PushCapped, SaysOf, RowOf, CallOf;
    if h.pending.Some? { ExecuteExactly(w, h, h.pending.value.name, h.pending.value.args); }
  }

  /** Why a confirm or a cancel is refused before anything runs, in the order of the checks. */
  lemma RefusalsExactly(w: World, h: State, id: string, expected: Option<string>)
    ensures var (confirmed, cancelled) := (Confirm(w, h, id, expected).1, Cancel(h, id, expected).1);
      if h.pending == None || h.pending.value.id != id then
        confirmed == Err(UnknownPending(id)) && cancelled == Err(UnknownPending(id))
      else if expected.Some? && expected.value != h.pending.value.name then
        confirmed == Err(PendingMismatch(id, expected.value)) && cancelled == Err(PendingMismatch(id, expected.value))
      else
        && cancelled == Ok(h.pending.value) && Cancel(h, id, expected).0.pending == None
        && (w.state != Awake ==> confirmed == Err(ConfirmForbidden(id, w.state)))
        && (w.state == Awake && w.decision(h.pending.value.name) == DenyLevel ==> confirmed == Err(Denied(h.pending.value.name)))
  {
    hide Execute;
  }

  /** The line a shell request runs or stages, unless the words are blank. */
  predicate IsBlank(args: seq<string>) {
    Trim(JoinWith(args, " ")) == ""
  }

  /** What the glossary makes of the words. */
  function EchoOf(w: World, args: seq<string>): Echo {
    w.echo(JoinWith(args, " "))
  }

  /** A shell line that is passed on as an install. */
  predicate IsReroute(w: World, args: seq<string>) {
    !IsBlank(args) && w.looksLikeInstall(EchoOf(w, args).expanded)
  }

  /** The call a request hands over at once, when it hands one over: a line for the shell or an install, else its own. */
  function AtOnce(w: World, name: string, args: seq<string>): ToolRun {
    if name == "shell" then ToolRun(name, [EchoOf(w, args).expanded])
    else if name == "software_install" then ToolRun(name, [Trim(JoinWith(args, " "))])
    else if name == "agent_message" || name == "goal_run" then ToolRun(name, args)
    else CallOf(w, name, args)
  }

  /** What a request's tool says when it succeeds at once. */
  function SaysAtOnce(w: World, name: string, args: seq<string>): Option<string> {
    if name == "shell" || name == "software_install" || name == "agent_message" || name == "goal_run" then
      match w.work(AtOnce(w, name, args).name, AtOnce(w, name, args).args)
      case Done(detail) => Some(detail)
      case _ => None
    else SaysOf(w, name, args)
  }

  /** The request is of a kind that runs at once: decided safe, or a shell line that needs no confirming. */
  predicate RunsAtOnce(w: World, h: State, name: string, args: seq<string>) {
    && w.state == Awake && (w.risk(name).Some? || w.isMcp(name))
    && (name == "shell" ==> !IsBlank(args) && !IsReroute(w, args))
    && (name == "software_install" ==> Trim(JoinWith(args, " ")) != "")
    && (|| w.decision(name) == SafeLevel
        || (name == "shell" && w.decision(name) == ConfirmLevel && h.pending == None && !EchoOf(w, args).mustConfirm))
  }

  /** The record a request puts up, if it is of a kind that waits. */
  function Staging(w: World, h: State, name: string, args: seq<string>): Option<(string, seq<string>, string)> {
    if w.state != Awake || (w.risk(name) == None && !w.isMcp(name)) then None
    else if name == "shell" && w.decision(name) != DenyLevel && IsReroute(w, args) then
      if Trim(EchoOf(w, args).expanded) == "" || (w.decision(name) == ConfirmLevel && h.pending.Some?) then None
      else Some(("software_install", [Trim(EchoOf(w, args).expanded)], "Install software: " + Trim(EchoOf(w, args).expanded)))
    else if w.decision(name) != ConfirmLevel || h.pending.Some? then None
    else if name == "shell" then
      if IsBlank(args) || !EchoOf(w, args).mustConfirm then None
      else Some(("shell", [EchoOf(w, args).expanded], TrimEnd(EchoOf(w, args).readback)))
    else if name == "software_install" then
      if Trim(JoinWith(args, " ")) == "" then None
      else Some(("software_install", [Trim(JoinWith(args, " "))], "Install software: " + Trim(JoinWith(args, " "))))
    else if w.validate(name, args).Some? then None
    else Some((name, args, w.describe(name)))
  }

  /** A request answers Ran exactly when it is of a kind that runs and its tool succeeds; it names itself and what was said. */
  lemma RequestRunsExactly(w: World, h: State, name: string, args: seq<string>)
    ensures var (h', r) := Request(w, h, name, args);
      && (r.Ok? && r.value.Ran? <==> RunsAtOnce(w, h, name, args) && SaysAtOnce(w, name, args).Some?)
      && (r.Ok? && r.value.Ran? ==>
            && r.value.name == name && Some(r.value.detail) == SaysAtOnce(w, name, args)
            && h'.ran == h.ran + [AtOnce(w, name, args)] && h'.pending == h.pending)
  {
    hide Execute, Shell, Install, JoinWith, Trim, SaysOf, CallOf, RowOf;
    ShellExactly(w, h, args, true);
    ShellExactly(w, h, args, false);
    ExecuteExactly(w, h, name, args);
  }

  /** A shell line, or an install, seen alone. */
  lemma ShellExactly(w: World, h: State, args: seq<string>, alwaysAllow: bool)
    ensures var ((h', r), says) := (Shell(w, h, args, alwaysAllow), SaysAtOnce(w, SHELL, args));
      && (r.Ok? && r.value.Ran? <==>
            !IsBlank(args) && !IsReroute(w, args) && (alwaysAllow || !EchoOf(w, args).mustConfirm) && says.Some?)
      && (r.Ok? && r.value.Ran? ==>
            r.value.name == SHELL && Some(r.value.detail) == says && h'.ran == h.ran + [AtOnce(w, SHELL, args)] && h'.pending == h.pending)
    ensures var ((h', r), says) := (Install(w, h, args, alwaysAllow), SaysAtOnce(w, SOFTWARE_INSTALL, args));
      && (r.Ok? && r.value.Ran? <==> Trim(JoinWith(args, " ")) != "" && alwaysAllow && says.Some?)
      && (r.Ok? && r.value.Ran? ==>
            && r.value.name == SOFTWARE_INSTALL && Some(r.value.detail) == says
            && h'.ran == h.ran + [AtOnce(w, SOFTWARE_INSTALL, args)] && h'.pending == h.pending)
  {
    hide ToString, JoinWith, Trim, TrimEnd;
  }

  /** And Staged exactly when it is of a kind that waits: under the next id, with nothing handed over. */
  lemma RequestStagesExactly(w: World, h: State, name: string, args: seq<string>)
    ensures var (h', r) := Request(w, h, name, args);
      && (r.Ok? && r.value.Staged? <==> Staging(w, h, name, args).Some?)
      && (r.Ok? && r.value.Staged? ==>
            && var (staged, words, description) := Staging(w, h, name, args).value;
            && r.value.pending == Pending(ToString(SaturatingNext(h.nextPending)), staged, words, description)
            && h'.pending == Some(r.value.pending) && h'.nextPending == SaturatingNext(h.nextPending) && h'.ran == h.ran)
  {
  }

  /** Why a request is turned away at the door: asleep first, then unknown, then denied, then busy. */
  lemma RequestRefusals(w: World, h: State, name: string, args: seq<string>)
    ensures var r := Request(w, h, name, args).1;
      if w.state != Awake then r == Err(Forbidden(name, w.state))
      else if w.risk(name) == None && !w.isMcp(name) then r == Err(UnknownTool(name))
      else if w.decision(name) == DenyLevel then r == Err(Denied(name))
      else w.decision(name) == ConfirmLevel && h.pending.Some? ==> r == Err(Busy(h.pending.value.id))
  {
  }

  // ---------- The log ----------

  /** A bounded list keeps the newest: all of them while there is room. */
  lemma PushCappedKeepsNewest<T>(items: seq<T>, cap: nat, item: T)
    requires 0 < cap && |items| <= cap
    ensures var r := PushCapped(items, cap, item);
      && |r| <= cap && r == (items + [item])[|items| + 1 - |r|..] && (r == items + [item] || |r| == cap)
  {
  }

  /** One entry more, under the next number, and nothing else new in the log. */
  predicate Notes(h: State, h': State, name: string, risk: Option<Level>, outcome: ToolOutcome, detail: Option<string>) {
    && h'.nextSeq == (if h.nextSeq < 0xFFFF_FFFF_FFFF_FFFF then h.nextSeq + 1 else h.nextSeq)
    && h'.log == PushCapped(h.log, 64, LogEntry(h'.nextSeq, name, risk, outcome, detail))
  }

  /** What the log says of a request: what ran and what it said, what waits, and why it was turned away. */
  lemma RequestIsNoted(w: World, h: State, name: string, args: seq<string>)
    ensures var (h', r) := Request(w, h, name, args);
      match r
      case Ok(Ran(_, detail)) =>
        Notes(h, h', name, Some(if w.decision(name) == SafeLevel then SafeLevel else ConfirmLevel), OutRan, Some(detail))
      case Ok(Staged(p)) => Notes(h, h', p.name, Some(ConfirmLevel), OutPending, None)
      case Err(e) =>
        if w.state != Awake then Notes(h, h', name, None, OutForbidden, None)
        else if w.risk(name) == None && !w.isMcp(name) then Notes(h, h', name, None, OutUnknown, None)
        else if w.decision(name) == DenyLevel then Notes(h, h', name, Some(DenyLevel), OutDenied, w.denyDetail(name))
        else w.decision(name) == ConfirmLevel && h.pending.Some? ==>
          Notes(h, h', name, Some(ConfirmLevel), OutPending, Some("busy: " + h.pending.value.id))
  {
    hide RunNow, StageConfirm, PushCapped, Notes;
    RunNowIsNoted(w, h, name, args);
    StageIsNoted(w, h, name, args);
    RecordNotes(h);
  }

  lemma RecordNotes(h: State)
    ensures forall name, risk, outcome, detail :: Notes(h, Record(h, name, risk, outcome, detail), name, risk, outcome, detail)
  {
    hide PushCapped;
  }

  lemma RunNowIsNoted(w: World, h: State, name: string, args: seq<string>)
    ensures var (h', r) := RunNow(w, h, name, args);
      match r
      case Ok(Ran(_, detail)) => Notes(h, h', name, Some(SafeLevel), OutRan, Some(detail))
      case Ok(Staged(p)) => Notes(h, h', p.name, Some(ConfirmLevel), OutPending, None)
      case Err(_) => true
  {
    hide Execute, Shell, Install, PushCapped, ToString;
    ShellIsNoted(w, h, args, true);
    ExecuteExactly(w, h, name, args);
    FinishExactly(h, name, args, w.work(name, args));
  }

  lemma StageIsNoted(w: World, h: State, name: string, args: seq<string>)
    ensures var (h', r) := StageConfirm(w, h, name, args);
      match r
      case Ok(Ran(_, detail)) => Notes(h, h', name, Some(ConfirmLevel), OutRan, Some(detail))
      case Ok(Staged(p)) => Notes(h, h', p.name, Some(ConfirmLevel), OutPending, None)
      case Err(e) =>
        h.pending.Some? ==> Notes(h, h', name, Some(ConfirmLevel), OutPending, Some("busy: " + h.pending.value.id))
  {
    hide Shell, Install, PushCapped, ToString;
    ShellIsNoted(w, h, args, false);
  }

  lemma ShellIsNoted(w: World, h: State, args: seq<string>, alwaysAllow: bool)
    ensures var (h', r) := Shell(w, h, args, alwaysAllow);
      match r
      case Ok(Ran(_, detail)) =>
        Notes(h, h', SHELL, Some(if alwaysAllow then SafeLevel else ConfirmLevel), OutRan, Some(detail))
      case Ok(Staged(p)) => Notes(h, h', p.name, Some(ConfirmLevel), OutPending, None)
      case Err(_) => true
    ensures var (h', r) := Install(w, h, args, alwaysAllow);
      match r
      case Ok(Ran(_, detail)) => alwaysAllow && Notes(h, h', SOFTWARE_INSTALL, Some(SafeLevel), OutRan, Some(detail))
      case Ok(Staged(p)) => Notes(h, h', p.name, Some(ConfirmLevel), OutPending, None)
      case Err(_) => true
  {
    hide ToString, JoinWith, Trim, TrimEnd, PushCapped;
  }

  /** And of the record: confirmed with what was said, cancelled, cleared, or why it was left alone. */
  lemma ResolutionIsNoted(w: World, h: State, id: string, expected: Option<string>)
    ensures var ((confirmed, r), (cancelled, _)) := (Confirm(w, h, id, expected), Cancel(h, id, expected));
      if h.pending == None || h.pending.value.id != id then
        && Notes(h, confirmed, id, None, OutUnknown, Some("unknown pending"))
        && Notes(h, cancelled, id, None, OutUnknown, Some("unknown pending"))
      else
        var name := h.pending.value.name;
        if expected.Some? && expected.value != name then
          && Notes(h, confirmed, name, Some(ConfirmLevel), OutUnknown, Some("name mismatch: " + expected.value))
          && Notes(h, cancelled, name, Some(ConfirmLevel), OutUnknown, Some("name mismatch: " + expected.value))
        else
          && Notes(h, cancelled, name, Some(ConfirmLevel), OutCancelled, None)
          && (w.state != Awake ==> Notes(h, confirmed, name, Some(ConfirmLevel), OutForbidden, None))
          && (w.state == Awake && w.decision(name) == DenyLevel ==>
                Notes(h, confirmed, name, Some(DenyLevel), OutDenied, w.denyDetail(name)))
          && (r.Ok? ==> Notes(h, confirmed, name, Some(ConfirmLevel), OutConfirmed, Some(r.value)))
    ensures var (cleared, gone) := ClearPending(h);
      && gone == h.pending && cleared.pending == None && KeepsSlots(h.(pending := None), cleared) && cleared.ran == h.ran
      && (if h.pending.Some? then
            Notes(h, cleared, h.pending.value.name, Some(ConfirmLevel), OutCancelled, Some("cleared when acting stopped"))
          else cleared == h)
  {
    hide Execute, PushCapped;
    if h.pending.Some? { ExecuteExactly(w, h, h.pending.value.name, h.pending.value.args); }
  }
}
