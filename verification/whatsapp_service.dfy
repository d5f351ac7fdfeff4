/** The host side of the bridge: the service that owns the worker process,
    turns the worker's stdout lines into typed events, keeps the connection
    and monitoring flags, and writes commands to the worker's stdin. */
module Bridge {
  import opened Wrappers
  import opened Text
  import opened NodeMessages
  import opened Commands

  /** The typed events the service raises, in the order it raises them. */
  datatype Event =
    | QrCodeReceived(qr: string)
    | ConnectionStatusChanged(connected: bool)
    | UserNameReceived(name: string)
    | GroupsUpdated(groups: seq<WhatsGroup>)
    | MediaMessageReceived(media: MediaMessage)
    | MonitoringStatusChanged(monitoring: bool)

  /** One operation on the worker's stdin. */
  datatype StdinOp = WriteLine(command: Command) | Flush

  /** The worker process handle: absent (`null`), running, or exited. */
  datatype Proc = NoProcess | Running | Exited

  /** `_nodeProcess?.HasExited == false`. */
  predicate Alive(p: Proc) {
    p == Running
  }

  /** What one delete attempt of the session directory does. */
  datatype DeleteResult = Deleted | IoFailure | AccessDenied | OtherFailure

  /** The failures after which the cleanup loop waits and tries again. */
  predicate Retryable(r: DeleteResult) {
    r == IoFailure || r == AccessDenied
  }

  const MaxRetries: nat := 5

  /** An exception escaping a service method. `ScriptNotFound` is the
      `FileNotFoundException` for a missing script, which reaches the caller
      wrapped in an `InvalidOperationException`. */
  datatype Fault = ScriptNotFound | NullReference

  /** How a service method ends: normally, or by throwing. */
  datatype Outcome = Completed | Threw(fault: Fault)

  /** The message tags the dispatcher has a case for. */
  const KnownTags: set<string> := {"qr", "status", "userName", "groups", "media", "monitoringStatus"}

  /** The line filter: non-null, non-empty, and `{` first after leading
      white space. Every other line is diagnostic output of the worker. */
  predicate IsCandidate(line: Option<string>) {
    line.Some? && line.value != [] && StartsWith(TrimStart(line.value), "{")
  }

  /** The flags after one line, and the events that line fires. */
  datatype Step = Step(connected: bool, monitoring: bool, fired: seq<Event>)

  /** The value of the last `ConnectionStatusChanged` in `es`, or `init`. */
  function LastConnected(es: seq<Event>, init: bool): bool {
    if es == [] then init
    else if es[|es| - 1].ConnectionStatusChanged? then es[|es| - 1].connected
    else LastConnected(es[..|es| - 1], init)
  }

  /** The value of the last `MonitoringStatusChanged` in `es`, or `init`. */
  function LastMonitoring(es: seq<Event>, init: bool): bool {
    if es == [] then init
    else if es[|es| - 1].MonitoringStatusChanged? then es[|es| - 1].monitoring
    else LastMonitoring(es[..|es| - 1], init)
  }

  /** The switch over a decoded message's `type`. */
  function Apply(connected: bool, monitoring: bool, m: NodeMessage): (r: Step)
    ensures |r.fired| <= 1
    // a flag changes only together with the one event that announces it
    ensures r.connected != connected ==> r.fired == [ConnectionStatusChanged(r.connected)]
    ensures r.monitoring != monitoring ==> r.fired == [MonitoringStatusChanged(r.monitoring)]
    // an announced value is the stored value
    ensures forall e :: e in r.fired && e.ConnectionStatusChanged? ==> e.connected == r.connected
    ensures forall e :: e in r.fired && e.MonitoringStatusChanged? ==> e.monitoring == r.monitoring
    // tags without a case (including "error" and a missing tag) change nothing
    ensures (m.msgType.None? || m.msgType.value !in KnownTags) ==> r == Step(connected, monitoring, [])
    ensures m.msgType == Some("status") ==>
      r == Step(m.connected.GetOr(false), monitoring, [ConnectionStatusChanged(m.connected.GetOr(false))])
    ensures m.msgType == Some("monitoringStatus") ==>
      r == Step(connected, m.monitoring.GetOr(false), [MonitoringStatusChanged(m.monitoring.GetOr(false))])
    ensures m.msgType == Some("qr") ==> r == Step(connected, monitoring, [QrCodeReceived(m.qr.GetOr(""))])
    ensures m.msgType == Some("userName") ==> r == Step(connected, monitoring, [UserNameReceived(m.name.GetOr(""))])
  {
    if m.msgType == Some("qr") then
      Step(connected, monitoring, [QrCodeReceived(m.qr.GetOr(""))])
    else if m.msgType == Some("status") then
      var c := m.connected.GetOr(false);
      Step(c, monitoring, [ConnectionStatusChanged(c)])
    else if m.msgType == Some("userName") then
      Step(connected, monitoring, [UserNameReceived(m.name.GetOr(""))])
    else if m.msgType == Some("groups") then
      match m.groups
      case None => Step(connected, monitoring, [])
      case Some(gs) => Step(connected, monitoring, [GroupsUpdated(seq(|gs|, i requires 0 <= i < |gs| => ToWhatsGroup(gs[i])))])
    else if m.msgType == Some("media") then
      match m.media
      case None => Step(connected, monitoring, [])
      case Some(mi) => Step(connected, monitoring, [MediaMessageReceived(ToMediaMessage(mi))])
    else if m.msgType == Some("monitoringStatus") then
      var on := m.monitoring.GetOr(false);
      Step(connected, on, [MonitoringStatusChanged(on)])
    else
      Step(connected, monitoring, [])
  }

  /** Everything one stdout line does to the flags and the event trace. */
  function Dispatch(connected: bool, monitoring: bool, line: Option<string>, decode: string -> Decoded): (r: Step)
    ensures |r.fired| <= 1
    ensures r.connected != connected ==> r.fired == [ConnectionStatusChanged(r.connected)]
    ensures r.monitoring != monitoring ==> r.fired == [MonitoringStatusChanged(r.monitoring)]
    ensures forall e :: e in r.fired && e.ConnectionStatusChanged? ==> e.connected == r.connected
    ensures forall e :: e in r.fired && e.MonitoringStatusChanged? ==> e.monitoring == r.monitoring
    // noise, undecodable lines and null messages are dropped without effect
    ensures !IsCandidate(line) ==> r == Step(connected, monitoring, [])
    ensures IsCandidate(line) && !decode(line.value).Parsed? ==> r == Step(connected, monitoring, [])
    ensures IsCandidate(line) && decode(line.value).Parsed? ==> r == Apply(connected, monitoring, decode(line.value).msg)
  {
    if !IsCandidate(line) then Step(connected, monitoring, [])
    else
      match decode(line.value)
      case Parsed(msg) => Apply(connected, monitoring, msg)
      case _ => Step(connected, monitoring, [])
  }

  /** A `groups` message fires one `GroupsUpdated` holding the received list in
      order, with a missing id or name replaced by "", and nothing without a
      list. */
  lemma GroupsMessageFiresList(connected: bool, monitoring: bool, m: NodeMessage)
    requires m.msgType == Some("groups")
    ensures var r := Apply(connected, monitoring, m);
      && r.connected == connected && r.monitoring == monitoring
      && (m.groups.None? ==> r.fired == [])
      && (m.groups.Some? ==>
            |r.fired| == 1 && r.fired[0].GroupsUpdated?
            && |r.fired[0].groups| == |m.groups.value|
            && forall i :: 0 <= i < |m.groups.value| ==>
                 r.fired[0].groups[i] == WhatsGroup(m.groups.value[i].id.GetOr(""), m.groups.value[i].name.GetOr("")))
  {
  }

  /** A `media` message without its `Media` object fires nothing; otherwise it
      fires one `MediaMessageReceived` carrying the payload's fields, with ""
      and 0 for the missing ones. */
  lemma MediaMessageFiresPayload(connected: bool, monitoring: bool, m: NodeMessage)
    requires m.msgType == Some("media")
    ensures var r := Apply(connected, monitoring, m);
      && r.connected == connected && r.monitoring == monitoring
      && (m.media.None? ==> r.fired == [])
      && (m.media.Some? ==>
            var p := m.media.value;
            r.fired == [MediaMessageReceived(MediaMessage(
              p.id.GetOr(""), p.from.GetOr(""), p.author.GetOr(""), p.mediaType.GetOr(""),
              p.timestamp.GetOr(0), p.filename.GetOr(""), p.data.GetOr(""),
              p.size.GetOr(0), p.senderName.GetOr("")))])
  {
  }

  /** A `Text` payload is declared but has no case: whatever its tag, a message
      whose only content is a `Text` payload changes nothing and fires nothing
      unless its tag is one of the known ones. */
  lemma TextPayloadIsNotDispatched(connected: bool, monitoring: bool, tag: string, t: TextInfo)
    requires tag !in KnownTags
    ensures Apply(connected, monitoring, NodeMessage(Some(tag), None, None, None, None, None, Some(t), None))
         == Step(connected, monitoring, [])
  {
  }

  /** The effect of a whole stdout stream, line by line in arrival order. */
  function Run(connected: bool, monitoring: bool, lines: seq<Option<string>>, decode: string -> Decoded): Step
    decreases |lines|
  {
    if lines == [] then Step(connected, monitoring, [])
    else
      var s := Dispatch(connected, monitoring, lines[0], decode);
      var rest := Run(s.connected, s.monitoring, lines[1..], decode);
      Step(rest.connected, rest.monitoring, s.fired + rest.fired)
  }

  lemma {:induction false} LastConnectedAppend(a: seq<Event>, b: seq<Event>, init: bool)
    ensures LastConnected(a + b, init) == LastConnected(b, LastConnected(a, init))
    decreases |b|
  {
    if b != [] {
      var b' := b[..|b| - 1];
      assert (a + b)[..|a + b| - 1] == a + b';
      LastConnectedAppend(a, b', init);
    } else {
      assert a + b == a;
    }
  }

  lemma {:induction false} LastMonitoringAppend(a: seq<Event>, b: seq<Event>, init: bool)
    ensures LastMonitoring(a + b, init) == LastMonitoring(b, LastMonitoring(a, init))
    decreases |b|
  {
    if b != [] {
      var b' := b[..|b| - 1];
      assert (a + b)[..|a + b| - 1] == a + b';
      LastMonitoringAppend(a, b', init);
    } else {
      assert a + b == a;
    }
  }

  /** One line keeps "each flag equals the last event announcing it". */
  lemma DispatchKeepsFlagsAnnounced(connected: bool, monitoring: bool, line: Option<string>, decode: string -> Decoded)
    ensures var r := Dispatch(connected, monitoring, line, decode);
      && r.connected == LastConnected(r.fired, connected)
      && r.monitoring == LastMonitoring(r.fired, monitoring)
  {
    var r := Dispatch(connected, monitoring, line, decode);
    if r.fired != [] {
      assert r.fired == [r.fired[0]] && r.fired[0] in r.fired;
      assert r.fired[..0] == [];
    }
  }

  /** Over any stdout stream, `IsConnected` and `IsMonitoring` end equal to the
      payload of the last event that announced them (or keep their value when
      none did): a subscriber never holds a stale flag. */
  lemma {:induction false} RunFlagsMatchLastEvent(connected: bool, monitoring: bool, lines: seq<Option<string>>, decode: string -> Decoded)
    ensures var r := Run(connected, monitoring, lines, decode);
      && r.connected == LastConnected(r.fired, connected)
      && r.monitoring == LastMonitoring(r.fired, monitoring)
    decreases |lines|
  {
    if lines != [] {
      var s := Dispatch(connected, monitoring, lines[0], decode);
      var rest := Run(s.connected, s.monitoring, lines[1..], decode);
      DispatchKeepsFlagsAnnounced(connected, monitoring, lines[0], decode);
      RunFlagsMatchLastEvent(s.connected, s.monitoring, lines[1..], decode);
      LastConnectedAppend(s.fired, rest.fired, connected);
      LastMonitoringAppend(s.fired, rest.fired, monitoring);
    }
  }

  /** A line that starts with `{` and parses is handed to the switch. */
  lemma ObjectLineDispatched(connected: bool, monitoring: bool, line: string, decode: string -> Decoded)
    requires StartsWith(line, "{") && decode(line).Parsed?
    ensures Dispatch(connected, monitoring, Some(line), decode) == Apply(connected, monitoring, decode(line).msg)
  {
    assert TrimStart(line) == line;
  }

  /** Two lines: the second is dispatched from the flags the first left, and
      their events follow each other. */
  lemma RunTwo(connected: bool, monitoring: bool, a: Option<string>, b: Option<string>, decode: string -> Decoded)
    ensures var s1 := Dispatch(connected, monitoring, a, decode);
      var s2 := Dispatch(s1.connected, s1.monitoring, b, decode);
      Run(connected, monitoring, [a, b], decode) == Step(s2.connected, s2.monitoring, s1.fired + s2.fired)
  {
    var lines := [a, b];
    assert lines[1..] == [b] && lines[1..][1..] == [];
    var s1 := Dispatch(connected, monitoring, a, decode);
    var s2 := Dispatch(s1.connected, s1.monitoring, b, decode);
    assert Run(s1.connected, s1.monitoring, [b], decode) == Step(s2.connected, s2.monitoring, s2.fired + []);
  }

  /** Lines are handled in arrival order: a `status` line followed by a
      `groups` line fires the connection event strictly before the groups. */
  lemma StatusThenGroupsInOrder(connected: bool, monitoring: bool, l1: string, l2: string, decode: string -> Decoded, gs: seq<GroupInfo>)
    requires StartsWith(l1, "{") && StartsWith(l2, "{")
    requires decode(l1) == Parsed(NodeMessage(Some("status"), None, Some(true), None, None, None, None, None))
    requires decode(l2) == Parsed(NodeMessage(Some("groups"), None, None, None, Some(gs), None, None, None))
    ensures Run(connected, monitoring, [Some(l1), Some(l2)], decode).fired
         == [ConnectionStatusChanged(true), GroupsUpdated(seq(|gs|, i requires 0 <= i < |gs| => ToWhatsGroup(gs[i])))]
    ensures Run(connected, monitoring, [Some(l1), Some(l2)], decode).connected
  {
    var g := seq(|gs|, i requires 0 <= i < |gs| => ToWhatsGroup(gs[i]));
    ObjectLineDispatched(connected, monitoring, l1, decode);
    ObjectLineDispatched(true, monitoring, l2, decode);
    assert Apply(connected, monitoring, decode(l1).msg) == Step(true, monitoring, [ConnectionStatusChanged(true)]);
    assert Apply(true, monitoring, decode(l2).msg) == Step(true, monitoring, [GroupsUpdated(g)]);
    RunTwo(connected, monitoring, Some(l1), Some(l2), decode);
  }

  /** The session-directory delete loop: up to `MaxRetries` attempts, retrying
      only after an I/O or access failure; an exception on the last attempt, or
      any other exception, ends the loop and is logged, never thrown. */
  method DeleteWithRetry(attempt: nat -> DeleteResult) returns (attempts: nat, deleted: bool)
    ensures 1 <= attempts <= MaxRetries
    ensures deleted <==> attempt(attempts - 1) == Deleted
    ensures forall j :: 0 <= j < attempts - 1 ==> Retryable(attempt(j))
    ensures attempts < MaxRetries ==> !Retryable(attempt(attempts - 1))
  {
    attempts, deleted := 0, false;
    var i := 0;
    while i < MaxRetries
      invariant 0 <= i <= MaxRetries
      invariant attempts == i && !deleted
      invariant forall j :: 0 <= j < i ==> Retryable(attempt(j))
    {
      var r := attempt(i);
      attempts := i + 1;
      if r == Deleted {
        deleted := true;
        return;
      } else if Retryable(r) && i < MaxRetries - 1 {
        // logged; the thread sleeps 200 ms before the next attempt
      } else {
        // the exception leaves the loop and is logged by the outer handler
        return;
      }
      i := i + 1;
    }
  }

  /** Whether the retry loop deletes the session directory: some attempt
      within the limit deletes it, and every attempt before it failed in a
      way that is retried. */
  predicate Removes(attempt: nat -> DeleteResult) {
    exists j :: 0 <= j < MaxRetries && attempt(j) == Deleted
                && forall k :: 0 <= k < j ==> Retryable(attempt(k))
  }

  /** The `Select` that turns received group entries into `WhatsGroup`s. */
  method ToWhatsGroups(received: seq<GroupInfo>) returns (groups: seq<WhatsGroup>)
    ensures groups == seq(|received|, i requires 0 <= i < |received| => ToWhatsGroup(received[i]))
  {
    groups := [];
    for k := 0 to |received|
      invariant groups == seq(k, i requires 0 <= i < k => ToWhatsGroup(received[i]))
    {
      groups := groups + [WhatsGroup(received[k].id.GetOr(""), received[k].name.GetOr(""))];
    }
  }

  class WhatsAppService {
    var process: Proc
    var isConnected: bool
    var isMonitoring: bool
    /** The events raised so far, oldest first. */
    var events: seq<Event>
    /** The worker's stdin, oldest operation first. */
    var stdin: seq<StdinOp>
    /** Whether the worker's session directory is on disk. */
    var sessionDataExists: bool

    /** The flags always equal the last event that announced them (false
        before any): subscribers never observe a stale state. */
    ghost predicate Valid()
      reads this
    {
      isConnected == LastConnected(events, false) && isMonitoring == LastMonitoring(events, false)
    }

    constructor (sessionDataExists: bool)
      ensures Valid()
      ensures process == NoProcess && !isConnected && !isMonitoring
      ensures events == [] && stdin == [] && this.sessionDataExists == sessionDataExists
    {
      process := NoProcess;
      isConnected, isMonitoring := false, false;
      events, stdin := [], [];
      this.sessionDataExists := sessionDataExists;
    }

    /** The output handler, run once per stdout line. */
    method OnNodeOutputReceived(line: Option<string>, decode: string -> Decoded)
      requires Valid()
      modifies this`isConnected, this`isMonitoring, this`events
      ensures Valid()
      ensures var r := Dispatch(old(isConnected), old(isMonitoring), line, decode);
        isConnected == r.connected && isMonitoring == r.monitoring && events == old(events) + r.fired
    {
      ghost var r := Dispatch(isConnected, isMonitoring, line, decode);
      DispatchKeepsFlagsAnnounced(isConnected, isMonitoring, line, decode);
      LastConnectedAppend(events, r.fired, false);
      LastMonitoringAppend(events, r.fired, false);
      if line.None? || line.value == [] {
        return;
      }
      var data := line.value;
      if !StartsWith(TrimStart(data), "{") {
        return;  // diagnostic output
      }
      var decoded := decode(data);
      if !decoded.Parsed? {
        return;  // a JsonException, or a null message
      }
      Raise(decoded.msg);
    }

    /** The `switch` on the message type: the event a parsed message raises
        and the flag it updates. */
    method Raise(message: NodeMessage)
      modifies this`isConnected, this`isMonitoring, this`events
      ensures var r := Apply(old(isConnected), old(isMonitoring), message);
        isConnected == r.connected && isMonitoring == r.monitoring && events == old(events) + r.fired
    {
      if message.msgType == Some("qr") {
        events := events + [QrCodeReceived(message.qr.GetOr(""))];
      } else if message.msgType == Some("status") {
        isConnected := message.connected.GetOr(false);
        events := events + [ConnectionStatusChanged(isConnected)];
      } else if message.msgType == Some("userName") {
        events := events + [UserNameReceived(message.name.GetOr(""))];
      } else if message.msgType == Some("groups") {
        if message.groups.Some? {
          var groups := ToWhatsGroups(message.groups.value);
          events := events + [GroupsUpdated(groups)];
        }
      } else if message.msgType == Some("media") {
        if message.media.Some? {
          var media := message.media.value;
          var mediaMessage := MediaMessage(
            media.id.GetOr(""), media.from.GetOr(""), media.author.GetOr(""), media.mediaType.GetOr(""),
            media.timestamp.GetOr(0), media.filename.GetOr(""), media.data.GetOr(""),
            media.size.GetOr(0), media.senderName.GetOr(""));
          events := events + [MediaMessageReceived(mediaMessage)];
        }
      } else if message.msgType == Some("monitoringStatus") {
        isMonitoring := message.monitoring.GetOr(false);
        events := events + [MonitoringStatusChanged(isMonitoring)];
      }
    }

    /** The exit handler: both flags drop, connection announced first. */
    method OnNodeProcessExited()
      requires Valid()
      modifies this`isConnected, this`isMonitoring, this`events
      ensures Valid()
      ensures !isConnected && !isMonitoring
      ensures events == old(events) + [ConnectionStatusChanged(false), MonitoringStatusChanged(false)]
    {
      isConnected := false;
      isMonitoring := false;
      events := events + [ConnectionStatusChanged(false)];
      events := events + [MonitoringStatusChanged(false)];
      LastConnectedAppend(old(events), [ConnectionStatusChanged(false), MonitoringStatusChanged(false)], false);
      LastMonitoringAppend(old(events), [ConnectionStatusChanged(false), MonitoringStatusChanged(false)], false);
      assert [ConnectionStatusChanged(false), MonitoringStatusChanged(false)][..1] == [ConnectionStatusChanged(false)];
    }

    /** Requests the group list; the only command that flushes. */
    method GetGroupsAsync()
      modifies this`stdin
      ensures stdin == old(stdin) + (if Alive(process) then [WriteLine(GetGroups), Flush] else [])
    {
      if Alive(process) {
        stdin := stdin + [WriteLine(GetGroups)];
        stdin := stdin + [Flush];
      }
    }

    method StartMonitoringAsync(groupId: string)
      modifies this`stdin
      ensures stdin == old(stdin) + (if Alive(process) then [WriteLine(MonitorGroup(groupId))] else [])
    {
      if Alive(process) {
        stdin := stdin + [WriteLine(MonitorGroup(groupId))];
      }
    }

    /** Sends `stop_monitoring`; the local flag waits for the worker's reply. */
    method StopMonitoringAsync()
      modifies this`stdin
      ensures stdin == old(stdin) + (if Alive(process) then [WriteLine(StopMonitoring)] else [])
      ensures isMonitoring == old(isMonitoring)
    {
      if Alive(process) {
        stdin := stdin + [WriteLine(StopMonitoring)];
      }
    }

    method SendCommandAsync(commandType: string)
      modifies this`stdin
      ensures stdin == old(stdin) + (if Alive(process) then [WriteLine(Send(commandType))] else [])
    {
      if Alive(process) {
        stdin := stdin + [WriteLine(Send(commandType))];
      }
    }

    /** Deletes the session directory when it exists, through the retry loop. */
    method CleanupSessionData(attempt: nat -> DeleteResult)
      modifies this`sessionDataExists
      ensures !old(sessionDataExists) ==> !sessionDataExists
      ensures old(sessionDataExists) ==> (sessionDataExists <==> !Removes(attempt))
    {
      if sessionDataExists {
        var attempts, deleted := DeleteWithRetry(attempt);
        if deleted {
          sessionDataExists := false;
        } else {
          forall j | 0 <= j < MaxRetries && attempt(j) == Deleted
            ensures !forall k :: 0 <= k < j ==> Retryable(attempt(k))
          {
            if j > attempts - 1 {
              assert !Retryable(attempt(attempts - 1));
            }
          }
        }
      }
    }

    /** Cleans the session, then starts the worker, or throws without
        starting one when the script is missing. The session directory is
        gone afterwards exactly when it was absent or the retry loop deleted
        it; a failed delete is only logged, so start-up goes on. */
    method InitializeAsync(scriptExists: bool, attempt: nat -> DeleteResult) returns (outcome: Outcome)
      modifies this`sessionDataExists, this`process
      ensures !old(sessionDataExists) ==> !sessionDataExists
      ensures old(sessionDataExists) ==> (sessionDataExists <==> !Removes(attempt))
      ensures outcome == (if scriptExists then Completed else Threw(ScriptNotFound))
      ensures process == (if scriptExists then Running else old(process))
    {
      CleanupSessionData(attempt);
      if !scriptExists {
        return Threw(ScriptNotFound);
      }
      process := Running;
      outcome := Completed;
    }

    /** Logs out: `stop_monitoring` first when monitoring, then `logout`, then
        the process is killed and dropped, the session cleaned, and the
        disconnection announced. The monitoring flag is left as it was; the
        session directory is gone exactly when it was absent or the retry
        loop deleted it. */
    method LogoutAsync(attempt: nat -> DeleteResult)
      requires Valid()
      modifies this`stdin, this`process, this`sessionDataExists, this`isConnected, this`events
      ensures Valid()
      ensures process == NoProcess && !isConnected && isMonitoring == old(isMonitoring)
      ensures events == old(events) + [ConnectionStatusChanged(false)]
      ensures stdin == old(stdin) +
        if Alive(old(process)) then (if old(isMonitoring) then [WriteLine(StopMonitoring)] else []) + [WriteLine(LogoutCommand)]
        else []
      ensures !old(sessionDataExists) ==> !sessionDataExists
      ensures old(sessionDataExists) ==> (sessionDataExists <==> !Removes(attempt))
    {
      if isMonitoring {
        StopMonitoringAsync();
      }
      SendCommandAsync("logout");
      if process != NoProcess {
        // a running process is killed with its children, then disposed
        process := NoProcess;
      }
      CleanupSessionData(attempt);
      isConnected := false;
      events := events + [ConnectionStatusChanged(false)];
      LastMonitoringAppend(old(events), [ConnectionStatusChanged(false)], false);
    }
      /** The worker ends on its own, as the service is written: `OnNodeProcessExited`
        is attached to `Exited`, but `EnableRaisingEvents` is never set, and .NET
        raises `Exited` only when it is. The handle reads as exited and nothing
        else changes. */
    method WorkerExitsAsWritten()
      requires Valid()
      modifies this`process
      ensures Valid()
      ensures process == (if old(process) == NoProcess then NoProcess else Exited)
    {
      if process != NoProcess {
        process := Exited;
      }
    }

    /** The worker ends on its own, with the exit event delivered: the handle
        reads as exited and the exit handler resets and announces both flags. */
    method WorkerExits()
      requires Valid()
      modifies this`process, this`isConnected, this`isMonitoring, this`events
      ensures Valid()
      ensures process == (if old(process) == NoProcess then NoProcess else Exited)
      ensures !isConnected && !isMonitoring
      ensures events == old(events) + [ConnectionStatusChanged(false), MonitoringStatusChanged(false)]
    {
      if process != NoProcess {
        process := Exited;
      }
      OnNodeProcessExited();
    }

    /** Disposal as written: `LogoutAsync` sets the handle to null, so the
        following `Kill()` throws a `NullReferenceException` that the empty
        catch swallows, and the `Dispose()` in the finally block throws
        another one that escapes. */
    method DisposeAsyncAsWritten(attempt: nat -> DeleteResult) returns (outcome: Outcome)
      requires Valid()
      modifies this`stdin, this`process, this`sessionDataExists, this`isConnected, this`events
      ensures Valid()
      ensures Alive(old(process)) ==> outcome == Threw(NullReference) && process == NoProcess && !isConnected
      ensures !Alive(old(process)) ==> outcome == Completed && process == old(process)
      ensures !Alive(old(process)) ==> events == old(events) && stdin == old(stdin)
    {
      outcome := Completed;
      if Alive(process) {
        LogoutAsync(attempt);
        // `_nodeProcess.Kill()` now dereferences the released handle and the
        // empty catch swallows the exception; `_nodeProcess.Dispose()` in the
        // finally block dereferences it again, and that exception escapes
        if process == NoProcess {
          outcome := Threw(NullReference);
        }
      }
    }

    /** Disposal that never throws: a best-effort logout and nothing after it
        that dereferences the released handle. */
    method DisposeAsync(attempt: nat -> DeleteResult) returns (outcome: Outcome)
      requires Valid()
      modifies this`stdin, this`process, this`sessionDataExists, this`isConnected, this`events
      ensures Valid()
      ensures outcome == Completed
      ensures Alive(old(process)) ==> process == NoProcess && !isConnected
      ensures Alive(old(process)) ==> events == old(events) + [ConnectionStatusChanged(false)]
      ensures !Alive(old(process)) ==> process == old(process) && events == old(events) && stdin == old(stdin)
    {
      outcome := Completed;
      if Alive(process) {
        LogoutAsync(attempt);
      }
    }
  }

  /** A decoder that reads every line as `{"type":"status","connected":true}`. */
  function ConnectedDecoder(line: string): Decoded {
    Parsed(NodeMessage(Some("status"), None, Some(true), None, None, None, None, None))
  }

  /** A worker that connects and then dies leaves the service, as written,
      reporting a connection to a process that has exited. */
  method CrashLeavesStaleConnection() returns (connected: bool, alive: bool)
    ensures connected && !alive
  {
    var service := new WhatsAppService(false);
    var started := service.InitializeAsync(true, _ => Deleted);
    service.OnNodeOutputReceived(Some("{\"type\":\"status\",\"connected\":true}"), ConnectedDecoder);
    service.WorkerExitsAsWritten();
    connected, alive := service.isConnected, Alive(service.process);
  }

  /** With the exit event delivered, the same history ends disconnected. */
  method CrashEndsDisconnected() returns (connected: bool, alive: bool)
    ensures !connected && !alive
  {
    var service := new WhatsAppService(false);
    var started := service.InitializeAsync(true, _ => Deleted);
    service.OnNodeOutputReceived(Some("{\"type\":\"status\",\"connected\":true}"), ConnectedDecoder);
    service.WorkerExits();
    connected, alive := service.isConnected, Alive(service.process);
  }

  /** Disposing a service whose worker is running throws, as written. */
  method DisposeOfRunningWorkerThrows() returns (outcome: Outcome)
    ensures outcome == Threw(NullReference)
  {
    var service := new WhatsAppService(false);
    var started := service.InitializeAsync(true, _ => Deleted);
    outcome := service.DisposeAsyncAsWritten(_ => Deleted);
  }

  /** Disposing the same service with the corrected disposal completes. */
  method DisposeOfRunningWorkerCompletes() returns (outcome: Outcome, alive: bool)
    ensures outcome == Completed && !alive
  {
    var service := new WhatsAppService(false);
    var started := service.InitializeAsync(true, _ => Deleted);
    outcome := service.DisposeAsync(_ => Deleted);
    alive := Alive(service.process);
  }
}
