/** The wire between the two sides: what the host's deserializer makes of each
    line the worker writes, and what the host then raises. */
module Protocol {
  import opened Wrappers
  import opened Text
  import opened NodeMessages
  import opened Commands
  import B = Bridge
  import W = Worker

  /** A JSON number the host can read into a `long`. */
  predicate FitsInt64(x: int) {
    -0x8000_0000_0000_0000 <= x < 0x8000_0000_0000_0000
  }

  /** A media payload whose numbers all fit a `long`. */
  predicate Readable(p: W.MediaPayload) {
    FitsInt64(p.timestamp) && (p.size.Some? ==> FitsInt64(p.size.value))
  }

  /** One group entry as the host reads it. */
  function ToGroupInfo(g: W.GroupEntry): GroupInfo {
    GroupInfo(Some(g.id), g.name)
  }

  /** The `Media` object as the host reads it; `Id`, `From`, `Type`, `Data`
      and `Timestamp` are always written. */
  function ToMediaInfo(p: W.MediaPayload): MediaInfo
    requires Readable(p)
  {
    MediaInfo(Some(p.id), Some(p.from), p.author, Some(p.mimetype), Some(p.timestamp),
              p.filename, Some(p.data), if p.size.Some? then Some(p.size.value) else None, p.senderName)
  }

  /** What `JsonSerializer.Deserialize<NodeMessage>` yields for the line the
      worker writes for `t`. Members the host does not declare (`error`,
      `message`) are ignored; a number too large for a `long` throws. */
  function Transmit(t: W.ToHost): (d: Decoded)
    ensures d == JsonError <==> t.MediaOut? && !Readable(t.media)
    ensures d.Parsed? ==> d.msg.msgType.Some? && (d.msg.msgType.value in B.KnownTags <==> !t.ErrorOut?)
  {
    match t
    case QrOut(qr) => Parsed(Tagged("qr").(qr := Some(qr)))
    case StatusOut(c) => Parsed(Tagged("status").(connected := Some(c)))
    case UserNameOut(n) => Parsed(Tagged("userName").(name := n))
    case GroupsOut(gs, _) =>
      Parsed(Tagged("groups").(groups := Some(seq(|gs|, i requires 0 <= i < |gs| => ToGroupInfo(gs[i])))))
    case MonitoringOut(on) => Parsed(Tagged("monitoringStatus").(monitoring := Some(on)))
    case MediaOut(p) => if Readable(p) then Parsed(Tagged("media").(media := Some(ToMediaInfo(p)))) else JsonError
    case ErrorOut(_) => Parsed(Tagged("error"))
  }

  /** The host's reaction to one worker line. */
  function Receive(connected: bool, monitoring: bool, t: W.ToHost): B.Step {
    match Transmit(t)
    case Parsed(m) => B.Apply(connected, monitoring, m)
    case _ => B.Step(connected, monitoring, [])
  }

  /** The host's reaction to a sequence of worker lines. */
  function Deliver(connected: bool, monitoring: bool, out: seq<W.ToHost>): B.Step
    decreases |out|
  {
    if out == [] then B.Step(connected, monitoring, [])
    else
      var s := Receive(connected, monitoring, out[0]);
      var rest := Deliver(s.connected, s.monitoring, out[1..]);
      B.Step(rest.connected, rest.monitoring, s.fired + rest.fired)
  }

  /** The stdout lines for `out`, each serialized by `encode`. */
  function Lines(out: seq<W.ToHost>, encode: W.ToHost -> string): seq<Option<string>> {
    seq(|out|, i requires 0 <= i < |out| => Some(encode(out[i])))
  }

  /** A serializer and a deserializer that agree: every line is a JSON object
      and reads back as `Transmit` says. */
  ghost predicate Agree(encode: W.ToHost -> string, decode: string -> Decoded) {
    forall t :: StartsWith(encode(t), "{") && decode(encode(t)) == Transmit(t)
  }

  /** Every line the worker writes passes the host's line filter. */
  lemma ObjectLinesPass(line: string)
    requires StartsWith(line, "{")
    ensures B.IsCandidate(Some(line))
  {
    assert line[0] == '{';
    assert TrimStart(line) == line;
  }

  /** Whatever the worker writes, the host's line-by-line dispatcher reacts to
      it exactly as `Deliver` says, and in the same order. */
  lemma {:induction false} HostSeesWorkerOutput(connected: bool, monitoring: bool, out: seq<W.ToHost>,
                                                encode: W.ToHost -> string, decode: string -> Decoded)
    requires Agree(encode, decode)
    ensures B.Run(connected, monitoring, Lines(out, encode), decode) == Deliver(connected, monitoring, out)
    decreases |out|
  {
    if out != [] {
      var lines := Lines(out, encode);
      assert lines[0] == Some(encode(out[0]));
      assert lines[1..] == Lines(out[1..], encode);
      ObjectLinesPass(encode(out[0]));
      var s := Receive(connected, monitoring, out[0]);
      assert B.Dispatch(connected, monitoring, lines[0], decode) == s;
      HostSeesWorkerOutput(s.connected, s.monitoring, out[1..], encode, decode);
    }
  }

  /** One line on its own. */
  lemma DeliverOne(connected: bool, monitoring: bool, t: W.ToHost)
    ensures Deliver(connected, monitoring, [t]) == Receive(connected, monitoring, t)
  {
    assert [t][1..] == [];
    var s := Receive(connected, monitoring, t);
    assert s.fired + [] == s.fired;
  }

  /** The `ready` handshake: the host goes connected, then learns the user
      name ("" when the worker had none). */
  lemma ReadyHandshake(connected: bool, monitoring: bool, name: Option<string>)
    ensures Deliver(connected, monitoring, [W.StatusOut(true), W.UserNameOut(name)])
         == B.Step(true, monitoring, [B.ConnectionStatusChanged(true), B.UserNameReceived(name.GetOr(""))])
  {
    var out := [W.StatusOut(true), W.UserNameOut(name)];
    assert out[1..] == [W.UserNameOut(name)];
    DeliverOne(true, monitoring, W.UserNameOut(name));
  }

  /** The `disconnected` handshake: the host ends disconnected and not
      monitoring, having announced both in that order. */
  lemma DisconnectHandshake(connected: bool, monitoring: bool)
    ensures Deliver(connected, monitoring, [W.StatusOut(false), W.MonitoringOut(false)])
         == B.Step(false, false, [B.ConnectionStatusChanged(false), B.MonitoringStatusChanged(false)])
  {
    var out := [W.StatusOut(false), W.MonitoringOut(false)];
    assert out[1..] == [W.MonitoringOut(false)];
    DeliverOne(false, monitoring, W.MonitoringOut(false));
  }

  /** The worker's `error` lines (initialization failed) reach no subscriber. */
  lemma WorkerErrorsAreDropped(connected: bool, monitoring: bool, message: string)
    ensures Deliver(connected, monitoring, [W.ErrorOut(message)]) == B.Step(connected, monitoring, [])
  {
  }

  /** A groups line reaches the host with every id and its order intact and
      a missing name read as ""; a failed fetch reaches it as an empty list. */
  lemma {:induction false} GroupsArriveIntact(connected: bool, monitoring: bool, gs: seq<W.GroupEntry>, failed: bool)
    ensures var r := Deliver(connected, monitoring, [W.GroupsOut(gs, failed)]);
      && r.connected == connected && r.monitoring == monitoring
      && |r.fired| == 1 && r.fired[0].GroupsUpdated? && |r.fired[0].groups| == |gs|
      && forall i :: 0 <= i < |gs| ==> r.fired[0].groups[i] == WhatsGroup(gs[i].id, gs[i].name.GetOr(""))
  {
    var infos := seq(|gs|, i requires 0 <= i < |gs| => ToGroupInfo(gs[i]));
    var m := Tagged("groups").(groups := Some(infos));
    assert Transmit(W.GroupsOut(gs, failed)) == Parsed(m);
    B.GroupsMessageFiresList(connected, monitoring, m);
    DeliverOne(connected, monitoring, W.GroupsOut(gs, failed));
  }

  /** A forwarded media payload with readable numbers reaches the host with
      its fields intact, missing ones read as "" or 0; one with a number too
      large for a `long` is lost. */
  lemma MediaArrives(connected: bool, monitoring: bool, p: W.MediaPayload)
    ensures Readable(p) ==>
      (Deliver(connected, monitoring, [W.MediaOut(p)]) ==
        B.Step(connected, monitoring, [B.MediaMessageReceived(MediaMessage(
          p.id, p.from, p.author.GetOr(""), p.mimetype, p.timestamp, p.filename.GetOr(""), p.data,
          if p.size.Some? then p.size.value else 0, p.senderName.GetOr("")))]))
    ensures !Readable(p) ==> Deliver(connected, monitoring, [W.MediaOut(p)]) == B.Step(connected, monitoring, [])
  {
    DeliverOne(connected, monitoring, W.MediaOut(p));
  }

  /** Selecting a group end to end: the host's `monitor_group` command makes a
      fresh worker select that group and acknowledge, and the acknowledgement
      turns the host's monitoring flag on. */
  method MonitorHandshake(groupId: string, attempt: nat -> W.ChatsResult)
    returns (selected: Option<string>, hostMonitoring: bool, fired: seq<B.Event>)
    ensures selected == Some(groupId) && hostMonitoring
    ensures fired == [B.MonitoringStatusChanged(true)]
  {
    var worker := new W.WhatsAppWorker();
    W.HostCommandsRoundTrip(groupId);
    worker.HandleCommand(Some(Serialize(MonitorGroup(groupId))), attempt);
    assert worker.output == [W.MonitoringOut(true)];
    DeliverOne(false, false, W.MonitoringOut(true));
    var r := Deliver(false, false, worker.output);
    selected, hostMonitoring, fired := worker.selectedGroupId, r.monitoring, r.fired;
  }

  /** Stopping end to end: a message that arrives after `stop_monitoring` is
      not forwarded, even one from the group that was monitored, and the
      host's flag is off. */
  method StopHandshake(groupId: string, m: W.Incoming, attempt: nat -> W.ChatsResult)
    returns (forwarded: seq<W.ToHost>, hostMonitoring: bool)
    ensures forwarded == [] && !hostMonitoring
  {
    var worker := new W.WhatsAppWorker();
    W.HostCommandsRoundTrip(groupId);
    worker.HandleCommand(Some(Serialize(MonitorGroup(groupId))), attempt);
    worker.HandleCommand(Some(Serialize(StopMonitoring)), attempt);
    var before := worker.output;
    var r := Deliver(false, false, before);
    assert before == [W.MonitoringOut(true), W.MonitoringOut(false)];
    assert before[1..] == [W.MonitoringOut(false)];
    DeliverOne(false, true, W.MonitoringOut(false));
    worker.OnMessage(m);
    forwarded, hostMonitoring := worker.output[|before|..], r.monitoring;
  }
}
