/** The worker side of the bridge: the Node.js script that drives the browser
    session, reads commands from stdin and writes JSON lines to stdout. The
    browser-automation library is abstract: chats, messages, downloads and
    contacts arrive as values. */
module Worker {
  import opened Wrappers
  import opened Commands

  /** One group entry as the worker writes it: `name` may be undefined. */
  datatype GroupEntry = GroupEntry(id: string, name: Option<string>)

  /** The `Media` object of a `media` line. */
  datatype MediaPayload = MediaPayload(
    id: string,
    from: string,
    author: Option<string>,
    mimetype: string,
    timestamp: int,
    filename: Option<string>,
    data: string,
    size: Option<int>,
    senderName: Option<string>)

  /** A JSON line written to stdout. `failed` marks the `groups` line written
      from the error handler, which carries an `error` member and no groups. */
  datatype ToHost =
    | QrOut(qr: string)
    | StatusOut(connected: bool)
    | UserNameOut(name: Option<string>)
    | GroupsOut(groups: seq<GroupEntry>, failed: bool)
    | MonitoringOut(monitoring: bool)
    | MediaOut(media: MediaPayload)
    | ErrorOut(message: string)

  /** What a command line asks for, as the `switch (command.type)` reads it. */
  datatype Request = FetchGroups | Monitor(groupId: Option<string>) | Stop | Logout | Unknown

  /** The command types the worker's switch has a case for. */
  const CommandTypes: set<string> := {"get_groups", "monitor_group", "stop_monitoring", "logout"}

  /** `command.type` and `command.groupId` of a parsed command object; a
      missing member or a `null` reads as absent. A command whose type is
      absent or not one of the four is unknown, and only `monitor_group`
      reads a group id. */
  function ReadCommand(obj: map<string, WireValue>): (r: Request)
    ensures r.Unknown? <==> !("type" in obj && obj["type"].JString? && obj["type"].s in CommandTypes)
    ensures r.Monitor? <==> "type" in obj && obj["type"] == JString("monitor_group")
    ensures r.Monitor? ==> (r.groupId.Some? <==> "groupId" in obj && obj["groupId"].JString?)
  {
    var tag := if "type" in obj && obj["type"].JString? then Some(obj["type"].s) else None;
    var groupId := if "groupId" in obj && obj["groupId"].JString? then Some(obj["groupId"].s) else None;
    if tag == Some("get_groups") then FetchGroups
    else if tag == Some("monitor_group") then Monitor(groupId)
    else if tag == Some("stop_monitoring") then Stop
    else if tag == Some("logout") then Logout
    else Unknown
  }

  /** Every command the host writes reaches the worker as the request it
      stands for, `monitor_group` with its group id intact. */
  lemma HostCommandsRoundTrip(groupId: string)
    ensures ReadCommand(Serialize(GetGroups)) == FetchGroups
    ensures ReadCommand(Serialize(MonitorGroup(groupId))) == Monitor(Some(groupId))
    ensures ReadCommand(Serialize(StopMonitoring)) == Stop
    ensures ReadCommand(Serialize(LogoutCommand)) == Logout
  {
  }

  /** A chat as the library lists it; `id` is absent when the chat object has
      no `id`, so reading `chat.id._serialized` throws. */
  datatype Chat = Chat(isGroup: bool, id: Option<string>, name: Option<string>)

  /** One `client.getChats()` attempt: a list, a falsy value, or a rejection
      (including the 30-second timeout). */
  datatype ChatsResult = Chats(chats: seq<Chat>) | NoChats | Rejected

  /** An attempt that ends the retry loop. */
  predicate Yields(r: ChatsResult) {
    r.Chats? && |r.chats| > 0
  }

  const DefaultMaxAttempts: nat := 5

  /** The chats of the first yielding attempt among `from..maxAttempts`, or []. */
  function FirstYield(attempt: nat -> ChatsResult, from: nat, maxAttempts: nat): seq<Chat>
    decreases maxAttempts + 1 - from
  {
    if from > maxAttempts then []
    else if Yields(attempt(from)) then attempt(from).chats
    else FirstYield(attempt, from + 1, maxAttempts)
  }

  /** `getChatsWithRetry`: attempts 1..maxAttempts, stopping at the first that
      returns a non-empty list; [] once all have failed. */
  method GetChatsWithRetry(attempt: nat -> ChatsResult, maxAttempts: nat) returns (chats: seq<Chat>, tries: nat)
    ensures tries <= maxAttempts
    ensures chats == FirstYield(attempt, 1, maxAttempts)
    ensures forall a :: 1 <= a < tries ==> !Yields(attempt(a))
    ensures chats != [] ==> tries >= 1 && attempt(tries) == Chats(chats)
    ensures chats == [] ==> tries == maxAttempts && forall a :: 1 <= a <= maxAttempts ==> !Yields(attempt(a))
  {
    var a := 1;
    while a <= maxAttempts
      invariant 1 <= a <= maxAttempts + 1
      invariant forall b :: 1 <= b < a ==> !Yields(attempt(b))
      invariant FirstYield(attempt, 1, maxAttempts) == FirstYield(attempt, a, maxAttempts)
      decreases maxAttempts + 1 - a
    {
      var r := attempt(a);
      if Yields(r) {
        return r.chats, a;
      }
      // a rejection waits five seconds before the next attempt
      a := a + 1;
    }
    chats, tries := [], maxAttempts;
  }

  /** Every group chat can be mapped: `chat.id._serialized` does not throw. */
  predicate GroupIdsReadable(cs: seq<Chat>) {
    forall i :: 0 <= i < |cs| && cs[i].isGroup ==> cs[i].id.Some?
  }

  /** The `{id, name}` entry of one group chat. */
  function Entry(c: Chat): GroupEntry
    requires c.id.Some?
  {
    GroupEntry(c.id.value, c.name)
  }

  /** `chats.filter(chat => chat.isGroup).map(chat => ({id, name}))`: no
      more entries than chats, each the entry of some group chat. */
  function GroupsOf(cs: seq<Chat>): (r: seq<GroupEntry>)
    requires GroupIdsReadable(cs)
    ensures |r| <= |cs|
    ensures forall g :: g in r ==> exists j :: 0 <= j < |cs| && cs[j].isGroup && Entry(cs[j]) == g
  {
    GroupsFrom(cs, 0)
  }

  /** The mapped group chats among positions `i..`. */
  function GroupsFrom(cs: seq<Chat>, i: nat): (r: seq<GroupEntry>)
    requires i <= |cs| && GroupIdsReadable(cs)
    ensures |r| <= |cs| - i
    ensures forall g :: g in r ==> exists j :: i <= j < |cs| && cs[j].isGroup && Entry(cs[j]) == g
    decreases |cs| - i
  {
    if i == |cs| then []
    else if cs[i].isGroup then [Entry(cs[i])] + GroupsFrom(cs, i + 1)
    else GroupsFrom(cs, i + 1)
  }

  /** The positions `i..` that hold group chats, in increasing order. */
  function GroupPositions(cs: seq<Chat>, i: nat): seq<nat>
    requires i <= |cs|
    decreases |cs| - i
  {
    if i == |cs| then []
    else if cs[i].isGroup then [i] + GroupPositions(cs, i + 1)
    else GroupPositions(cs, i + 1)
  }

  /** Entry k of the mapped groups comes from the group chat at position
      `GroupPositions(cs, i)[k]`. */
  lemma {:induction false} GroupsFromMapsPositions(cs: seq<Chat>, i: nat)
    requires i <= |cs| && GroupIdsReadable(cs)
    ensures var ps := GroupPositions(cs, i);
      && |GroupsFrom(cs, i)| == |ps|
      && forall k :: 0 <= k < |ps| ==> i <= ps[k] < |cs| && cs[ps[k]].isGroup && GroupsFrom(cs, i)[k] == Entry(cs[ps[k]])
    decreases |cs| - i
  {
    if i < |cs| {
      GroupsFromMapsPositions(cs, i + 1);
      var ps, rest := GroupPositions(cs, i), GroupPositions(cs, i + 1);
      var gs, grest := GroupsFrom(cs, i), GroupsFrom(cs, i + 1);
      if cs[i].isGroup {
        assert ps == [i] + rest && gs == [Entry(cs[i])] + grest;
        forall k | 0 <= k < |ps|
          ensures i <= ps[k] < |cs| && cs[ps[k]].isGroup && gs[k] == Entry(cs[ps[k]])
        {
          if k > 0 { assert ps[k] == rest[k - 1] && gs[k] == grest[k - 1]; }
        }
      } else {
        assert ps == rest && gs == grest;
      }
    }
  }

  /** The positions increase and list every group chat from `i` on. */
  lemma {:induction false} GroupPositionsOrderedComplete(cs: seq<Chat>, i: nat)
    requires i <= |cs|
    ensures forall k :: 0 <= k < |GroupPositions(cs, i)| ==> i <= GroupPositions(cs, i)[k] < |cs|
    ensures forall k, l :: 0 <= k < l < |GroupPositions(cs, i)| ==> GroupPositions(cs, i)[k] < GroupPositions(cs, i)[l]
    ensures forall j :: i <= j < |cs| && cs[j].isGroup ==> j in GroupPositions(cs, i)
    decreases |cs| - i
  {
    if i < |cs| {
      GroupPositionsOrderedComplete(cs, i + 1);
      var ps := GroupPositions(cs, i);
      var rest := GroupPositions(cs, i + 1);
      if cs[i].isGroup {
        assert ps == [i] + rest;
        forall k | 0 <= k < |ps| ensures i <= ps[k] < |cs| {
          if k > 0 { assert ps[k] == rest[k - 1]; }
        }
        forall k, l | 0 <= k < l < |ps| ensures ps[k] < ps[l] {
          assert ps[l] == rest[l - 1];
          if k > 0 { assert ps[k] == rest[k - 1]; }
        }
      } else {
        assert ps == rest;
      }
    }
  }

  /** The groups sent are exactly the group chats, mapped to `{id, name}`, in
      their original order: entry k comes from position `GroupPositions(cs, 0)[k]`,
      the positions increase, and every group chat's position is listed. */
  lemma GroupsOfIsOrderedFilter(cs: seq<Chat>)
    requires GroupIdsReadable(cs)
    ensures var ps := GroupPositions(cs, 0);
      && |GroupsOf(cs)| == |ps|
      && (forall k :: 0 <= k < |ps| ==> ps[k] < |cs| && cs[ps[k]].isGroup && GroupsOf(cs)[k] == Entry(cs[ps[k]]))
      && (forall k, l :: 0 <= k < l < |ps| ==> ps[k] < ps[l])
      && (forall j :: 0 <= j < |cs| && cs[j].isGroup ==> j in ps)
  {
    GroupsFromMapsPositions(cs, 0);
    GroupPositionsOrderedComplete(cs, 0);
  }

  /** The `groups` line `fetchAndSendGroups` writes for the chats it got: the
      mapped groups, or an empty list with an error when mapping throws. */
  function GroupsReply(cs: seq<Chat>): ToHost {
    if GroupIdsReadable(cs) then GroupsOut(GroupsOf(cs), false) else GroupsOut([], true)
  }

  /** A media download result: `mimetype`, `filename`, `data` and `size`. */
  datatype Download = Download(mimetype: string, filename: Option<string>, data: string, size: Option<int>)

  /** The contact's `pushname`, `name` and `number`. */
  datatype Contact = Contact(pushname: Option<string>, name: Option<string>, number: Option<string>)

  /** An incoming message: the id of the chat `getChat()` resolves to, its
      `hasMedia`, id, sender, author, timestamp, what `downloadMedia()`
      resolves to, and the contact `getContact()` resolves to. `None` stands
      for a call that rejects (or, for the download, resolves to nothing):
      the handler's `catch` then only logs. */
  datatype Incoming = Incoming(
    chatId: Option<string>,
    hasMedia: bool,
    id: string,
    from: string,
    author: Option<string>,
    timestamp: int,
    download: Option<Download>,
    contact: Option<Contact>)

  /** JavaScript truthiness of an optional string. */
  predicate Truthy(s: Option<string>) {
    s.Some? && s.value != ""
  }

  /** `a || b`. */
  function Or(a: Option<string>, b: Option<string>): Option<string> {
    if Truthy(a) then a else b
  }

  /** `contact.pushname || contact.name || contact.number`. */
  function SenderName(c: Contact): Option<string> {
    Or(Or(c.pushname, c.name), c.number)
  }

  /** The media filter of both message handlers: monitoring is on, a group is
      selected, the message is from that group and it has media. */
  predicate ShouldForward(isMonitoring: bool, selectedGroupId: Option<string>, m: Incoming) {
    isMonitoring && Truthy(selectedGroupId) && m.chatId == Some(selectedGroupId.value) && m.hasMedia
  }

  /** Whether both calls made after the filter, `downloadMedia()` and then
      `getContact()`, resolve to something. */
  predicate Fetched(m: Incoming) {
    m.download.Some? && m.contact.Some?
  }

  /** The `Media` object built for a forwarded message. */
  function PayloadOf(m: Incoming): MediaPayload
    requires Fetched(m)
  {
    var d := m.download.value;
    MediaPayload(m.id, m.from, m.author, d.mimetype, m.timestamp, d.filename, d.data, d.size, SenderName(m.contact.value))
  }

  const QrInterval: int := 5000

  /** The QR codes the throttle forwards from a stream of (code, time) pairs,
      starting from the last forwarding time `last`. */
  function Throttle(last: int, qrs: seq<(string, int)>): (r: seq<(string, int)>)
    ensures |r| <= |qrs|
    ensures r != [] ==> r[0].1 - last > QrInterval
    decreases |qrs|
  {
    if qrs == [] then []
    else if qrs[0].1 - last > QrInterval then [qrs[0]] + Throttle(qrs[0].1, qrs[1..])
    else Throttle(last, qrs[1..])
  }

  /** Forwarded QR codes are more than 5000 ms apart from each other and from
      the previous forwarded one, and each was received. */
  lemma {:induction false} ThrottleSpacing(last: int, qrs: seq<(string, int)>)
    ensures var r := Throttle(last, qrs);
      && (r != [] ==> r[0].1 - last > QrInterval)
      && (forall k :: 0 <= k < |r| - 1 ==> r[k + 1].1 - r[k].1 > QrInterval)
      && (forall k :: 0 <= k < |r| ==> r[k] in qrs)
    decreases |qrs|
  {
    if qrs != [] {
      var rest := qrs[1..];
      if qrs[0].1 - last > QrInterval {
        ThrottleSpacing(qrs[0].1, rest);
        var r := Throttle(last, qrs);
        var t := Throttle(qrs[0].1, rest);
        assert r == [qrs[0]] + t;
        forall k | 0 <= k < |r| ensures r[k] in qrs {
          if k > 0 { assert r[k] == t[k - 1]; assert t[k - 1] in rest; }
        }
      } else {
        ThrottleSpacing(last, rest);
      }
    }
  }

  class WhatsAppWorker {
    var isMonitoring: bool
    var selectedGroupId: Option<string>
    var lastQrTimestamp: int
    /** The lines written to stdout, oldest first. */
    var output: seq<ToHost>
    /** The code passed to `process.exit`, once called. */
    var exitCode: Option<int>

    constructor ()
      ensures !isMonitoring && selectedGroupId == None && lastQrTimestamp == 0
      ensures output == [] && exitCode == None
    {
      isMonitoring, selectedGroupId, lastQrTimestamp := false, None, 0;
      output, exitCode := [], None;
    }

    /** `main`: a failed client initialization reports an error and exits with
        code 1; otherwise the initial disconnected status is written. */
    method Start(initError: Option<string>)
      modifies this`output, this`exitCode
      ensures initError.Some? ==> output == old(output) + [ErrorOut("Client initialization failed: " + initError.value)] && exitCode == Some(1)
      ensures initError.None? ==> output == old(output) + [StatusOut(false)] && exitCode == old(exitCode)
    {
      if initError.Some? {
        output := output + [ErrorOut("Client initialization failed: " + initError.value)];
        exitCode := Some(1);
        return;
      }
      output := output + [StatusOut(false)];
    }

    /** `fetchAndSendGroups`: one `groups` line for the chats the retry loop got. */
    method FetchAndSendGroups(attempt: nat -> ChatsResult)
      modifies this`output
      ensures output == old(output) + [GroupsReply(FirstYield(attempt, 1, DefaultMaxAttempts))]
    {
      var chats, tries := GetChatsWithRetry(attempt, DefaultMaxAttempts);
      if GroupIdsReadable(chats) {
        output := output + [GroupsOut(GroupsOf(chats), false)];
      } else {
        // reading `chat.id._serialized` threw: the catch block reports it
        output := output + [GroupsOut([], true)];
      }
    }

    /** `handleCommand` for one stdin chunk, already run through `JSON.parse`
        (`None` when parsing threw). */
    method HandleCommand(parsed: Option<map<string, WireValue>>, attempt: nat -> ChatsResult)
      modifies this`isMonitoring, this`selectedGroupId, this`output, this`exitCode
      ensures var req := if parsed.Some? then ReadCommand(parsed.value) else Unknown;
        && (req == Unknown ==>
              isMonitoring == old(isMonitoring) && selectedGroupId == old(selectedGroupId)
              && output == old(output) && exitCode == old(exitCode))
        && (req == FetchGroups ==>
              isMonitoring == old(isMonitoring) && selectedGroupId == old(selectedGroupId)
              && output == old(output) + [GroupsReply(FirstYield(attempt, 1, DefaultMaxAttempts))]
              && exitCode == old(exitCode))
        && (req.Monitor? ==>
              isMonitoring && selectedGroupId == req.groupId
              && output == old(output) + [MonitoringOut(true)] && exitCode == old(exitCode))
        && (req == Stop ==>
              !isMonitoring && selectedGroupId == None
              && output == old(output) + [MonitoringOut(false)] && exitCode == old(exitCode))
        && (req == Logout ==>
              isMonitoring == old(isMonitoring) && selectedGroupId == old(selectedGroupId)
              && output == old(output) && exitCode == Some(0))
    {
      if parsed.None? {
        return;  // "Error parsing command" is logged
      }
      var command := ReadCommand(parsed.value);
      match command
      case FetchGroups =>
        FetchAndSendGroups(attempt);
      case Monitor(groupId) =>
        selectedGroupId := groupId;
        isMonitoring := true;
        output := output + [MonitoringOut(true)];
      case Stop =>
        isMonitoring := false;
        selectedGroupId := None;
        output := output + [MonitoringOut(false)];
      case Logout =>
        // `handleLogout`: log out and destroy the client, then exit
        exitCode := Some(0);
      case Unknown =>
        // "Unknown command type" is logged
    }

    /** The `qr` handler: a code is forwarded only more than 5000 ms after the
        last forwarded one, and only then is the time recorded. */
    method OnQr(qr: string, now: int)
      modifies this`lastQrTimestamp, this`output
      ensures now - old(lastQrTimestamp) > QrInterval ==> output == old(output) + [QrOut(qr)] && lastQrTimestamp == now
      ensures now - old(lastQrTimestamp) <= QrInterval ==> output == old(output) && lastQrTimestamp == old(lastQrTimestamp)
      ensures output == old(output) + seq(|Throttle(old(lastQrTimestamp), [(qr, now)])|, k => QrOut(qr))
    {
      if now - lastQrTimestamp > QrInterval {
        output := output + [QrOut(qr)];
        lastQrTimestamp := now;
      }
    }

    /** The `ready` handler: connected status, then the user name. */
    method OnReady(pushname: Option<string>)
      modifies this`output
      ensures output == old(output) + [StatusOut(true), UserNameOut(pushname)]
    {
      output := output + [StatusOut(true)];
      output := output + [UserNameOut(pushname)];
    }

    /** The `disconnected` handler: monitoring is cleared, then disconnected
        status and stopped monitoring are reported, in that order. */
    method OnDisconnected()
      modifies this`isMonitoring, this`selectedGroupId, this`output
      ensures !isMonitoring && selectedGroupId == None
      ensures output == old(output) + [StatusOut(false), MonitoringOut(false)]
    {
      isMonitoring := false;
      selectedGroupId := None;
      output := output + [StatusOut(false)];
      output := output + [MonitoringOut(false)];
    }

    /** The `message` and `message_create` handlers (identical): a media line
        is written exactly when the filter admits the message, its download
        resolves to something and its contact is fetched; a rejected
        `getChat()`, `downloadMedia()` or `getContact()` writes nothing. */
    method OnMessage(m: Incoming)
      modifies this`output
      ensures ShouldForward(isMonitoring, selectedGroupId, m) && Fetched(m) ==>
        output == old(output) + [MediaOut(PayloadOf(m))]
      ensures !(ShouldForward(isMonitoring, selectedGroupId, m) && Fetched(m)) ==> output == old(output)
    {
      if !isMonitoring || !Truthy(selectedGroupId) {
        return;
      }
      if m.chatId.None? {
        return;
      }
      if m.chatId.value == selectedGroupId.value && m.hasMedia {
        if m.download.None? {
          return;
        }
        if m.contact.Some? {
          output := output + [MediaOut(PayloadOf(m))];
        }
      }
    }
  }
}
