/** The shapes of the worker's JSON lines as the host decodes them, and the
    records the host hands to its subscribers. */
module NodeMessages {
  import opened Wrappers

  /** A C# `long`. */
  type int64 = x: int | -0x8000_0000_0000_0000 <= x < 0x8000_0000_0000_0000

  /** One entry of a `groups` list: only an optional id and name. */
  datatype GroupInfo = GroupInfo(id: Option<string>, name: Option<string>)

  /** The payload under key `Media`; every field may be missing. */
  datatype MediaInfo = MediaInfo(
    id: Option<string>,
    from: Option<string>,
    author: Option<string>,
    mediaType: Option<string>,
    timestamp: Option<int64>,
    filename: Option<string>,
    data: Option<string>,
    size: Option<int64>,
    senderName: Option<string>)

  /** The payload under key `Text`: declared, never dispatched. */
  datatype TextInfo = TextInfo(
    id: Option<string>,
    from: Option<string>,
    author: Option<string>,
    textType: Option<string>,
    timestamp: Option<int64>,
    text: Option<string>,
    senderName: Option<string>)

  /** A decoded line. The discriminator `type` is itself optional, and so is
      every payload field: a consumer must supply a default for each. */
  datatype NodeMessage = NodeMessage(
    msgType: Option<string>,
    qr: Option<string>,
    connected: Option<bool>,
    name: Option<string>,
    groups: Option<seq<GroupInfo>>,
    media: Option<MediaInfo>,
    text: Option<TextInfo>,
    monitoring: Option<bool>)

  /** A message carrying only its discriminator. */
  function Tagged(tag: string): NodeMessage {
    NodeMessage(Some(tag), None, None, None, None, None, None, None)
  }

  /** What `JsonSerializer.Deserialize<NodeMessage>` does with one line: it
      throws a `JsonException`, yields `null` (the line `null`), or yields an
      object. */
  datatype Decoded = JsonError | NullMessage | Parsed(msg: NodeMessage)

  /** The group record handed to subscribers; both fields are non-null. */
  datatype WhatsGroup = WhatsGroup(id: string, name: string)

  /** The media record handed to subscribers; every string is non-null. */
  datatype MediaMessage = MediaMessage(
    id: string,
    from: string,
    author: string,
    mediaType: string,
    timestamp: int64,
    filename: string,
    data: string,
    size: int64,
    senderName: string)

  /** A received group entry with the missing id and name replaced by "". */
  function ToWhatsGroup(g: GroupInfo): WhatsGroup {
    WhatsGroup(g.id.GetOr(""), g.name.GetOr(""))
  }

  /** A received media payload with missing strings replaced by "" and a
      missing timestamp or size replaced by 0. */
  function ToMediaMessage(m: MediaInfo): MediaMessage {
    MediaMessage(
      m.id.GetOr(""), m.from.GetOr(""), m.author.GetOr(""), m.mediaType.GetOr(""),
      m.timestamp.GetOr(0), m.filename.GetOr(""), m.data.GetOr(""),
      m.size.GetOr(0), m.senderName.GetOr(""))
  }
}
