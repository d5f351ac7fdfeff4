/** The commands the host writes to the worker's stdin, one JSON object per
    line. */
module Commands {

  /** A host-to-worker command. `Send` is the shape `SendCommandAsync` writes:
      a `type` together with a `data` member that is always null. */
  datatype Command =
    | GetGroups
    | MonitorGroup(groupId: string)
    | StopMonitoring
    | Send(commandType: string)

  /** The one command sent through `SendCommandAsync`. */
  const LogoutCommand: Command := Send("logout")

  /** A JSON member value as the serializer writes it for a command. */
  datatype WireValue = JString(s: string) | JNull

  /** The JSON object written on one stdin line for a command. */
  function Serialize(c: Command): (obj: map<string, WireValue>)
    ensures "type" in obj && obj["type"].JString?
    ensures c.MonitorGroup? <==> "groupId" in obj
  {
    match c
    case GetGroups => map["type" := JString("get_groups")]
    case MonitorGroup(g) => map["type" := JString("monitor_group"), "groupId" := JString(g)]
    case StopMonitoring => map["type" := JString("stop_monitoring")]
    case Send(t) => map["type" := JString(t), "data" := JNull]
  }
}
