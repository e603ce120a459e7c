/** The transient records decoded from topic payloads (the `model` package of
    the consumer) and the per-topic record type of the configuration. */
module Records {

  /** One ingested log line of a LOG topic. */
  datatype LogEvent = LogEvent(
    topic: string,
    timestamp: string,
    serverName: string,
    path: string,
    message: string)

  /** Storage usage of one mount path; the floating-point `usedPercent` is not modelled. */
  datatype MountPathStorageUsage = MountPathStorageUsage(
    path: string,
    totalBytes: int,
    usedBytes: int)

  /** One storage report of a METRIC topic, with its usages in payload order. */
  datatype ServerStorageSnapshot = ServerStorageSnapshot(
    systemId: string,
    systemName: string,
    serverIp: string,
    serverName: string,
    timestamp: string,
    usages: seq<MountPathStorageUsage>)

  /** The statically configured interpretation of every record of a topic.
      `Unsupported` stands for any value the consumer's switch does not handle. */
  datatype TopicType = Log | Metric | Unsupported(name: string)
}
