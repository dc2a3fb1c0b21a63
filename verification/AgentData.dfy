/** What the agent buffers, queues and posts. */
module AgentData {
  import opened Prelude

  datatype Value = Null | Number(n: real) | Text(s: string)

  /** A telemetry sample: metric, value, unit and ts by name. */
  type Sample = map<string, Value>

  /** The body of an execution callback. */
  datatype Callback = Callback(
    execution: string, status: string, exitCode: Option<int>, stdout: Option<string>, stderr: Option<string>)

  /** What a queue row stores. */
  datatype Payload = Samples(samples: seq<Sample>) | Result(callback: Callback)
}
