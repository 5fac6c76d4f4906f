/** The raw records the engine stores. */
module Types {
  import opened Time

  /** The request fields that reports group and total by. */
  datatype Payload = Payload(
    script: string, server: string, host: string, schema: string, status: nat,
    reqTime: Timeval, ruUtime: Timeval, ruStime: Timeval,
    tags: seq<(string, string)>)

  const NO_DATA := Payload("", "", "", "", 0, ZERO, ZERO, ZERO, [])

  /** One slot of the timer ring; `tags` pairs a tag id with a tag value. */
  datatype Timer = Timer(
    requestId: nat, tags: seq<(nat, string)>,
    value: Timeval, ruUtime: Timeval, ruStime: Timeval, hitCount: nat)

  const NO_TIMER := Timer(0, [], ZERO, ZERO, ZERO, 0)

  /** One slot of the request ring. */
  datatype Record = Record(
    time: Timeval, counter: nat, timersStart: nat, timersCnt: nat, active: bool, data: Payload)

  const NO_RECORD := Record(ZERO, 0, 0, 0, false, NO_DATA)

  /** What a live request means to everything that reads it, wherever its timers are kept. */
  datatype Entry = Entry(slot: nat, time: Timeval, counter: nat, data: Payload, timers: seq<Timer>)
}
