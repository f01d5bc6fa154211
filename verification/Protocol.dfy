/** Values that the agent and the server exchange. */
module Protocol {

  datatype Option<+T> = None | Some(value: T)

  /** A UUID is its 128-bit number: the canonical lower-case text has the same equality and the same order. */
  type Uuid = nat

  /** One finished task, as the agent reports it. Times are microseconds since the epoch. */
  datatype Envelope = Envelope(
    group: Uuid,
    schedule: int,
    detail: Uuid,
    attempt: nat,
    manual: Option<nat>,
    token: Option<string>,
    started: int,
    finished: int,
    code: int,
    message: Option<string>,
    environment: string,
    sequence: int)
  {
    /** The idempotency key: execution group, detail and attempt. */
    function Key(): ResultKey {
      ResultKey(group, detail, attempt)
    }
  }

  datatype ResultKey = ResultKey(group: Uuid, detail: Uuid, attempt: nat)

  /** A status change the server applied together with a result. */
  datatype Transition =
    | GroupError(schedule: int)
    | DetailError(detail: Uuid)
    | ManualDone(manual: nat)
    | ManualFailed(manual: nat)
}
