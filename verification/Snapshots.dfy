/** Schedule snapshots, as the server builds them and the agent applies them. */
module Snapshots {
  import opened Protocol

  /** `payload` stands for the fields that no rule here looks into. */
  datatype Detail = Detail(id: Uuid, sequence: int, execSequence: int, payload: string)

  datatype Schedule = Schedule(id: nat, payload: string, details: seq<Detail>)

  datatype Status = Wait | Processing | Claimed | Done | Failed | Cancelled

  datatype ManualRun = ManualRun(id: nat, schedule: nat, detail: Uuid, status: Status, claimable: bool, scheduled: int, payload: string)

  datatype Snapshot = Snapshot(revision: string, schedules: seq<Schedule>, manuals: seq<ManualRun>)
}
