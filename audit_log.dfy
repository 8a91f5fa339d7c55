/**
 * The rows of the `log` table: a severity, a message, the machine they
 * concern and the job's event type.
 */
module AuditLog {

  datatype Severity = Info | Error

  /**
   * What a log message says.  The source renders each of these as
   * human-readable text; the model keeps the facts the text is built from.
   */
  datatype Message =
    | SleepingUntil(sunrise: int, seconds: nat, target: int)
    | AlreadyClose(sunrise: int)
    | TurnedOff(name: string, address: string)
    | FailedOff(name: string, address: string, reason: string)

  datatype LogEvent = LogEvent(severity: Severity, message: Message, machine: string, eventType: string)

  /** The event type of every row this job writes. */
  const EventType: string := "Morning"

  /** The machine recorded for run-wide events. */
  const AllMachines: string := "All"
}
