# Morning lights-off job, modelled in Dafny

The job looks up today's sunrise for a configured location. It waits until
thirty minutes before sunrise, or acts at once when that moment is less than a
second away or already past. It then sends an "off" command to every light
listed in the `machine` table. Each step is written as a row of the
append-only `log` table.

This model covers the three parts of that job that have behaviour worth
stating:

- **Scheduling** (`scheduling.dfy`): the target instant, the whole-second
  wait truncated toward zero, and the decision to sleep or act at once.
  Instants are integers counted in nanoseconds since the epoch.
- **Directory** (`directory.dfy`): each `machine` row becomes a device whose
  address is `<network id>.<host_id>:38899`. The module also has the inverse
  parse and the round trip in both directions.
- **Effects and the run** (`audit_log.dfy`, `effects.dfy`, `morning.dfy`):
  everything the process does to the outside world is one ordered sequence
  in a `Journal`. It holds three kinds of effect:
  - a row inserted into `log`;
  - a send attempt, carrying its address, its payload and the network's
    answer;
  - a sleep, carrying its length in seconds.

  The method `Run` models `main`. It is proved to append exactly the effects
  of the specification function `Expected`, in order. `run_properties.dfy`
  proves what the job promises about `Expected`.

A send attempt is recorded whether or not a datagram left the machine. Its
answer is `SendFailed` when binding the socket, parsing the address or
sending fails (src/main.rs:164-166). When binding or parsing fails, nothing
was sent.

Everything outside the program is a parameter:

- the result of the directory query;
- the result of the sunrise lookup (an instant, or a request or parse
  failure);
- the clock reading;
- the network's answer to each send attempt, indexed by device position;
- the database's answer to each insert, indexed by the insert's position in
  the run. The scheduling entry is insert 0, and device `i`'s entry is insert
  `i + 1`.

The source keeps a light's derived address in a field named `host_id`. The
model calls that field `address`.

The code fetches the lights (src/main.rs:66) before it fetches sunrise (67).
So a failed directory query aborts first, and a failed sunrise lookup aborts
before any entry, send attempt or sleep. A refused insert aborts the run at
once. Every send attempt is followed by its entry, with one exception: when
the insert for device `i`'s entry is refused, attempt `i` has no entry and is
the last effect of the run.

## Model

| member | source | states |
|---|---|---|
| Scheduling.TargetTime | src/main.rs:70-71 | the target lies exactly 30 minutes (1 800 000 000 000 ns) before sunrise |
| Scheduling.WholeSeconds | src/main.rs:74-79 | `num_seconds` truncates toward zero: for a non-negative wait `0 <= s·1e9 <= d < (s+1)·1e9`, for a negative one `(s-1)·1e9 < d <= s·1e9 <= 0` |
| Scheduling.Decide | src/main.rs:71-92 | a sleep decision always carries a strictly positive second count, so the unsigned cast before sleeping never sees zero or a negative value |
| Scheduling.SleepsIffAtLeastOneSecondAhead | src/main.rs:71-75 | the job sleeps if and only if sunrise is at least 30 minutes plus 1 second after now; a sub-second remainder or a past target gives no sleep |
| Scheduling.SleepEndsWithinASecondOfTarget | src/main.rs:71-84 | the requested sleep length `n` satisfies `now + n s <= sunrise - 1800 s < now + (n+1) s` |
| Scheduling.ActNowWhenTargetNotASecondAhead | src/main.rs:75-92 | when the job acts at once, sunrise minus 1800 s is less than one second after now (or already past) |
| Scheduling.DecisionDependsOnlyOnDistance | src/main.rs:68-74 | the decision is a function of `sunrise - now` alone: shifting both instants by the same amount leaves it unchanged |
| Scheduling.OneHourAheadExample | src/main.rs:71-84 | sunrise 05:30:00Z, now 04:00:00Z on 2024-06-01 gives a sleep of exactly 3600 s |
| Scheduling.SubSecondExamples | src/main.rs:74-75 | half a second before or after the target, the job acts at once |
| Directory.Address | src/main.rs:132 | the address is the network id, a dot, the host id and `:38899`, each at its own position |
| Directory.DevicesOf | src/main.rs:127-135 | one device per row, in row order, with the address built from the row's host id and the row's name |
| Directory.FetchDevices | src/main.rs:120-138 | a failed query is propagated unchanged; otherwise one device per row, in row order, with address `prefix.host_id:38899` and the name unchanged |
| Directory.ParseBuiltAddress | src/main.rs:132 | the host id is recovered from any address built from it |
| Directory.ParsedAddressWasBuilt | src/main.rs:132 | any address that parses is exactly the address built from the parsed host id |
| Directory.AddressInjective | src/main.rs:132 | distinct host ids on one network give distinct addresses |
| Directory.TwoRowExample | src/main.rs:127-135 | rows `10 Bedroom`, `20 Kitchen` on `192.168.1` give `192.168.1.10:38899` and `192.168.1.20:38899` with their names |
| Effects.Journal.LogLightEvent | src/main.rs:170-186 | an accepted insert appends exactly one row tagged "Morning" after all earlier effects; a refused one appends nothing and reports failure |
| Effects.Journal.SendUdpPacket | src/main.rs:163-168 | each call appends one send attempt with its address, payload and the network's answer, and returns that answer |
| Effects.Journal.Sleep | src/main.rs:84 | each sleep appends one effect with its whole-second length |
| Morning.SchedulingEntry | src/main.rs:75-92 | the scheduling row is Info for machine "All" with event type "Morning"; it reports the sunrise, the seconds and the target exactly when the decision is to sleep, and "already close" otherwise |
| Morning.DeviceEntry | src/main.rs:98-113 | a device's row names the device, is Info with "turned off" exactly when the send succeeded, and is Error carrying the failure reason otherwise |
| Morning.DeviceStepsPrefix | src/main.rs:96-115 | in the device steps, device `i`'s send attempt sits at position `2i` and its entry at `2i + 1`, after the steps of all earlier devices |
| Morning.FirstRefused | src/main.rs:83-112 | the position of the first refused insert: every earlier insert was accepted and this one was not, or none was refused |
| Morning.FirstRefusedIs | src/main.rs:83-112 | a position with every earlier insert accepted and itself refused (or past the last insert) is the first refused insert |
| Morning.AfterFetch | src/main.rs:68-115 | once both fetches succeeded, the effects are a prefix of the plan (entry, sleep, then attempt and entry per device), and the run completes exactly when it carried out the whole plan, otherwise aborting on a refused insert |
| Morning.Expected | src/main.rs:66-117 | a failed query or sunrise lookup aborts with that error and no effect; otherwise the effects are a prefix of the plan for the fetched devices |
| Morning.PlannedLogAt | src/main.rs:83-112 | the log a fully accepted run writes is the scheduling entry followed by device `i`'s entry at position `i + 1` |
| Morning.AfterFetchStopsAt | src/main.rs:83-115 | if insert `m` is the first refused one, the run does nothing when `m = 0`; for `0 < m <= N` it does the opening, the first `m - 1` devices and the send attempt to device `m - 1`, then aborts; for `m = N + 1` it completes the whole plan |
| Morning.LogDecisionAndWait | src/main.rs:68-92 | writes the scheduling entry and then sleeps exactly when the decision is to sleep; a refused entry leaves the journal unchanged and no sleep happens |
| Morning.TurnOffLights | src/main.rs:95-115 | for each device in order: a send attempt, then its entry; continues past failed sends and stops right after the attempt whose entry is refused |
| Morning.ScheduleAndTurnOff | src/main.rs:68-115 | after both fetches the journal gains exactly the effects of `AfterFetch`, and the outcome is its outcome |
| Morning.Run | src/main.rs:66-117 | the journal gains exactly the effects of `Expected`, in order, and the outcome is that of `Expected` |
| RunProperties.PlannedEffectAt | src/main.rs:83-115 | in the plan, position 0 is the scheduling entry, position 1 is the sleep when there is one, and then device `i`'s attempt and entry alternate |
| RunProperties.AfterFetchProjections | src/main.rs:83-115 | with `k` the first refused insert, the rows are the first `k` planned entries, the attempts go to the first `k` devices (at most all), and the sleep happens only if `k > 0` |
| RunProperties.FetchFailureLeavesNoTrace | src/main.rs:66-67 | a failed directory query or sunrise lookup aborts with that error, before any log entry, send attempt or sleep |
| RunProperties.EveryEffectIsTagged | src/main.rs:95-97 | every row a run writes has event type "Morning", and every send attempt carries `{"method":"setPilot","params":{"state":false}}` |
| RunProperties.SchedulingEntryComesFirst | src/main.rs:75-112 | the first effect is the Info entry for machine "All", reporting a sleep exactly when the decision was to sleep; there are at most `N + 1` rows, and row `i` (for `i >= 1`) names device `i - 1` |
| RunProperties.DeviceEntriesFollowDeviceOrder | src/main.rs:96-115 | row `i + 1` is device `i`'s entry for its send outcome: its name, its address, and Info with "turned off" exactly when its send succeeded (Error with the reason otherwise) |
| RunProperties.SleepComesBeforeEverySend | src/main.rs:83-97 | a run sleeps at most once; the sleep is effect 1, right after the scheduling entry that announces it, for that entry's positive count, and before every send attempt |
| RunProperties.AttemptIsFollowedByItsEntry | src/main.rs:97-113 | each send attempt is followed at once by the entry for the same address, Info exactly when the network accepted; only a last attempt of a run aborted by a refused insert has none |
| RunProperties.AcceptedInsertsCompleteTheRun | src/main.rs:96-117 | with every insert accepted the run completes, carries out the whole plan, writes `N + 1` rows and attempts every device in order, whatever the send outcomes |
| RunProperties.CompletedIffEveryInsertAccepted | src/main.rs:83-117 | a run completes if and only if all of its `N + 1` inserts are accepted |
| RunProperties.RefusedInsertEndsRun | src/main.rs:83-112 | an aborted run stopped at the insert right after its last row; every earlier insert was accepted, and it made as many attempts as it wrote rows |
| RunProperties.SendsMatchDeviceEntries | src/main.rs:96-115 | attempt `i` went to device `i`; attempts equal rows minus one on completion, and equal rows when aborted (the last attempt has no entry) |
| RunProperties.RefusedRunIsPrefixOfFullRun | src/main.rs:83-112 | a run cut short by a refused insert did a prefix of the effects of the fully accepted run, which completes |
| RunProperties.TwoLightExample | src/main.rs:66-115 | two lights with sunrise one and a half hours away: the "All" entry, a 3600 s sleep, then for Bedroom and Kitchen in turn the attempt to its address and its entry |

## Left out

- Environment configuration (`DB_*`, `NETWORK_ID`, `LAT`, `LNG`) and the floating-point parsing of the coordinates: plain configuration. The network id is a parameter.
- The database connection, its background pump task and the SQL text: I/O. The query result is a parameter, and each insert is an accepted or refused answer.
- `row.get` panics when `host_id` or `name` is NULL or not text (src/main.rs:129-130). The model takes rows whose two columns are strings, so that panic is not modelled.
- The HTTP request, JSON decoding, ISO-8601 parsing and the local-time conversion: library internals. The sunrise lookup is a parameter holding an instant or an error (`RequestFailed` for the request or body, `ParseFailed` for the timestamp).
- UDP socket binding, address parsing and `send_to`: network I/O. Each attempt's answer is a parameter; an unparsable address is one way an attempt can fail.
- The exact text of log messages and the console output: the model keeps the facts each message is built from (`AuditLog.Message`).
- 64-bit bounds of chrono durations and instants: overflow panics in time arithmetic are not modelled, and integers are unbounded.
- The actual suspension: `Journal.Sleep` records the requested length, and the clock is not read again afterwards.
