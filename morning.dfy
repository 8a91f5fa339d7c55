/**
 * One run of the morning job: fetch the lights, fetch sunrise, log the
 * scheduling decision and maybe sleep, then send "off" to every light in
 * turn and log each attempt.
 *
 * Everything outside the program is an oracle: the directory query result,
 * the sunrise lookup, the clock reading, the network's answer to each send
 * (by device position) and the database's answer to each insert (by the
 * insert's position within the run: the scheduling entry is insert 0, the
 * entry for device `i` is insert `i + 1`).  What a run does to the outside
 * world is one ordered sequence of effects in a `Journal`.
 */
module Morning {
  import opened Wrappers
  import opened Scheduling
  import opened Directory
  import opened AuditLog
  import opened Effects

  /** The "off" command every light is sent. */
  const OffPayload: string := "{\"method\":\"setPilot\",\"params\":{\"state\":false}}"

  /** Why the sunrise lookup failed: the HTTP request or JSON body, or the timestamp. */
  datatype SunriseError = RequestFailed | ParseFailed

  datatype Failure =
    | QueryFailed(reason: string)
    | SunriseFailed(cause: SunriseError)
    | InsertRefused

  datatype Outcome = Completed | Aborted(failure: Failure)

  /** The effects of one run, in order, and how it ended. */
  datatype Trace = Trace(effects: seq<Effect>, outcome: Outcome) {
    function Log(): seq<LogEvent> { LogRows(effects) }
    function Attempted(): seq<string> { SendAddresses(effects) }
    function Sleeps(): seq<nat> { SleepLengths(effects) }
  }

  /** The run-wide entry recording the scheduling decision. */
  function SchedulingEntry(sunrise: int, now: int): (e: LogEvent)
    ensures e.severity == Info && e.machine == "All" && e.eventType == "Morning"
    ensures e.message.SleepingUntil? <==> Decide(sunrise, now).SleepFor?
    ensures e.message.SleepingUntil? ==>
      e.message == SleepingUntil(sunrise, Decide(sunrise, now).seconds, sunrise - 1_800_000_000_000)
    ensures !e.message.SleepingUntil? ==> e.message == AlreadyClose(sunrise)
  {
    match Decide(sunrise, now)
    case SleepFor(n) => LogEvent(Info, SleepingUntil(sunrise, n, TargetTime(sunrise)), AllMachines, EventType)
    case ActNow => LogEvent(Info, AlreadyClose(sunrise), AllMachines, EventType)
  }

  /** The entry recording one device's send attempt. */
  function DeviceEntry(d: Device, o: SendOutcome): (e: LogEvent)
    ensures e.machine == d.name && e.eventType == "Morning"
    ensures e.severity == Info <==> o.Sent?
    ensures o.Sent? ==> e.message == TurnedOff(d.name, d.address)
    ensures o.SendFailed? ==> e.message == FailedOff(d.name, d.address, o.reason)
  {
    match o
    case Sent => LogEvent(Info, TurnedOff(d.name, d.address), d.name, EventType)
    case SendFailed(reason) => LogEvent(Error, FailedOff(d.name, d.address, reason), d.name, EventType)
  }

  /** One entry per device, in device order. */
  function DeviceEntries(devices: seq<Device>, sendOutcome: nat -> SendOutcome): seq<LogEvent>
  {
    seq(|devices|, i requires 0 <= i < |devices| => DeviceEntry(devices[i], sendOutcome(i)))
  }

  /** The entries a run writes when the database accepts every insert. */
  function PlannedLog(devices: seq<Device>, sunrise: int, now: int, sendOutcome: nat -> SendOutcome): seq<LogEvent>
  {
    [SchedulingEntry(sunrise, now)] + DeviceEntries(devices, sendOutcome)
  }

  function Addresses(devices: seq<Device>): seq<string>
  {
    seq(|devices|, i requires 0 <= i < |devices| => devices[i].address)
  }

  /** The sleep a decision asks for, if any. */
  function SleepStep(d: Decision): seq<Effect>
  {
    if d.SleepFor? then [Slept(d.seconds)] else []
  }

  /** For each of the first `n` devices in order: its send attempt, then its entry. */
  function DeviceStepsUpTo(devices: seq<Device>, sendOutcome: nat -> SendOutcome, n: nat): (steps: seq<Effect>)
    requires n <= |devices|
    ensures |steps| == 2 * n
  {
    if n == 0 then []
    else
      DeviceStepsUpTo(devices, sendOutcome, n - 1)
        + [SendAttempt(devices[n - 1].address, OffPayload, sendOutcome(n - 1)),
           Logged(DeviceEntry(devices[n - 1], sendOutcome(n - 1)))]
  }

  /** The send attempt and entry of every device, in device order. */
  function DeviceSteps(devices: seq<Device>, sendOutcome: nat -> SendOutcome): seq<Effect>
  {
    DeviceStepsUpTo(devices, sendOutcome, |devices|)
  }

  /** The steps of the first `i` devices open the steps of the first `n`; device `i`'s two steps follow. */
  lemma {:induction false} DeviceStepsPrefix(devices: seq<Device>, sendOutcome: nat -> SendOutcome, i: nat, n: nat)
    requires i <= n <= |devices|
    ensures DeviceStepsUpTo(devices, sendOutcome, n)[..2 * i] == DeviceStepsUpTo(devices, sendOutcome, i)
    ensures i < n ==>
      && DeviceStepsUpTo(devices, sendOutcome, n)[2 * i] == SendAttempt(devices[i].address, OffPayload, sendOutcome(i))
      && DeviceStepsUpTo(devices, sendOutcome, n)[2 * i + 1] == Logged(DeviceEntry(devices[i], sendOutcome(i)))
  {
    if i < n {
      DeviceStepsPrefix(devices, sendOutcome, i, n - 1);
      var front := DeviceStepsUpTo(devices, sendOutcome, n - 1);
      var steps := DeviceStepsUpTo(devices, sendOutcome, n);
      assert steps[..2 * (n - 1)] == front;
      assert steps[..2 * i] == front[..2 * i];
    }
  }

  /** The effects of a run once both fetches succeeded and every insert is accepted. */
  function PlannedEffects(devices: seq<Device>, sunrise: int, now: int, sendOutcome: nat -> SendOutcome): seq<Effect>
  {
    [Logged(SchedulingEntry(sunrise, now))] + SleepStep(Decide(sunrise, now)) + DeviceSteps(devices, sendOutcome)
  }

  /** The position of the first refused insert among the first `n`, or `n` when all are accepted. */
  function FirstRefused(insertOk: nat -> bool, n: nat): (k: nat)
    ensures k <= n
    ensures forall j :: 0 <= j < k ==> insertOk(j)
    ensures k < n ==> !insertOk(k)
  {
    if n == 0 then 0
    else
      var k := FirstRefused(insertOk, n - 1);
      if k < n - 1 || !insertOk(n - 1) then k else n
  }

  /**
   * The effects of a run once both fetches succeeded, with `k` the first
   * refused insert: nothing happens when the scheduling entry is refused;
   * when the entry of device `k - 1` is refused, the run has done the
   * scheduling part, the first `k - 1` devices and the send attempt of
   * device `k - 1`, and stops; otherwise the whole plan is carried out.
   */
  function AfterFetch(devices: seq<Device>, sunrise: int, now: int,
                      sendOutcome: nat -> SendOutcome, insertOk: nat -> bool): (t: Trace)
    ensures t.effects <= PlannedEffects(devices, sunrise, now, sendOutcome)
    ensures t.outcome == Completed <==> t.effects == PlannedEffects(devices, sunrise, now, sendOutcome)
    ensures t.outcome == Completed || t.outcome == Aborted(InsertRefused)
  {
    var k := FirstRefused(insertOk, |devices| + 1);
    var head := [Logged(SchedulingEntry(sunrise, now))] + SleepStep(Decide(sunrise, now));
    if k == 0 then
      Trace([], Aborted(InsertRefused))
    else if k == |devices| + 1 then
      Trace(PlannedEffects(devices, sunrise, now, sendOutcome), Completed)
    else
      StoppedRunIsPrefix(devices, sunrise, now, sendOutcome, k - 1);
      Trace(head + DeviceStepsUpTo(devices, sendOutcome, k - 1)
              + [SendAttempt(devices[k - 1].address, OffPayload, sendOutcome(k - 1))],
            Aborted(InsertRefused))
  }

  /** Stopping after device `i`'s send attempt leaves a proper prefix of the plan. */
  lemma {:induction false} StoppedRunIsPrefix(devices: seq<Device>, sunrise: int, now: int, sendOutcome: nat -> SendOutcome, i: nat)
    requires i < |devices|
    ensures var head := [Logged(SchedulingEntry(sunrise, now))] + SleepStep(Decide(sunrise, now));
      var stopped := head + DeviceStepsUpTo(devices, sendOutcome, i)
        + [SendAttempt(devices[i].address, OffPayload, sendOutcome(i))];
      stopped <= PlannedEffects(devices, sunrise, now, sendOutcome)
      && |stopped| < |PlannedEffects(devices, sunrise, now, sendOutcome)|
  {
    DeviceStepsPrefix(devices, sendOutcome, i, |devices|);
    var steps := DeviceSteps(devices, sendOutcome);
    assert steps[..2 * i + 1] == DeviceStepsUpTo(devices, sendOutcome, i) + [steps[2 * i]];
  }

  /** The effects of a whole run. */
  function Expected(query: Result<seq<Row>, string>, networkId: string,
                    sunrise: Result<int, SunriseError>, now: int,
                    sendOutcome: nat -> SendOutcome, insertOk: nat -> bool): (t: Trace)
    ensures query.Err? ==> t.effects == [] && t.outcome == Aborted(QueryFailed(query.error))
    ensures query.Ok? && sunrise.Err? ==> t.effects == [] && t.outcome == Aborted(SunriseFailed(sunrise.error))
    ensures query.Ok? && sunrise.Ok? ==>
      t.effects <= PlannedEffects(DevicesOf(networkId, query.value), sunrise.value, now, sendOutcome)
  {
    match query
    case Err(e) => Trace([], Aborted(QueryFailed(e)))
    case Ok(rows) =>
      match sunrise
      case Err(e) => Trace([], Aborted(SunriseFailed(e)))
      case Ok(s) => AfterFetch(DevicesOf(networkId, rows), s, now, sendOutcome, insertOk)
  }

  /** The planned log is the scheduling entry followed by one entry per device, in order. */
  lemma PlannedLogAt(devices: seq<Device>, sunrise: int, now: int, sendOutcome: nat -> SendOutcome, i: nat)
    requires i < |devices|
    ensures var planned := PlannedLog(devices, sunrise, now, sendOutcome);
      |planned| == |devices| + 1
      && planned[0] == SchedulingEntry(sunrise, now)
      && planned[i + 1] == DeviceEntry(devices[i], sendOutcome(i))
  {
  }

  /** The first refused insert is the one position with all earlier inserts accepted and itself refused. */
  lemma FirstRefusedIs(insertOk: nat -> bool, n: nat, m: nat)
    requires m <= n
    requires forall j :: 0 <= j < m ==> insertOk(j)
    requires m == n || !insertOk(m)
    ensures FirstRefused(insertOk, n) == m
  {
  }

  /** When the first refused insert is `m`, the run's effects stop at `m`. */
  lemma {:induction false} AfterFetchStopsAt(devices: seq<Device>, sunrise: int, now: int,
                          sendOutcome: nat -> SendOutcome, insertOk: nat -> bool, m: nat)
    requires m <= |devices| + 1
    requires forall j :: 0 <= j < m ==> insertOk(j)
    requires m == |devices| + 1 || !insertOk(m)
    ensures var t := AfterFetch(devices, sunrise, now, sendOutcome, insertOk);
      var head := [Logged(SchedulingEntry(sunrise, now))] + SleepStep(Decide(sunrise, now));
      && (m == 0 ==> t.effects == [])
      && (0 < m <= |devices| ==>
            t.effects == head + DeviceStepsUpTo(devices, sendOutcome, m - 1)
              + [SendAttempt(devices[m - 1].address, OffPayload, sendOutcome(m - 1))])
      && (m == |devices| + 1 ==> t.effects == head + DeviceSteps(devices, sendOutcome))
      && t.outcome == (if m == |devices| + 1 then Completed else Aborted(InsertRefused))
  {
    FirstRefusedIs(insertOk, |devices| + 1, m);
  }

  /**
   * The device loop of `main`: send "off" to each light in order and log the
   * attempt, Info on success and Error on failure.  A failed send does not
   * stop the loop; a refused insert does.  `m` is the number of device
   * entries written; the entry for device `i` is insert `i + 1` of the run.
   */
  method TurnOffLights(journal: Journal, devices: seq<Device>,
                       sendOutcome: nat -> SendOutcome, insertOk: nat -> bool)
    returns (ok: bool, ghost m: nat)
    modifies journal
    ensures m <= |devices|
    ensures forall j :: 1 <= j <= m ==> insertOk(j)
    ensures ok ==> m == |devices|
    ensures !ok ==> m < |devices| && !insertOk(m + 1)
    ensures ok ==> journal.events == old(journal.events) + DeviceSteps(devices, sendOutcome)
    ensures !ok ==>
      journal.events == old(journal.events) + DeviceStepsUpTo(devices, sendOutcome, m)
        + [SendAttempt(devices[m].address, OffPayload, sendOutcome(m))]
  {
    var payload := OffPayload;
    var i := 0;
    while i < |devices|
      invariant 0 <= i <= |devices|
      invariant forall j :: 1 <= j <= i ==> insertOk(j)
      invariant journal.events == old(journal.events) + DeviceStepsUpTo(devices, sendOutcome, i)
    {
      var light := devices[i];
      var sendResult := journal.SendUdpPacket(light.address, payload, sendOutcome(i));
      var logged: bool;
      if sendResult.Sent? {
        logged := journal.LogLightEvent(Info, TurnedOff(light.name, light.address), light.name, insertOk(i + 1));
      } else {
        logged := journal.LogLightEvent(Error, FailedOff(light.name, light.address, sendResult.reason), light.name, insertOk(i + 1));
      }
      if !logged {
        return false, i;
      }
      i := i + 1;
    }
    return true, i;
  }

  /**
   * The scheduling block of `main`: log the decision as a run-wide Info
   * entry, then sleep for the whole-second wait when it is positive.  A
   * refused insert ends the block before any sleep.
   */
  method LogDecisionAndWait(journal: Journal, sunrise: int, now: int, accepted: bool)
    returns (ok: bool)
    modifies journal
    ensures ok == accepted
    ensures ok ==>
      journal.events == old(journal.events)
        + ([Logged(SchedulingEntry(sunrise, now))] + SleepStep(Decide(sunrise, now)))
    ensures !ok ==> journal.events == old(journal.events)
  {
    var target := TargetTime(sunrise);
    var wait := WholeSeconds(target - now);
    if wait > 0 {
      ok := journal.LogLightEvent(Info, SleepingUntil(sunrise, wait, target), AllMachines, accepted);
      if !ok {
        return;
      }
      journal.Sleep(wait);
    } else {
      ok := journal.LogLightEvent(Info, AlreadyClose(sunrise), AllMachines, accepted);
    }
  }

  /** Effects appended in three batches are the first batch followed by the other two. */
  lemma Regroup(old0: seq<Effect>, a: seq<Effect>, b: seq<Effect>, c: seq<Effect>)
    ensures old0 + a + b + c == old0 + (a + b + c)
    ensures old0 + a + b == old0 + (a + b)
  {
  }

  /** `main` from the moment both fetches have succeeded. */
  method ScheduleAndTurnOff(journal: Journal, devices: seq<Device>, sunrise: int, now: int,
                            sendOutcome: nat -> SendOutcome, insertOk: nat -> bool)
    returns (outcome: Outcome)
    modifies journal
    ensures var t := AfterFetch(devices, sunrise, now, sendOutcome, insertOk);
      journal.events == old(journal.events) + t.effects && outcome == t.outcome
  {
    ghost var events0 := journal.events;
    ghost var head := [Logged(SchedulingEntry(sunrise, now))] + SleepStep(Decide(sunrise, now));
    var logged := LogDecisionAndWait(journal, sunrise, now, insertOk(0));
    if !logged {
      AfterFetchStopsAt(devices, sunrise, now, sendOutcome, insertOk, 0);
      return Aborted(InsertRefused);
    }
    var allLogged, m := TurnOffLights(journal, devices, sendOutcome, insertOk);
    if !allLogged {
      AfterFetchStopsAt(devices, sunrise, now, sendOutcome, insertOk, m + 1);
      Regroup(events0, head, DeviceStepsUpTo(devices, sendOutcome, m),
              [SendAttempt(devices[m].address, OffPayload, sendOutcome(m))]);
      return Aborted(InsertRefused);
    }
    AfterFetchStopsAt(devices, sunrise, now, sendOutcome, insertOk, |devices| + 1);
    Regroup(events0, head, DeviceSteps(devices, sendOutcome), []);
    return Completed;
  }

  /** `main`, after configuration and the database connection. */
  method Run(journal: Journal,
             query: Result<seq<Row>, string>, networkId: string,
             sunrise: Result<int, SunriseError>, now: int,
             sendOutcome: nat -> SendOutcome, insertOk: nat -> bool)
    returns (outcome: Outcome)
    modifies journal
    ensures var t := Expected(query, networkId, sunrise, now, sendOutcome, insertOk);
      journal.events == old(journal.events) + t.effects && outcome == t.outcome
  {
    var fetched := FetchDevices(query, networkId);
    if fetched.Err? {
      return Aborted(QueryFailed(fetched.error));
    }
    var devices := fetched.value;
    assert devices == DevicesOf(networkId, query.value);
    if sunrise.Err? {
      return Aborted(SunriseFailed(sunrise.error));
    }
    outcome := ScheduleAndTurnOff(journal, devices, sunrise.value, now, sendOutcome, insertOk);
  }
}
