/**
 * What a run of the morning job promises, stated over its specification
 * `Morning.Expected` / `Morning.AfterFetch`, which `Morning.Run` is proved
 * to follow.  The effects of a run are one ordered sequence; `Log()`,
 * `Attempted()` and `Sleeps()` are its rows, send addresses and sleeps.
 */
module RunProperties {
  import opened Wrappers
  import opened Scheduling
  import opened Directory
  import opened AuditLog
  import opened Effects
  import opened Morning

  /** Where each kind of effect sits in the plan of a fully accepted run. */
  lemma {:induction false} PlannedEffectAt(devices: seq<Device>, sunrise: int, now: int, sendOutcome: nat -> SendOutcome, j: nat)
    requires j < |PlannedEffects(devices, sunrise, now, sendOutcome)|
    ensures var planned := PlannedEffects(devices, sunrise, now, sendOutcome);
      var decision := Decide(sunrise, now);
      var h := if decision.SleepFor? then 2 else 1;
      && |planned| == h + 2 * |devices|
      && (j == 0 ==> planned[j] == Logged(SchedulingEntry(sunrise, now)))
      && (0 < j < h ==> decision.SleepFor? && planned[j] == Slept(decision.seconds))
      && (h <= j && (j - h) % 2 == 0 ==>
            planned[j] == SendAttempt(devices[(j - h) / 2].address, OffPayload, sendOutcome((j - h) / 2)))
      && (h <= j && (j - h) % 2 == 1 ==>
            planned[j] == Logged(DeviceEntry(devices[(j - h) / 2], sendOutcome((j - h) / 2))))
  {
    var head := [Logged(SchedulingEntry(sunrise, now))] + SleepStep(Decide(sunrise, now));
    var steps := DeviceSteps(devices, sendOutcome);
    if |head| <= j {
      var i := (j - |head|) / 2;
      assert j == |head| + 2 * i || j == |head| + 2 * i + 1;
      DeviceStepsPrefix(devices, sendOutcome, i, |devices|);
      assert PlannedEffects(devices, sunrise, now, sendOutcome)[j] == steps[j - |head|];
    }
  }

  /** The rows, addresses and sleeps of the device steps of the first `n` devices. */
  lemma {:induction false} DeviceStepsProjections(devices: seq<Device>, sendOutcome: nat -> SendOutcome, n: nat)
    requires n <= |devices|
    ensures var steps := DeviceStepsUpTo(devices, sendOutcome, n);
      && LogRows(steps) == DeviceEntries(devices, sendOutcome)[..n]
      && SendAddresses(steps) == Addresses(devices)[..n]
      && SleepLengths(steps) == []
  {
    if n > 0 {
      DeviceStepsProjections(devices, sendOutcome, n - 1);
      var attempt := SendAttempt(devices[n - 1].address, OffPayload, sendOutcome(n - 1));
      var entry := DeviceEntry(devices[n - 1], sendOutcome(n - 1));
      var before := DeviceStepsUpTo(devices, sendOutcome, n - 1);
      assert DeviceStepsUpTo(devices, sendOutcome, n) == before + [attempt, Logged(entry)];
      DeviceStepProjections(attempt, entry);
      ProjectionsAppend(before, [attempt, Logged(entry)]);
      EntriesSnoc(devices, sendOutcome, n);
      AddressesSnoc(devices, n);
    }
  }

  /**
   * The projections of an opening without sends and device steps without
   * sleeps, followed by one send attempt.
   */
  lemma {:induction false} ProjectionsThenAttempt(a: seq<Effect>, b: seq<Effect>, attempt: Effect)
    requires attempt.SendAttempt?
    requires SendAddresses(a) == [] && SleepLengths(b) == []
    ensures LogRows(a + b + [attempt]) == LogRows(a) + LogRows(b)
    ensures SendAddresses(a + b + [attempt]) == SendAddresses(b) + [attempt.address]
    ensures SleepLengths(a + b + [attempt]) == SleepLengths(a)
  {
    ProjectionsAppend(a, b);
    ProjectionsAppend(a + b, [attempt]);
    ProjectionsSingle(attempt);
    assert LogRows(a) + LogRows(b) + [] == LogRows(a) + LogRows(b);
    assert [] + SendAddresses(b) + [attempt.address] == SendAddresses(b) + [attempt.address];
    assert SleepLengths(a) + [] + [] == SleepLengths(a);
  }

  /** The projections of one device's two steps. */
  lemma {:induction false} DeviceStepProjections(attempt: Effect, entry: LogEvent)
    requires attempt.SendAttempt?
    ensures LogRows([attempt, Logged(entry)]) == [entry]
    ensures SendAddresses([attempt, Logged(entry)]) == [attempt.address]
    ensures SleepLengths([attempt, Logged(entry)]) == []
  {
    assert [attempt, Logged(entry)][..1] == [attempt];
    ProjectionsSingle(attempt);
  }

  /** One more device adds its entry. */
  lemma EntriesSnoc(devices: seq<Device>, sendOutcome: nat -> SendOutcome, k: nat)
    requires 0 < k <= |devices|
    ensures DeviceEntries(devices, sendOutcome)[..k]
      == DeviceEntries(devices, sendOutcome)[..k - 1] + [DeviceEntry(devices[k - 1], sendOutcome(k - 1))]
  {
  }

  /** One more device adds its address. */
  lemma AddressesSnoc(devices: seq<Device>, k: nat)
    requires 0 < k <= |devices|
    ensures Addresses(devices)[..k] == Addresses(devices)[..k - 1] + [devices[k - 1].address]
  {
  }

  /** The projections of the opening entry and the sleep, if any, that follows it. */
  lemma {:induction false} OpeningProjections(entry: LogEvent, sleep: seq<Effect>)
    requires sleep == [] || (|sleep| == 1 && sleep[0].Slept?)
    ensures var head := [Logged(entry)] + sleep;
      && LogRows(head) == [entry]
      && SendAddresses(head) == []
      && SleepLengths(head) == (if sleep == [] then [] else [sleep[0].seconds])
  {
    ProjectionsSingle(Logged(entry));
    if sleep != [] {
      assert sleep == [sleep[0]];
      ProjectionsSingle(sleep[0]);
    }
    ProjectionsAppend([Logged(entry)], sleep);
  }

  /*
   * A run stopped by a refused device entry: the opening entry and optional
   * sleep, the steps of the first `k - 1` devices, and the send attempt to
   * device `k - 1`.  One lemma per projection.
   */

  /** The rows of a stopped run: the opening entry and the first `k - 1` device entries. */
  lemma {:induction false} StoppedRunRows(entry: LogEvent, sleep: seq<Effect>, devices: seq<Device>,
                                            sendOutcome: nat -> SendOutcome, k: nat)
    requires 0 < k <= |devices|
    requires sleep == [] || (|sleep| == 1 && sleep[0].Slept?)
    ensures var es := [Logged(entry)] + sleep + DeviceStepsUpTo(devices, sendOutcome, k - 1)
        + [SendAttempt(devices[k - 1].address, OffPayload, sendOutcome(k - 1))];
      LogRows(es) == [entry] + DeviceEntries(devices, sendOutcome)[..k - 1]
  {
    var attempt := SendAttempt(devices[k - 1].address, OffPayload, sendOutcome(k - 1));
    OpeningProjections(entry, sleep);
    DeviceStepsProjections(devices, sendOutcome, k - 1);
    ProjectionsThenAttempt([Logged(entry)] + sleep, DeviceStepsUpTo(devices, sendOutcome, k - 1), attempt);
  }

  /** The send addresses of a stopped run: the first `k` devices'. */
  lemma {:induction false} StoppedRunAddresses(entry: LogEvent, sleep: seq<Effect>, devices: seq<Device>,
                                            sendOutcome: nat -> SendOutcome, k: nat)
    requires 0 < k <= |devices|
    requires sleep == [] || (|sleep| == 1 && sleep[0].Slept?)
    ensures var es := [Logged(entry)] + sleep + DeviceStepsUpTo(devices, sendOutcome, k - 1)
        + [SendAttempt(devices[k - 1].address, OffPayload, sendOutcome(k - 1))];
      SendAddresses(es) == Addresses(devices)[..k]
  {
    var attempt := SendAttempt(devices[k - 1].address, OffPayload, sendOutcome(k - 1));
    OpeningProjections(entry, sleep);
    DeviceStepsProjections(devices, sendOutcome, k - 1);
    ProjectionsThenAttempt([Logged(entry)] + sleep, DeviceStepsUpTo(devices, sendOutcome, k - 1), attempt);
    AddressesSnoc(devices, k);
  }

  /** The sleeps of a stopped run: those of its opening. */
  lemma {:induction false} StoppedRunSleeps(entry: LogEvent, sleep: seq<Effect>, devices: seq<Device>,
                                            sendOutcome: nat -> SendOutcome, k: nat)
    requires 0 < k <= |devices|
    requires sleep == [] || (|sleep| == 1 && sleep[0].Slept?)
    ensures var es := [Logged(entry)] + sleep + DeviceStepsUpTo(devices, sendOutcome, k - 1)
        + [SendAttempt(devices[k - 1].address, OffPayload, sendOutcome(k - 1))];
      SleepLengths(es) == (if sleep == [] then [] else [sleep[0].seconds])
  {
    var attempt := SendAttempt(devices[k - 1].address, OffPayload, sendOutcome(k - 1));
    OpeningProjections(entry, sleep);
    DeviceStepsProjections(devices, sendOutcome, k - 1);
    ProjectionsThenAttempt([Logged(entry)] + sleep, DeviceStepsUpTo(devices, sendOutcome, k - 1), attempt);
  }

  /** The rows, addresses and sleeps of an opening entry and optional sleep followed by every device's steps. */
  lemma {:induction false} FullRunProjections(entry: LogEvent, sleep: seq<Effect>, devices: seq<Device>, sendOutcome: nat -> SendOutcome)
    requires sleep == [] || (|sleep| == 1 && sleep[0].Slept?)
    ensures var es := [Logged(entry)] + sleep + DeviceSteps(devices, sendOutcome);
      && LogRows(es) == [entry] + DeviceEntries(devices, sendOutcome)[..|devices|]
      && SendAddresses(es) == Addresses(devices)[..|devices|]
      && SleepLengths(es) == (if sleep == [] then [] else [sleep[0].seconds])
  {
    OpeningProjections(entry, sleep);
    DeviceStepsProjections(devices, sendOutcome, |devices|);
    ProjectionsAppend([Logged(entry)] + sleep, DeviceSteps(devices, sendOutcome));
  }

  /** The first `k` planned entries: the scheduling entry, then the first `k - 1` device entries. */
  lemma PlannedLogPrefix(devices: seq<Device>, sunrise: int, now: int, sendOutcome: nat -> SendOutcome, k: nat)
    requires 0 < k <= |devices| + 1
    ensures PlannedLog(devices, sunrise, now, sendOutcome)[..k]
      == [SchedulingEntry(sunrise, now)] + DeviceEntries(devices, sendOutcome)[..k - 1]
  {
  }

  /** The projections of a run that stopped at the send attempt to device `k - 1`. */
  lemma {:induction false} StoppedAfterFetchProjections(devices: seq<Device>, sunrise: int, now: int,
                                     sendOutcome: nat -> SendOutcome, insertOk: nat -> bool, k: nat)
    requires k == FirstRefused(insertOk, |devices| + 1) && 0 < k <= |devices|
    ensures var t := AfterFetch(devices, sunrise, now, sendOutcome, insertOk);
      var decision := Decide(sunrise, now);
      && t.Log() == PlannedLog(devices, sunrise, now, sendOutcome)[..k]
      && t.Attempted() == Addresses(devices)[..k]
      && t.Sleeps() == (if decision.SleepFor? then [decision.seconds] else [])
  {
    var entry := SchedulingEntry(sunrise, now);
    var sleep := SleepStep(Decide(sunrise, now));
    var es := [Logged(entry)] + sleep + DeviceStepsUpTo(devices, sendOutcome, k - 1)
      + [SendAttempt(devices[k - 1].address, OffPayload, sendOutcome(k - 1))];
    AfterFetchStopsAt(devices, sunrise, now, sendOutcome, insertOk, k);
    assert AfterFetch(devices, sunrise, now, sendOutcome, insertOk).effects == es;
    StoppedRunRows(entry, sleep, devices, sendOutcome, k);
    StoppedRunAddresses(entry, sleep, devices, sendOutcome, k);
    StoppedRunSleeps(entry, sleep, devices, sendOutcome, k);
    PlannedLogPrefix(devices, sunrise, now, sendOutcome, k);
  }

  /** The projections of a run whose inserts were all accepted. */
  lemma {:induction false} CompletedAfterFetchProjections(devices: seq<Device>, sunrise: int, now: int,
                                       sendOutcome: nat -> SendOutcome, insertOk: nat -> bool)
    requires FirstRefused(insertOk, |devices| + 1) == |devices| + 1
    ensures var t := AfterFetch(devices, sunrise, now, sendOutcome, insertOk);
      var decision := Decide(sunrise, now);
      && t.Log() == PlannedLog(devices, sunrise, now, sendOutcome)[..|devices| + 1]
      && t.Attempted() == Addresses(devices)[..|devices|]
      && t.Sleeps() == (if decision.SleepFor? then [decision.seconds] else [])
  {
    AfterFetchStopsAt(devices, sunrise, now, sendOutcome, insertOk, |devices| + 1);
    FullRunProjections(SchedulingEntry(sunrise, now), SleepStep(Decide(sunrise, now)), devices, sendOutcome);
    PlannedLogPrefix(devices, sunrise, now, sendOutcome, |devices| + 1);
  }

  /**
   * The rows, send addresses and sleeps of a run, with `k` its first refused
   * insert: the first `k` planned entries, the first `k` devices (at most
   * all of them), and the sleep only when the scheduling entry was written.
   */
  lemma {:induction false} AfterFetchProjections(devices: seq<Device>, sunrise: int, now: int,
                              sendOutcome: nat -> SendOutcome, insertOk: nat -> bool)
    ensures var t := AfterFetch(devices, sunrise, now, sendOutcome, insertOk);
      var k := FirstRefused(insertOk, |devices| + 1);
      var decision := Decide(sunrise, now);
      && t.Log() == PlannedLog(devices, sunrise, now, sendOutcome)[..k]
      && t.Attempted() == Addresses(devices)[..if k <= |devices| then k else |devices|]
      && t.Sleeps() == (if k > 0 && decision.SleepFor? then [decision.seconds] else [])
  {
    var k := FirstRefused(insertOk, |devices| + 1);
    if k == 0 {
      AfterFetchStopsAt(devices, sunrise, now, sendOutcome, insertOk, 0);
    } else if k <= |devices| {
      StoppedAfterFetchProjections(devices, sunrise, now, sendOutcome, insertOk, k);
    } else {
      CompletedAfterFetchProjections(devices, sunrise, now, sendOutcome, insertOk);
    }
  }

  /** A failure fetching the lights or sunrise aborts with that error before any effect. */
  lemma FetchFailureLeavesNoTrace(query: Result<seq<Row>, string>, networkId: string,
                                  sunrise: Result<int, SunriseError>, now: int,
                                  sendOutcome: nat -> SendOutcome, insertOk: nat -> bool)
    requires query.Err? || sunrise.Err?
    ensures var t := Expected(query, networkId, sunrise, now, sendOutcome, insertOk);
      && t.effects == [] && t.Log() == [] && t.Attempted() == [] && t.Sleeps() == []
      && (query.Err? ==> t.outcome == Aborted(QueryFailed(query.error)))
      && (query.Ok? ==> t.outcome == Aborted(SunriseFailed(sunrise.error)))
  {
  }

  /** Every row a run writes carries the event type "Morning", and every send carries the "off" command. */
  lemma {:induction false} EveryEffectIsTagged(query: Result<seq<Row>, string>, networkId: string,
                            sunrise: Result<int, SunriseError>, now: int,
                            sendOutcome: nat -> SendOutcome, insertOk: nat -> bool)
    ensures var e := Expected(query, networkId, sunrise, now, sendOutcome, insertOk).effects;
      forall j :: 0 <= j < |e| ==>
        && (e[j].Logged? ==> e[j].event.eventType == "Morning")
        && (e[j].SendAttempt? ==> e[j].payload == "{\"method\":\"setPilot\",\"params\":{\"state\":false}}")
  {
    if query.Ok? && sunrise.Ok? {
      var devices := DevicesOf(networkId, query.value);
      var e := Expected(query, networkId, sunrise, now, sendOutcome, insertOk).effects;
      forall j | 0 <= j < |e|
        ensures e[j].Logged? ==> e[j].event.eventType == "Morning"
        ensures e[j].SendAttempt? ==> e[j].payload == OffPayload
      {
        PlannedEffectAt(devices, sunrise.value, now, sendOutcome, j);
      }
    }
  }

  /**
   * The first effect of a run is the run-wide Info entry for the scheduling
   * decision, whichever way it went; every later row names a device.
   */
  lemma {:induction false} SchedulingEntryComesFirst(devices: seq<Device>, sunrise: int, now: int,
                                  sendOutcome: nat -> SendOutcome, insertOk: nat -> bool)
    ensures var t := AfterFetch(devices, sunrise, now, sendOutcome, insertOk);
      && (t.effects != [] ==>
           && t.effects[0].Logged?
           && t.effects[0].event.severity == Info
           && t.effects[0].event.machine == "All"
           && (t.effects[0].event.message.SleepingUntil? <==> Decide(sunrise, now).SleepFor?)
           && (t.effects[0].event.message.AlreadyClose? <==> Decide(sunrise, now).ActNow?))
      && |t.Log()| <= |devices| + 1
      && (forall i :: 1 <= i < |t.Log()| ==> t.Log()[i].machine == devices[i - 1].name)
  {
    var t := AfterFetch(devices, sunrise, now, sendOutcome, insertOk);
    if t.effects != [] {
      PlannedEffectAt(devices, sunrise, now, sendOutcome, 0);
    }
    AfterFetchProjections(devices, sunrise, now, sendOutcome, insertOk);
    var planned := PlannedLog(devices, sunrise, now, sendOutcome);
    forall i | 1 <= i < |t.Log()|
      ensures t.Log()[i].machine == devices[i - 1].name
    {
      assert t.Log()[i] == planned[i];
      PlannedLogAt(devices, sunrise, now, sendOutcome, i - 1);
    }
  }

  /**
   * Row `i + 1` belongs to device `i`: it is that device's entry for its
   * send outcome, so it names the device and its address, is Info with a
   * "turned off" message exactly when the send succeeded, and otherwise is
   * Error carrying the failure reason.
   */
  lemma {:induction false} DeviceEntriesFollowDeviceOrder(devices: seq<Device>, sunrise: int, now: int,
                                       sendOutcome: nat -> SendOutcome, insertOk: nat -> bool)
    ensures var log := AfterFetch(devices, sunrise, now, sendOutcome, insertOk).Log();
      forall i :: 0 <= i < |devices| && i + 1 < |log| ==>
        && log[i + 1] == DeviceEntry(devices[i], sendOutcome(i))
        && log[i + 1].machine == devices[i].name
        && (log[i + 1].severity == Info <==> sendOutcome(i).Sent?)
        && (sendOutcome(i).Sent? ==> log[i + 1].message == TurnedOff(devices[i].name, devices[i].address))
        && (sendOutcome(i).SendFailed? ==>
              log[i + 1].message == FailedOff(devices[i].name, devices[i].address, sendOutcome(i).reason))
  {
    var t := AfterFetch(devices, sunrise, now, sendOutcome, insertOk);
    AfterFetchProjections(devices, sunrise, now, sendOutcome, insertOk);
    var planned := PlannedLog(devices, sunrise, now, sendOutcome);
    forall i | 0 <= i < |devices| && i + 1 < |t.Log()|
      ensures t.Log()[i + 1] == DeviceEntry(devices[i], sendOutcome(i))
    {
      assert t.Log()[i + 1] == planned[i + 1];
      PlannedLogAt(devices, sunrise, now, sendOutcome, i);
    }
  }

  /**
   * A sleep comes right after the scheduling entry that announces it, for
   * the positive count that entry reports, and before every send attempt;
   * a run sleeps at most once.
   */
  lemma {:induction false} SleepComesBeforeEverySend(devices: seq<Device>, sunrise: int, now: int,
                                  sendOutcome: nat -> SendOutcome, insertOk: nat -> bool)
    ensures var t := AfterFetch(devices, sunrise, now, sendOutcome, insertOk);
      var e := t.effects;
      && |t.Sleeps()| <= 1
      && (forall p :: 0 <= p < |e| && e[p].Slept? ==>
            && p == 1
            && e[0].Logged? && e[0].event.message.SleepingUntil?
            && e[p].seconds == e[0].event.message.seconds
            && e[p].seconds > 0)
      && (forall p, q :: 0 <= p < |e| && 0 <= q < |e| && e[p].Slept? && e[q].SendAttempt? ==> p < q)
  {
    var t := AfterFetch(devices, sunrise, now, sendOutcome, insertOk);
    var e := t.effects;
    AfterFetchProjections(devices, sunrise, now, sendOutcome, insertOk);
    forall p | 0 <= p < |e| && e[p].Slept?
      ensures p == 1 && e[0].Logged? && e[0].event.message.SleepingUntil?
      ensures e[p].seconds == e[0].event.message.seconds && e[p].seconds > 0
    {
      PlannedEffectAt(devices, sunrise, now, sendOutcome, p);
      PlannedEffectAt(devices, sunrise, now, sendOutcome, 0);
    }
    forall p, q | 0 <= p < |e| && 0 <= q < |e| && e[p].Slept? && e[q].SendAttempt?
      ensures p < q
    {
      PlannedEffectAt(devices, sunrise, now, sendOutcome, p);
      PlannedEffectAt(devices, sunrise, now, sendOutcome, q);
    }
  }

  /**
   * Every send attempt is followed at once by the entry that reports it
   * (same address, Info exactly when the attempt's answer was `Sent`),
   * unless it is the last effect of a run whose insert for it was refused.
   */
  lemma {:induction false} AttemptIsFollowedByItsEntry(devices: seq<Device>, sunrise: int, now: int,
                                    sendOutcome: nat -> SendOutcome, insertOk: nat -> bool)
    ensures var t := AfterFetch(devices, sunrise, now, sendOutcome, insertOk);
      var e := t.effects;
      forall j :: 0 <= j < |e| && e[j].SendAttempt? ==>
        && (j + 1 < |e| ==>
              && e[j + 1].Logged?
              && (e[j + 1].event.message.TurnedOff? || e[j + 1].event.message.FailedOff?)
              && e[j + 1].event.message.address == e[j].address
              && (e[j + 1].event.severity == Info <==> e[j].answer.Sent?))
        && (j + 1 == |e| ==> t.outcome == Aborted(InsertRefused))
  {
    var t := AfterFetch(devices, sunrise, now, sendOutcome, insertOk);
    var e := t.effects;
    var planned := PlannedEffects(devices, sunrise, now, sendOutcome);
    forall j | 0 <= j < |e| && e[j].SendAttempt?
      ensures j + 1 < |e| ==>
        && e[j + 1].Logged?
        && (e[j + 1].event.message.TurnedOff? || e[j + 1].event.message.FailedOff?)
        && e[j + 1].event.message.address == e[j].address
        && (e[j + 1].event.severity == Info <==> e[j].answer.Sent?)
      ensures j + 1 == |e| ==> t.outcome == Aborted(InsertRefused)
    {
      PlannedEffectAt(devices, sunrise, now, sendOutcome, j);
      if j + 1 < |planned| {
        PlannedEffectAt(devices, sunrise, now, sendOutcome, j + 1);
      }
    }
  }

  /**
   * When the database accepts every insert the run completes and carries out
   * its whole plan: `N + 1` rows and an attempt to every device, whatever
   * the sends' outcomes, so a failed send never skips the remaining lights.
   */
  lemma {:induction false} AcceptedInsertsCompleteTheRun(devices: seq<Device>, sunrise: int, now: int,
                                      sendOutcome: nat -> SendOutcome, insertOk: nat -> bool)
    requires forall k: nat :: insertOk(k)
    ensures var t := AfterFetch(devices, sunrise, now, sendOutcome, insertOk);
      && t.outcome == Completed
      && t.effects == PlannedEffects(devices, sunrise, now, sendOutcome)
      && |t.Log()| == |devices| + 1
      && |t.Attempted()| == |devices|
      && forall i :: 0 <= i < |devices| ==> t.Attempted()[i] == devices[i].address
  {
    AfterFetchProjections(devices, sunrise, now, sendOutcome, insertOk);
  }

  /** A run completes exactly when all of its `N + 1` inserts are accepted. */
  lemma CompletedIffEveryInsertAccepted(devices: seq<Device>, sunrise: int, now: int,
                                        sendOutcome: nat -> SendOutcome, insertOk: nat -> bool)
    ensures AfterFetch(devices, sunrise, now, sendOutcome, insertOk).outcome == Completed
      <==> forall k :: 0 <= k <= |devices| ==> insertOk(k)
  {
  }

  /**
   * A refused insert ends the run: it is the insert right after the last row
   * written, every earlier one was accepted, and no device after the one
   * whose entry was refused is sent to.
   */
  lemma {:induction false} RefusedInsertEndsRun(devices: seq<Device>, sunrise: int, now: int,
                             sendOutcome: nat -> SendOutcome, insertOk: nat -> bool)
    requires AfterFetch(devices, sunrise, now, sendOutcome, insertOk).outcome.Aborted?
    ensures var t := AfterFetch(devices, sunrise, now, sendOutcome, insertOk);
      && t.outcome == Aborted(InsertRefused)
      && |t.Log()| <= |devices|
      && !insertOk(|t.Log()|)
      && (forall k :: 0 <= k < |t.Log()| ==> insertOk(k))
      && |t.Attempted()| == |t.Log()|
  {
    AfterFetchProjections(devices, sunrise, now, sendOutcome, insertOk);
  }

  /**
   * Send attempts and device rows pair up: attempt `i` went to device `i`,
   * and when the insert for device `i` is refused, attempt `i` has no row.
   */
  lemma {:induction false} SendsMatchDeviceEntries(devices: seq<Device>, sunrise: int, now: int,
                                sendOutcome: nat -> SendOutcome, insertOk: nat -> bool)
    ensures var t := AfterFetch(devices, sunrise, now, sendOutcome, insertOk);
      && |t.Attempted()| == (if t.outcome == Completed then |t.Log()| - 1 else |t.Log()|)
      && |t.Attempted()| <= |devices|
      && (forall i :: 0 <= i < |t.Attempted()| ==> t.Attempted()[i] == devices[i].address)
  {
    AfterFetchProjections(devices, sunrise, now, sendOutcome, insertOk);
  }

  /** A run cut short by a refused insert did a prefix of what the fully accepted run does. */
  lemma {:induction false} RefusedRunIsPrefixOfFullRun(devices: seq<Device>, sunrise: int, now: int,
                                    sendOutcome: nat -> SendOutcome, insertOk: nat -> bool)
    ensures var t := AfterFetch(devices, sunrise, now, sendOutcome, insertOk);
      var full := AfterFetch(devices, sunrise, now, sendOutcome, k => true);
      full.outcome == Completed && t.effects <= full.effects
  {
    assert FirstRefused(k => true, |devices| + 1) == |devices| + 1;
  }

  /**
   * Two lights, sunrise at 05:30:00Z and now at 04:00:00Z on 2024-06-01,
   * every insert accepted: the Info/All entry, a one-hour sleep, then for
   * each light in directory order its send attempt and its entry.
   */
  lemma {:induction false} TwoLightExample(sendOutcome: nat -> SendOutcome)
    ensures var t := Expected(Ok([Row("10", "Bedroom"), Row("20", "Kitchen")]), "192.168.1",
                              Ok(1_717_219_800 * NanosPerSecond), 1_717_214_400 * NanosPerSecond,
                              sendOutcome, k => true);
      var bedroom := Device("192.168.1.10:38899", "Bedroom");
      var kitchen := Device("192.168.1.20:38899", "Kitchen");
      && t.outcome == Completed
      && t.effects == [
           Logged(SchedulingEntry(1_717_219_800 * NanosPerSecond, 1_717_214_400 * NanosPerSecond)),
           Slept(3600),
           SendAttempt("192.168.1.10:38899", OffPayload, sendOutcome(0)),
           Logged(DeviceEntry(bedroom, sendOutcome(0))),
           SendAttempt("192.168.1.20:38899", OffPayload, sendOutcome(1)),
           Logged(DeviceEntry(kitchen, sendOutcome(1)))]
  {
    var sunrise := 1_717_219_800 * NanosPerSecond;
    var now := 1_717_214_400 * NanosPerSecond;
    var devices := DevicesOf("192.168.1", [Row("10", "Bedroom"), Row("20", "Kitchen")]);
    TwoRowExample();
    OneHourAheadExample();
    AcceptedInsertsCompleteTheRun(devices, sunrise, now, sendOutcome, k => true);
    var steps := DeviceSteps(devices, sendOutcome);
    assert steps == [steps[0], steps[1], steps[2], steps[3]];
  }
}
