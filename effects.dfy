/**
 * The externally visible effects of the process, in the order they happen:
 * rows inserted into the `log` table, attempts to send the "off" command,
 * and sleeps.
 */
module Effects {
  import opened AuditLog

  /** The network's answer to one send attempt. */
  datatype SendOutcome = Sent | SendFailed(reason: string)

  datatype Effect =
    | Logged(event: LogEvent)
    | SendAttempt(address: string, payload: string, answer: SendOutcome)
    | Slept(seconds: nat)

  /** The rows inserted, in order. */
  function LogRows(es: seq<Effect>): seq<LogEvent>
  {
    if es == [] then []
    else LogRows(es[..|es| - 1]) + (if es[|es| - 1].Logged? then [es[|es| - 1].event] else [])
  }

  /** The addresses of the send attempts, in order. */
  function SendAddresses(es: seq<Effect>): seq<string>
  {
    if es == [] then []
    else SendAddresses(es[..|es| - 1]) + (if es[|es| - 1].SendAttempt? then [es[|es| - 1].address] else [])
  }

  /** The lengths of the sleeps, in order. */
  function SleepLengths(es: seq<Effect>): seq<nat>
  {
    if es == [] then []
    else SleepLengths(es[..|es| - 1]) + (if es[|es| - 1].Slept? then [es[|es| - 1].seconds] else [])
  }

  /** The projections of a single effect. */
  lemma {:induction false} ProjectionsSingle(x: Effect)
    ensures LogRows([x]) == (if x.Logged? then [x.event] else [])
    ensures SendAddresses([x]) == (if x.SendAttempt? then [x.address] else [])
    ensures SleepLengths([x]) == (if x.Slept? then [x.seconds] else [])
  {
    assert [x][..0] == [];
  }

  /** Each projection of a concatenation is the concatenation of the projections. */
  lemma {:induction false} ProjectionsAppend(a: seq<Effect>, b: seq<Effect>)
    ensures LogRows(a + b) == LogRows(a) + LogRows(b)
    ensures SendAddresses(a + b) == SendAddresses(a) + SendAddresses(b)
    ensures SleepLengths(a + b) == SleepLengths(a) + SleepLengths(b)
  {
    if b == [] {
      assert a + b == a;
    } else {
      var front := b[..|b| - 1];
      assert (a + b)[..|a + b| - 1] == a + front;
      ProjectionsAppend(a, front);
    }
  }

  /** What the process has done to the outside world so far. */
  class Journal {
    var events: seq<Effect>

    /**
     * `log_light_event`: one insert, tagged "Morning".  `accepted` is the
     * database's answer; a refused insert adds nothing and is reported.
     */
    method LogLightEvent(severity: Severity, message: Message, machine: string, accepted: bool)
      returns (ok: bool)
      modifies this
      ensures ok == accepted
      ensures events == if accepted
        then old(events) + [Logged(LogEvent(severity, message, machine, "Morning"))]
        else old(events)
    {
      if accepted {
        events := events + [Logged(LogEvent(severity, message, machine, EventType))];
      }
      ok := accepted;
    }

    /**
     * `send_udp_packet`: one attempt to send `payload` to `address`; the
     * result is the network's answer (a failure to bind, to parse the
     * address or to send).
     */
    method SendUdpPacket(address: string, payload: string, answer: SendOutcome) returns (r: SendOutcome)
      modifies this
      ensures events == old(events) + [SendAttempt(address, payload, answer)]
      ensures r == answer
    {
      events := events + [SendAttempt(address, payload, answer)];
      r := answer;
    }

    /** A sleep of whole seconds. */
    method Sleep(seconds: nat)
      modifies this
      ensures events == old(events) + [Slept(seconds)]
    {
      events := events + [Slept(seconds)];
    }
  }
}
