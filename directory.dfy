/**
 * The light directory: every row `(host_id, name)` of the `machine` table
 * becomes a device reachable at `<network id>.<host_id>:38899`.
 */
module Directory {
  import opened Wrappers

  /** A row of the `machine` table. */
  datatype Row = Row(hostId: string, name: string)

  /**
   * A controllable light.  The source keeps the derived address in a field
   * called `host_id`; here it is called `address`.
   */
  datatype Device = Device(address: string, name: string)

  /** The well-known port of the lights' control protocol. */
  const Port: string := "38899"

  /** `<networkId>.<hostId>:38899` */
  function Address(networkId: string, hostId: string): (a: string)
    ensures |a| == |networkId| + |hostId| + 7
    ensures a[..|networkId|] == networkId && a[|networkId|] == '.'
    ensures a[|networkId| + 1..|a| - 6] == hostId
    ensures a[|a| - 6..] == ":38899"
  {
    networkId + "." + hostId + ":" + Port
  }

  /** The host id inside an address, when the address has the shape `Address` builds. */
  function ParseAddress(networkId: string, address: string): Option<string>
  {
    var head := networkId + ".";
    var tail := ":" + Port;
    if |head| + |tail| <= |address|
       && address[..|head|] == head
       && address[|address| - |tail|..] == tail
    then Some(address[|head|..|address| - |tail|])
    else None
  }

  /** The devices a query result yields, one per row and in row order. */
  function DevicesOf(networkId: string, rows: seq<Row>): (devices: seq<Device>)
    ensures |devices| == |rows|
    ensures forall i :: 0 <= i < |rows| ==>
      devices[i].address == Address(networkId, rows[i].hostId) && devices[i].name == rows[i].name
  {
    seq(|rows|, i requires 0 <= i < |rows| => Device(Address(networkId, rows[i].hostId), rows[i].name))
  }

  /**
   * `fetch_wiz_lights`: the query result is given (its failure is the
   * source's propagated database error); each row is pushed as a device.
   */
  method FetchDevices(query: Result<seq<Row>, string>, networkId: string)
    returns (r: Result<seq<Device>, string>)
    ensures r.Err? <==> query.Err?
    ensures query.Err? ==> r.error == query.error
    ensures query.Ok? ==> |r.value| == |query.value|
    ensures query.Ok? ==> forall i :: 0 <= i < |query.value| ==>
      r.value[i].address == Address(networkId, query.value[i].hostId)
      && r.value[i].name == query.value[i].name
  {
    if query.Err? {
      return Err(query.error);
    }
    var rows := query.value;
    var lights: seq<Device> := [];
    for i := 0 to |rows|
      invariant |lights| == i
      invariant forall j :: 0 <= j < i ==>
        lights[j].address == Address(networkId, rows[j].hostId) && lights[j].name == rows[j].name
    {
      lights := lights + [Device(networkId + "." + rows[i].hostId + ":38899", rows[i].name)];
    }
    return Ok(lights);
  }

  /** Parsing recovers the host id from a built address. */
  lemma ParseBuiltAddress(networkId: string, hostId: string)
    ensures ParseAddress(networkId, Address(networkId, hostId)) == Some(hostId)
  {
    var head := networkId + ".";
    var tail := ":" + Port;
    var a := Address(networkId, hostId);
    assert a == head + hostId + tail;
    assert a[..|head|] == head;
    assert a[|a| - |tail|..] == tail;
    assert a[|head|..|a| - |tail|] == hostId;
  }

  /** Whatever parses was built from the parsed host id. */
  lemma ParsedAddressWasBuilt(networkId: string, address: string, hostId: string)
    requires ParseAddress(networkId, address) == Some(hostId)
    ensures Address(networkId, hostId) == address
  {
    var head := networkId + ".";
    var tail := ":" + Port;
    assert address == address[..|head|] + address[|head|..|address| - |tail|] + address[|address| - |tail|..];
  }

  /** Distinct host ids on one network give distinct addresses. */
  lemma AddressInjective(networkId: string, h1: string, h2: string)
    requires Address(networkId, h1) == Address(networkId, h2)
    ensures h1 == h2
  {
    ParseBuiltAddress(networkId, h1);
    ParseBuiltAddress(networkId, h2);
  }

  /** Two rows `10 Bedroom` and `20 Kitchen` on network `192.168.1`. */
  lemma TwoRowExample()
    ensures DevicesOf("192.168.1", [Row("10", "Bedroom"), Row("20", "Kitchen")])
      == [Device("192.168.1.10:38899", "Bedroom"), Device("192.168.1.20:38899", "Kitchen")]
  {
    var ds := DevicesOf("192.168.1", [Row("10", "Bedroom"), Row("20", "Kitchen")]);
    assert ds[0].address == "192.168.1.10:38899" by {
      assert "192.168.1" + "." + "10" + ":" + "38899" == "192.168.1.10:38899";
    }
    assert ds[1].address == "192.168.1.20:38899" by {
      assert "192.168.1" + "." + "20" + ":" + "38899" == "192.168.1.20:38899";
    }
  }
}
