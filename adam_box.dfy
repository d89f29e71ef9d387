/**
 * The ADAM counter boxes: each Robodrill 5701..5706 has a box at a fixed address on the shop
 * network, and a counter reading is only requested for a machine that has one.
 */
module AdamBox {
  import opened Wrappers
  import opened Text
  import opened MachineIds

  /** `MACHINE_IP_MAPPING`. */
  const MachineIpMapping: map<string, string> := map[
    "5701 Fanuc Robodrill" := "192.168.3.25",
    "5702 Fanuc Robodrill" := "192.168.3.26",
    "5703 Fanuc Robodrill" := "192.168.3.27",
    "5704 Fanuc Robodrill" := "192.168.3.28",
    "5705 Fanuc Robodrill" := "192.168.3.29",
    "5706 Fanuc Robodrill" := "192.168.3.30"
  ]

  /** The machine numbers that have a box. */
  const MappedNumbers: set<string> := {"5701", "5702", "5703", "5704", "5705", "5706"}

  /** `getMachineIP`: the mapped address, or `null` (`None`) for every identifier without one. */
  function GetMachineIp(machineId: string): (ip: Option<string>)
    ensures ip.Some? <==> machineId in MachineIpMapping
    ensures ip.Some? ==> ip.value == MachineIpMapping[machineId] && ip.value != ""
  {
    if machineId in MachineIpMapping && MachineIpMapping[machineId] != "" then Some(MachineIpMapping[machineId])
    else None
  }

  /** The table: 5701..5706 map to 192.168.3.25..30, and nothing else is mapped. */
  lemma MappedAddresses()
    ensures GetMachineIp("5701 Fanuc Robodrill") == Some("192.168.3.25")
    ensures GetMachineIp("5702 Fanuc Robodrill") == Some("192.168.3.26")
    ensures GetMachineIp("5703 Fanuc Robodrill") == Some("192.168.3.27")
    ensures GetMachineIp("5704 Fanuc Robodrill") == Some("192.168.3.28")
    ensures GetMachineIp("5705 Fanuc Robodrill") == Some("192.168.3.29")
    ensures GetMachineIp("5706 Fanuc Robodrill") == Some("192.168.3.30")
    ensures |MachineIpMapping| == 6
  {
  }

  /** No two machines share a box. */
  lemma AddressesDistinct()
    ensures forall a, b :: a in MachineIpMapping && b in MachineIpMapping && a != b ==>
      MachineIpMapping[a] != MachineIpMapping[b]
  {
  }

  /** The mapped identifiers are exactly the full identifiers of the mapped numbers. */
  lemma MappedIdsAreFullIds()
    ensures forall n :: n in MappedNumbers ==> FullMachineId(n) in MachineIpMapping
    ensures forall id :: id in MachineIpMapping ==> exists n :: n in MappedNumbers && FullMachineId(n) == id
  {
    FullIdLiterals();
  }

  lemma FullIdLiterals()
    ensures FullMachineId("5701") == "5701 Fanuc Robodrill"
    ensures FullMachineId("5702") == "5702 Fanuc Robodrill"
    ensures FullMachineId("5703") == "5703 Fanuc Robodrill"
    ensures FullMachineId("5704") == "5704 Fanuc Robodrill"
    ensures FullMachineId("5705") == "5705 Fanuc Robodrill"
    ensures FullMachineId("5706") == "5706 Fanuc Robodrill"
  {
    FullIdOf570('1');
    FullIdOf570('2');
    FullIdOf570('3');
    FullIdOf570('4');
    FullIdOf570('5');
    FullIdOf570('6');
  }

  lemma FullIdOf570(d: char)
    ensures FullMachineId(['5', '7', '0', d])
      == ['5', '7', '0', d, ' ', 'F', 'a', 'n', 'u', 'c', ' ', 'R', 'o', 'b', 'o', 'd', 'r', 'i', 'l', 'l']
  {
  }

  /** Two numbers with the same full identifier are the same number. */
  lemma FullMachineIdInjective(a: string, b: string)
    requires FullMachineId(a) == FullMachineId(b)
    ensures a == b
  {
    assert |a| == |b|;
    assert a == FullMachineId(a)[..|a|];
  }

  /** A full identifier built from a number has a box exactly when the number is 5701..5706. */
  lemma FullIdMappedIff(machineNumber: string)
    ensures GetMachineIp(FullMachineId(machineNumber)).Some? <==> machineNumber in MappedNumbers
  {
    MappedIdsAreFullIds();
    var id := FullMachineId(machineNumber);
    if id in MachineIpMapping {
      var n :| n in MappedNumbers && FullMachineId(n) == id;
      FullMachineIdInjective(n, machineNumber);
    }
  }

  /** What the backend answered to a counter request; the request itself is not modelled. */
  datatype BackendReply = Unreachable | NotOk | ErrorBody | Reading(value: int)

  /** What `getAdamBoxValue` does for a machine: no request at all, or a request for one address. */
  datatype AdamBoxRequest = NoRequest | Request(ip: string)

  /** The request `getAdamBoxValue` makes; identifiers without a box make none. */
  function RequestFor(machineId: string): (req: AdamBoxRequest)
    ensures req.NoRequest? <==> GetMachineIp(machineId).None?
    ensures req.Request? ==> Some(req.ip) == GetMachineIp(machineId)
  {
    match GetMachineIp(machineId)
    case None => NoRequest
    case Some(ip) => Request(ip)
  }

  /**
   * `getAdamBoxValue`: `null` without a box (whatever the backend would have said), `null` when the
   * request fails or the backend reports an error, and the reading otherwise.
   */
  function GetAdamBoxValue(machineId: string, reply: BackendReply): (value: Option<int>)
    ensures GetMachineIp(machineId).None? ==> value == None
    ensures value.Some? <==> GetMachineIp(machineId).Some? && reply.Reading?
    ensures value.Some? ==> value.value == reply.value
  {
    match RequestFor(machineId)
    case NoRequest => None
    case Request(_) => if reply.Reading? then Some(reply.value) else None
  }

  /** For a machine without a box the result does not depend on the backend, which is never asked. */
  lemma UnmappedIgnoresBackend(machineId: string, r1: BackendReply, r2: BackendReply)
    requires machineId !in MachineIpMapping
    ensures RequestFor(machineId) == NoRequest
    ensures GetAdamBoxValue(machineId, r1) == GetAdamBoxValue(machineId, r2) == None
  {
  }
}
