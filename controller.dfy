/**
 * The controller (controller.go): the registry of devices in discovery
 * order, the listener's step for one datagram, the lookups by address and
 * by device id, the dispatcher that turns queued commands into datagrams,
 * and the scan message the scheduler sends.
 */
module Controllers {
  import opened Wrappers
  import opened Errors
  import opened Text
  import opened Types
  import opened Api
  import opened Devices

  /** The multicast group devices listen on for scans. */
  const MULTICAST_IP: string := "239.255.255.250"
  /** Devices answer scans sent to this port. */
  const SCAN_PORT: nat := 4001
  /** Devices take commands on this port. */
  const COMMAND_PORT: nat := 4003

  // ---------------------------------------------------------------------
  // The listener step, on values

  /**
   * A datagram as the listener's decoding sees it: not an envelope at all,
   * or an envelope's `cmd` together with what its data gives when read as
   * a scan response and as a status response (None where that read fails).
   */
  datatype Inbound =
    | Undecodable
    | Envelope(cmd: string, asScan: Option<ScanResponse>, asStatus: Option<DevStatusResponse>)

  /**
   * What the listener passes to the device for a datagram from `src`: a
   * readable `scan` goes as a scan response, a readable `devStatus` as a
   * status response, and nothing else goes anywhere.
   */
  function Route(src: string, inbound: Inbound): (r: Option<Message<Response>>)
    ensures r.Some? <==> (inbound.Envelope?
      && ((inbound.cmd == "scan" && inbound.asScan.Some?) || (inbound.cmd == "devStatus" && inbound.asStatus.Some?)))
    ensures r.Some? ==> r.value.ip == src
    ensures r.Some? && inbound.cmd == "scan" ==> r.value.payload == Scan(inbound.asScan.value)
    ensures r.Some? && inbound.cmd == "devStatus" ==> r.value.payload == Status(inbound.asStatus.value)
  {
    match inbound
    case Undecodable => None
    case Envelope(cmd, asScan, asStatus) =>
      if cmd == "scan" then
        (if asScan.Some? then Some(Message(src, Scan(asScan.value))) else None)
      else if cmd == "devStatus" then
        (if asStatus.Some? then Some(Message(src, Status(asStatus.value))) else None)
      else None
  }

  /** The addresses of a registry, in order. */
  function IPs(reg: seq<DeviceState>): (keys: seq<string>)
    ensures |keys| == |reg| && forall i | 0 <= i < |reg| :: keys[i] == reg[i].ip
  {
    seq(|reg|, i requires 0 <= i < |reg| => reg[i].ip)
  }

  /** The device ids of a registry, in order. */
  function IDs(reg: seq<DeviceState>): (keys: seq<string>)
    ensures |keys| == |reg| && forall i | 0 <= i < |reg| :: keys[i] == reg[i].deviceID
  {
    seq(|reg|, i requires 0 <= i < |reg| => reg[i].deviceID)
  }

  /** The position of the first key equal to `k`, if any. */
  function FirstIndex(keys: seq<string>, k: string): (r: Option<nat>)
    ensures r.Some? ==> r.value < |keys| && keys[r.value] == k
    ensures r.Some? ==> forall j | 0 <= j < r.value :: keys[j] != k
    ensures r.None? ==> forall j | 0 <= j < |keys| :: keys[j] != k
    decreases |keys|
  {
    if keys == [] then None
    else if keys[0] == k then Some(0)
    else
      match FirstIndex(keys[1..], k)
      case None => None
      case Some(i) => Some(i + 1)
  }

  /** The listener's registration: an address not in the registry gets a new device at the end. */
  function Register(reg: seq<DeviceState>, src: string): (r: seq<DeviceState>)
    ensures FirstIndex(IPs(reg), src).Some? ==> r == reg
    ensures FirstIndex(IPs(reg), src).None? ==>
      r == reg + [Unregistered(src)] && FirstIndex(IPs(r), src) == Some(|reg|)
  {
    if FirstIndex(IPs(reg), src).None? then
      var r := reg + [Unregistered(src)];
      assert IPs(r) == IPs(reg) + [src];
      FirstIndexAppended(IPs(reg), src);
      r
    else reg
  }

  /** A key missing from a sequence is found at the end once appended. */
  lemma FirstIndexAppended(keys: seq<string>, k: string)
    requires FirstIndex(keys, k).None?
    ensures FirstIndex(keys + [k], k) == Some(|keys|)
  {
    assert (keys + [k])[|keys|] == k;
  }

  /**
   * One datagram from `src` at time `now`: register the source if it is
   * new, before anything is decoded, then apply the routed response (if
   * any) to the first device with that address.
   */
  function Step(reg: seq<DeviceState>, src: string, inbound: Inbound, now: int): (r: seq<DeviceState>)
    ensures FirstIndex(IPs(reg), src).Some? ==> |r| == |reg|
    ensures FirstIndex(IPs(reg), src).None? ==> |r| == |reg| + 1
  {
    var reg1 := Register(reg, src);
    var i := FirstIndex(IPs(reg1), src).value;
    match Route(src, inbound)
    case None => reg1
    case Some(m) => reg1[i := Apply(reg1[i], m.payload, now)]
  }

  /**
   * A datagram from an address the registry does not hold appends exactly
   * one device with that address, and the devices before it are untouched.
   */
  lemma UnknownSourceAppends(reg: seq<DeviceState>, src: string, inbound: Inbound, now: int)
    requires FirstIndex(IPs(reg), src).None?
    ensures var r := Step(reg, src, inbound, now);
      |r| == |reg| + 1 && r[..|reg|] == reg
      && r[|reg|] == match Route(src, inbound)
                     case None => Unregistered(src)
                     case Some(m) => Apply(Unregistered(src), m.payload, now)
  {
    var reg1 := Register(reg, src);
    assert FirstIndex(IPs(reg1), src) == Some(|reg|);
  }

  /**
   * A datagram from a known address keeps the registry's length and can
   * change only the first device with that address.
   */
  lemma KnownSourceKeepsLength(reg: seq<DeviceState>, src: string, inbound: Inbound, now: int)
    requires FirstIndex(IPs(reg), src).Some?
    ensures var r := Step(reg, src, inbound, now);
      var i := FirstIndex(IPs(reg), src).value;
      |r| == |reg| && (forall j | 0 <= j < |reg| && j != i :: r[j] == reg[j])
      && r[i] == match Route(src, inbound)
                 case None => reg[i]
                 case Some(m) => Apply(reg[i], m.payload, now)
  {
    assert Register(reg, src) == reg;
  }

  /** A datagram that is not an envelope, or names another command, only registers its source. */
  lemma UnroutedOnlyRegisters(reg: seq<DeviceState>, src: string, inbound: Inbound, now: int)
    requires inbound.Undecodable? || (inbound.cmd != "scan" && inbound.cmd != "devStatus")
    ensures Step(reg, src, inbound, now) == Register(reg, src)
    ensures |Step(reg, src, inbound, now)| >= |reg|
  {
    assert Route(src, inbound).None?;
  }

  /**
   * The address quirk: a scan response replaces the device's address with
   * the one in the payload. When that differs from the datagram's source,
   * the next datagram from the same source no longer finds the device and
   * registers a second one.
   */
  lemma ScanRewritesAddress(reg: seq<DeviceState>, src: string, p: ScanResponse, status: Option<DevStatusResponse>,
                            next: Inbound, t1: int, t2: int)
    requires FirstIndex(IPs(reg), src).None?
    requires p.ip != src
    ensures var r1 := Step(reg, src, Envelope("scan", Some(p), status), t1);
      |r1| == |reg| + 1 && r1[|reg|].ip == p.ip && FirstIndex(IPs(r1), src).None?
      && |Step(r1, src, next, t2)| == |reg| + 2
  {
    var inbound := Envelope("scan", Some(p), status);
    var r1 := Step(reg, src, inbound, t1);
    UnknownSourceAppends(reg, src, inbound, t1);
    assert r1[..|reg|] == reg;
    forall j | 0 <= j < |r1|
      ensures r1[j].ip != src
    {
      if j < |reg| {
        assert r1[j] == reg[j] && IPs(reg)[j] == reg[j].ip;
      }
    }
    assert FirstIndex(IPs(r1), src).None?;
    UnknownSourceAppends(r1, src, next, t2);
  }

  /** A scan response that reports the datagram's own source keeps the device findable there. */
  lemma ScanFromOwnAddress(reg: seq<DeviceState>, src: string, p: ScanResponse, status: Option<DevStatusResponse>, now: int)
    requires p.ip == src
    ensures var r := Step(reg, src, Envelope("scan", Some(p), status), now);
      var i := FirstIndex(IPs(Register(reg, src)), src).value;
      FirstIndex(IPs(r), src) == Some(i) && Identity(r[i]) == p
  {
    var reg1 := Register(reg, src);
    var i := FirstIndex(IPs(reg1), src).value;
    var r := Step(reg, src, Envelope("scan", Some(p), status), now);
    assert r == reg1[i := Apply(reg1[i], Scan(p), now)];
    assert IPs(r)[i] == src;
    forall j | 0 <= j < i
      ensures IPs(r)[j] != src
    {
      assert r[j] == reg1[j] && IPs(reg1)[j] != src;
    }
  }

  /**
   * Lookup by id with the empty id finds the first device whose id is
   * empty. A newly registered device has an empty id, and so does one whose
   * scan response carried an empty `device`; the lookup stops at the
   * device registered last at the latest.
   */
  lemma EmptyIDFindsUnscanned(reg: seq<DeviceState>, ip: string)
    ensures var r := reg + [Unregistered(ip)];
      var k := FirstIndex(IDs(r), "");
      k.Some? && k.value <= |reg| && r[k.value].deviceID == ""
  {
    var r := reg + [Unregistered(ip)];
    assert IDs(r)[|reg|] == "";
  }

  // ---------------------------------------------------------------------
  // Dispatch

  /** The port a command goes to: scans to 4001 on the multicast group, the rest to 4003. */
  function TargetPort(ip: string): (port: nat)
    ensures port == SCAN_PORT <==> ip == MULTICAST_IP
    ensures port == SCAN_PORT || port == COMMAND_PORT
  {
    if ip == MULTICAST_IP then SCAN_PORT else COMMAND_PORT
  }

  /** The dial target "ip:port". */
  function Target(ip: string): (t: string)
    ensures |t| > |ip| + 1 && t[..|ip|] == ip && t[|ip|] == ':'
  {
    ip + ":" + NatToString(TargetPort(ip))
  }

  /** An IPv4 target splits back into the address and the port. */
  lemma TargetReadsBack(ip: string)
    requires ':' !in ip
    ensures var parts := Split(Target(ip), ':');
      |parts| == 2 && parts[0] == ip && AllDigits(parts[1]) && DigitsValue(parts[1]) == TargetPort(ip)
  {
    var digits := NatToString(TargetPort(ip));
    assert ':' !in digits by {
      forall i | 0 <= i < |digits| ensures digits[i] != ':' {
        assert IsDigit(digits[i]);
      }
    }
    assert Target(ip) == ip + [':'] + digits;
    SplitAtFirst(ip, ':', digits);
    SplitWithoutSep(digits, ':');
    DigitsValueOfNatToString(TargetPort(ip));
  }

  /** A datagram the dispatcher writes: where to and what. */
  datatype Packet = Packet(target: string, data: string)

  /** The dispatcher's work for one queued command: the marshalled wrapper, to the command's target. */
  function Dispatch(m: Message<Wrapper>): (p: Packet)
    ensures p.target == Target(m.ip)
    ensures DecodeWrapper(p.data) == Some(m.payload)
  {
    DecodeEncodeWrapper(m.payload);
    Packet(Target(m.ip), EncodeWrapper(m.payload))
  }

  /** The dispatcher loop over the commands taken from the queue, in order. */
  method Dispatcher(queue: seq<Message<Wrapper>>) returns (sent: seq<Packet>)
    ensures |sent| == |queue|
    ensures forall i | 0 <= i < |queue| ::
      sent[i].target == Target(queue[i].ip) && DecodeWrapper(sent[i].data) == Some(queue[i].payload)
  {
    sent := [];
    var i := 0;
    while i < |queue|
      invariant 0 <= i <= |queue| && |sent| == i
      invariant forall j | 0 <= j < i ::
        sent[j].target == Target(queue[j].ip) && DecodeWrapper(sent[j].data) == Some(queue[j].payload)
    {
      sent := sent + [Dispatch(queue[i])];
      i := i + 1;
    }
  }

  /** The scheduler's message: a scan for the reserved topic, to the multicast group. */
  function ScanMessage(): (m: Message<Wrapper>)
    ensures m.ip == MULTICAST_IP && m.payload.msg.cmd == "scan"
    ensures DecodeRequest(ScanKind, m.payload.msg.data) == Some(ScanRequest("reserve"))
  {
    Message(MULTICAST_IP, NewAPIRequest("scan", ScanRequest("reserve")).value)
  }

  /** The scan message always goes to the scan port, as the envelope the protocol expects. */
  lemma ScanMessageTarget()
    ensures Target(ScanMessage().ip) == MULTICAST_IP + ":" + NatToString(SCAN_PORT)
    ensures Dispatch(ScanMessage()).data
            == "{\"msg\":{\"cmd\":\"scan\",\"data\":" + "{\"account_topic\":\"reserve\"}}}"
  {
    var m := ScanMessage();
    assert TargetPort(m.ip) == SCAN_PORT;
    ScanRequestEncoding(m.payload.msg.cmd, "reserve");
  }

  // ---------------------------------------------------------------------
  // The controller object

  /** The snapshots of a run of devices. */
  function Snapshots(ds: seq<Device>): (r: seq<DeviceState>)
    reads ds
    ensures |r| == |ds| && forall i | 0 <= i < |ds| :: r[i] == ds[i].Snapshot()
    decreases |ds|
  {
    if ds == [] then [] else [ds[0].Snapshot()] + Snapshots(ds[1..])
  }

  class Controller {
    /** The registry, in discovery order; devices are appended and never removed. */
    var devices: seq<Device>
    /** The command channel every device sends on. */
    const command: CommandQueue

    /** Each registered device is a distinct object and shares the controller's queue. */
    ghost predicate Valid()
      reads this, devices
    {
      (forall i | 0 <= i < |devices| :: devices[i].command == command)
      && (forall i, j | 0 <= i < j < |devices| :: devices[i] != devices[j])
    }

    /** `NewController`: no devices and an empty queue. */
    constructor ()
      ensures Valid() && devices == [] && fresh(command) && command.delivered == []
    {
      devices := [];
      command := new CommandQueue();
    }

    /** `Devices`. */
    function Devices(): seq<Device>
      reads this
    {
      devices
    }

    /** The registry's cached values, in order. */
    function Registry(): seq<DeviceState>
      reads this, devices
    {
      Snapshots(devices)
    }

    /** `DeviceByIP`: the first device whose current address is `ip`. */
    method DeviceByIP(ip: string) returns (r: Result<Device, Error>)
      ensures var k := FirstIndex(IPs(Registry()), ip);
        if k.Some? then k.value < |devices| && r == Success(devices[k.value]) else r == Failure(NoDeviceFound)
    {
      var i := 0;
      while i < |devices|
        invariant 0 <= i <= |devices|
        invariant forall j | 0 <= j < i :: devices[j].ip != ip
      {
        if devices[i].ip == ip {
          assert IPs(Registry())[i] == ip;
          return Success(devices[i]);
        }
        i := i + 1;
      }
      return Failure(NoDeviceFound);
    }

    /** `DeviceByID`: the first device whose device id is `id`. */
    method DeviceByID(id: string) returns (r: Result<Device, Error>)
      ensures var k := FirstIndex(IDs(Registry()), id);
        if k.Some? then k.value < |devices| && r == Success(devices[k.value]) else r == Failure(NoDeviceFound)
    {
      var i := 0;
      while i < |devices|
        invariant 0 <= i <= |devices|
        invariant forall j | 0 <= j < i :: devices[j].deviceID != id
      {
        if devices[i].deviceID == id {
          assert IDs(Registry())[i] == id;
          return Success(devices[i]);
        }
        i := i + 1;
      }
      return Failure(NoDeviceFound);
    }

    /**
     * The listener's lookup of a datagram's source: the first device with
     * that address, or a new device sharing the queue, appended to the
     * registry.
     */
    method Discover(src: string) returns (d: Device)
      requires Valid()
      modifies this
      ensures Valid()
      ensures Registry() == Register(old(Registry()), src)
      ensures var k := FirstIndex(IPs(Registry()), src); k.Some? && k.value < |devices| && devices[k.value] == d
      ensures d in old(devices) || fresh(d)
      ensures |old(devices)| <= |devices| && devices[..|old(devices)|] == old(devices)
    {
      ghost var reg := Registry();
      var found := DeviceByIP(src);
      if found.Failure? {
        d := new Device(src, command);
        Append(d);
        assert Registry() == Register(reg, src);
      } else {
        d := found.value;
      }
    }

    /** Appends a device that shares the queue and is not yet registered. */
    method Append(d: Device)
      requires Valid() && d.command == command && d !in devices
      modifies this
      ensures Valid() && devices == old(devices) + [d]
      ensures Registry() == old(Registry()) + [d.Snapshot()]
    {
      devices := devices + [d];
      assert Registry() == old(Registry()) + [d.Snapshot()] by {
        assert forall i | 0 <= i < |old(devices)| :: devices[i] == old(devices)[i];
      }
    }

    /**
     * The listener's work for one datagram from `src` at time `now`: find
     * or register the source, then let that device handle a routed
     * response.
     */
    method Receive(src: string, inbound: Inbound, now: int)
      requires Valid()
      modifies this, devices
      ensures Valid()
      ensures Registry() == Step(old(Registry()), src, inbound, now)
      ensures |old(devices)| <= |devices| && devices[..|old(devices)|] == old(devices)
      ensures command.delivered == old(command.delivered)
    {
      var d := Discover(src);
      ghost var reg1 := Registry();
      ghost var i := FirstIndex(IPs(reg1), src).value;
      var routed := Route(src, inbound);
      if routed.Some? {
        Deliver(d, i, routed.value, now);
      }
    }

    /** The registered device at position `i` handles a response; no other device changes. */
    method Deliver(d: Device, ghost i: nat, m: Message<Response>, now: int)
      requires Valid() && i < |devices| && devices[i] == d
      modifies d
      ensures Valid()
      ensures Registry() == old(Registry())[i := Apply(old(Registry())[i], m.payload, now)]
    {
      d.Handle(m, now);
      forall j | 0 <= j < |devices| && j != i
        ensures devices[j].Snapshot() == old(devices[j].Snapshot())
      {
        assert devices[j] != d;
      }
    }
  }
}
