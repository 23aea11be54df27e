/**
 * One Govee device (device.go): its cached identity and status, the step
 * that applies a routed response to them, and the commands it puts on the
 * controller's shared outgoing queue. Time is a number of nanoseconds
 * passed in by the caller; the queue's readiness and the outcome of a
 * wait are parameters, since they depend on other goroutines.
 */
module Devices {
  import opened Wrappers
  import opened Errors
  import opened Text
  import opened Types
  import opened Api

  /** A device counts as active for five minutes after it was last heard from. */
  const ACTIVE_WINDOW: int := 5 * 60 * 1_000_000_000

  // ---------------------------------------------------------------------
  // The outgoing queue

  /**
   * The controller's unbuffered command channel, seen from the senders:
   * the messages a receiver has taken from it, in order.
   */
  class CommandQueue {
    var delivered: seq<Message<Wrapper>>

    constructor ()
      ensures delivered == []
    {
      delivered := [];
    }

    /**
     * A send inside a `select` with a `default` case: it goes through only
     * when a receiver is waiting (`ready`), and otherwise changes nothing.
     */
    method TrySend(m: Message<Wrapper>, ready: bool) returns (ok: bool)
      modifies this
      ensures ok == ready
      ensures delivered == if ready then old(delivered) + [m] else old(delivered)
    {
      ok := ready;
      if ready {
        delivered := delivered + [m];
      }
    }
  }

  // ---------------------------------------------------------------------
  // Cached state and the apply step

  /**
   * Everything a Device caches. `seen` is None while it still holds Go's
   * zero time; `statusUpdate` is the one-slot signal channel, holding the
   * time of a status response nobody has waited for yet.
   */
  datatype DeviceState = DeviceState(
    seen: Option<int>,
    ip: string,
    deviceID: string,
    sku: string,
    bleVersionHard: Version,
    bleVersionSoft: Version,
    wifiVersionHard: Version,
    wifiVersionSoft: Version,
    state: State,
    brightness: Brightness,
    color: Color,
    colorKelvin: ColorKelvin,
    statusUpdate: Option<int>)

  /** The identity a scan response reports, as cached. */
  function Identity(s: DeviceState): ScanResponse
  {
    ScanResponse(s.ip, s.deviceID, s.sku, s.bleVersionHard, s.bleVersionSoft, s.wifiVersionHard, s.wifiVersionSoft)
  }

  /** The status a devStatus response reports, as cached. */
  function Reading(s: DeviceState): DevStatusResponse
  {
    DevStatusResponse(s.state, s.brightness, s.color, s.colorKelvin)
  }

  /** A device the listener has just registered: only its address is known. */
  function Unregistered(ip: string): (s: DeviceState)
    ensures Identity(s) == ScanResponse(ip, "", "", ZERO_VERSION, ZERO_VERSION, ZERO_VERSION, ZERO_VERSION)
    ensures Reading(s) == DevStatusResponse(0, 0, Color(0, 0, 0), 0)
    ensures s.seen == None && s.statusUpdate == None
  {
    DeviceState(None, ip, "", "", ZERO_VERSION, ZERO_VERSION, ZERO_VERSION, ZERO_VERSION,
                0, 0, Color(0, 0, 0), 0, None)
  }

  /**
   * One turn of the handler loop at time `now`. A scan response replaces
   * the identity and leaves the status alone; a status response replaces
   * the status, leaves the identity alone and fills the signal slot unless
   * it is already full, in which case the new signal is dropped. Either
   * refreshes `seen`.
   */
  function Apply(s: DeviceState, r: Response, now: int): (t: DeviceState)
    ensures t.seen == Some(now)
    ensures r.Scan? ==> Identity(t) == r.scan && Reading(t) == Reading(s) && t.statusUpdate == s.statusUpdate
    ensures r.Status? ==> Reading(t) == r.status && Identity(t) == Identity(s)
    ensures r.Status? ==> t.statusUpdate == if s.statusUpdate.None? then Some(now) else s.statusUpdate
  {
    match r
    case Scan(p) =>
      s.(ip := p.ip, deviceID := p.deviceID, sku := p.sku,
         bleVersionHard := p.bleVersionHard, bleVersionSoft := p.bleVersionSoft,
         wifiVersionHard := p.wifiVersionHard, wifiVersionSoft := p.wifiVersionSoft,
         seen := Some(now))
    case Status(p) =>
      s.(state := p.onOff, brightness := p.brightness, color := p.color, colorKelvin := p.colorKelvin,
         seen := Some(now),
         statusUpdate := if s.statusUpdate.None? then Some(now) else s.statusUpdate)
  }

  /** A response taken off the device's response channel at a given time. */
  datatype Delivery = Delivery(msg: Message<Response>, at: int)

  /** The handler loop run over a sequence of deliveries, oldest first. */
  function ApplyAll(s: DeviceState, ds: seq<Delivery>): DeviceState
    decreases |ds|
  {
    if ds == [] then s
    else
      var last := ds[|ds| - 1];
      Apply(ApplyAll(s, ds[..|ds| - 1]), last.msg.payload, last.at)
  }

  /** The payload of the most recent scan response among the deliveries. */
  function LastScan(ds: seq<Delivery>): Option<ScanResponse>
    decreases |ds|
  {
    if ds == [] then None
    else if ds[|ds| - 1].msg.payload.Scan? then Some(ds[|ds| - 1].msg.payload.scan)
    else LastScan(ds[..|ds| - 1])
  }

  /** The payload of the most recent status response among the deliveries. */
  function LastStatus(ds: seq<Delivery>): Option<DevStatusResponse>
    decreases |ds|
  {
    if ds == [] then None
    else if ds[|ds| - 1].msg.payload.Status? then Some(ds[|ds| - 1].msg.payload.status)
    else LastStatus(ds[..|ds| - 1])
  }

  /** The time of the earliest status response among the deliveries. */
  function FirstStatusAt(ds: seq<Delivery>): Option<int>
    decreases |ds|
  {
    if ds == [] then None
    else if ds[0].msg.payload.Status? then Some(ds[0].at)
    else FirstStatusAt(ds[1..])
  }

  /** One more delivery at the end changes the earliest status time only if there was none. */
  lemma {:induction false} FirstStatusAtSnoc(ds: seq<Delivery>, d: Delivery)
    ensures FirstStatusAt(ds + [d]) ==
      if FirstStatusAt(ds).Some? then FirstStatusAt(ds)
      else if d.msg.payload.Status? then Some(d.at)
      else None
    decreases |ds|
  {
    if ds == [] {
      assert ([] + [d])[1..] == [];
    } else {
      assert (ds + [d])[0] == ds[0];
      assert (ds + [d])[1..] == ds[1..] + [d];
      FirstStatusAtSnoc(ds[1..], d);
    }
  }

  /**
   * After any run of deliveries the cached identity is the latest scan's
   * and the cached status the latest status response's, whatever the
   * interleaving; `seen` is the time of the last delivery; and the signal
   * slot, once full, keeps its signal, and when it starts empty it ends up
   * holding the time of the first status response.
   */
  lemma {:induction false} LatestResponsesWin(s: DeviceState, ds: seq<Delivery>)
    ensures Identity(ApplyAll(s, ds)) == if LastScan(ds).Some? then LastScan(ds).value else Identity(s)
    ensures Reading(ApplyAll(s, ds)) == if LastStatus(ds).Some? then LastStatus(ds).value else Reading(s)
    ensures ApplyAll(s, ds).seen == if ds == [] then s.seen else Some(ds[|ds| - 1].at)
    ensures s.statusUpdate.Some? ==> ApplyAll(s, ds).statusUpdate == s.statusUpdate
    ensures ApplyAll(s, ds).statusUpdate.Some? <==> s.statusUpdate.Some? || LastStatus(ds).Some?
    ensures s.statusUpdate.None? ==> ApplyAll(s, ds).statusUpdate == FirstStatusAt(ds)
    decreases |ds|
  {
    if ds != [] {
      var init, last := ds[..|ds| - 1], ds[|ds| - 1];
      LatestResponsesWin(s, init);
      FirstStatusAtSnoc(init, last);
      assert init + [last] == ds;
    }
  }

  /** `Active` with the clock reading `now`: seen less than five minutes ago. */
  predicate IsActive(s: DeviceState, now: int)
  {
    s.seen.Some? && now - s.seen.value < ACTIVE_WINDOW
  }

  /** Any response keeps a device active for exactly five minutes. */
  lemma ActiveAfterApply(s: DeviceState, r: Response, at: int, now: int)
    ensures IsActive(Apply(s, r, at), now) <==> now < at + ACTIVE_WINDOW
  {
  }

  /** The text `String` shows for a field: "unknown" when it is empty. */
  function OrUnknown(field: string): (r: string)
    ensures field != "" ==> r == field
    ensures field == "" ==> r == "unknown"
  {
    if field != "" then field else "unknown"
  }

  /**
   * `String`: "sku: ip (deviceID)". The text is cut into its fields: the
   * model (or "unknown"), ": " and the address, " (", the id (or "unknown"),
   * and a closing parenthesis, with nothing else in it.
   */
  function Describe(s: DeviceState): (r: string)
    ensures var n, m := |OrUnknown(s.sku)|, |OrUnknown(s.deviceID)|;
      |r| == n + 2 + |s.ip| + 2 + m + 1 &&
      r[..n] == OrUnknown(s.sku) &&
      r[n..n + 2 + |s.ip|] == ": " + s.ip &&
      r[n + 2 + |s.ip|..|r| - m - 1] == " (" &&
      r[|r| - m - 1..|r| - 1] == OrUnknown(s.deviceID) &&
      r[|r| - 1] == ')'
  {
    OrUnknown(s.sku) + ": " + s.ip + " (" + OrUnknown(s.deviceID) + ")"
  }

  /**
   * The text of a device nobody has scanned yet names its address between
   * two "unknown"s.
   */
  lemma DescribeUnscanned(ip: string)
    ensures Describe(Unregistered(ip)) == "unknown: " + ip + " (unknown)"
  {
    var s := Unregistered(ip);
    assert OrUnknown(s.sku) == "unknown" && OrUnknown(s.deviceID) == "unknown";
  }

  // ---------------------------------------------------------------------
  // Commands

  /** The commands a device sends. */
  datatype Command =
    | PowerOn                       // TurnOn
    | PowerOff                      // TurnOff
    | Level(brightness: Brightness) // SetBrightness
    | Rgb(color: Color)             // SetColor
    | Temperature(kelvin: ColorKelvin) // SetColorKelvin
    | StatusQuery                   // RequestStatus

  /** The `cmd` each command goes out under. */
  function CommandName(c: Command): string
  {
    match c
    case PowerOn => "turn"
    case PowerOff => "turn"
    case Level(_) => "brightness"
    case Rgb(_) => "colorwc"
    case Temperature(_) => "colorKelvin"
    case StatusQuery => "devStatus"
  }

  /**
   * The payload each command carries. The brightness goes out as given,
   * without NewBrightness; a colour goes with kelvin 0 and a temperature
   * with the zero colour.
   */
  function CommandPayload(c: Command): Request
  {
    match c
    case PowerOn => OnOffRequest(1)
    case PowerOff => OnOffRequest(0)
    case Level(b) => BrightnessRequest(b)
    case Rgb(color) => ColorRequest(color, 0)
    case Temperature(k) => ColorRequest(Color(0, 0, 0), k)
    case StatusQuery => DevStatusRequest
  }

  /**
   * The message a command puts on the queue: addressed to the device's
   * current ip, carrying the command's name, and with data that reads
   * back as the command's payload.
   */
  function CommandMessage(ip: string, c: Command): (m: Message<Wrapper>)
    ensures m.ip == ip && m.payload.msg.cmd == CommandName(c)
    ensures DecodeRequest(KindOf(CommandPayload(c)), m.payload.msg.data) == Some(CommandPayload(c))
  {
    Message(ip, NewAPIRequest(CommandName(c), CommandPayload(c)).value)
  }

  /** The error a command returns when the queue does not take it. */
  function SendFailure(c: Command): Error
  {
    match c
    case PowerOn => Errorf("failed to send TurnOn command: channel blocked or closed")
    case PowerOff => Errorf("failed to send TurnOff command: channel blocked or closed")
    case Level(_) => Errorf("failed to send SetBrightness command: channel blocked or closed")
    case Rgb(_) => Errorf("failed to send SetColor command: channel blocked or closed")
    case Temperature(_) => Errorf("failed to send SetColorKelvin command: channel blocked or closed")
    case StatusQuery => Errorf("failed to send RequestStatus command: channel blocked or closed")
  }

  /**
   * On the wire a command message reads back whole: the dispatcher's text
   * decodes to the same envelope, whose data decodes to the payload.
   */
  lemma CommandMessageReadsBack(ip: string, c: Command)
    ensures DecodeWrapper(EncodeWrapper(CommandMessage(ip, c).payload)) == Some(CommandMessage(ip, c).payload)
    ensures DecodeRequest(KindOf(CommandPayload(c)), CommandMessage(ip, c).payload.msg.data) == Some(CommandPayload(c))
  {
    DecodeEncodeWrapper(CommandMessage(ip, c).payload);
  }

  /** Where the wait for a status signal ends. */
  datatype WaitOutcome = Signalled | TimedOut | ContextDone

  // ---------------------------------------------------------------------
  // The device

  class Device {
    var seen: Option<int>
    var ip: string
    var deviceID: string
    var sku: string
    var bleVersionHard: Version
    var bleVersionSoft: Version
    var wifiVersionHard: Version
    var wifiVersionSoft: Version
    var state: State
    var brightness: Brightness
    var color: Color
    var colorKelvin: ColorKelvin
    var statusUpdate: Option<int>
    /** The controller's command channel, shared by all devices. */
    const command: CommandQueue

    /** The cached fields as one value. */
    function Snapshot(): DeviceState
      reads this
    {
      DeviceState(seen, ip, deviceID, sku, bleVersionHard, bleVersionSoft, wifiVersionHard, wifiVersionSoft,
                  state, brightness, color, colorKelvin, statusUpdate)
    }

    /** The device the listener creates for a new source address. */
    constructor (ip: string, command: CommandQueue)
      ensures Snapshot() == Unregistered(ip)
      ensures this.command == command
    {
      this.seen := None;
      this.ip := ip;
      this.deviceID := "";
      this.sku := "";
      this.bleVersionHard := ZERO_VERSION;
      this.bleVersionSoft := ZERO_VERSION;
      this.wifiVersionHard := ZERO_VERSION;
      this.wifiVersionSoft := ZERO_VERSION;
      this.state := 0;
      this.brightness := 0;
      this.color := Color(0, 0, 0);
      this.colorKelvin := 0;
      this.statusUpdate := None;
      this.command := command;
    }

    /** `Active`. */
    predicate Active(now: int)
      reads this
    {
      IsActive(Snapshot(), now)
    }

    /** `String`. */
    function ToString(): string
      reads this
    {
      Describe(Snapshot())
    }

    /** One turn of `handler`: the fields are updated in place. */
    method Handle(m: Message<Response>, now: int)
      modifies this
      ensures Snapshot() == Apply(old(Snapshot()), m.payload, now)
    {
      ghost var s := Snapshot();
      match m.payload
      case Scan(p) =>
        ip := p.ip;
        deviceID := p.deviceID;
        sku := p.sku;
        bleVersionHard := p.bleVersionHard;
        bleVersionSoft := p.bleVersionSoft;
        wifiVersionHard := p.wifiVersionHard;
        wifiVersionSoft := p.wifiVersionSoft;
        seen := Some(now);
        assert Snapshot() == Apply(s, Scan(p), now);
      case Status(p) =>
        state := p.onOff;
        brightness := p.brightness;
        color := p.color;
        colorKelvin := p.colorKelvin;
        seen := Some(now);
        if statusUpdate.None? {
          statusUpdate := Some(now);
        }
        assert Snapshot() == Apply(s, Status(p), now);
    }

    /** `handler`, run over the responses delivered to it until its channel closes. */
    method Handler(inbox: seq<Delivery>)
      modifies this
      ensures Snapshot() == ApplyAll(old(Snapshot()), inbox)
    {
      var i := 0;
      while i < |inbox|
        invariant 0 <= i <= |inbox|
        invariant Snapshot() == ApplyAll(old(Snapshot()), inbox[..i])
      {
        assert inbox[..i + 1][..i] == inbox[..i];
        Handle(inbox[i].msg, inbox[i].at);
        i := i + 1;
      }
      assert inbox[..i] == inbox;
    }

    /** The non-blocking send every command method ends with. */
    method Enqueue(c: Command, ready: bool) returns (err: Option<Error>)
      modifies command
      ensures command.delivered == old(command.delivered) + if ready then [CommandMessage(ip, c)] else []
      ensures err == if ready then None else Some(SendFailure(c))
    {
      var wrapper := NewAPIRequest(CommandName(c), CommandPayload(c)).value;
      var ok := command.TrySend(Message(ip, wrapper), ready);
      if ok {
        err := None;
      } else {
        err := Some(SendFailure(c));
      }
    }

    method TurnOn(ready: bool) returns (err: Option<Error>)
      modifies command
      ensures command.delivered == old(command.delivered) + if ready then [CommandMessage(ip, PowerOn)] else []
      ensures err == if ready then None else Some(Errorf("failed to send TurnOn command: channel blocked or closed"))
    {
      err := Enqueue(PowerOn, ready);
    }

    method TurnOff(ready: bool) returns (err: Option<Error>)
      modifies command
      ensures command.delivered == old(command.delivered) + if ready then [CommandMessage(ip, PowerOff)] else []
      ensures err == if ready then None else Some(Errorf("failed to send TurnOff command: channel blocked or closed"))
    {
      err := Enqueue(PowerOff, ready);
    }

    /** `Toggle`: off when the cached state is exactly 1, on for any other value. */
    method Toggle(ready: bool) returns (err: Option<Error>)
      modifies command
      ensures var c := if state == 1 then PowerOff else PowerOn;
        command.delivered == old(command.delivered) + (if ready then [CommandMessage(ip, c)] else [])
        && err == if ready then None else Some(SendFailure(c))
    {
      if state == 1 {
        err := TurnOff(ready);
      } else {
        err := TurnOn(ready);
      }
    }

    method SetBrightness(brightness: Brightness, ready: bool) returns (err: Option<Error>)
      modifies command
      ensures command.delivered == old(command.delivered) + if ready then [CommandMessage(ip, Level(brightness))] else []
      ensures err == if ready then None else Some(Errorf("failed to send SetBrightness command: channel blocked or closed"))
    {
      err := Enqueue(Level(brightness), ready);
    }

    method SetColor(color: Color, ready: bool) returns (err: Option<Error>)
      modifies command
      ensures command.delivered == old(command.delivered) + if ready then [CommandMessage(ip, Rgb(color))] else []
      ensures err == if ready then None else Some(Errorf("failed to send SetColor command: channel blocked or closed"))
    {
      err := Enqueue(Rgb(color), ready);
    }

    method SetColorKelvin(colorKelvin: ColorKelvin, ready: bool) returns (err: Option<Error>)
      modifies command
      ensures command.delivered == old(command.delivered) + if ready then [CommandMessage(ip, Temperature(colorKelvin))] else []
      ensures err == if ready then None else Some(Errorf("failed to send SetColorKelvin command: channel blocked or closed"))
    {
      err := Enqueue(Temperature(colorKelvin), ready);
    }

    /**
     * `RequestStatus`. The send is a `select` over the queue, the context
     * and a default: it goes through when a receiver is `ready`, unless the
     * context is also `canceled` and the select picks that case
     * (`pickCancel`). After a send the call waits; `wake` says which case
     * of the wait fires first. Only a consumed signal is a success, and it
     * empties the slot. No cached reading is touched.
     */
    method RequestStatus(ready: bool, canceled: bool, pickCancel: bool, wake: WaitOutcome)
      returns (err: Option<Error>)
      modifies this`statusUpdate, command
      ensures Identity(Snapshot()) == Identity(old(Snapshot())) && Reading(Snapshot()) == Reading(old(Snapshot()))
      ensures seen == old(seen)
      ensures var sent := ready && !(canceled && pickCancel);
        command.delivered == old(command.delivered) + (if sent then [CommandMessage(ip, StatusQuery)] else [])
        && err == (if !sent && canceled then Some(Errorf("context canceled while sending RequestStatus command"))
                   else if !sent then Some(Errorf("failed to send RequestStatus command: channel blocked or closed"))
                   else if wake == Signalled then None
                   else if wake == TimedOut then Some(Errorf("timeout waiting for device status response"))
                   else Some(Errorf("context canceled while waiting for status response")))
        && statusUpdate == if sent && wake == Signalled then None else old(statusUpdate)
    {
      var wrapper := NewAPIRequest(CommandName(StatusQuery), CommandPayload(StatusQuery)).value;
      if ready && !(canceled && pickCancel) {
        var ok := command.TrySend(Message(ip, wrapper), true);
      } else if canceled {
        return Some(Errorf("context canceled while sending RequestStatus command"));
      } else {
        return Some(Errorf("failed to send RequestStatus command: channel blocked or closed"));
      }
      match wake
      case Signalled =>
        statusUpdate := None;
        err := None;
      case TimedOut =>
        err := Some(Errorf("timeout waiting for device status response"));
      case ContextDone =>
        err := Some(Errorf("context canceled while waiting for status response"));
    }
  }
}
