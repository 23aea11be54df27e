# go-vee in Dafny

A model of the sequential core of go-vee, a Go library that controls Govee
lights over the LAN. The library discovers devices by multicasting a `scan`
request, keeps a registry of the devices that answer, caches each device's
identity and status, and sends JSON commands to them over UDP.

The model covers four parts of the library:

- **Value types** (`types.dfy`, module `Types`). This covers the firmware
  `Version` and its JSON codec. `UnmarshalJSON` is a method that writes the
  receiver field by field. `Unmarshal` is the function that specifies it, with
  both error paths: a wrong part count leaves the receiver alone, and a
  non-integer part zeroes it. It also covers the on/off state, brightness,
  colour and colour temperature, with their clamping constructors and their
  renderers.
- **Wire records** (`api.dfy`, module `Api`). This covers the envelope
  `{"msg":{"cmd":…,"data":…}}` and the request and response records. Requests
  have an encoder that writes `json.Marshal`'s exact text. Readers are proved to
  invert the encoder.
- **The device** (`devices.dfy`, module `Devices`). A `Device` class holds the
  cached fields and a one-slot "status arrived" signal. A pure `Apply`
  specifies how one routed response changes them. The command methods each put
  one message on the shared `CommandQueue`, or fail without touching it.
- **The controller** (`controller.dfy`, module `Controllers`). The registry is
  an ordered sequence of devices with first-match lookups by address and by
  device id. The listener step registers unknown sources before it decodes
  anything, then routes only `scan` and `devStatus` payloads. The dispatcher
  picks the port, and the scheduler builds the scan message. `Step` states the
  listener step on values, and `Controller.Receive` is proved to perform it
  on the objects.

Supporting modules model the Go standard-library behaviour the core relies
on:

- `Wrappers`: Option and Result.
- `Errors`: the sentinel errors, `%w` wrapping and `errors.Is`.
- `Text`: `fmt` `%d`, `strconv.Atoi` on 64-bit `int`, `bytes.Split`, `bytes.Trim`.
- `Json`: `json.Marshal` string escaping with its inverse, and number reading.

Go's `uint` and `int` are 64 bits wide here. Time is an integer number of
nanoseconds passed in by the caller. The readiness of the unbuffered
command channel, the cancellation state of the context and the outcome of the
status wait are parameters.

Three behaviours of the code that the model keeps:

- A scan response overwrites the device's `ip` with the address in the
  payload (device.go:50). After that, `DeviceByIP` looks the device up by the
  reported address, not the datagram's source. If the two differ, the next
  datagram from the source registers a second device. This is
  `Controllers.ScanRewritesAddress`.
- The listener registers an unknown source before it decodes the datagram
  (controller.go:84-111). An undecodable datagram still adds a registry entry.
- Brightness sent by `SetBrightness` and values taken from status responses
  are not clamped (device.go:173, 61-64). Cached values can therefore exceed
  the ranges the constructors keep.

## Model

| member | source | states |
|---|---|---|
| Errors.WrappedIs | types.go:47 | an error made with `%w` still satisfies `errors.Is` for its cause, and its text is the context, ": ", then the cause's text |
| Text.NatToString | types.go:101 | `%d` of a non-negative number is a non-empty run of decimal digits with no leading zero (except for 0 itself); it is one digit exactly when the number is below 10 |
| Text.IntToString | types.go:31 | `%d` of an int is digits, optionally after a leading '-', ending in a digit |
| Text.DigitsValueOfNatToString | types.go:31 | the digits `%d` prints read back as the number |
| Text.DigitsValueIgnoresZeros | types.go:42 | leading zeros do not change a digit string's value |
| Text.Atoi | types.go:42 | a successful `strconv.Atoi` result lies within the 64-bit int range |
| Text.Unsigned | types.go:42 | the digits after the sign give a value within the 64-bit int range, or nothing |
| Text.AtoiOfIntToString | types.go:42 | `Atoi` reads back every int that `%d` prints |
| Text.AtoiIgnoresLeadingZeros | types.go:42 | `Atoi` of zeros then digits gives the digits' value (e.g. "00" is 0) |
| Text.Split | types.go:36 | `bytes.Split` on a one-character separator gives at least one part, and no part contains the separator |
| Text.JoinOfSplit | types.go:36 | joining the parts with the separator restores the input |
| Text.SplitLength | types.go:36 | the number of parts is one more than the number of separators |
| Text.SplitWithoutSep | types.go:36 | a text without the separator splits into itself alone |
| Text.SplitAtFirst | types.go:36 | splitting at the first separator gives the text before it, then the split of the rest |
| Text.SplitOfJoin | types.go:36 | splitting a join of separator-free parts gives back the parts |
| Text.TrimLeft | types.go:36 | `bytes.Trim`'s left half keeps a suffix of the input that does not start with the cut character, and everything it removes is the cut character |
| Text.TrimRight | types.go:36 | the right half keeps a prefix of the input that does not end with the cut character, and everything it removes is the cut character |
| Text.Trim | types.go:36 | the result is a slice of the input with no cut character at either end, and every character outside the slice is the cut character |
| Text.TrimUntouched | types.go:36 | trimming a text that neither starts nor ends with the cut character leaves it unchanged |
| Text.TrimEnclosed | types.go:36 | trimming quotes from a quoted text whose ends are not quotes gives the text |
| Json.ReadQuote | types.go:68 | reading a JSON string back from `json.Marshal`'s quoting gives the original text and the rest |
| Json.ReadEscape | types.go:68 | reading back the escaped body of a string gives the text and what follows the closing quote |
| Json.ReadEscapedChar | types.go:68 | each escaped character reads back as itself |
| Json.HexDigitValue | types.go:68 | each lower-case hex digit the escaper writes reads back as its value |
| Json.QuotePlain | types.go:68 | a text with no character needing an escape is written unchanged between quotes |
| Json.DigitRunOfDigits | api.go:50 | the digit run of a digit string followed by a non-digit is that digit string |
| Json.ReadNatToString | api.go:50 | a JSON number written by `%d` reads back as the number when no digit follows |
| Types.Unmarshal | types.go:35-64 | a wrong part count returns the sentinel and keeps the receiver; a non-integer part zeroes all fields and returns an error that wraps the sentinel; success holds exactly when there are three integer parts, and then holds their values |
| Types.UnmarshalJSON | types.go:35-64 | writing the receiver field by field ends in the value and error `Unmarshal` specifies |
| Types.UnmarshalDotCount | types.go:36-39 | input without exactly two dots inside the quotes leaves the receiver unchanged and returns the sentinel |
| Types.VersionString | types.go:30-32 | `%d.%d.%d` of the three fields; `VersionStringShape` and `VersionStringParts` pin it as major, ".", minor, ".", patch, splitting back into the three numbers |
| Types.VersionStringParts | types.go:30-32 | the version string splits at its dots into the three printed numbers |
| Types.VersionStringShape | types.go:30-32 | the version string is major, ".", minor, ".", patch |
| Types.MarshalJSON | types.go:66-69 | the text is quoted (starts and ends with '"'); `MarshalShape` shows it is the version string verbatim in quotes, and `UnmarshalOfMarshal` that `UnmarshalJSON` reads it back |
| Types.UnmarshalOfMarshal | types.go:66-69 | unmarshalling what `MarshalJSON` writes restores the version whatever the receiver held |
| Types.MarshalShape | types.go:66-69 | `MarshalJSON` writes the version string between double quotes with nothing escaped, for every version |
| Types.JoinChars | types.go:31 | every character of the version string is a dot, a digit or a minus sign, so it needs no JSON escape |
| Types.MarshalExample | types_test.go:70-75 | Version{1, 2, 3} marshals to `"1.2.3"` |
| Types.VersionPartsOf | types.go:36-39 | three dot-free pieces, the first not starting and the last not ending with a quote, are exactly the parts of their dotted join |
| Types.PartsWithLeadingZeros | types_test.go:17-22 | "1.00.10" splits into "1", "00", "10" |
| Types.AtoiExamples | types_test.go:17-46 | the parts in the test inputs read as the tests expect: "00" as 0, "10" as 10, and "a", "b", "c" as errors |
| Types.UnmarshalLeadingZeros | types_test.go:17-22 | "1.00.10" parses to {1, 0, 10} without error |
| Types.VersionStringDropsZeros | api_test.go:38-41 | {1, 0, 10} prints as "1.0.10", so leading zeros are not preserved |
| Types.UnmarshalTwoParts | types_test.go:23-28 | "1.2" returns the sentinel and leaves the receiver as it was |
| Types.UnmarshalBadMajor | types_test.go:29-34 | "a.2.3" zeroes the version and returns "invalid major version" wrapping the sentinel |
| Types.UnmarshalBadMinor | types_test.go:35-40 | "1.b.3" zeroes the version and returns "invalid minor version" wrapping the sentinel |
| Types.UnmarshalBadPatch | types_test.go:41-46 | "1.2.c" zeroes the version and returns "invalid patch version" wrapping the sentinel |
| Types.StateString | types.go:80-85 | the state renders as "On" exactly when it equals 1, otherwise as "Off" |
| Types.NewBrightness | types.go:92-97 | the result never exceeds 100, equals the input when that is at most 100, and is 100 otherwise |
| Types.ClampChannel | types.go:114-122 | one channel is at most 255, unchanged when in range |
| Types.NewColor | types.go:113-124 | each channel is clamped to 255 independently; in-range channels are unchanged |
| Types.NewColorKelvin | types.go:136-144 | the result lies in [2000, 9000] and equals the input when that is already in range |
| Types.ClampsIdempotent | types.go:92-144 | clamping a clamped value changes nothing |
| Types.NumberWithUnit | types.go:100-102 | a number followed by a unit ends in the unit, and the digits before it read back as the number |
| Types.BrightnessString | types.go:100-102 | "N%": ends in '%', and the characters before it are digits that read back as N |
| Types.ColorString | types.go:127-129 | starts with "rgb(" and ends with ')'; `ColorStringFields` cuts it into the three channel numbers and `ColorStringInjective` shows different colours render differently |
| Types.KelvinString | types.go:147-149 | "NK": ends in 'K', and the characters before it are digits that read back as N |
| Types.NatToStringInjective | types.go:127-129 | different numbers print differently |
| Types.ColorStringFields | types.go:127-129 | "rgb(r, g, b)" starts with "rgb(" and cuts at its commas into the three channel numbers |
| Types.ColorStringInjective | types.go:127-129 | different colours render differently |
| Types.RenderExamples | types_test.go:98-118 | the table tests' renderings: 1 as "On", 0 as "Off", and red, green and blue as "rgb(255, 0, 0)", "rgb(0, 255, 0)" and "rgb(0, 0, 255)" |
| Types.StatusRenderExamples | api_test.go:83-86 | the decoded status response's fields render as "On", "100%", "rgb(255, 0, 0)" and "7200K" |
| Types.ClampExamples | types.go:92-144 | sample out-of-range inputs clamp to the nearest bound: brightness 150 to 100, channels 300 and 256 to 255, kelvin 500 to 2000 and 20000 to 9000 |
| Api.NewAPIRequest | api.go:7-18 | the wrapper carries the given command name, and its data reads back as the given payload |
| Api.EncodeWrapper | api.go:20-26 | `json.Marshal` of the envelope; `EnvelopeText` gives its exact text and `DecodeEncodeWrapper` reads every envelope back from it |
| Api.EncodeRequest | api.go:28-73 | `json.Marshal` of each request record under its JSON tags; `DecodeEncodeRequest` reads every payload back from it |
| Api.EncodeColor | types.go:105-109 | `json.Marshal` of a colour as `{"r":…,"g":…,"b":…}`; `ReadEncodedColor` reads the colour back from it |
| Api.ReadLiteral | api.go:20-26 | a literal that is read leaves exactly the rest of the text |
| Api.ReadLiteralOf | api.go:20-26 | a literal followed by a rest is read as that rest |
| Api.ReadUintToString | api.go:49-57 | an encoded uint reads back when no digit follows |
| Api.ReadUintThenLiteral | api.go:64-67 | a uint followed by a non-digit literal reads back with the literal left over |
| Api.ReadEncodedColor | types.go:105-109 | a colour's `{"r":…,"g":…,"b":…}` encoding reads back as the colour |
| Api.ReadValueOf | api.go:49-57 | `{"value":N}` reads back as N |
| Api.ReadColorRequestOf | api.go:64-67 | a colour request reads back with `color` first and `colorTemInKelvin` second |
| Api.DecodeEncodeRequest | api.go:28-73 | every request payload reads back from its encoding |
| Api.DecodeEncodeWrapper | api.go:20-26 | every envelope reads back from its encoding, whatever its command and data |
| Api.EnvelopeText | api.go:20-26 | a plain command name is written verbatim between quotes before the raw data |
| Api.ScanRequestText | api.go:30-32 | a plain account topic encodes as `{"account_topic":"<topic>"}` |
| Api.ReservedTopicText | api_test.go:11-12 | the reserved topic encodes as `{"account_topic":"reserve"}` |
| Api.ScanRequestEncoding | api_test.go:10-23 | the scan request encodes to `{"msg":{"cmd":"scan","data":{"account_topic":"reserve"}}}` |
| Api.OnOffRequestEncoding | api_test.go:44-57 | an on/off request with value 1 encodes to `{"msg":{"cmd":"turn","data":{"value":1}}}` |
| Api.DevStatusRequestEncoding | api_test.go:59-71 | the status request's data is `{}`: `{"msg":{"cmd":"devStatus","data":{}}}` |
| Devices.CommandQueue.constructor | controller.go:31 | a new command channel has delivered nothing |
| Devices.CommandQueue.TrySend | device.go:137-142 | a non-blocking send succeeds exactly when a receiver is ready, and appends the message; otherwise nothing changes |
| Devices.Unregistered | controller.go:92-99 | a newly registered device knows only its address: empty id and sku, zero versions and status, never seen, empty signal slot |
| Devices.Apply | device.go:47-72 | a scan response replaces the identity and keeps the status and slot; a status response replaces the status, keeps the identity and fills the slot only if it is empty; both refresh `seen` |
| Devices.LatestResponsesWin | device.go:36-75 | after any run of responses the identity is the last scan's, the status the last status response's, `seen` the last delivery's time; a full slot keeps its signal, an empty one ends up holding the time of the first status response, and the slot is full exactly when it was full or a status arrived |
| Devices.ApplyAll | device.go:36-75 | the handler loop's fold of `Apply` over the deliveries, oldest first; `LatestResponsesWin` states its result and `Device.Handler` performs it |
| Devices.IsActive | device.go:92-94 | seen, and less than five minutes before `now`; `ActiveAfterApply` states when a response keeps a device active |
| Devices.ActiveAfterApply | device.go:92-94 | after a response at time t a device is active at now exactly when now < t + 5 minutes, with no ordering required between t and now |
| Devices.OrUnknown | device.go:79-87 | an empty sku or id shows as "unknown", a non-empty one as itself |
| Devices.Describe | device.go:78-89 | `String` is cut into exactly these fields: the sku (or "unknown"), ": " and the ip, " (", the device id (or "unknown"), and ")" |
| Devices.DescribeUnscanned | device.go:78-89 | a device no scan has reached shows as "unknown: <ip> (unknown)" |
| Devices.Device.ToString | device.go:78-89 | `Describe` of the device's cached fields, whose contract cuts the text into its fields |
| Devices.Device.Active | device.go:92-94 | `IsActive` of the device's cached fields |
| Devices.CommandMessage | device.go:130-216 | a command's message goes to the device's current ip under the command's name, and its data reads back as the command's payload: value 1 for TurnOn, 0 for TurnOff, the brightness unclamped, the colour with kelvin 0, the zero colour with the kelvin, and an empty record for RequestStatus |
| Devices.CommandMessageReadsBack | device.go:133-138 | the message's wire text decodes to the same envelope, whose data decodes to the payload |
| Devices.Device.constructor | controller.go:92-99 | the device the listener creates holds `Unregistered(ip)` and the shared queue |
| Devices.Device.Handle | device.go:47-72 | one handler turn updates the fields in place to `Apply` of the old fields |
| Devices.Device.Handler | device.go:36-75 | the handler loop leaves the fields at `ApplyAll` of the responses delivered, in order |
| Devices.Device.Enqueue | device.go:137-142 | the queue gains exactly the command's message when ready and is unchanged otherwise; the error is the command's send failure |
| Devices.Device.TurnOn | device.go:130-143 | enqueues `turn` with value 1 to the device's ip, or returns "failed to send TurnOn command: channel blocked or closed" and leaves the queue unchanged |
| Devices.Device.TurnOff | device.go:146-159 | enqueues `turn` with value 0, or returns the TurnOff failure and leaves the queue unchanged |
| Devices.Device.Toggle | device.go:162-168 | sends TurnOff exactly when the cached state equals 1, TurnOn otherwise |
| Devices.Device.SetBrightness | device.go:171-184 | enqueues `brightness` with the value as given, or returns the SetBrightness failure |
| Devices.Device.SetColor | device.go:187-200 | enqueues `colorwc` with the colour and kelvin 0, or returns the SetColor failure |
| Devices.Device.SetColorKelvin | device.go:203-216 | enqueues `colorKelvin` with the zero colour and the kelvin, or returns the SetColorKelvin failure |
| Devices.Device.RequestStatus | device.go:219-243 | fails without waiting when the send is not taken (canceled or blocked, each with its message); after a send, succeeds only by consuming the signal, else times out or is canceled; the identity, status and `seen` are never modified |
| Controllers.Route | controller.go:113-139 | a datagram reaches the device exactly when it is an envelope whose cmd is `scan` or `devStatus` with a readable payload; it goes as that response, from the source address |
| Controllers.IPs | controller.go:248-249 | the registry's addresses, in order |
| Controllers.IDs | controller.go:258-259 | the registry's device ids, in order |
| Controllers.FirstIndex | controller.go:247-254 | the index found holds the key and no earlier one does; no index means no entry holds it |
| Controllers.Register | controller.go:84-103 | a known address leaves the registry as is; an unknown one appends `Unregistered(src)`, which is then the first match |
| Controllers.FirstIndexAppended | controller.go:101 | a missing key appended at the end is found there |
| Controllers.Step | controller.go:84-139 | one listener step: a known source keeps the registry's length and an unknown one adds exactly one device; `UnknownSourceAppends`, `KnownSourceKeepsLength`, `UnroutedOnlyRegisters` and `ScanRewritesAddress` state what changes |
| Controllers.UnknownSourceAppends | controller.go:84-103 | a datagram from an unknown address appends exactly one device with that address and leaves the earlier ones untouched |
| Controllers.KnownSourceKeepsLength | controller.go:84-103 | a datagram from a known address keeps the length and changes at most the first device with that address |
| Controllers.UnroutedOnlyRegisters | controller.go:84-139 | an undecodable datagram or an unknown cmd only registers its source |
| Controllers.ScanRewritesAddress | controller.go:84-124 | a scan reporting an address other than its source rewrites the device's ip, so the next datagram from the source registers a second device |
| Controllers.ScanFromOwnAddress | controller.go:115-124 | a scan reporting its own source keeps the device found at that address, with the reported identity |
| Controllers.EmptyIDFindsUnscanned | controller.go:257-264 | lookup by the empty id succeeds once a device has just been registered, and finds the first device whose id is empty, at or before the new one |
| Controllers.TargetPort | controller.go:159-164 | the multicast address goes to port 4001, and every other address to 4003 |
| Controllers.Target | controller.go:159-164 | the address, a colon, then the port; `TargetReadsBack` splits it back into the two |
| Controllers.TargetReadsBack | controller.go:159-164 | an IPv4 target splits at its colon into the address and the port |
| Controllers.Dispatch | controller.go:152-164 | a command's datagram goes to its target and decodes to the queued envelope |
| Controllers.Dispatcher | controller.go:152-186 | each queued command yields, in order, a datagram to its target that decodes to its envelope |
| Controllers.ScanMessage | controller.go:199-204 | the scheduler's message goes to the multicast address with `scan` and the `reserve` topic |
| Controllers.ScanMessageTarget | controller.go:199-207 | the scan message goes to port 4001 with the exact scan envelope text |
| Controllers.Controller.constructor | controller.go:24-33 | a new controller has no devices and an empty queue |
| Controllers.Controller.Devices | controller.go:242-244 | the registry's devices, in order, as held; `Registry` gives their cached values |
| Controllers.Controller.DeviceByIP | controller.go:247-254 | returns the first device in registry order whose ip matches, else `ErrNoDeviceFound` |
| Controllers.Controller.DeviceByID | controller.go:257-264 | returns the first device whose device id matches, else `ErrNoDeviceFound` |
| Controllers.Controller.Discover | controller.go:84-103 | the registry becomes `Register` of the old one, and the device returned is the first match for the source |
| Controllers.Controller.Append | controller.go:101 | a new device is appended to the registry, its snapshot becomes the last entry and the earlier entries are unchanged |
| Controllers.Controller.Receive | controller.go:84-139 | one datagram turns the registry into `Step` of the old one; devices are only appended, so the earlier ones keep their order; the command queue is untouched |
| Controllers.Controller.Deliver | controller.go:114-134 | the device at position `i` applies the response and every other registry entry is unchanged |

## Left out

- UDP I/O is not modelled. That covers resolving addresses, the multicast listen on port 4002, the 8192-byte read buffer and read deadlines, `ReadFromUDP`, and `DialUDP`/`Write`/`Close` (controller.go:38-82, 166-185). These are foreign calls; the dispatcher's result is the packet it would write.
- Goroutines, the `WaitGroup`, context cancellation, `Start`/`Shutdown` sequencing and the 60-second ticker are not modelled (controller.go:35-239). The scheduler's loop is left out and only its message is modelled. The handler's exit on cancellation or a closed channel is the end of its inbox.
- The unsynchronised access to `devices` and to the device fields across goroutines is a data race; it is not modelled. `Receive` applies a routed response at once, whereas in Go the handler goroutine applies it after the hand-over.
- General `encoding/json` decoding of incoming datagrams is not modelled. `Inbound` holds the result of decoding: the cmd, plus the payload read as a scan response and as a status response, or a failure.
- `DecodeRequest` and `DecodeWrapper` are readers for the encoder's own output only. They are not general JSON parsers.
- `Json.ReadStringBody` rejects `\u` escapes of UTF-16 surrogates, which the encoder never writes. It does not pair them as Go's decoder does.
- Invalid UTF-8 is not modelled: strings are sequences of characters.
- Api.NewAPIRequest: the `json.Marshal` error path (api.go:9-11) cannot be taken for these fixed records, so the result is always a wrapper. The dispatcher's marshal error (controller.go:153-157) is likewise never taken.
- Re-compacting the raw data when the wrapper is marshalled is a no-op, because the data is already compact.
- The getters (`IP`, `DeviceID`, `SKU`, the four version getters, `State`, `Brightness`, `Color`, `ColorKelvin`; device.go:96-127) are direct field reads. `Device.Snapshot` covers them and they have no members of their own. `Controller.Devices` returns the field as it is.
- `NewVersion` (types.go:25-27) is the `Version` constructor. `NewState` (types.go:75-77) is the identity on `Uint`.
- Logging (`slog`), the handler's "Unknown command type" branch and its `%T` (device.go:70-71) are not modelled. The listener only ever routes the two response types, so `Response` has no third case.
- Wall-clock time is not modelled: callers pass `now`. One reading serves both `seen` and the status signal, where Go calls `time.Now` twice. Go's zero time is `seen == None` and never counts as active.
- Devices.Device.RequestStatus: the 5-second `time.After` and `ctx.Done` of the wait are abstracted as the `wake` parameter. A signal left in the slot by an earlier unsolicited status response lets the wait succeed at once. The model allows `Signalled` in that case but does not force it.
- The blocking send the scheduler uses is left out together with the scheduler loop. Only the non-blocking send (`TrySend`) is modelled.
- Datagrams are not truncated at the 8192-byte buffer.
- Sending on a closed channel is not modelled. `ready == false` stands only for an open channel with no waiting receiver. In Go, once `Start` has closed the command channel on its way out (controller.go:224), a command method's `select` send panics instead of returning the "channel blocked or closed" error.
