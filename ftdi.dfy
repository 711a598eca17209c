/**
 * The functions index.js exports besides the `FtdiDevice` class: device
 * discovery (`find`, `findFirst`), `openDevice`/`closeDevice`, and the port
 * switching helpers `switchPorts` and `switchAllPorts`, which validate their
 * input and write a single byte through `writeToDevice`.
 *
 * Callbacks are modelled by the value they are called with (`Completion`);
 * the driver's own write outcome is a parameter, since the driver is not part
 * of this model.
 */
module Ftdi {
  import opened Wrappers
  import opened JsValues
  import opened Bitmodes
  import opened PortEncoding
  import opened FtdiDevices

  /** The `aPortsOnArray` argument: an array object, or any other value (missing included). */
  datatype PortsArg = NotAnArray(v: JsValue) | PortsArray(a: array<JsValue>)

  /** The contents of the ports argument at the time of the call. */
  datatype PortsView = NonArray | ArrayOf(elems: seq<JsValue>)

  /** The three errors the switch helpers report, one per message in the source. */
  datatype SwitchError = InvalidDevice | InvalidPortsArray | InvalidPortsContent

  /** What a switch helper decides to do: report an error, or write the given data. */
  datatype Decision = Reject(error: SwitchError) | WriteData(data: seq<int>)

  /** The value the caller's callback receives: `undefined`, or an Error. */
  datatype Completion = Done | Failed(error: SwitchError)

  /** The driver query `find` issues: `FTDIDriver.findAll(vid, pid, callback)`. */
  datatype FindAllCall = FindAllCall(vid: JsValue, pid: JsValue, callback: JsValue)

  /** The rejection of `findFirst`; `cause` is the driver error, when there was one, that the message quotes. */
  datatype FindError = NoDeviceFound(cause: Option<JsValue>)

  function ViewOf(ports: PortsArg): PortsView
    reads if ports.PortsArray? then {ports.a} else {}
  {
    if ports.PortsArray? then ArrayOf(ports.a[..]) else NonArray
  }

  function DeviceFrame(device: FtdiDevice?): set<object> {
    if device == null then {} else {device.native}
  }

  function PortsFrame(ports: PortsArg): set<object> {
    if ports.PortsArray? then {ports.a} else {}
  }

  /** The documented input of switchPorts: 4 or 8 elements, each exactly 0 or 1. */
  predicate ValidPorts(elems: seq<JsValue>) {
    (|elems| == 4 || |elems| == 8) && AllBitValues(elems)
  }

  /** Both accepted lengths encode to a byte. */
  lemma ValidPortsEncodeToByte(bits: seq<Bit>)
    requires |bits| == 4 || |bits| == 8
    ensures Convert(bits).Some? && Convert(bits).value < 256
  {
    if |bits| == 8 {
      EightPorts(bits);
    } else {
      FourPorts(bits);
    }
  }

  /**
   * switchPorts' checks, in their order: a missing device, then a ports
   * argument that is not an array, then a wrong length or an element other
   * than 0 or 1. Only input passing all three is written, as one byte.
   */
  function SwitchPortsDecision(hasDevice: bool, ports: PortsView): (d: Decision)
    ensures d.WriteData? <==> hasDevice && ports.ArrayOf? && ValidPorts(ports.elems)
    ensures d == Reject(InvalidDevice) <==> !hasDevice
    ensures d == Reject(InvalidPortsArray) <==> hasDevice && ports.NonArray?
    ensures d == Reject(InvalidPortsContent) <==> hasDevice && ports.ArrayOf? && !ValidPorts(ports.elems)
    ensures d.WriteData? ==> |d.data| == 1 && 0 <= d.data[0] < 256
  {
    if !hasDevice then Reject(InvalidDevice)
    else if ports.NonArray? then Reject(InvalidPortsArray)
    else if !ValidPorts(ports.elems) then Reject(InvalidPortsContent)
    else
      var bits := PortBits(ports.elems);
      ValidPortsEncodeToByte(bits);
      WriteData([Convert(bits).value])
  }

  /** switchAllPorts: a missing device is rejected; otherwise 0xff when `aIsOn` is truthy, 0x00 when not. */
  function SwitchAllPortsDecision(hasDevice: bool, isOn: JsValue): (d: Decision)
    ensures d == Reject(InvalidDevice) <==> !hasDevice
    ensures d.Reject? <==> !hasDevice
    ensures d.WriteData? ==> d.data == if Truthy(isOn) then [0xff] else [0x00]
  {
    if !hasDevice then Reject(InvalidDevice)
    else WriteData(if Truthy(isOn) then [0xff] else [0x00])
  }

  /** The byte switchPorts writes sets output line i to element i (8 ports) or line 2i+1 to element i (4 ports, even lines off). */
  lemma SwitchPortsDrivesLines(elems: seq<JsValue>)
    requires ValidPorts(elems)
    ensures SwitchPortsDecision(true, ArrayOf(elems)).WriteData?
    ensures var b := SwitchPortsDecision(true, ArrayOf(elems)).data[0];
      (|elems| == 8 ==> forall i :: 0 <= i < 8 ==> Number(BitAt(b, i)) == elems[i]) &&
      (|elems| == 4 ==> forall i :: 0 <= i < 4 ==> Number(BitAt(b, 2 * i + 1)) == elems[i] && BitAt(b, 2 * i) == 0)
  {
    var bits := PortBits(elems);
    if |elems| == 8 {
      EightPorts(bits);
    } else {
      FourPorts(bits);
    }
  }

  /**
   * The 8-port one-hot array the hardware script builds for "port k" (the
   * binary digits of `1 << k`, most significant first) passes validation and
   * turns on line 7 - k alone.
   */
  function OneHot(k: nat): seq<JsValue>
    requires k < 8
  {
    seq(8, j requires 0 <= j < 8 => if j == 7 - k then Number(1) else Number(0))
  }

  lemma OneHotSwitchesOneLine(k: nat)
    requires k < 8
    ensures ValidPorts(OneHot(k))
    ensures SwitchPortsDecision(true, ArrayOf(OneHot(k))) == WriteData([Pow2(7 - k)])
  {
    var elems := OneHot(k);
    var bits := PortBits(elems);
    var m := 7 - k;
    Pow2Monotone(m, 7);
    assert Pow2(8) == 256;
    assert PortsOf(Pow2(m), 8) == bits by {
      forall i | 0 <= i < 8 ensures PortsOf(Pow2(m), 8)[i] == bits[i] {
        BitAtPow2(m, i);
      }
    }
    PortsOfValue(Pow2(m), 8);
    EightPorts(bits);
  }

  /** switchAllPorts writes exactly what switchPorts writes for eight ports all on, or all off. */
  lemma SwitchAllPortsIsSwitchPorts(hasDevice: bool, isOn: JsValue)
    ensures SwitchAllPortsDecision(hasDevice, isOn)
         == SwitchPortsDecision(hasDevice, ArrayOf(seq(8, _ => Number(if Truthy(isOn) then 1 else 0))))
  {
    if hasDevice {
      var x: Bit := if Truthy(isOn) then 1 else 0;
      var elems := seq(8, _ => Number(x));
      assert PortBits(elems) == seq(8, _ => x);
      ConstantPortsValue(x, 8);
      assert Pow2(8) == 256;
      EightPorts(seq(8, _ => x));
    }
  }

  /** `writeToDevice`: write through the handle and report success whatever the driver answered. */
  method WriteToDevice(device: FtdiDevice, data: seq<int>, nativeError: JsValue) returns (c: Completion)
    requires device.Valid()
    modifies device.native
    ensures c == Done
    ensures device.State() == Step(old(device.State()), WriteOp(data))
    ensures device.Valid()
  {
    var err := device.Write(data, nativeError);
    c := Done;
  }

  /**
   * `switchPorts(aFtdiDevice, aPortsOnArray, aCallback)`. A valid 8-element
   * array is left reversed in the caller's hands, since the encoder reverses
   * it in place; every other input leaves it untouched.
   */
  method SwitchPorts(device: FtdiDevice?, ports: PortsArg, nativeError: JsValue) returns (c: Completion)
    requires device != null ==> device.Valid()
    modifies DeviceFrame(device), PortsFrame(ports)
    ensures var d := SwitchPortsDecision(device != null, old(ViewOf(ports)));
      && (d.Reject? ==> c == Failed(d.error))
      && (d.Reject? && device != null ==> device.State() == old(device.State()))
      && (d.WriteData? ==> c == Done && device.State() == Step(old(device.State()), WriteOp(d.data)))
      && (ports.PortsArray? ==>
            ports.a[..] == if d.WriteData? && ports.a.Length == 8 then Reverse(old(ports.a[..])) else old(ports.a[..]))
    ensures device != null ==> device.Valid()
  {
    if device == null {
      return Failed(InvalidDevice);
    }
    if ports.NotAnArray? {
      return Failed(InvalidPortsArray);
    }
    var a := ports.a;
    if !(a.Length == 4 || a.Length == 8) || !AllBitValues(a[..]) {
      return Failed(InvalidPortsContent);
    }
    ghost var elems := a[..];
    ValidPortsEncodeToByte(PortBits(elems));
    var data := ConvertPortsOnArrayToData(a);
    c := WriteToDevice(device, [data.value], nativeError);
  }

  /** `switchAllPorts(aFtdiDevice, aIsOn, aCallback)`. */
  method SwitchAllPorts(device: FtdiDevice?, isOn: JsValue, nativeError: JsValue) returns (c: Completion)
    requires device != null ==> device.Valid()
    modifies DeviceFrame(device)
    ensures var d := SwitchAllPortsDecision(device != null, isOn);
      && (d.Reject? ==> c == Failed(d.error))
      && (d.WriteData? ==> c == Done && device.State() == Step(old(device.State()), WriteOp(d.data)))
    ensures device != null ==> device.Valid()
  {
    if device == null {
      return Failed(InvalidDevice);
    }
    c := WriteToDevice(device, if Truthy(isOn) then [0xff] else [0x00], nativeError);
  }

  /**
   * `find(vid, pid, callback)`: with one argument it is the callback and both
   * ids are null; with two, the second is the callback and `pid` is null.
   */
  function Find(args: seq<JsValue>): (call: FindAllCall)
    ensures 1 <= |args| <= 3 ==> call.callback == args[|args| - 1]
    ensures |args| == 1 ==> call.vid == Null && call.pid == Null
    ensures |args| == 2 ==> call.vid == args[0] && call.pid == Null
    ensures |args| >= 3 ==> call == FindAllCall(args[0], args[1], args[2])
    ensures |args| == 0 ==> call == FindAllCall(Undefined, Undefined, Undefined)
  {
    var vid := if |args| > 0 then args[0] else Undefined;
    var pid := if |args| > 1 then args[1] else Undefined;
    var callback := if |args| > 2 then args[2] else Undefined;
    if |args| == 2 then FindAllCall(vid, Null, pid)
    else if |args| == 1 then FindAllCall(Null, Null, vid)
    else FindAllCall(vid, pid, callback)
  }

  /** The answer `findFirst` gives to the device list: an error, a missing list or an empty list is a rejection; otherwise the first device. */
  function SelectFirst(err: JsValue, devices: Option<seq<DeviceSettings>>): (r: Result<DeviceSettings, FindError>)
    ensures r.Success? <==> !Truthy(err) && devices.Some? && |devices.value| > 0
    ensures r.Success? ==> r.value == devices.value[0]
    ensures r.Failure? ==> r.error.cause == if Truthy(err) then Some(err) else None
  {
    if Truthy(err) || devices.None? || |devices.value| <= 0 then
      Failure(NoDeviceFound(if Truthy(err) then Some(err) else None))
    else
      Success(devices.value[0])
  }

  /** `findFirst()` once the driver has answered: it searches every vendor and product, and resolves with a handle on the first device. */
  method FindFirst(callback: JsValue, err: JsValue, devices: Option<seq<DeviceSettings>>)
    returns (query: FindAllCall, r: Result<FtdiDevice, FindError>)
    ensures query == FindAllCall(Null, Null, callback)
    ensures r.Success? <==> SelectFirst(err, devices).Success?
    ensures r.Failure? ==> r.error == SelectFirst(err, devices).error
    ensures r.Success? ==>
      && fresh(r.value) && fresh(r.value.native)
      && r.value.deviceSettings == SelectFirst(err, devices).value
      && r.value.State() == Initial && r.value.Valid()
  {
    query := Find([callback]);
    var first := SelectFirst(err, devices);
    if first.Failure? {
      return query, Failure(first.error);
    }
    var device := new FtdiDevice(ObjectSetting(first.value));
    r := Success(device);
  }

  /** `openDevice(aFtdiDevice, aCallback)`: open in synchronous bit-bang mode. */
  method OpenDevice(device: FtdiDevice)
    requires device.Valid()
    modifies device, device.native
    ensures device.State() == Step(old(device.State()), OpenOp(Number(0x04)))
    ensures device.native.calls == old(device.native.calls) + [NativeOpen(Number(0x04))]
    ensures fresh(device.connectionSettings) && device.connectionSettings.bitmode == Number(0x04)
    ensures device.Valid()
  {
    var settings := new ConnectionSettings(Number(Table["sync"]));
    device.Open(settings);
  }

  /** `closeDevice(aFtdiDevice, aCallback)`: close the handle; the callback is never called. */
  method CloseDevice(device: FtdiDevice)
    requires device.Valid()
    modifies device, device.native
    ensures device.State() == Step(old(device.State()), CloseOp)
    ensures device.connectionSettings == old(device.connectionSettings)
    ensures device.Valid()
  {
    device.Close();
  }
}
