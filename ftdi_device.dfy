/**
 * `FtdiDevice` of index.js: a handle around one native driver device, with
 * the `isClosing` guard that keeps a second `close` from reaching the driver.
 *
 * The native device is modelled by the calls it receives (`NativeDevice.calls`).
 * `Lifecycle` and `Step` state, as values, what each operation does to the
 * guard and to that call log; the class methods are proved to follow `Step`,
 * and the lemmas about `Step` and `Run` say what any sequence of operations
 * can and cannot send to the driver.
 */
module FtdiDevices {
  import opened Wrappers
  import opened JsValues
  import opened Bitmodes

  /** The settings object naming a physical device (locationId, serial, index, description). */
  datatype DeviceSettings = DeviceSettings(
    locationId: Option<int>,
    serial: Option<string>,
    index: Option<int>,
    description: Option<string>)

  /** The constructor's argument: a plain number or a settings object. */
  datatype SettingsArg = NumberSetting(n: int) | ObjectSetting(settings: DeviceSettings)

  /** A call received by the native driver device. */
  datatype NativeCall =
    | NativeOpen(bitmode: JsValue)
    | NativeWrite(bytes: seq<Byte>)
    | NativeClose

  /** The part of a device handle the lifecycle operations read and change. */
  datatype Lifecycle = Lifecycle(isClosing: bool, calls: seq<NativeCall>)

  datatype DeviceOp = OpenOp(bitmode: JsValue) | WriteOp(data: seq<int>) | CloseOp

  /** A fresh handle: `isClosing` is still undefined (falsy) and the driver has seen nothing. */
  const Initial: Lifecycle := Lifecycle(false, [])

  /** The constructor's settings: a number n stands for `{index: n}`. */
  function SettingsOf(arg: SettingsArg): (s: DeviceSettings)
    ensures arg.NumberSetting? ==> s.index == Some(arg.n) && s.locationId.None? && s.serial.None? && s.description.None?
    ensures arg.ObjectSetting? ==> s == arg.settings
  {
    match arg
    case NumberSetting(n) => DeviceSettings(None, None, Some(n), None)
    case ObjectSetting(settings) => settings
  }

  /** One operation on a handle. */
  function Step(s: Lifecycle, op: DeviceOp): Lifecycle {
    match op
    case OpenOp(bitmode) => Lifecycle(false, s.calls + [NativeOpen(ResolveBitmode(bitmode))])
    case WriteOp(data) => Lifecycle(s.isClosing, s.calls + [NativeWrite(ToBytes(data))])
    case CloseOp => if s.isClosing then s else Lifecycle(true, s.calls + [NativeClose])
  }

  /** A sequence of operations, first to last. */
  function Run(s: Lifecycle, ops: seq<DeviceOp>): Lifecycle
    decreases |ops|
  {
    if ops == [] then s else Run(Step(s, ops[0]), ops[1..])
  }

  function Repeat(op: DeviceOp, n: nat): (ops: seq<DeviceOp>)
    ensures |ops| == n
  {
    if n == 0 then [] else [op] + Repeat(op, n - 1)
  }

  /** The driver was closed and has not been reopened since. */
  ghost predicate ClosedSinceOpen(calls: seq<NativeCall>) {
    exists i :: 0 <= i < |calls| && calls[i].NativeClose? &&
      forall k :: i < k < |calls| ==> !calls[k].NativeOpen?
  }

  /** Between any two native closes there is a native open. */
  ghost predicate ClosesSeparated(calls: seq<NativeCall>) {
    forall i, j :: 0 <= i < j < |calls| && calls[i].NativeClose? && calls[j].NativeClose? ==>
      exists k :: i < k < j && calls[k].NativeOpen?
  }

  /** The close guard: `isClosing` is set exactly when the driver is closed, and no close was ever repeated. */
  ghost predicate GuardInvariant(s: Lifecycle) {
    ClosesSeparated(s.calls) && (s.isClosing <==> ClosedSinceOpen(s.calls))
  }

  lemma OpenKeepsGuard(s: Lifecycle, bitmode: JsValue)
    requires GuardInvariant(s)
    ensures GuardInvariant(Step(s, OpenOp(bitmode)))
  {
    var n := |s.calls|;
    var t := Step(s, OpenOp(bitmode));
    assert t.calls[n].NativeOpen?;
    assert forall k :: 0 <= k < n ==> t.calls[k] == s.calls[k];
  }

  lemma WriteKeepsGuard(s: Lifecycle, data: seq<int>)
    requires GuardInvariant(s)
    ensures GuardInvariant(Step(s, WriteOp(data)))
  {
    var n := |s.calls|;
    var t := Step(s, WriteOp(data));
    assert t.calls[n].NativeWrite?;
    assert forall k :: 0 <= k < n ==> t.calls[k] == s.calls[k];
    if ClosedSinceOpen(t.calls) {
      var i :| 0 <= i < |t.calls| && t.calls[i].NativeClose? &&
        forall k :: i < k < |t.calls| ==> !t.calls[k].NativeOpen?;
      assert i != n;
      assert ClosedSinceOpen(s.calls);
    }
    if ClosedSinceOpen(s.calls) {
      var i :| 0 <= i < n && s.calls[i].NativeClose? &&
        forall k :: i < k < n ==> !s.calls[k].NativeOpen?;
      assert t.calls[i].NativeClose?;
      assert ClosedSinceOpen(t.calls);
    }
  }

  lemma CloseKeepsGuard(s: Lifecycle)
    requires GuardInvariant(s)
    ensures GuardInvariant(Step(s, CloseOp))
  {
    if !s.isClosing {
      var n := |s.calls|;
      var t := Step(s, CloseOp);
      assert t.calls[n].NativeClose?;
      assert forall k :: 0 <= k < n ==> t.calls[k] == s.calls[k];
      assert ClosedSinceOpen(t.calls);
      forall i, j | 0 <= i < j < |t.calls| && t.calls[i].NativeClose? && t.calls[j].NativeClose?
        ensures exists k :: i < k < j && t.calls[k].NativeOpen?
      {
        if j == n {
          assert s.calls[i].NativeClose?;
          var k :| i < k < n && s.calls[k].NativeOpen?;
          assert t.calls[k].NativeOpen?;
        } else {
          assert s.calls[i].NativeClose? && s.calls[j].NativeClose?;
          var k :| i < k < j && s.calls[k].NativeOpen?;
          assert t.calls[k].NativeOpen?;
        }
      }
    }
  }

  /** Every operation keeps the close guard. */
  lemma StepKeepsGuard(s: Lifecycle, op: DeviceOp)
    requires GuardInvariant(s)
    ensures GuardInvariant(Step(s, op))
  {
    match op
    case OpenOp(bitmode) => OpenKeepsGuard(s, bitmode);
    case WriteOp(data) => WriteKeepsGuard(s, data);
    case CloseOp => CloseKeepsGuard(s);
  }

  lemma {:induction false} RunKeepsGuard(s: Lifecycle, ops: seq<DeviceOp>)
    requires GuardInvariant(s)
    ensures GuardInvariant(Run(s, ops))
    decreases |ops|
  {
    if ops != [] {
      StepKeepsGuard(s, ops[0]);
      RunKeepsGuard(Step(s, ops[0]), ops[1..]);
    }
  }

  /** Whatever a program does with a new handle, the driver never receives two closes without an open between them. */
  lemma NoRepeatedNativeClose(ops: seq<DeviceOp>)
    ensures ClosesSeparated(Run(Initial, ops).calls)
  {
    RunKeepsGuard(Initial, ops);
  }

  /** After a close, any number of further closes changes nothing: no call reaches the driver. */
  lemma {:induction false} ClosesAfterCloseAreNoOps(s: Lifecycle, n: nat)
    ensures Run(Step(s, CloseOp), Repeat(CloseOp, n)) == Step(s, CloseOp)
  {
    if n > 0 {
      ClosesAfterCloseAreNoOps(s, n - 1);
    }
  }

  /** An open re-arms the guard: the next close reaches the driver. */
  lemma OpenRearmsClose(s: Lifecycle, bitmode: JsValue)
    ensures Step(Step(s, OpenOp(bitmode)), CloseOp).calls
         == s.calls + [NativeOpen(ResolveBitmode(bitmode)), NativeClose]
    ensures Step(Step(s, OpenOp(bitmode)), CloseOp).isClosing
  {
  }

  /** The native driver device, seen only through the calls it receives. */
  class NativeDevice {
    const settings: DeviceSettings
    var calls: seq<NativeCall>

    constructor (settings: DeviceSettings)
      ensures this.settings == settings && calls == []
    {
      this.settings := settings;
      calls := [];
    }

    method Receive(call: NativeCall)
      modifies this
      ensures calls == old(calls) + [call]
    {
      calls := calls + [call];
    }
  }

  /** The object passed to `open`; `open` rewrites its `bitmode` in place. The serial fields pass through to the driver untouched and are not modelled. */
  class ConnectionSettings {
    var bitmode: JsValue

    constructor (bitmode: JsValue)
      ensures this.bitmode == bitmode
    {
      this.bitmode := bitmode;
    }
  }

  class FtdiDevice {
    const deviceSettings: DeviceSettings
    const native: NativeDevice
    var connectionSettings: ConnectionSettings?
    var isClosing: bool

    function State(): Lifecycle
      reads this, native
    {
      Lifecycle(isClosing, native.calls)
    }

    ghost predicate Valid()
      reads this, native
    {
      GuardInvariant(State())
    }

    /** `new FtdiDevice(settings)`: a number n becomes `{index: n}`, and a native device is made for the settings. */
    constructor (settings: SettingsArg)
      ensures deviceSettings == SettingsOf(settings)
      ensures fresh(native) && native.settings == deviceSettings
      ensures connectionSettings == null
      ensures State() == Initial && Valid()
    {
      var s := SettingsOf(settings);
      deviceSettings := s;
      native := new NativeDevice(s);
      connectionSettings := null;
      isClosing := false;
    }

    /** `open(settings, callback)`: resolve a named bit mode in the caller's object, keep it, re-arm the guard, open the driver. */
    method Open(settings: ConnectionSettings)
      requires Valid()
      modifies this, native, settings
      ensures settings.bitmode == ResolveBitmode(old(settings.bitmode))
      ensures connectionSettings == settings
      ensures State() == Step(old(State()), OpenOp(old(settings.bitmode)))
      ensures Valid()
    {
      ghost var before := State();
      if settings.bitmode.Text? {
        settings.bitmode := Lookup(settings.bitmode.s);
      }
      connectionSettings := settings;
      isClosing := false;
      native.Receive(NativeOpen(connectionSettings.bitmode));
      StepKeepsGuard(before, OpenOp(old(settings.bitmode)));
    }

    /** `write(data, callback)`: the data goes to the driver as a byte buffer; the callback gets the driver's error. */
    method Write(data: seq<int>, nativeError: JsValue) returns (err: JsValue)
      requires Valid()
      modifies native
      ensures State() == Step(old(State()), WriteOp(data))
      ensures err == nativeError
      ensures Valid()
    {
      ghost var before := State();
      native.Receive(NativeWrite(ToBytes(data)));
      err := nativeError;
      StepKeepsGuard(before, WriteOp(data));
    }

    /** `close(callback)`: a no-op while closing; otherwise set the guard and close the driver. */
    method Close()
      requires Valid()
      modifies this, native
      ensures State() == Step(old(State()), CloseOp)
      ensures connectionSettings == old(connectionSettings)
      ensures Valid()
    {
      ghost var before := State();
      if isClosing {
        return;
      }
      isClosing := true;
      native.Receive(NativeClose);
      StepKeepsGuard(before, CloseOp);
    }
  }
}
