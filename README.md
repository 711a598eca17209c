# node-FT245RL in Dafny

A model of the JavaScript façade `index.js` of node-FT245RL, which drives an
FTDI FT245R chip in synchronous bit-bang mode through a native driver binding.
The model covers:

- the **port encoder** `convertPortsOnArrayToData`: a 4- or 8-element array of
  0/1 port states becomes the byte written to the eight output lines. A
  4-element array is widened with `flatMap(x => [0, x])`; the array is then
  reversed, joined and parsed as binary. The model follows these steps
  (`PortEncoding.Convert`). It proves them equal to the sum of
  `ports[i] * 2^i` (`PortsValue`). It also proves what each element drives,
  and that the 8-element array can be decoded back from the byte;
- the **in-place side effect** of that encoder: `reverse()` reverses an
  8-element caller array in place and leaves a 4-element one alone
  (`PortEncoding.ConvertPortsOnArrayToData`, a method on an `array`);
- the **device handle** `FtdiDevice` (module `FtdiDevices`): the constructor's
  `{index: n}` normalisation, `open` with its `bitmodes` lookup rewriting the
  caller's settings object, `write`, and the `isClosing` guard on `close`. The
  native device is modelled by the calls it receives (`NativeDevice.calls`).
  `Step` states each operation on a value; the class methods are proved to
  follow it. Lemmas about `Run` show that no sequence of operations ever sends
  the driver two closes without an open between them;
- the **exported helpers** (module `Ftdi`): `switchPorts` with its three checks
  in source order, `switchAllPorts`, `writeToDevice` (always reports success),
  the argument shifting of `find`, the selection made by `findFirst`,
  `openDevice` and `closeDevice`.

JavaScript values are modelled by `JsValues.JsValue`, with the truthiness
rule the source relies on (`!x`, `x ? a : b`). `Buffer.from` reduces each
number modulo 256, and the model does the same. A callback is modelled by the
value it is called with (`Ftdi.Completion`). The driver's own outcome of a
write is a method parameter.

The `bitmodes` table maps `'mcu'` to 0x0B, as the code has it. The mode list in
the comment above the table gives MCU host bus emulation as 0x08. The model
follows the code; `Bitmodes.TableAgainstDocumentation` records that 0x0B is the
one entry outside the documented codes.

The hardware script test.js builds "port k" as the binary digits of `1 << k`,
most significant first. `Ftdi.OneHotSwitchesOneLine` shows that such an array
passes validation and turns on line 7 - k, not line k.

## Model

| member | source | states |
|---|---|---|
| `JsValues.ToUint8` | index.js:92-94 | the byte `Buffer.from` stores for a number is congruent to it modulo 256, and equal to it when it is already in 0..255 |
| `JsValues.ToBytes` | index.js:92-94 | `Buffer.from(array)` keeps the length, reduces each element modulo 256, and leaves an array of bytes unchanged |
| `Bitmodes.Lookup` | index.js:18-27 | `bitmodes[name]` is a number exactly for the eight table names, and `undefined` for any other name |
| `Bitmodes.ResolveBitmode` | index.js:58-60 | after `open` the bit mode is never a string: a known name becomes its table code, an unknown name `undefined`, and a non-string value is kept |
| `Bitmodes.ResolveBitmodeIdempotent` | index.js:58-60 | a second `open` with the same settings object does not change the bit mode again |
| `Bitmodes.TableAgainstDocumentation` | index.js:8-27 | every table code except 'mcu' is one of the documented mode codes; 'mcu' is 0x0B, which is not; 'sync' is 0x04 |
| `PortEncoding.BinaryPrefixLength` | index.js:139 | `parseInt(_, 2)` reads exactly the longest run of binary digits at the front of the string |
| `PortEncoding.ParseBinary` | index.js:139 | `parseInt(s, 2)` is NaN exactly when `s` does not start with a binary digit |
| `PortEncoding.Convert` | index.js:134-141 | the encoder yields a number for every non-empty 0/1 array, and NaN only for the empty array |
| `PortEncoding.JoinIsBinary` | index.js:139 | `parseInt` reads the whole joined string of a 0/1 array |
| `PortEncoding.DigitsOfReversedPorts` | index.js:139 | parsing the joined reversed array gives the sum of element i times 2^i |
| `PortEncoding.ConvertIsPortsValue` | index.js:134-141 | for a non-empty array the encoder's result is the sum of element i times 2^i, taken over the widened array, in exact integer arithmetic (see `PortEncoding.Convert` under Left out for arrays of 54 or more elements) |
| `PortEncoding.PortsValueBound` | index.js:134-141 | an n-element array encodes to a value below 2^n, in exact integer arithmetic (see `PortEncoding.Convert` under Left out for arrays of 54 or more elements) |
| `PortEncoding.PortsValueBits` | index.js:134-141 | bit i of the value is element i, and bits past the end of the array are clear |
| `PortEncoding.InterleaveValue` | index.js:137 | the `flatMap(x => [0, x])` widening puts element i at weight 2^(2i+1) |
| `PortEncoding.EightPorts` | index.js:134-141 | with 8 elements, element i drives bit i, no higher bit is set and the result is below 256 |
| `PortEncoding.FourPorts` | index.js:136-139 | with 4 elements, element i drives bit 2i+1, even bits and bits from 8 on stay clear, and the result is at most 0xAA |
| `PortEncoding.DecodeEightPorts` | index.js:134-141 | the 8-element array is recovered from the byte it encodes to |
| `PortEncoding.EncodeDecodedByte` | index.js:134-141 | every byte in 0..255 is the encoding of the 8-element array decoded from it |
| `PortEncoding.EightPortsInjective` | index.js:134-141 | two different 8-element arrays never encode to the same byte |
| `PortEncoding.ReverseInPlace` | index.js:139 | `reverse()` leaves the array holding its old contents in reverse order |
| `PortEncoding.ConvertPortsOnArrayToData` | index.js:134-141 | returns the encoder's value for the array; a 4-element caller array is unchanged, and any other caller array is reversed in place |
| `FtdiDevices.SettingsOf` | index.js:35-37 | a numeric constructor argument n becomes the settings `{index: n}`; a settings object is kept as given |
| `FtdiDevices.OpenKeepsGuard` | index.js:66-67 | `open` clears `isClosing` and reopens the driver, keeping the close-guard invariant |
| `FtdiDevices.WriteKeepsGuard` | index.js:91-104 | a write leaves `isClosing` and the close-guard invariant as they were |
| `FtdiDevices.CloseKeepsGuard` | index.js:113-119 | a close reaches the driver only when the driver is not already closed since the last open |
| `FtdiDevices.StepKeepsGuard` | index.js:55-128 | every operation keeps `isClosing` true exactly when the driver was closed after its last open, and keeps closes separated by opens |
| `FtdiDevices.RunKeepsGuard` | index.js:55-128 | any sequence of operations keeps the close-guard invariant |
| `FtdiDevices.NoRepeatedNativeClose` | index.js:113-119 | starting from a new handle, the driver never receives two closes without an open between them |
| `FtdiDevices.ClosesAfterCloseAreNoOps` | index.js:115-117 | after a close, any number of further closes changes neither the guard nor the driver's calls |
| `FtdiDevices.OpenRearmsClose` | index.js:66 | after an open, the next close reaches the driver and sets the guard |
| `FtdiDevices.FtdiDevice.constructor` | index.js:34-44 | the handle keeps the normalised settings, makes a fresh native device for them, and starts with no driver calls and the guard clear |
| `FtdiDevices.FtdiDevice.Open` | index.js:55-82 | rewrites the caller's `bitmode` through the table, keeps that object as the connection settings, clears the guard and opens the driver with the resolved mode |
| `FtdiDevices.FtdiDevice.Write` | index.js:91-104 | sends the data to the driver as bytes and hands the driver's error to the callback |
| `FtdiDevices.FtdiDevice.Close` | index.js:113-128 | is a no-op while closing; otherwise it sets the guard and closes the driver once |
| `Ftdi.ValidPortsEncodeToByte` | index.js:241-247 | every array that passes switchPorts' checks encodes to a number in 0..255 |
| `Ftdi.SwitchPortsDecision` | index.js:232-253 | checks in order: missing device, then not an array, then wrong length or a non-0/1 element; writes exactly when all pass, and then writes one byte in 0..255 |
| `Ftdi.SwitchPortsDrivesLines` | index.js:247-251 | the written byte sets line i to element i for 8 ports, and line 2i+1 to element i with the even lines off for 4 ports |
| `Ftdi.SwitchAllPortsDecision` | index.js:255-262 | rejects exactly a missing device, and a present device always leads to a write: `[0xff]` for a truthy `aIsOn`, `[0x00]` for a falsy one |
| `Ftdi.SwitchAllPortsIsSwitchPorts` | index.js:255-262 | switchAllPorts decides exactly as switchPorts does for eight ports all on or all off |
| `Ftdi.OneHotSwitchesOneLine` | test.js:146-150 | the script's one-hot array for port k passes validation and writes 2^(7-k) |
| `Ftdi.WriteToDevice` | index.js:149-153 | writes the data through the handle and calls back with no error, whatever the driver reported |
| `Ftdi.SwitchPorts` | index.js:232-253 | reports the decided error without touching the device, or writes the one encoded byte and reports success; a valid 8-element caller array is left reversed |
| `Ftdi.SwitchAllPorts` | index.js:255-262 | reports a missing device, or writes `[0xff]` or `[0x00]` by the truthiness of `aIsOn` and reports success |
| `Ftdi.Find` | index.js:191-202 | with one to three arguments the callback is the last one given, and with more it is the third; with one argument both ids are null, with two the pid is null; ids that are given are passed to the driver as they are |
| `Ftdi.SelectFirst` | index.js:207-212 | resolves exactly when there is no error and the device list is present and non-empty, and then with its first device; a rejection carries the driver error only when there was one |
| `Ftdi.FindFirst` | index.js:204-215 | queries every vendor and product, and on success returns a new handle on the first device with no driver calls yet |
| `Ftdi.OpenDevice` | index.js:160-178 | opens the handle in synchronous bit-bang mode (0x04), with a fresh settings object holding that mode as the handle's connection settings |
| `Ftdi.CloseDevice` | index.js:221-223 | closes the handle under the same guard as `close`, and keeps its connection settings |

## Left out

- The native binding (`FtdiDriver`, `FtdiDevice` of `FT245RL.node`, index.js:3-6): USB enumeration, transfers and bit-bang timing. This is foreign code. The device is modelled only by the calls it receives, and `findAll` only by the arguments passed to it.
- EventEmitter behaviour: the `'error'` listener that `open` registers to call `close` (index.js:63-65), the `'open'`, `'data'`, `'error'` and `'close'` events, and `removeAllListeners` (index.js:125). So the model does not capture a driver error on write leading to a close.
- Asynchronous completion: the open and close callbacks, and the promise of `findFirst`. A method returns the value its callback or promise would receive.
- `closeDevice` takes a callback but never calls it (index.js:221-223). The model has no callback there, and nothing can wait on `closeDevice`.
- The serial settings that `openDevice` passes to the driver unchanged (baudrate, databits, stopbits, parity, bitmask; index.js:161-167). `ConnectionSettings` holds only `bitmode`.
- The text of the `findFirst` error message, including its `JSON.stringify` of the driver error. `FindError` holds the error itself.
- JavaScript numbers are modelled as integers, so fractions, NaN and Infinity are not modelled. Every such value fails the `=== 0 || === 1` test, as any other non-0/1 number does. -0 needs no separate case: it is strictly equal to 0, joins as "0" and is falsy, exactly as 0 is.
- Sparse arrays (holes, which `some` and `flatMap` skip) and array-likes are not modelled. A ports array is a dense `array<JsValue>`.
- A device argument that is truthy but not an `FtdiDevice` is not modelled. The device argument is an `FtdiDevice?`, and `null` stands for every falsy value.
- Prototype keys such as `'toString'` are not modelled as bitmode names. They would find inherited properties of the `bitmodes` object; the model treats every name outside the table as `undefined`.
- PortEncoding.Convert: the result is an exact integer at every length. `parseInt` returns a double, which is rounded once the value passes 2^53, that is for arrays of 54 or more elements (fifty-four 1s give exactly 2^54). So `PortEncoding.PortsValueBound` and `PortEncoding.ConvertIsPortsValue` describe `parseInt` only up to 53 elements. switchPorts passes only 4 or 8 elements, and those values are below 256 and exact.
- A missing callback. `writeToDevice`, `openDevice`, `switchPorts` and `switchAllPorts` call `aCallback` without checking it (index.js:151, 171, 175, 234, 238, 243, 257), and test.js calls the switch helpers without one. With no callback they throw a TypeError. On a rejection the throw comes at once and nothing is written; on valid input it comes inside the driver's write completion, after the write. The model always has a callback, and `Ftdi.Completion` is the value it receives.
- `open` with a `null` or `undefined` settings argument throws a TypeError when it reads `settings.bitmode` (index.js:58). `FtdiDevices.FtdiDevice.Open` takes a non-null `ConnectionSettings`, so this throw is not modelled.
- `parseInt`'s leading whitespace and sign handling: the joined 0/1 strings never contain either.
- PortEncoding.ConvertPortsOnArrayToData: modelled only for arrays whose elements are all 0 or 1. Its only caller, switchPorts, checks this before calling it, and `parseInt` of other joined arrays is not modelled.
- FtdiDevices.FtdiDevice.constructor: `isClosing` starts `undefined` in the source and `false` in the model. Both are falsy, so `close` behaves the same.
