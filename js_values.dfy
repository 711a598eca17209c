/**
 * The slice of JavaScript value semantics that index.js relies on:
 * truthiness tests (`!x`, `x ? a : b`), strict equality with 0 and 1,
 * and the byte conversion that `Buffer.from(array)` applies to numbers.
 */
module JsValues {

  /** A JavaScript value. Numbers carry an integer; `Function` and `Object` are references, told apart by an identity. */
  datatype JsValue =
    | Undefined
    | Null
    | Boolean(b: bool)
    | Number(n: int)
    | Text(s: string)
    | Function(id: nat)
    | Object(id: nat)

  /** ToBoolean: undefined, null, false, 0 and the empty string are falsy, everything else is truthy. */
  predicate Truthy(v: JsValue) {
    match v
    case Undefined => false
    case Null => false
    case Boolean(b) => b
    case Number(n) => n != 0
    case Text(s) => s != ""
    case Function(_) => true
    case Object(_) => true
  }

  type Byte = b: int | 0 <= b < 256

  /** ToUint8, the conversion `Buffer.from` applies to each number of an array: reduction modulo 2^8. */
  function ToUint8(n: int): (b: Byte)
    ensures (n - b) % 256 == 0
    ensures 0 <= n < 256 ==> b == n
  {
    n % 256
  }

  /** `Buffer.from(data)` for an array of numbers: one byte per element, each reduced modulo 2^8. */
  function ToBytes(data: seq<int>): (bytes: seq<Byte>)
    ensures |bytes| == |data|
    ensures forall i :: 0 <= i < |data| ==> (data[i] - bytes[i]) % 256 == 0
    ensures (forall i :: 0 <= i < |data| ==> 0 <= data[i] < 256) ==> bytes == data
  {
    seq(|data|, i requires 0 <= i < |data| => ToUint8(data[i]))
  }
}
