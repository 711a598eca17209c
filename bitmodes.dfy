/**
 * The `bitmodes` table of index.js, which `open` uses to turn a bit-mode name
 * into the numeric mode handed to the driver.
 */
module Bitmodes {
  import opened JsValues

  /** The table as written. Note 'mcu' is 0x0B, not the 0x08 of the mode list in the source comment. */
  const Table: map<string, int> := map[
    "reset" := 0x00,
    "async" := 0x01,
    "mpsse" := 0x02,
    "sync" := 0x04,
    "mcu" := 0x0B,
    "fast" := 0x10,
    "cbus" := 0x20,
    "single" := 0x40
  ]

  /** The mode codes the comment above the table documents (one per FTDI bit mode). */
  const DocumentedCodes: set<int> := {0x00, 0x01, 0x02, 0x04, 0x08, 0x10, 0x20, 0x40}

  /** `bitmodes[name]`: the code of a known name, `undefined` for any other name. */
  function Lookup(name: string): (v: JsValue)
    ensures v.Number? <==> name in Table
    ensures v.Number? ==> v.n == Table[name]
    ensures !v.Number? ==> v == Undefined
  {
    if name in Table then Number(Table[name]) else Undefined
  }

  /**
   * What `open` leaves in `settings.bitmode`: a string is replaced by its table
   * entry, any other value is kept.
   */
  function ResolveBitmode(bitmode: JsValue): (r: JsValue)
    ensures !r.Text?
    ensures bitmode.Text? && bitmode.s in Table ==> r == Number(Table[bitmode.s])
    ensures bitmode.Text? && bitmode.s !in Table ==> r == Undefined
    ensures !bitmode.Text? ==> r == bitmode
  {
    if bitmode.Text? then Lookup(bitmode.s) else bitmode
  }

  /** Opening twice with the same settings object: the second `open` leaves the bit mode as the first left it. */
  lemma ResolveBitmodeIdempotent(bitmode: JsValue)
    ensures ResolveBitmode(ResolveBitmode(bitmode)) == ResolveBitmode(bitmode)
  {
  }

  /** Every name maps to a documented mode code except 'mcu', whose 0x0B is not one. */
  lemma TableAgainstDocumentation()
    ensures forall name :: name in Table && name != "mcu" ==> Table[name] in DocumentedCodes
    ensures "mcu" in Table && Table["mcu"] == 0x0B && Table["mcu"] !in DocumentedCodes
    ensures ResolveBitmode(Text("sync")) == Number(0x04)
  {
  }
}
