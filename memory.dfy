/** The machine's 256-byte main memory: range-checked reads and writes, with
    writes truncated to the low byte. */
module MemoryUnit {
  import opened Base

  /** Number of addressable cells; the backing array is created with this length. */
  const Capacity: int := 256

  /** The contents of a freshly created or reset memory. */
  function Zeroes(): (z: seq<byte>)
    ensures |z| == Capacity
    ensures forall i :: 0 <= i < |z| ==> z[i] == 0
  {
    seq(Capacity, _ => 0)
  }

  /** An address is accepted exactly when it indexes the backing store. */
  function CheckRange(addr: int, len: int): (o: Outcome)
    ensures o.Pass? <==> 0 <= addr < len
    ensures o.Fail? ==> o.error == AccessViolation(addr)
  {
    if addr < 0 || addr >= len then Fail(AccessViolation(addr)) else Pass
  }

  /** `value & 0xFF`: for every integer this is the Euclidean remainder by 256,
      because JavaScript's 32-bit conversion only drops multiples of 2^32. */
  function Mask8(value: int): byte {
    value % 256
  }

  /** Reading a cell of a memory image. */
  function ReadCell(cells: seq<byte>, addr: int): Result<byte> {
    var _ :- CheckRange(addr, |cells|);
    Ok(cells[addr])
  }

  /** Writing a cell of a memory image: the value is truncated to a byte. */
  function WriteCell(cells: seq<byte>, addr: int, value: int): Result<seq<byte>> {
    var _ :- CheckRange(addr, |cells|);
    Ok(cells[addr := Mask8(value)])
  }

  /** A read of an address just written yields the truncated value; every
      other cell reads as before. */
  lemma ReadAfterWrite(cells: seq<byte>, a: int, b: int, value: int)
    requires 0 <= a < |cells|
    ensures WriteCell(cells, a, value).Ok?
    ensures ReadCell(WriteCell(cells, a, value).value, b)
         == if a == b then Ok(Mask8(value)) else ReadCell(cells, b)
  {
  }

  /** Reads and writes fail exactly outside [0, 256), and a failed write
      reports the offending address. */
  lemma AccessWindow(cells: seq<byte>, addr: int, value: int)
    requires |cells| == Capacity
    ensures ReadCell(cells, addr).Ok? <==> 0 <= addr <= 255
    ensures WriteCell(cells, addr, value).Ok? <==> 0 <= addr <= 255
    ensures WriteCell(cells, addr, value).Err? ==> WriteCell(cells, addr, value).error == AccessViolation(addr)
  {
  }

  /** Truncation keeps bytes as they are and ignores whole multiples of 256,
      so a write of 0x10000 stores 0 and a write of -1 stores 0xFF. */
  lemma MaskKeepsLowByte(value: int, k: int)
    ensures Mask8(value + 256 * k) == Mask8(value)
    ensures 0 <= value < 256 ==> Mask8(value) == value
    ensures Mask8(0x10000) == 0 && Mask8(-1) == 0xFF
  {
    var q := value / 256;
    var r := value % 256;
    assert value + 256 * k == 256 * (q + k) + r;
  }

  class Memory {
    /** The backing store; its length never changes. */
    const data: array<byte>

    ghost predicate Valid() {
      data.Length == Capacity
    }

    function Cells(): (c: seq<byte>)
      reads data
      ensures |c| == data.Length
    {
      data[..]
    }

    /** A new memory holds 256 zero cells. */
    constructor()
      ensures Valid() && fresh(data)
      ensures Cells() == Zeroes()
    {
      data := new byte[Capacity](_ => 0);
    }

    /** Zeroes every cell, one at a time, as `fill(0)` does. */
    method Reset()
      requires Valid()
      modifies data
      ensures Cells() == Zeroes()
    {
      var i := 0;
      while i < data.Length
        invariant 0 <= i <= data.Length
        invariant forall j :: 0 <= j < i ==> data[j] == 0
      {
        data[i] := 0;
        i := i + 1;
      }
      assert Cells() == Zeroes();
    }

    method Read(addr: int) returns (r: Result<byte>)
      requires Valid()
      ensures r == ReadCell(Cells(), addr)
    {
      var ok := CheckRange(addr, data.Length);
      if ok.Fail? {
        return Err(ok.error);
      }
      r := Ok(data[addr]);
    }

    method Write(addr: int, value: int) returns (e: Outcome)
      requires Valid()
      modifies data
      ensures e.Pass? <==> WriteCell(old(Cells()), addr, value).Ok?
      ensures e.Pass? ==> Cells() == WriteCell(old(Cells()), addr, value).value
      ensures e.Fail? ==> e.error == WriteCell(old(Cells()), addr, value).error && Cells() == old(Cells())
    {
      e := CheckRange(addr, data.Length);
      if e.Pass? {
        data[addr] := Mask8(value);
      }
    }
  }
}
