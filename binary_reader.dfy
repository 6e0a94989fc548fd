/**
 * The binary readers' cursor: a position and an end address over the bytes
 * being read. Addresses are 64-bit and pointer arithmetic wraps around;
 * reading n characters hands out the current position and moves it n
 * bytes on, failing on wrap-around or when fewer than n bytes are left.
 */
module BinaryReaders {
  import opened Common

  /** The path a reader reports when it reads from memory. */
  const MEMORY_PATH := "input string"

  /** A pointer plus an offset, on 64-bit addresses. */
  function Offset(p: nat, n: nat): (q: nat)
    requires p < U64_LIMIT && n < U64_LIMIT
    ensures q < U64_LIMIT
    ensures p + n < U64_LIMIT ==> q == p + n
    ensures p + n >= U64_LIMIT ==> q == p + n - U64_LIMIT && q < p
  {
    (p + n) % U64_LIMIT
  }

  /** The position after reading size characters at pos, or the error
      ReadChars throws. */
  function Advance(path: string, pos: nat, end: nat, size: nat): (r: Result<nat>)
    requires pos < U64_LIMIT && end < U64_LIMIT && size < U64_LIMIT
  {
    var next := Offset(pos, size);
    if !(pos <= next) then Err(path + ": overflow: no chars value found.")
    else if !(next <= end) then Err(path + ": end of file: no chars value found.")
    else Ok(next)
  }

  /** Within a cursor, reading succeeds exactly when enough bytes are left,
      and then moves the position by exactly size. */
  lemma AdvanceExactly(path: string, pos: nat, end: nat, size: nat)
    requires pos <= end < U64_LIMIT && size < U64_LIMIT
    ensures Advance(path, pos, end, size).Ok? <==> pos + size <= end
    ensures Advance(path, pos, end, size).Ok? ==> Advance(path, pos, end, size).value == pos + size
    ensures Advance(path, pos, end, size).Err? && pos + size < U64_LIMIT ==>
              Advance(path, pos, end, size) == Err(path + ": end of file: no chars value found.")
  {
  }

  /** Reading a and then b characters is reading a + b characters at once. */
  lemma AdvanceTwice(path: string, pos: nat, end: nat, a: nat, b: nat)
    requires pos <= end < U64_LIMIT && a < U64_LIMIT && b < U64_LIMIT && a + b < U64_LIMIT
    ensures (Advance(path, pos, end, a).Ok? && Advance(path, Advance(path, pos, end, a).value, end, b).Ok?) <==>
            Advance(path, pos, end, a + b).Ok?
    ensures Advance(path, pos, end, a + b).Ok? ==>
              Advance(path, Advance(path, pos, end, a).value, end, b) == Advance(path, pos, end, a + b)
  {
    AdvanceExactly(path, pos, end, a);
    AdvanceExactly(path, pos, end, a + b);
    if Advance(path, pos, end, a).Ok? {
      AdvanceExactly(path, pos + a, end, b);
    }
  }

  /** The reader with an endianness flag. Addresses are naturals below
      2^64, and 0 is the null pointer. */
  class BinaryReader {
    var path: string
    var bigEndian: bool
    var pos: nat
    var end: nat

    /** Addresses are 64-bit. */
    ghost predicate Valid()
      reads this
    {
      pos < U64_LIMIT && end < U64_LIMIT
    }

    /** The cursor has not run past its end. */
    ghost predicate Cursor()
      reads this
    {
      Valid() && pos <= end
    }

    constructor ()
      ensures path == "" && bigEndian && pos == 0 && end == 0
      ensures Cursor() && !ContainsChars()
    {
      path, bigEndian, pos, end := "", true, 0, 0;
    }

    function GetPath(): string
      reads this
    {
      path
    }

    function ContainsChars(): (b: bool)
      reads this
      ensures b <==> pos < end
    {
      pos < end
    }

    /** Points the cursor at size bytes starting at address start; fails
        when the end address wraps around. Reading the data itself
        (ReadData) belongs to the concrete readers. */
    method ReadFromMemory(start: nat, size: nat, bigEndian: bool) returns (r: Result<()>)
      requires start < U64_LIMIT && size < U64_LIMIT
      modifies this
      ensures path == MEMORY_PATH && this.bigEndian == bigEndian && pos == start && end == Offset(start, size)
      ensures Valid()
      ensures r.Ok? <==> start + size < U64_LIMIT
      ensures r.Ok? ==> Cursor() && end == start + size
      ensures r.Err? ==> r.message == MEMORY_PATH + ": overflow."
    {
      path := MEMORY_PATH;
      this.bigEndian := bigEndian;
      pos := start;
      end := Offset(start, size);
      if !(pos <= end) {
        return Err(GetPath() + ": overflow.");
      }
      r := Ok(());
    }

    /** Hands out the current position and moves it size bytes on; on
        failure nothing changes. */
    method ReadChars(size: nat) returns (r: Result<nat>)
      requires Cursor() && size < U64_LIMIT
      modifies this
      ensures Cursor() && path == old(path) && bigEndian == old(bigEndian) && end == old(end)
      ensures r.Ok? <==> old(pos) + size <= end
      ensures r.Ok? ==> r.value == old(pos) && pos == old(pos) + size
      ensures r.Err? ==> pos == old(pos)
    {
      AdvanceExactly(path, pos, end, size);
      var next := Advance(GetPath(), pos, end, size);
      if next.Err? {
        return Err(next.message);
      }
      r := Ok(pos);
      pos := next.value;
    }
  }

  /** The reader that always reads big-endian data. */
  class BigEndianBinaryReader {
    var path: string
    var pos: nat
    var end: nat

    ghost predicate Valid()
      reads this
    {
      pos < U64_LIMIT && end < U64_LIMIT
    }

    ghost predicate Cursor()
      reads this
    {
      Valid() && pos <= end
    }

    constructor ()
      ensures path == "" && pos == 0 && end == 0
      ensures Cursor() && !ContainsChars()
    {
      path, pos, end := "", 0, 0;
    }

    function GetPath(): string
      reads this
    {
      path
    }

    function ContainsChars(): (b: bool)
      reads this
      ensures b <==> pos < end
    {
      pos < end
    }

    method ReadFromMemory(start: nat, size: nat) returns (r: Result<()>)
      requires start < U64_LIMIT && size < U64_LIMIT
      modifies this
      ensures path == MEMORY_PATH && pos == start && end == Offset(start, size)
      ensures Valid()
      ensures r.Ok? <==> start + size < U64_LIMIT
      ensures r.Ok? ==> Cursor() && end == start + size
      ensures r.Err? ==> r.message == MEMORY_PATH + ": overflow."
    {
      path := MEMORY_PATH;
      pos := start;
      end := Offset(start, size);
      if !(pos <= end) {
        return Err(GetPath() + ": overflow.");
      }
      r := Ok(());
    }
  }

  /** Reading everything from memory empties the reader, and reading one
      more character then fails. */
  method ReadAll(reader: BinaryReader, start: nat, size: nat) returns (r: Result<nat>, more: Result<nat>)
    requires start < U64_LIMIT && size < U64_LIMIT && start + size < U64_LIMIT
    modifies reader
    ensures r == Ok(start) && !reader.ContainsChars() && more.Err?
  {
    var setup := reader.ReadFromMemory(start, size, false);
    r := reader.ReadChars(size);
    more := reader.ReadChars(1);
  }
}
