/** Fixed-width fields on the wire: little-endian integers, enums and booleans, and
    records of them (GameLogic/include/GameLogic/Serialization.hpp). */
module Fields {
  import opened Basics

  type byte = b: int | 0 <= b < 256

  /** How a field is written, and what a reader accepts. */
  datatype Field =
    | Unsigned(width: nat)
    | Signed(width: nat)
    | Enumerated(last: nat)
    | Boolean

  const U16 := Unsigned(2)
  const U32 := Unsigned(4)
  const U64 := Unsigned(8)
  const I16 := Signed(2)
  const I32 := Signed(4)

  type Record = seq<Field>

  function Pow256(n: nat): (p: nat)
    ensures p >= 1
  {
    if n == 0 then 1 else 256 * Pow256(n - 1)
  }

  // --- little-endian numbers ---

  function Little(v: nat, width: nat): (bytes: seq<byte>)
    ensures |bytes| == width
  {
    if width == 0 then [] else [v % 256] + Little(v / 256, width - 1)
  }

  function Number(bytes: seq<byte>): nat {
    if bytes == [] then 0 else bytes[0] + 256 * Number(bytes[1..])
  }

  lemma {:induction false} NumberOfLittle(v: nat, width: nat)
    requires v < Pow256(width)
    ensures Number(Little(v, width)) == v
  {
    if width > 0 {
      NumberOfLittle(v / 256, width - 1);
      assert Little(v, width)[1..] == Little(v / 256, width - 1);
    }
  }

  lemma {:induction false} LittleOfNumber(bytes: seq<byte>)
    ensures Number(bytes) < Pow256(|bytes|)
    ensures Little(Number(bytes), |bytes|) == bytes
  {
    if bytes != [] {
      LittleOfNumber(bytes[1..]);
      var n := Number(bytes[1..]);
      assert (bytes[0] + 256 * n) % 256 == bytes[0];
      assert (bytes[0] + 256 * n) / 256 == n;
    }
  }

  // --- one field ---

  function Width(f: Field): nat {
    match f
    case Unsigned(width) => width
    case Signed(width) => width
    case Enumerated(_) => 1
    case Boolean => 1
  }

  /** The values a field can carry. */
  ghost predicate Fits(f: Field, v: int) {
    match f
    case Unsigned(width) => 0 <= v < Pow256(width)
    case Signed(width) => 0 <= 2 * v + Pow256(width) < 2 * Pow256(width)
    case Enumerated(last) => 0 <= v <= last && last < 256
    case Boolean => 0 <= v <= 1
  }

  function Raw(f: Field, v: int): nat {
    if v >= 0 then v
    else
      match f
      case Signed(width) => if v + Pow256(width) >= 0 then v + Pow256(width) else 0
      case _ => 0
  }

  function EncodeField(f: Field, v: int): (bytes: seq<byte>)
    ensures |bytes| == Width(f)
  {
    Little(Raw(f, v), Width(f))
  }

  /** What a reader makes of the raw number, if it accepts it. */
  function Accept(f: Field, raw: nat): Option<int> {
    match f
    case Unsigned(_) => Some(raw)
    case Signed(width) => Some(if 2 * raw < Pow256(width) then raw else raw - Pow256(width))
    case Enumerated(last) => if raw > last then None else Some(raw)
    case Boolean => if raw > 1 then None else Some(raw)
  }

  function ParseField(f: Field, bytes: seq<byte>): Option<(int, seq<byte>)> {
    if Width(f) > |bytes| then None
    else
      match Accept(f, Number(bytes[..Width(f)]))
      case None => None
      case Some(v) => Some((v, bytes[Width(f)..]))
  }

  lemma RawFits(f: Field, v: int)
    requires Fits(f, v)
    ensures Raw(f, v) < Pow256(Width(f)) && Accept(f, Raw(f, v)) == Some(v)
  {
    assert Pow256(1) == 256 * Pow256(0) == 256;
  }

  lemma AcceptFits(f: Field, raw: nat)
    requires raw < Pow256(Width(f)) && Accept(f, raw).Some? && (f.Enumerated? ==> f.last < 256)
    ensures Fits(f, Accept(f, raw).value) && Raw(f, Accept(f, raw).value) == raw
  {
  }

  lemma DecodeEncodedField(f: Field, v: int, rest: seq<byte>)
    requires Fits(f, v)
    ensures ParseField(f, EncodeField(f, v) + rest) == Some((v, rest))
  {
    RawFits(f, v);
    NumberOfLittle(Raw(f, v), Width(f));
    var bytes := EncodeField(f, v) + rest;
    assert bytes[..Width(f)] == EncodeField(f, v);
    assert bytes[Width(f)..] == rest;
  }

  lemma EncodeDecodedField(f: Field, bytes: seq<byte>)
    requires ParseField(f, bytes).Some? && (f.Enumerated? ==> f.last < 256)
    ensures var (v, rest) := ParseField(f, bytes).value;
            Fits(f, v) && bytes == EncodeField(f, v) + rest
  {
    var front := bytes[..Width(f)];
    LittleOfNumber(front);
    AcceptFits(f, Number(front));
    assert bytes == front + bytes[Width(f)..];
  }

  // --- records ---

  ghost predicate WellFormed(record: Record) {
    forall k :: 0 <= k < |record| && record[k].Enumerated? ==> record[k].last < 256
  }

  ghost predicate AllFit(record: Record, values: seq<int>) {
    |values| == |record| && forall k :: 0 <= k < |record| ==> Fits(record[k], values[k])
  }

  function Size(record: Record): nat {
    if record == [] then 0 else Width(record[0]) + Size(record[1..])
  }

  function Encode(record: Record, values: seq<int>): (bytes: seq<byte>)
    requires |values| == |record|
    ensures |bytes| == Size(record)
  {
    if record == [] then [] else EncodeField(record[0], values[0]) + Encode(record[1..], values[1..])
  }

  function Parse(record: Record, bytes: seq<byte>): Option<(seq<int>, seq<byte>)> {
    if record == [] then Some(([], bytes))
    else
      match ParseField(record[0], bytes)
      case None => None
      case Some((v, more)) =>
        match Parse(record[1..], more)
        case None => None
        case Some((vs, rest)) => Some(([v] + vs, rest))
  }

  /** Decoding what was encoded gives the values back and leaves what follows. */
  lemma {:induction false} DecodeEncoded(record: Record, values: seq<int>, rest: seq<byte>)
    requires AllFit(record, values)
    ensures Parse(record, Encode(record, values) + rest) == Some((values, rest))
  {
    if record != [] {
      var more := Encode(record[1..], values[1..]) + rest;
      assert Encode(record, values) + rest == EncodeField(record[0], values[0]) + more;
      DecodeEncodedField(record[0], values[0], more);
      DecodeEncoded(record[1..], values[1..], rest);
      hide ParseField, Fits, EncodeField;
      assert [values[0]] + values[1..] == values;
    } else {
      assert Encode(record, values) + rest == rest;
    }
  }

  /** Whatever is accepted is exactly the encoding of what it is read as. */
  lemma {:induction false} EncodeDecoded(record: Record, bytes: seq<byte>)
    requires WellFormed(record) && Parse(record, bytes).Some?
    ensures var (values, rest) := Parse(record, bytes).value;
            AllFit(record, values) && bytes == Encode(record, values) + rest
  {
    if record != [] {
      EncodeDecodedField(record[0], bytes);
      var (v, more) := ParseField(record[0], bytes).value;
      EncodeDecoded(record[1..], more);
      var (vs, rest) := Parse(record[1..], more).value;
      hide ParseField, Fits, EncodeField;
      assert ([v] + vs)[1..] == vs;
      assert EncodeField(record[0], v) + (Encode(record[1..], vs) + rest)
          == EncodeField(record[0], v) + Encode(record[1..], vs) + rest;
    }
  }

  /** Each field of a record sits right after the fields before it, in its own encoding. */
  lemma {:induction false} FieldAt(record: Record, values: seq<int>, k: nat)
    requires |values| == |record| && k < |record|
    ensures Size(record[..k]) + Width(record[k]) <= |Encode(record, values)|
    ensures Encode(record, values)[Size(record[..k])..Size(record[..k]) + Width(record[k])] == EncodeField(record[k], values[k])
  {
    if k > 0 {
      FieldAt(record[1..], values[1..], k - 1);
      assert record[..k][1..] == record[1..][..k - 1];
      var head, tail := EncodeField(record[0], values[0]), Encode(record[1..], values[1..]);
      var at := Size(record[1..][..k - 1]);
      assert (head + tail)[|head| + at..|head| + at + Width(record[k])] == tail[at..at + Width(record[k])];
    }
  }
}
