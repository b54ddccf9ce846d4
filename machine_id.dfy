/**
 * The raw hardware identifier of DeviceIdentifier: the `machine` field of
 * `utsname`, a fixed-size tuple of C chars (Swift `Int8`), folded element by
 * element into a String.
 *
 * The fold starts from "" and, for each element in order, skips it when it
 * is zero and otherwise appends the character whose code is the element.
 * The conversion `UInt8(value)` traps on a negative element; a trap is
 * modelled as the `Trap` outcome, carrying the position of that element.
 */
module MachineId {

  /** A C `char` as Swift imports it: a signed 8-bit integer. */
  newtype Int8 = x: int | -128 <= x < 128

  /** What the fold yields: the identifier, or a trap at a buffer position. */
  datatype Decoded = Id(id: string) | Trap(at: nat)

  /** No element of `bytes` is negative, so no conversion traps. */
  predicate NoNegative(bytes: seq<Int8>) {
    forall i :: 0 <= i < |bytes| ==> bytes[i] >= 0
  }

  /** The character whose code is the non-negative C char `b`. */
  function CharOf(b: Int8): (c: char)
    requires b >= 0
    ensures c as int == b as int
  {
    (b as int) as char
  }

  /**
   * One step of the fold: the closure given to `reduce`. A trap stops the
   * program, so once trapped the outcome stays the same.
   */
  function Step(acc: Decoded, b: Int8, at: nat): (r: Decoded)
    ensures r.Trap? <==> acc.Trap? || b < 0
    ensures acc.Trap? ==> r == acc
    ensures r.Trap? && acc.Id? ==> r.at == at
    ensures r.Id? ==> acc.id <= r.id && |r.id| == |acc.id| + (if b == 0 then 0 else 1)
  {
    match acc
    case Trap(_) => acc
    case Id(s) =>
      if b == 0 then acc
      else if b < 0 then Trap(at)
      else Id(s + [CharOf(b)])
  }

  /** The fold over the whole buffer, from the left, starting at "". */
  function Decode(machine: seq<Int8>): (r: Decoded)
    ensures r.Id? <==> NoNegative(machine)
    ensures r.Trap? ==> r.at < |machine| && machine[r.at] < 0 && NoNegative(machine[..r.at])
  {
    if |machine| == 0 then Id("")
    else
      var init := machine[..|machine| - 1];
      assert machine[..|machine| - 1] == init;
      Step(Decode(init), machine[|machine| - 1], |machine| - 1)
  }

  // ---------------------------------------------------------------------
  // Reference definitions

  /** The non-zero elements of `bytes`, in order. */
  function NonZero(bytes: seq<Int8>): (r: seq<Int8>)
    ensures |r| <= |bytes|
    ensures forall i :: 0 <= i < |r| ==> r[i] != 0
    ensures forall b :: b in r <==> b in bytes && b != 0
  {
    if |bytes| == 0 then []
    else if bytes[0] == 0 then NonZero(bytes[1..])
    else [bytes[0]] + NonZero(bytes[1..])
  }

  /** Each non-negative element as one character, in order. */
  function Text(bytes: seq<Int8>): (s: string)
    requires NoNegative(bytes)
    ensures |s| == |bytes|
    ensures forall i :: 0 <= i < |s| ==> s[i] as int == bytes[i] as int
  {
    if |bytes| == 0 then "" else [CharOf(bytes[0])] + Text(bytes[1..])
  }

  /** The elements before the first zero: the buffer read as a C string. */
  function CString(bytes: seq<Int8>): (r: seq<Int8>)
    ensures r <= bytes
    ensures forall i :: 0 <= i < |r| ==> r[i] != 0
    ensures |r| < |bytes| ==> bytes[|r|] == 0
  {
    if |bytes| == 0 || bytes[0] == 0 then [] else [bytes[0]] + CString(bytes[1..])
  }

  /** Every zero of `bytes` is followed only by zeros. */
  predicate ZerosTrail(bytes: seq<Int8>) {
    forall i, j :: 0 <= i <= j < |bytes| && bytes[i] == 0 ==> bytes[j] == 0
  }

  // ---------------------------------------------------------------------
  // Properties of the fold

  lemma {:induction false} NonZeroSnoc(bytes: seq<Int8>, b: Int8)
    ensures NonZero(bytes + [b]) == NonZero(bytes) + (if b == 0 then [] else [b])
  {
    if |bytes| > 0 {
      assert (bytes + [b])[1..] == bytes[1..] + [b];
      NonZeroSnoc(bytes[1..], b);
    }
  }

  lemma {:induction false} TextAppend(a: seq<Int8>, b: seq<Int8>)
    requires NoNegative(a) && NoNegative(b)
    ensures NoNegative(a + b) && Text(a + b) == Text(a) + Text(b)
  {
    if |a| > 0 {
      assert (a + b)[1..] == a[1..] + b;
      TextAppend(a[1..], b);
    }
  }

  /**
   * Without a negative element, the fold yields exactly the non-zero
   * elements of the buffer, in order, one character each.
   */
  lemma {:induction false} DecodeNonZero(machine: seq<Int8>)
    requires NoNegative(machine)
    ensures NoNegative(NonZero(machine))
    ensures Decode(machine) == Id(Text(NonZero(machine)))
  {
    if |machine| > 0 {
      var init, last := machine[..|machine| - 1], machine[|machine| - 1];
      assert machine == init + [last];
      DecodeNonZero(init);
      NonZeroSnoc(init, last);
      var tail: seq<Int8> := if last == 0 then [] else [last];
      TextAppend(NonZero(init), tail);
    }
  }

  /**
   * The decoded identifier has one character per non-zero element, so it is
   * no longer than the buffer, and every character is ASCII and not NUL.
   */
  lemma DecodedShape(machine: seq<Int8>)
    requires NoNegative(machine)
    ensures Decode(machine).Id?
    ensures |Decode(machine).id| == |NonZero(machine)| <= |machine|
    ensures forall i :: 0 <= i < |Decode(machine).id| ==> 0 < Decode(machine).id[i] as int < 128
  {
    DecodeNonZero(machine);
  }

  /** The identifier is empty exactly when every element of the buffer is zero. */
  lemma DecodedEmptyIff(machine: seq<Int8>)
    requires NoNegative(machine)
    ensures Decode(machine) == Id("") <==> forall i :: 0 <= i < |machine| ==> machine[i] == 0
  {
    DecodeNonZero(machine);
    if exists i :: 0 <= i < |machine| && machine[i] != 0 {
      var i :| 0 <= i < |machine| && machine[i] != 0;
      assert machine[i] in NonZero(machine);
    }
  }

  lemma {:induction false} CStringOfZerosTrail(bytes: seq<Int8>)
    requires ZerosTrail(bytes)
    ensures NonZero(bytes) == CString(bytes)
  {
    if |bytes| > 0 {
      if bytes[0] == 0 {
        assert forall j :: 0 <= j < |bytes| ==> bytes[j] == 0;
        AllZero(bytes);
      } else {
        assert ZerosTrail(bytes[1..]) by {
          forall i, j | 0 <= i <= j < |bytes[1..]| && bytes[1..][i] == 0 ensures bytes[1..][j] == 0 {
            assert bytes[i + 1] == 0;
          }
        }
        CStringOfZerosTrail(bytes[1..]);
      }
    }
  }

  lemma {:induction false} AllZero(bytes: seq<Int8>)
    requires forall j :: 0 <= j < |bytes| ==> bytes[j] == 0
    ensures NonZero(bytes) == []
  {
    if |bytes| > 0 {
      AllZero(bytes[1..]);
    }
  }

  /**
   * When the zeros of the buffer form only a trailing run (the usual
   * NUL padding), the fold agrees with reading the buffer as a C string.
   */
  lemma DecodePaddedIsCString(machine: seq<Int8>)
    requires NoNegative(machine) && ZerosTrail(machine)
    ensures NoNegative(CString(machine))
    ensures Decode(machine) == Id(Text(CString(machine)))
  {
    DecodeNonZero(machine);
    CStringOfZerosTrail(machine);
  }

  /** An interior NUL does not end the identifier: later elements are still appended. */
  lemma DecodeSkipsInteriorNul()
    ensures Decode([65, 0, 66]) == Id("AB")
    ensures NoNegative([65, 0, 66]) && Text(CString([65, 0, 66])) == "A"
  {
    DecodeNonZero([65, 0, 66]);
    assert NonZero([65, 0, 66]) == [65, 66];
    assert Text([65, 66]) == "AB";
    assert CString([65, 0, 66]) == [65];
  }

  /** A NUL-padded buffer spelling an identifier decodes to that identifier. */
  lemma DecodePaddedExample()
    ensures Decode([105, 51, 56, 54, 0, 0]) == Id("i386")
  {
    var machine: seq<Int8> := [105, 51, 56, 54, 0, 0];
    DecodeNonZero(machine);
    assert NonZero(machine) == [105, 51, 56, 54];
    assert Text([105, 51, 56, 54]) == "i386";
  }

  /** A negative element traps, even after a NUL, and the trap is at the first one. */
  lemma DecodeTrapExample()
    ensures Decode([65, 0, -1, -2]) == Trap(2)
  {
  }
}
