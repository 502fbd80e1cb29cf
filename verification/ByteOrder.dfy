/** Unsigned integers as big-endian bytes. */
module ByteOrder {
  import opened Common

  function Power256(n: nat): nat {
    if n == 0 then 1 else 256 * Power256(n - 1)
  }

  function BigEndian(value: nat, n: nat): (bytes: seq<byte>)
    ensures |bytes| == n
  {
    if n == 0 then [] else BigEndian(value / 256, n - 1) + [value % 256]
  }

  function Number(bytes: seq<byte>): nat {
    if bytes == [] then 0 else Number(bytes[..|bytes| - 1]) * 256 + bytes[|bytes| - 1]
  }

  lemma {:induction false} NumberOfBigEndian(value: nat, n: nat)
    requires value < Power256(n)
    ensures Number(BigEndian(value, n)) == value
  {
    if n > 0 {
      assert value / 256 < Power256(n - 1);
      NumberOfBigEndian(value / 256, n - 1);
      var bytes := BigEndian(value, n);
      assert bytes[..n - 1] == BigEndian(value / 256, n - 1);
    }
  }

  lemma {:induction false} NumberIsBounded(bytes: seq<byte>)
    ensures Number(bytes) < Power256(|bytes|)
  {
    if bytes != [] {
      NumberIsBounded(bytes[..|bytes| - 1]);
    }
  }

  lemma Widths()
    ensures Power256(1) == 0x100 && Power256(2) == U16_LIMIT && Power256(4) == U32_LIMIT && Power256(8) == U64_LIMIT
  {
    assert Power256(3) == 0x100_0000;
    assert Power256(4) == U32_LIMIT;
    assert Power256(5) == 0x100_0000_0000;
    assert Power256(6) == 0x1_0000_0000_0000;
    assert Power256(7) == 0x100_0000_0000_0000;
  }

  lemma {:induction false} BigEndianOfNumber(bytes: seq<byte>)
    ensures BigEndian(Number(bytes), |bytes|) == bytes
  {
    if bytes != [] {
      var init := bytes[..|bytes| - 1];
      BigEndianOfNumber(init);
      assert Number(bytes) / 256 == Number(init) && Number(bytes) % 256 == bytes[|bytes| - 1];
      assert init + [bytes[|bytes| - 1]] == bytes;
    }
  }
}
