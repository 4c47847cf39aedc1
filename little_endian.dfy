/**
 Unsigned little-endian integers over byte lists, as `int.from_bytes(...,
 byteorder="little")` reads them: the first byte is the least significant.
 */
module LittleEndian {

  predicate IsByte(x: int) {
    0 <= x < 256
  }

  predicate IsBytes(s: seq<int>) {
    forall i :: 0 <= i < |s| ==> IsByte(s[i])
  }

  /** 256 to the power `n`: one more than the largest `n`-byte value. */
  function Pow256(n: nat): (r: nat)
    ensures r >= 1
  {
    if n == 0 then 1 else 256 * Pow256(n - 1)
  }

  /** The unsigned value of `s`, least significant byte first. */
  function FromLittleEndian(s: seq<int>): (r: nat)
    requires IsBytes(s)
    ensures r < Pow256(|s|)
  {
    if s == [] then 0 else s[0] + 256 * FromLittleEndian(s[1..])
  }

  /** The `width` bytes of `n`, least significant first. */
  function ToLittleEndian(n: nat, width: nat): (s: seq<int>)
    requires n < Pow256(width)
    ensures |s| == width && IsBytes(s)
  {
    if width == 0 then [] else [n % 256] + ToLittleEndian(n / 256, width - 1)
  }

  /** Encoding a value that fits and reading it back gives the value. */
  lemma {:induction false} FromToLittleEndian(n: nat, width: nat)
    requires n < Pow256(width)
    ensures FromLittleEndian(ToLittleEndian(n, width)) == n
  {
    if width > 0 {
      var s := ToLittleEndian(n, width);
      assert s[1..] == ToLittleEndian(n / 256, width - 1);
      FromToLittleEndian(n / 256, width - 1);
    }
  }

  /** Reading a byte list and encoding it back at the same width gives the list. */
  lemma {:induction false} ToFromLittleEndian(s: seq<int>)
    requires IsBytes(s)
    ensures ToLittleEndian(FromLittleEndian(s), |s|) == s
  {
    if s != [] {
      var n := FromLittleEndian(s);
      var rest := FromLittleEndian(s[1..]);
      assert n % 256 == s[0] && n / 256 == rest;
      ToFromLittleEndian(s[1..]);
    }
  }
}
