/** Bytes, and numbers written most significant byte first. */
module Words {
  type Byte = x: int | 0 <= x < 256

  function Power(width: nat): (p: nat)
    ensures p > 0
  {
    if width == 0 then 1 else 256 * Power(width - 1)
  }

  /** The last width bytes of a number. */
  function BigEndian(n: nat, width: nat): (b: seq<Byte>)
    ensures |b| == width
  {
    if width == 0 then [] else BigEndian(n / 256, width - 1) + [n % 256]
  }

  function Number(b: seq<Byte>): (n: nat)
  {
    if |b| == 0 then 0 else 256 * Number(b[..|b| - 1]) + b[|b| - 1]
  }

  lemma {:induction false} NumberReads(n: nat, width: nat)
    requires n < Power(width)
    ensures Number(BigEndian(n, width)) == n
    decreases width
  {
    if width > 0 {
      NumberReads(n / 256, width - 1);
      assert BigEndian(n, width)[..width - 1] == BigEndian(n / 256, width - 1);
    }
  }

  lemma {:induction false} NumberWrites(b: seq<Byte>)
    ensures Number(b) < Power(|b|) && BigEndian(Number(b), |b|) == b
    decreases |b|
  {
    if |b| > 0 { NumberWrites(b[..|b| - 1]); }
  }
}
