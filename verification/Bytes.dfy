/** Bytes and little-endian integers. */
module Bytes {
  // A frame's header is a packed structure which the code reads and writes in place, on machines that store the
  // low byte first. An integer field is therefore the list of its bytes, and `LittleEndian` and
  // `FromLittleEndian` are each other's inverse.

  type byte = x: int | 0 <= x < 256

  /** The `width` low-order bytes of `value`, least significant first (what storing into a field of that width does). */
  function LittleEndian(value: nat, width: nat): (bytes: seq<byte>)
    ensures |bytes| == width
  {
    if width == 0 then [] else [value % 256] + LittleEndian(value / 256, width - 1)
  }

  function FromLittleEndian(bytes: seq<byte>): nat {
    if bytes == [] then 0 else bytes[0] + 256 * FromLittleEndian(bytes[1..])
  }

  /** How many values a field of `width` bytes can hold. */
  function Range(width: nat): nat {
    if width == 0 then 1 else 256 * Range(width - 1)
  }

  lemma RangePositive(width: nat)
    ensures Range(width) > 0
  {
  }

  /** The low byte comes first: at place k stands the digit of 256 to the k. */
  lemma {:induction false} LittleEndianAt(value: nat, width: nat, k: nat)
    requires k < width
    ensures Range(k) > 0 && LittleEndian(value, width)[k] == value / Range(k) % 256
  {
    RangePositive(k);
    if k > 0 {
      RangePositive(k - 1);
      LittleEndianAt(value / 256, width - 1, k - 1);
      DivideTwice(value, Range(k - 1));
    }
  }

  lemma DivideTwice(value: nat, b: nat)
    requires b > 0
    ensures value / 256 / b == value / (256 * b)
  {
    var q, r := value / 256 / b, value / 256 % b;
    assert value / 256 == q * b + r;
    assert q * (256 * b) == 256 * (q * b);
    Divide(value, q, 256 * r + value % 256, 256 * b);
  }

  lemma MultipleBounds(d: int, n: nat)
    ensures d >= 1 ==> d * n >= n
    ensures d <= 0 ==> d * n <= 0
    ensures d <= -1 ==> d * n + n <= 0
  {
  }

  lemma Divide(a: nat, q: nat, r: nat, n: nat)
    requires n > 0 && a == q * n + r && r < n
    ensures a / n == q && a % n == r
  {
    MultipleBounds(a / n - q, n);
    assert (a / n - q) * n == r - a % n;
  }

  lemma {:induction false} ZeroBytes(n: nat)
    ensures LittleEndian(0, n) == seq(n, _ => 0)
  {
    if n > 0 {
      ZeroBytes(n - 1);
    }
  }

  /** A value that fits its field is read back unchanged. */
  lemma {:induction false} LittleEndianRoundTrip(value: nat, width: nat)
    requires value < Range(width)
    ensures FromLittleEndian(LittleEndian(value, width)) == value
  {
    if width > 0 {
      LittleEndianRoundTrip(value / 256, width - 1);
      assert LittleEndian(value, width)[1..] == LittleEndian(value / 256, width - 1);
    }
  }

  lemma {:induction false} LittleEndianInverse(bytes: seq<byte>)
    ensures FromLittleEndian(bytes) < Range(|bytes|)
    ensures LittleEndian(FromLittleEndian(bytes), |bytes|) == bytes
  {
    if bytes != [] {
      LittleEndianInverse(bytes[1..]);
      var value := FromLittleEndian(bytes);
      assert value % 256 == bytes[0] && value / 256 == FromLittleEndian(bytes[1..]);
    }
  }

  /** A two-byte field; a value of up to 16 bits survives. */
  function WordBytes(value: nat): (bytes: seq<byte>)
    ensures |bytes| == 2 && (value < 0x1_0000 ==> Word(bytes[0], bytes[1]) == value)
  {
    [value % 256, value / 256 % 256]
  }

  function Word(low: byte, high: byte): (value: nat)
    ensures value < 0x1_0000
  {
    (low as int) + 256 * (high as int)
  }

  lemma WordInverse(low: byte, high: byte)
    ensures WordBytes(Word(low, high)) == [low, high]
  {
  }

  /** The two-byte fields are little-endian too. */
  lemma WordIsLittleEndian(value: nat)
    ensures WordBytes(value) == LittleEndian(value, 2)
  {
    assert LittleEndian(value / 256, 1) == [value / 256 % 256] + LittleEndian(value / 256 / 256, 0);
  }
}
