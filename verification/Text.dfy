/**
 Text helpers used by the codecs and the configuration parsers. A wire byte is a `char` whose code is
 below 256, so one type covers byte strings and ASCII text.
 */
module Text {
  import opened Wrappers

  type Bytes = string

  type u16 = n: nat | n < 0x1_0000
  type u32 = n: nat | n < 0x1_0000_0000
  type u64 = n: nat | n < 0x1_0000_0000_0000_0000

  predicate IsDigit(c: char) {
    '0' <= c <= '9'
  }

  predicate AllDigits(s: string) {
    forall i :: 0 <= i < |s| ==> IsDigit(s[i])
  }

  /** Decimal text of an unsigned integer, as Rust's `Display` prints it. */
  function Decimal(n: nat): (s: string)
    ensures s != "" && AllDigits(s)
    ensures |s| > 1 ==> s[0] != '0'
  {
    if n < 10 then ['0' + n as char] else Decimal(n / 10) + ['0' + (n % 10) as char]
  }

  function DigitsValue(s: string): nat
    requires AllDigits(s)
  {
    if s == "" then 0 else 10 * DigitsValue(s[..|s| - 1]) + (s[|s| - 1] - '0') as nat
  }

  lemma {:induction false} DecimalValue(n: nat)
    ensures DigitsValue(Decimal(n)) == n
  {
    if n >= 10 {
      var s := Decimal(n);
      assert s[..|s| - 1] == Decimal(n / 10);
      DecimalValue(n / 10);
    }
  }

  /** The bytes of a sequence of chunks, in order. */
  function Flatten(chunks: seq<Bytes>): Bytes {
    if chunks == [] then "" else chunks[0] + Flatten(chunks[1..])
  }

  lemma {:induction false} FlattenAppend(a: seq<Bytes>, b: seq<Bytes>)
    ensures Flatten(a + b) == Flatten(a) + Flatten(b)
  {
    if a == [] {
      assert a + b == b;
    } else {
      FlattenAppend(a[1..], b);
      assert (a + b)[1..] == a[1..] + b;
    }
  }

  lemma FlattenSnoc(a: seq<Bytes>, chunk: Bytes)
    ensures Flatten(a + [chunk]) == Flatten(a) + chunk
  {
    FlattenAppend(a, [chunk]);
    assert Flatten([chunk]) == chunk + Flatten([]);
  }
}
