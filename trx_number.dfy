/** The display number `TRX-n` that the transaction pages derive from a transaction's
    UUID (`uuidToTrxNumber`, written out identically in the history, the detail and
    the edit page). The hash is the 32-bit `h * 31 + c` string hash; JavaScript's
    int32 conversions are written out explicitly. */
module TrxNumber {
  import opened Base

  const TWO32: int := 0x1_0000_0000
  const TWO31: int := 0x8000_0000
  /** The hash is folded into 1..MODULUS. */
  const MODULUS: int := 999999

  predicate IsInt32(x: int) {
    -TWO31 <= x < TWO31
  }

  /** `x` and `y` agree modulo 2^32. */
  predicate Congruent(x: int, y: int) {
    (x - y) % TWO32 == 0
  }

  /** ECMAScript ToInt32: wrap modulo 2^32 into the signed 32-bit range. */
  function ToInt32(x: int): (r: int)
    ensures IsInt32(r)
    ensures Congruent(r, x)
  {
    var m := x % TWO32;
    if m >= TWO31 then m - TWO32 else m
  }

  lemma ToInt32OfInt32(x: int)
    requires IsInt32(x)
    ensures ToInt32(x) == x
  {
  }

  /** ToInt32 depends only on the residue modulo 2^32. */
  lemma ToInt32Congruent(x: int, y: int)
    requires Congruent(x, y)
    ensures ToInt32(x) == ToInt32(y)
  {
    var k := (x - y) / TWO32;
    assert x == y + k * TWO32;
    assert x % TWO32 == y % TWO32;
  }

  lemma CongruentMul31(x: int, y: int, c: int)
    requires Congruent(x, y)
    ensures Congruent(x * 31 + c, y * 31 + c)
  {
    var k := (x - y) / TWO32;
    assert x - y == k * TWO32;
    MultipleIsCongruent(k * 31);
    assert (x * 31 + c) - (y * 31 + c) == (k * 31) * TWO32;
  }

  lemma MultipleIsCongruent(m: int)
    ensures (m * TWO32) % TWO32 == 0
  {
  }

  /** One iteration of the loop body:
      `hash = ((hash << 5) - hash) + char; hash = hash & hash;`
      `<<` converts its operand to int32 and wraps the shifted value; the
      subtraction and addition are exact; `& hash` converts the sum to int32. */
  function Step(h: int, c: char): (r: int)
    ensures IsInt32(r)
  {
    var shifted := ToInt32(ToInt32(h) * 32);
    ToInt32((shifted - h) + c as int)
  }

  /** On an int32 hash, one step is `int32(h * 31 + charCode)`. */
  lemma StepIsTimes31(h: int, c: char)
    requires IsInt32(h)
    ensures Step(h, c) == ToInt32(h * 31 + c as int)
  {
    ToInt32OfInt32(h);
    var shifted := ToInt32(h * 32);
    assert Congruent((shifted - h) + c as int, h * 31 + c as int) by {
      var k := (shifted - h * 32) / TWO32;
      assert shifted - h * 32 == k * TWO32;
    }
    ToInt32Congruent((shifted - h) + c as int, h * 31 + c as int);
  }

  /** The hash of the loop after it has consumed all of `s`, from `hash = 0`. */
  function Hash(s: string): (r: int)
    ensures IsInt32(r)
  {
    if s == [] then 0 else Step(Hash(s[..|s| - 1]), s[|s| - 1])
  }

  /** The unbounded polynomial `Σ s[i] * 31^(|s|-1-i)` (Java's String.hashCode
      before wrap-around). */
  function Polynomial(s: string): int {
    if s == [] then 0 else Polynomial(s[..|s| - 1]) * 31 + s[|s| - 1] as int
  }

  /** The page's hash is the 32-bit wrap of the polynomial string hash. */
  lemma {:induction false} HashIsWrappedPolynomial(s: string)
    ensures Hash(s) == ToInt32(Polynomial(s))
  {
    if s != [] {
      var p, c := s[..|s| - 1], s[|s| - 1];
      HashIsWrappedPolynomial(p);
      StepIsTimes31(Hash(p), c);
      CongruentMul31(Hash(p), Polynomial(p), c as int);
      ToInt32Congruent(Hash(p) * 31 + c as int, Polynomial(p) * 31 + c as int);
    }
  }

  function Abs(x: int): (r: nat)
    ensures r == x || r == -x
  {
    if x < 0 then -x else x
  }

  /** `Math.abs(hash) % 999999 + 1`. */
  function Number(uuid: string): (n: int)
    ensures 1 <= n <= MODULUS
  {
    Abs(Hash(uuid)) % MODULUS + 1
  }

  /** The label the pages show for a transaction id. */
  function Label(uuid: string): (r: string)
    ensures |r| >= 5 && r[..4] == "TRX-"
  {
    "TRX-" + Decimal(Number(uuid))
  }

  /** Every label is `TRX-` followed by the canonical decimal of a number in
      1..999999, and that number is read back from the label. */
  lemma LabelShape(uuid: string)
    ensures |Label(uuid)| >= 5 && Label(uuid)[..4] == "TRX-"
    ensures var digits := Label(uuid)[4..];
      && (forall i :: 0 <= i < |digits| ==> IsDigit(digits[i]))
      && digits[0] != '0'
      && 1 <= ParseDecimal(digits) <= MODULUS
      && ParseDecimal(digits) == Number(uuid)
  {
    var digits := Label(uuid)[4..];
    assert digits == Decimal(Number(uuid));
    DecimalRoundTrip(Number(uuid));
  }

  /** `uuidToTrxNumber`: the loop over the characters, then the fold into a number. */
  method UuidToTrxNumber(uuid: string) returns (trx: string)
    ensures trx == Label(uuid)
    ensures exists n :: 1 <= n <= MODULUS && trx == "TRX-" + Decimal(n)
  {
    var hash := 0;
    for i := 0 to |uuid|
      invariant hash == Hash(uuid[..i])
    {
      var code := uuid[i] as int;
      assert uuid[..i + 1][..i] == uuid[..i];
      hash := (ToInt32(ToInt32(hash) * 32) - hash) + code;
      hash := ToInt32(hash);
    }
    assert uuid[..|uuid|] == uuid;
    var number := Abs(hash) % MODULUS + 1;
    trx := "TRX-" + Decimal(number);
  }
}
