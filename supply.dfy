/**
 * Scaling of the raw token supply (in the token's smallest unit, 18
 * decimals) to the whole-token figure the page displays.
 */
module Supply {

  /** `BigInt(10) ** BigInt(18)`: smallest units per whole token. */
  const UnitsPerToken: nat := 1_000_000_000_000_000_000

  /**
   * BigInt division, which truncates toward zero (unlike Dafny's Euclidean
   * `/` on negative dividends). The divisor here is never zero.
   */
  function TruncDiv(a: int, b: int): (q: int)
    requires b > 0
    ensures a >= 0 ==> 0 <= q && q * b <= a < (q + 1) * b
    ensures a < 0 ==> q <= 0 && -q * b <= -a < (-q + 1) * b
  {
    var m := if a >= 0 then a else -a;
    DivisionBounds(m, b);
    if a >= 0 then m / b else -(m / b)
  }

  /** Floor division of a non-negative number brackets it between multiples of the divisor. */
  lemma DivisionBounds(m: nat, b: int)
    requires b > 0
    ensures 0 <= m / b && (m / b) * b <= m < (m / b + 1) * b
  {
    var q, r := m / b, m % b;
    assert m == q * b + r && 0 <= r < b;
    assert (q + 1) * b == q * b + b;
  }

  /**
   * `_totalSupply ? _totalSupply / 10n**18n : 0`: the supply in whole
   * tokens, rounded toward zero; a falsy (zero) raw supply gives 0.
   */
  function ScaledSupply(raw: int): (tokens: int)
    ensures raw >= 0 ==> 0 <= tokens && tokens * UnitsPerToken <= raw < (tokens + 1) * UnitsPerToken
    ensures raw < 0 ==> tokens <= 0 && -tokens * UnitsPerToken <= -raw < (-tokens + 1) * UnitsPerToken
  {
    if raw == 0 then 0 else TruncDiv(raw, UnitsPerToken)
  }

  /** What a supply read yields: the raw value, or a thrown error. */
  datatype SupplyRead = Raw(value: int) | ReadFailed

  /** The value stored by `setTotalSupply` after a read: 0 when the read throws. */
  function StoredSupply(read: SupplyRead): (tokens: int)
    ensures read.ReadFailed? ==> tokens == 0
    ensures read.Raw? && read.value >= 0 ==>
      0 <= tokens && tokens * UnitsPerToken <= read.value < (tokens + 1) * UnitsPerToken
  {
    match read
    case Raw(v) => ScaledSupply(v)
    case ReadFailed => 0
  }

  /** The falsy guard agrees with plain truncating division: 0n / 10n**18n is 0n. */
  lemma FalsyGuardAgrees(raw: int)
    ensures ScaledSupply(raw) == TruncDiv(raw, UnitsPerToken)
  {
  }

  /** k whole tokens plus a fraction of one display as exactly k. */
  lemma WholeTokens(k: nat, fraction: nat)
    requires fraction < UnitsPerToken
    ensures ScaledSupply(k * UnitsPerToken + fraction) == k
  {
  }

  /** Truncation toward zero is symmetric in the sign of the raw supply. */
  lemma SignSymmetric(raw: int)
    ensures ScaledSupply(-raw) == -ScaledSupply(raw)
  {
  }

  /** A larger raw supply never displays as a smaller one. */
  lemma Monotonic(a: int, b: int)
    requires a <= b
    ensures ScaledSupply(a) <= ScaledSupply(b)
  {
  }
}
