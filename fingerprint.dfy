/**
 * The transaction fingerprint shared by the deduplication service and the CSV
 * parser: SHA-256 of `"<date.isoformat()>:<amount>:<payee or ''>:<memo or ''>"`,
 * cut to its first 32 hexadecimal characters.
 */
module Fingerprint {
  import opened Wrappers
  import opened Text
  import opened Calendar
  import opened Sequences

  /**
   * An amount in thousandths of a currency unit. The source carries amounts
   * as Python floats; this type holds the ones that are decimals with at most
   * three fractional digits. Finer amounts are outside the model.
   */
  type Money = int

  function DropTrailingZeros(s: string): (r: string)
    ensures |r| <= |s| && r == s[..|r|]
    ensures r == [] || r[|r| - 1] != '0'
  {
    if s != [] && s[|s| - 1] == '0' then DropTrailingZeros(s[..|s| - 1]) else s
  }

  /** The digits after the point in `repr` of `f / 1000`, at least one. */
  function FractionDigits(f: nat): (s: string)
    requires f < 1000
    ensures forall i :: 0 <= i < |s| ==> IsDigit(s[i])
  {
    if f == 0 then "0" else DropTrailingZeros(Fixed(f, 3))
  }

  /**
   * `f"{amount}"` for the float `m / 1000` while `|m / 1000| < 1e12`: there
   * Python's shortest round-trip rendering is the exact decimal, with a point
   * and at least one fractional digit (`100.0`, `-12.5`, `0.001`). Larger
   * amounts, whose rendering depends on the nearest double, and the float
   * `-0.0` are outside this rendering.
   */
  function AmountText(m: Money): (s: string)
    ensures '.' in s && ':' !in s
    ensures (s[0] == '-') == (m < 0)
  {
    var a := if m < 0 then -m else m;
    var whole := NatToString(a / 1000);
    assert IsDigit(whole[0]);
    (if m < 0 then "-" else "") + whole + "." + FractionDigits(a % 1000)
  }

  predicate IsHexDigit(c: char) {
    '0' <= c <= '9' || 'a' <= c <= 'f'
  }

  /** The output of `hashlib.sha256(...).hexdigest()`: 64 lower-case hex digits. */
  type Sha256Hex = s: string | |s| == 64 && forall i :: 0 <= i < |s| ==> IsHexDigit(s[i])
    witness seq(64, _ => '0')

  /** SHA-256 of the UTF-8 encoding of a string, in hex; outside the model. */
  const Sha256: string -> Sha256Hex

  const FingerprintLength: nat := 32

  /** The string the fingerprint hashes. */
  function HashInput(date: Timestamp, amount: Money, payee: Option<string>, memo: Option<string>): string {
    HashHead(date, amount) + PayeeMemoText(payee, memo)
  }

  /** `f"{date.isoformat()}:{amount}:"`, the head of the hash input. */
  function HashHead(date: Timestamp, amount: Money): string {
    IsoDateTime(date) + AmountField(amount)
  }

  /** `f":{amount}:"` */
  function AmountField(amount: Money): string {
    ":" + AmountText(amount) + ":"
  }

  /** `f"{payee or ''}:{memo or ''}"`, the tail of the hash input. */
  function PayeeMemoText(payee: Option<string>, memo: Option<string>): string {
    OrEmpty(payee) + ":" + OrEmpty(memo)
  }

  /** For the same date and amount, two hash inputs agree exactly when their payee-memo tails do. */
  lemma SameHeadInputs(date: Timestamp, amount: Money, payee1: Option<string>, memo1: Option<string>,
                       payee2: Option<string>, memo2: Option<string>)
    ensures HashInput(date, amount, payee1, memo1) == HashInput(date, amount, payee2, memo2)
      <==> PayeeMemoText(payee1, memo1) == PayeeMemoText(payee2, memo2)
  {
    var head := HashHead(date, amount);
    var tail1 := PayeeMemoText(payee1, memo1);
    var tail2 := PayeeMemoText(payee2, memo2);
    if head + tail1 == head + tail2 {
      assert (head + tail1)[|head|..] == tail1 && (head + tail2)[|head|..] == tail2;
    }
  }

  /** `DeduplicationService.generate_hash` */
  function GenerateHash(date: Timestamp, amount: Money, payee: Option<string>, memo: Option<string> := None): (h: string)
    ensures |h| == FingerprintLength
    ensures forall i :: 0 <= i < |h| ==> IsHexDigit(h[i])
  {
    Sha256(HashInput(date, amount, payee, memo))[..FingerprintLength]
  }

  /**
   * An absent payee or memo hashes like an empty one, and an omitted memo
   * like an explicit `None`.
   */
  lemma AbsentFieldsHashAsEmpty(date: Timestamp, amount: Money, payee: Option<string>, memo: Option<string>)
    ensures GenerateHash(date, amount, None, memo) == GenerateHash(date, amount, Some(""), memo)
    ensures GenerateHash(date, amount, payee, None) == GenerateHash(date, amount, payee, Some(""))
    ensures GenerateHash(date, amount, payee) == GenerateHash(date, amount, payee, Some(""))
  {
  }

  /** Equal hash inputs always give equal fingerprints: the hash depends on nothing else. */
  lemma EqualInputsEqualHashes(d1: Timestamp, a1: Money, p1: Option<string>, m1: Option<string>,
                               d2: Timestamp, a2: Money, p2: Option<string>, m2: Option<string>)
    requires HashInput(d1, a1, p1, m1) == HashInput(d2, a2, p2, m2)
    ensures GenerateHash(d1, a1, p1, m1) == GenerateHash(d2, a2, p2, m2)
  {
  }

  /** The hash input opens with the ISO calendar date. */
  lemma InputStartsWithDate(date: Timestamp, amount: Money, payee: Option<string>, memo: Option<string>)
    ensures |HashInput(date, amount, payee, memo)| >= 10
    ensures HashInput(date, amount, payee, memo)[..10] == IsoDate(date.date)
  {
    PrefixOfAppend(IsoDateTime(date), AmountField(amount), 10);
    PrefixOfAppend(HashHead(date, amount), PayeeMemoText(payee, memo), 10);
  }

  /** Two fingerprint inputs that agree also agree on the calendar date. */
  lemma HashInputFixesDate(d1: Timestamp, a1: Money, p1: Option<string>, m1: Option<string>,
                           d2: Timestamp, a2: Money, p2: Option<string>, m2: Option<string>)
    requires HashInput(d1, a1, p1, m1) == HashInput(d2, a2, p2, m2)
    ensures d1.date == d2.date
  {
    InputStartsWithDate(d1, a1, p1, m1);
    InputStartsWithDate(d2, a2, p2, m2);
    IsoDateInjective(d1.date, d2.date);
  }

  /**
   * The separator is not escaped: a payee containing ':' and a memo can
   * produce the same input as a different split of the same text.
   */
  lemma SeparatorAmbiguity(date: Timestamp, amount: Money)
    ensures HashInput(date, amount, Some("a:b"), Some("c")) == HashInput(date, amount, Some("a"), Some("b:c"))
    ensures GenerateHash(date, amount, Some("a:b"), Some("c")) == GenerateHash(date, amount, Some("a"), Some("b:c"))
  {
    assert PayeeMemoText(Some("a:b"), Some("c")) == "a:b" + ":" + "c" == ['a', ':', 'b', ':', 'c'];
    assert PayeeMemoText(Some("a"), Some("b:c")) == "a" + ":" + "b:c" == ['a', ':', 'b', ':', 'c'];
  }
}
