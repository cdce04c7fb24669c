/** strconv.FormatInt(_, 10) and strconv.ParseInt over 64 bits.
 *
 *  Controllers print heights and ids, and the command line parses them with base 0, where a leading
 *  '0' selects another base; the command line prints sizes, and controllers parse them with base 10.
 */
module Decimal {
  import opened Wrappers

  const MIN_INT64: int := -0x8000_0000_0000_0000
  const MAX_INT64: int := 0x7fff_ffff_ffff_ffff

  predicate IsInt64(i: int) {
    MIN_INT64 <= i <= MAX_INT64
  }

  function DigitChar(d: nat): char
    requires d < 10
  {
    '0' + d as char
  }

  /** The value of a digit in any base up to 16; letters count in either case. */
  function DigitValue(c: char): Option<nat> {
    if '0' <= c <= '9' then Some(c as nat - '0' as nat)
    else if 'a' <= c <= 'f' then Some(c as nat - 'a' as nat + 10)
    else if 'A' <= c <= 'F' then Some(c as nat - 'A' as nat + 10)
    else None
  }

  function FormatNat(n: nat): string {
    if n < 10 then [DigitChar(n)] else FormatNat(n / 10) + [DigitChar(n % 10)]
  }

  function FormatInt(i: int): string {
    if i < 0 then "-" + FormatNat(-i) else FormatNat(i)
  }

  function ParseDigits(s: string, base: nat): Option<nat> {
    if s == [] then Some(0)
    else
      match (ParseDigits(s[..|s| - 1], base), DigitValue(s[|s| - 1]))
      case (Some(high), Some(d)) => if d < base then Some(high * base + d) else None
      case _ => None
  }

  function Lower(c: char): char {
    if 'A' <= c <= 'Z' then c - 'A' + 'a' else c
  }

  /** Base detection: the base to use, and the digits that remain. */
  function DetectBase(s: string): (nat, string)
    requires s != ""
  {
    if s[0] != '0' then (10, s)
    else if |s| >= 3 && Lower(s[1]) == 'b' then (2, s[2..])
    else if |s| >= 3 && Lower(s[1]) == 'o' then (8, s[2..])
    else if |s| >= 3 && Lower(s[1]) == 'x' then (16, s[2..])
    else (8, s[1..])
  }

  /** strconv.ParseInt(s, base, 64) for base 10 or 0 (detect). */
  function ParseInt(s: string, detect: bool): Option<int> {
    var negative := s != "" && s[0] == '-';
    var body := if s != "" && (s[0] == '-' || s[0] == '+') then s[1..] else s;
    if body == "" then None
    else
      var (base, digits) := if detect then DetectBase(body) else (10, body);
      match ParseDigits(digits, base)
      case None => None
      case Some(n) =>
        var magnitude: int := n;
        var i := if negative then -magnitude else magnitude;
        if IsInt64(i) then Some(i) else None
  }

  /** A printed number is digits only, and starts with '0' only when it is "0". */
  lemma {:induction false} FormatNatShape(n: nat)
    ensures FormatNat(n) != ""
    ensures forall k :: 0 <= k < |FormatNat(n)| ==> '0' <= FormatNat(n)[k] <= '9'
    ensures FormatNat(n)[0] == '0' ==> FormatNat(n) == "0"
  {
    if n >= 10 {
      FormatNatShape(n / 10);
    }
  }

  lemma {:induction false} ParseFormattedDigits(n: nat)
    ensures ParseDigits(FormatNat(n), 10) == Some(n)
  {
    if n >= 10 {
      ParseFormattedDigits(n / 10);
      var s := FormatNat(n);
      assert s[..|s| - 1] == FormatNat(n / 10);
    } else {
      assert [DigitChar(n)][..0] == "";
    }
  }

  lemma DetectFormatted(n: nat)
    ensures FormatNat(n) != ""
    ensures var (base, digits) := DetectBase(FormatNat(n)); ParseDigits(digits, base) == Some(n)
  {
    FormatNatShape(n);
    ParseFormattedDigits(n);
    if FormatNat(n)[0] == '0' {
      assert "0"[1..] == "";
      assert n < 10;
    }
  }

  /** Printing then parsing is the identity on every int64, whether or not the parser detects bases. */
  lemma ParseFormatted(i: int, detect: bool)
    requires -0x8000_0000_0000_0000 <= i < 0x8000_0000_0000_0000
    ensures ParseInt(FormatInt(i), detect) == Some(i)
  {
    var n: nat := if i < 0 then -i else i;
    FormatNatShape(n);
    ParseFormattedDigits(n);
    DetectFormatted(n);
    var s, body := FormatInt(i), FormatNat(n);
    assert i < 0 ==> s[0] == '-' && s[1..] == body;
    assert i >= 0 ==> s == body && s[0] != '-' && s[0] != '+';
  }

  /** Without a leading zero the two parsers agree, on any text. */
  lemma DetectionAgrees(s: string)
    requires var body := if s != "" && (s[0] == '-' || s[0] == '+') then s[1..] else s; body == "" || body[0] != '0'
    ensures ParseInt(s, true) == ParseInt(s, false)
  {
  }
}
