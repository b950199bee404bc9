/**
 * The response headers the ingest loop of src/input.rs reads (lines 26-45):
 * `content-type` must be exactly `audio/mpeg`, and `icy-metaint` gives the
 * metadata interval, 0 when it is absent or does not parse.
 */
module Headers {
  import opened Common

  const AUDIO_MPEG: string := "audio/mpeg"
  /** `usize::MAX + 1` on a 64-bit target. */
  const USIZE_LIMIT: nat := 0x1_0000_0000_0000_0000

  /** `HeaderValue::to_str` succeeds only on visible ASCII and tab. */
  predicate IsVisibleAscii(v: string) {
    forall i :: 0 <= i < |v| ==> v[i] == '\t' || ' ' <= v[i] <= '~'
  }

  function ToStr(v: string): Option<string> {
    if IsVisibleAscii(v) then Some(v) else None
  }

  /**
   * src/input.rs:26-40: the response is rejected when the header is missing or when
   * `to_str().unwrap_or_default()` is not `audio/mpeg`.
   */
  predicate ContentTypeAccepted(contentType: Option<string>)
    // only a header that is literally `audio/mpeg` is accepted
    ensures ContentTypeAccepted(contentType) <==> contentType == Some(AUDIO_MPEG)
  {
    match contentType
    case None => false
    case Some(v) => ToStr(v).GetOr("") == AUDIO_MPEG
  }

  predicate IsDigit(c: char) {
    '0' <= c <= '9'
  }

  predicate AllDigits(s: string) {
    forall i :: 0 <= i < |s| ==> IsDigit(s[i])
  }

  /** The value of a decimal numeral, most significant digit first. */
  function DigitsValue(s: string): nat
    requires AllDigits(s)
  {
    if s == [] then 0
    else 10 * DigitsValue(s[..|s| - 1]) + (s[|s| - 1] as int - '0' as int)
  }

  /**
   * `str::parse::<usize>()`: an optional leading `+`, then at least one digit
   * and nothing else, and a value that fits in 64 bits.
   */
  function ParseUsize(s: string): (r: Option<nat>)
    ensures r.Some? ==> r.value < USIZE_LIMIT
    ensures r.Some? ==> s != [] && s != "+"
  {
    var digits := if |s| > 0 && s[0] == '+' then s[1..] else s;
    if digits == [] || !AllDigits(digits) then None
    else if DigitsValue(digits) < USIZE_LIMIT then Some(DigitsValue(digits))
    else None
  }

  /** src/input.rs:41-45: the metadata interval, 0 when the header is absent or not a `usize`. */
  function MetaInterval(icyMetaint: Option<string>): (r: nat)
    ensures r < USIZE_LIMIT
    // a framed response is one whose header is visible ASCII and parses to the interval
    ensures r > 0 ==> icyMetaint.Some? && IsVisibleAscii(icyMetaint.value) && ParseUsize(icyMetaint.value) == Some(r)
  {
    match icyMetaint
    case None => 0
    case Some(v) => ParseUsize(ToStr(v).GetOr("")).GetOr(0)
  }

  /** The shortest decimal numeral for `n`, as a server writes it. */
  function Decimal(n: nat): (s: string)
    ensures s != [] && AllDigits(s)
  {
    if n < 10 then [('0' as int + n) as char]
    else Decimal(n / 10) + [('0' as int + n % 10) as char]
  }

  lemma {:induction false} DigitsValueOfDecimal(n: nat)
    ensures DigitsValue(Decimal(n)) == n
  {
    if n >= 10 {
      var s := Decimal(n);
      assert s[..|s| - 1] == Decimal(n / 10);
      DigitsValueOfDecimal(n / 10);
    }
  }

  /** A numeral that fits in a `usize` is read back as its value, with or without a leading `+`. */
  lemma MetaIntervalOfDecimal(n: nat)
    requires n < USIZE_LIMIT
    ensures MetaInterval(Some(Decimal(n))) == n
    ensures MetaInterval(Some("+" + Decimal(n))) == n
  {
    DigitsValueOfDecimal(n);
    assert ("+" + Decimal(n))[1..] == Decimal(n);
  }

  /** Whatever the header says, a value that does not parse leaves the response unframed. */
  lemma MetaIntervalDefault(v: string)
    requires !IsVisibleAscii(v) || ParseUsize(v).None?
    ensures MetaInterval(None) == 0
    ensures MetaInterval(Some(v)) == 0
  {
  }
}
