/**
 * The part of `java.util.Formatter` (behind `String.format`) that the data maker uses, for a
 * default locale with ASCII digits: literal text, and specifiers `%[0][width]conversion` with the conversions
 * `d` (a decimal integer), `s` (a string) and `%` (a literal percent sign).
 *
 * Arguments are consumed left to right, one per `d` or `s`; extra arguments are ignored.
 * A specifier that `java.util.Formatter` rejects — a missing argument, `%d` given a string, the
 * `0` flag without a width, twice, or on `%s` or `%%`, an unknown conversion, a lone `%` at the
 * end — yields `IllegalFormat`. So does every specifier outside this subset.
 */
module Formatter {
  import opened Java
  import opened Decimal

  /** An argument of `String.format`: a boxed `int`, a `String`, or `null`. */
  datatype Arg = IntArg(i: int) | StrArg(s: string) | NullArg

  function ArgOf(s: JString): Arg {
    match s
    case Null => NullArg
    case NonNull(v) => StrArg(v)
  }

  /** `Integer.toString(i)`. */
  function IntText(i: int): string {
    if i < 0 then "-" + Digits(-i) else Digits(i)
  }

  /** What `%s` prints for an argument: `String.valueOf(arg)`. */
  function ArgText(a: Arg): string {
    match a
    case IntArg(i) => IntText(i)
    case StrArg(s) => s
    case NullArg => "null"
  }

  function Spaces(k: nat): (r: string)
    ensures |r| == k && forall i :: 0 <= i < k ==> r[i] == ' '
  {
    seq(k, _ => ' ')
  }

  /** Right-justifies `text` in a field `width` wide; wider text is kept whole. */
  function Justify(text: string, width: nat): (r: string)
    ensures |r| == Max(width, |text|) && r[|r| - |text|..] == text
  {
    if |text| < width then Spaces(width - |text|) + text else text
  }

  /** `%0<width>d` of `i`: the sign, then the magnitude zero-padded so the whole is `width` wide. */
  function ZeroPadded(i: int, width: nat): string {
    if i < 0 then "-" + ZeroPad(-i, if width == 0 then 0 else width - 1) else ZeroPad(i, width)
  }

  /** A specifier `%[0][width]conversion`; a width of 0 stands for none. */
  datatype Spec = Spec(zeroPad: bool, width: nat, conversion: char)

  /** A specifier and the number of characters it takes after its `%`, or a malformed one. */
  datatype Parsed = Parsed(spec: Spec, length: nat) | Malformed

  /** The length of the run of decimal digits that `s` starts with. */
  function LeadingDigits(s: string): (k: nat)
    ensures k <= |s| && AllDigits(s[..k]) && (k < |s| ==> !IsDigit(s[k]))
  {
    if s != [] && IsDigit(s[0]) then
      var k := 1 + LeadingDigits(s[1..]);
      assert s[..k] == [s[0]] + s[1..][..k - 1];
      k
    else 0
  }

  /**
   * Parses the specifier that follows a `%`. The flag `0` must be followed by a width
   * (otherwise MissingFormatWidthException) and may not be repeated
   * (otherwise DuplicateFormatFlagsException).
   */
  function ParseSpec(s: string): (p: Parsed)
    ensures p.Parsed? ==> 1 <= p.length <= |s|
  {
    var zero := s != [] && s[0] == '0';
    var start := if zero then 1 else 0;
    var w := LeadingDigits(s[start..]);
    var end := start + w;
    assert s[start..][..w] == s[start..end];
    if zero && (w == 0 || s[start] == '0') then Malformed
    else if end < |s| && s[end] in "ds%" then Parsed(Spec(zero, Value(s[start..end]), s[end]), end + 1)
    else Malformed
  }

  /** The text one specifier prints, and the index of the next unused argument. */
  function Render(spec: Spec, args: seq<Arg>, next: nat): Result<(string, nat)> {
    if spec.conversion == '%' then
      if spec.zeroPad then Err(IllegalFormat) else Ok((Justify("%", spec.width), next))
    else if next >= |args| then Err(IllegalFormat)
    else if spec.conversion == 'd' then
      match args[next]
      case IntArg(i) =>
        Ok((if spec.zeroPad then ZeroPadded(i, spec.width) else Justify(IntText(i), spec.width), next + 1))
      case NullArg => Ok((Justify("null", spec.width), next + 1))
      case StrArg(_) => Err(IllegalFormat)
    else if spec.zeroPad then Err(IllegalFormat)
    else Ok((Justify(ArgText(args[next]), spec.width), next + 1))
  }

  function Prepend(prefix: string, r: Result<string>): Result<string> {
    match r
    case Ok(s) => Ok(prefix + s)
    case Err(e) => Err(e)
  }

  /** Formats `fmt` with the arguments from index `next` on. */
  function FormatFrom(fmt: string, args: seq<Arg>, next: nat): Result<string>
    decreases |fmt|
  {
    if fmt == [] then Ok([])
    else if fmt[0] != '%' then Prepend([fmt[0]], FormatFrom(fmt[1..], args, next))
    else
      match ParseSpec(fmt[1..])
      case Malformed => Err(IllegalFormat)
      case Parsed(spec, len) =>
        match Render(spec, args, next)
        case Err(e) => Err(e)
        case Ok((text, after)) => Prepend(text, FormatFrom(fmt[1 + len..], args, after))
  }

  /** `String.format(fmt, args...)`. */
  function Format(fmt: string, args: seq<Arg>): Result<string> {
    FormatFrom(fmt, args, 0)
  }

  lemma PrependPrepend(a: string, b: string, r: Result<string>)
    ensures Prepend(a, Prepend(b, r)) == Prepend(a + b, r)
  {
    if r.Ok? {
      assert a + (b + r.value) == (a + b) + r.value;
    }
  }

  /** Text without `%` is copied as it is. */
  lemma {:induction false} FormatLiteral(lit: string, rest: string, args: seq<Arg>, next: nat)
    requires '%' !in lit
    ensures FormatFrom(lit + rest, args, next) == Prepend(lit, FormatFrom(rest, args, next))
    decreases |lit|
  {
    if lit == [] {
      assert lit + rest == rest;
      var r := FormatFrom(rest, args, next);
      if r.Ok? {
        assert lit + r.value == r.value;
      }
    } else {
      var s := lit + rest;
      assert s[0] == lit[0] && s[1..] == lit[1..] + rest;
      FormatLiteral(lit[1..], rest, args, next);
      PrependPrepend([lit[0]], lit[1..], FormatFrom(rest, args, next));
      assert [lit[0]] + lit[1..] == lit;
    }
  }

  /** `%d` prints `Integer.toString` of an int argument. */
  lemma FormatDecimal(rest: string, args: seq<Arg>, next: nat)
    requires next < |args| && args[next].IntArg?
    ensures FormatFrom("%d" + rest, args, next)
         == Prepend(IntText(args[next].i), FormatFrom(rest, args, next + 1))
  {
    var s := "%d" + rest;
    assert s[0] == '%' && s[1..] == "d" + rest && s[2..] == rest;
    var body := s[1..];
    assert body[0] == 'd' && body[0..] == body && body[0..0] == [];
    assert LeadingDigits(body) == 0;
    assert ParseSpec(body) == Parsed(Spec(false, 0, 'd'), 1);
  }

  /** `%s` prints `String.valueOf` of any argument. */
  lemma FormatString(rest: string, args: seq<Arg>, next: nat)
    requires next < |args|
    ensures FormatFrom("%s" + rest, args, next)
         == Prepend(ArgText(args[next]), FormatFrom(rest, args, next + 1))
  {
    var s := "%s" + rest;
    assert s[0] == '%' && s[1..] == "s" + rest && s[2..] == rest;
    var body := s[1..];
    assert body[0] == 's' && body[0..] == body && body[0..0] == [];
    assert LeadingDigits(body) == 0;
    assert ParseSpec(body) == Parsed(Spec(false, 0, 's'), 1);
  }

  lemma {:induction false} LeadingDigitsOf(digits: string, c: char, rest: string)
    requires AllDigits(digits) && !IsDigit(c)
    ensures LeadingDigits(digits + [c] + rest) == |digits|
    decreases |digits|
  {
    var s := digits + [c] + rest;
    if digits == [] {
      assert s[0] == c;
    } else {
      assert s[0] == digits[0] && s[1..] == digits[1..] + [c] + rest;
      LeadingDigitsOf(digits[1..], c, rest);
    }
  }

  /** `%0<width>d`, with the width written in decimal, zero-pads an int argument to `width`. */
  lemma FormatZeroPadded(width: nat, rest: string, args: seq<Arg>, next: nat)
    requires width >= 1
    requires next < |args| && args[next].IntArg?
    ensures FormatFrom("%0" + Digits(width) + "d" + rest, args, next)
         == Prepend(ZeroPadded(args[next].i, width), FormatFrom(rest, args, next + 1))
  {
    var digits := Digits(width);
    var s := "%0" + digits + "d" + rest;
    var body := s[1..];
    var n := |digits|;
    assert s[0] == '%' && body == ['0'] + (digits + ['d'] + rest);
    assert body[1..] == digits + ['d'] + rest;
    LeadingDigitsOf(digits, 'd', rest);
    DigitsLeadingChar(width);
    ValueOfDigits(width);
    assert body[1] == digits[0];
    assert body[1..1 + n] == digits;
    assert body[1 + n] == 'd';
    assert ParseSpec(body) == Parsed(Spec(true, width, 'd'), n + 2);
    assert s[1 + (n + 2)..] == rest;
  }
}
