/**
  The part of `String(format:)` the hook script relies on: each `%@` or `%d`
  conversion prints the next argument, `%%` prints a percent sign, every
  other character is copied.
*/
module HookFormat {
  import opened VersionOrder

  /** A format argument: an object printed by its description, or an integer. */
  datatype Argument = Object(description: string) | Integer(value: int)

  function DigitChar(d: nat): (c: char)
    requires d < 10
    ensures IsDigit(c) && c as int - '0' as int == d
  {
    ('0' as int + d) as char
  }

  /** The decimal digits of `n`, without leading zeros. */
  function NaturalDecimal(n: nat): (s: string)
    ensures |s| > 0
    ensures forall k :: 0 <= k < |s| ==> IsDigit(s[k])
    ensures |s| > 1 ==> s[0] != '0'
  {
    if n < 10 then [DigitChar(n)] else NaturalDecimal(n / 10) + [DigitChar(n % 10)]
  }

  /** How `%d` prints an integer. */
  function Decimal(n: int): string
  {
    if n < 0 then "-" + NaturalDecimal(-n) else NaturalDecimal(n)
  }

  /** Reading the printed digits back gives the number. */
  lemma {:induction false} DecimalRoundTrip(n: nat)
    ensures DigitsValue(NaturalDecimal(n)) == n
  {
    if n >= 10 {
      var s := NaturalDecimal(n);
      var front := NaturalDecimal(n / 10);
      assert s[..|s| - 1] == front;
      DecimalRoundTrip(n / 10);
    }
  }

  function Render(a: Argument): string
  {
    match a
    case Object(description) => description
    case Integer(value) => Decimal(value)
  }

  /** The conversions of `template` filled with `args` in order. */
  function Format(template: string, args: seq<Argument>): string
    decreases |template|
  {
    if template == [] then []
    else if |template| >= 2 && template[0] == '%' && template[1] == '%' then
      "%" + Format(template[2..], args)
    else if |template| >= 2 && template[0] == '%' && (template[1] == '@' || template[1] == 'd') && args != [] then
      Render(args[0]) + Format(template[2..], args[1..])
    else
      [template[0]] + Format(template[1..], args)
  }

  /** Text without a percent sign is copied unchanged. */
  lemma {:induction false} PlainPrefix(plain: string, rest: string, args: seq<Argument>)
    requires '%' !in plain
    ensures Format(plain + rest, args) == plain + Format(rest, args)
  {
    if plain != [] {
      assert plain[0] in plain && (plain + rest)[0] == plain[0];
      assert (plain + rest)[1..] == plain[1..] + rest;
      PlainPrefix(plain[1..], rest, args);
      assert plain == [plain[0]] + plain[1..];
    } else {
      assert plain + rest == rest;
    }
  }

  /** A template without a percent sign is its own result. */
  lemma NoConversionUnchanged(template: string, args: seq<Argument>)
    requires '%' !in template
    ensures Format(template, args) == template
  {
    PlainPrefix(template, [], args);
    assert template + [] == template;
  }

  /** The first conversion prints the first argument, and the rest of the template takes the others. */
  lemma FirstConversion(plain: string, conversion: char, rest: string, arg: Argument, args: seq<Argument>)
    requires '%' !in plain && (conversion == '@' || conversion == 'd')
    ensures Format(plain + ['%', conversion] + rest, [arg] + args) == plain + Render(arg) + Format(rest, args)
  {
    var tail := ['%', conversion] + rest;
    assert plain + ['%', conversion] + rest == plain + tail;
    PlainPrefix(plain, tail, [arg] + args);
    assert tail[0] == '%' && tail[1] == conversion && tail[2..] == rest;
    assert ([arg] + args)[1..] == args;
    assert Format(tail, [arg] + args) == Render(arg) + Format(rest, args);
  }
}
