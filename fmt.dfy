/**
 A model of the part of Go's `fmt.Sprintf` that the configuration loader
 uses: the `%s` verb applied to string operands and the `%%` escape.
 Operands are copied verbatim (no escaping); a `%s` with no operand left
 prints `%!s(MISSING)`, and operands left over at the end of the format are
 reported as `%!(EXTRA string=..., string=...)`, as Go's formatter does.
 */
module Fmt {

  const Missing := "%!s(MISSING)"

  /** Every `%` in the format starts one of the two supported directives. */
  predicate Supported(format: string)
    decreases |format|
  {
    if |format| == 0 then true
    else if format[0] == '%' then
      |format| >= 2 && (format[1] == 's' || format[1] == '%') && Supported(format[2..])
    else Supported(format[1..])
  }

  /** The operands listed inside Go's `%!(EXTRA ...)` report, comma separated. */
  function ExtraList(args: seq<string>): string
    decreases |args|
  {
    if |args| == 0 then ""
    else if |args| == 1 then "string=" + args[0]
    else "string=" + args[0] + ", " + ExtraList(args[1..])
  }

  function Extra(args: seq<string>): (s: string)
    ensures args == [] <==> s == ""
  {
    if args == [] then "" else "%!(EXTRA " + ExtraList(args) + ")"
  }

  /** `fmt.Sprintf(format, args...)` for string operands; a plain format with no operands prints itself. */
  function Sprintf(format: string, args: seq<string>): (out: string)
    requires Supported(format)
    ensures '%' !in format && args == [] ==> out == format
    decreases |format|
  {
    if |format| == 0 then Extra(args)
    else if format[0] != '%' then [format[0]] + Sprintf(format[1..], args)
    else if format[1] == '%' then "%" + Sprintf(format[2..], args)
    else if |args| == 0 then Missing + Sprintf(format[2..], [])
    else args[0] + Sprintf(format[2..], args[1..])
  }

  /** A run of plain characters is accepted as a format prefix. */
  lemma {:induction false} LiteralSupported(lit: string, rest: string)
    requires '%' !in lit
    requires Supported(rest)
    ensures Supported(lit + rest)
  {
    if lit == [] {
      assert lit + rest == rest;
    } else {
      var whole := lit + rest;
      assert whole[0] == lit[0] && whole[0] != '%';
      assert whole[1..] == lit[1..] + rest;
      LiteralSupported(lit[1..], rest);
    }
  }

  /** A run of plain characters is copied to the output unchanged. */
  lemma {:induction false} LiteralPrefix(lit: string, rest: string, args: seq<string>)
    requires '%' !in lit
    requires Supported(rest)
    ensures Supported(lit + rest)
    ensures Sprintf(lit + rest, args) == lit + Sprintf(rest, args)
  {
    LiteralSupported(lit, rest);
    if lit == [] {
      assert lit + rest == rest;
    } else {
      var whole := lit + rest;
      assert whole[0] == lit[0] && whole[0] != '%';
      assert whole[1..] == lit[1..] + rest;
      LiteralSupported(lit[1..], rest);
      assert Sprintf(whole, args) == [lit[0]] + Sprintf(lit[1..] + rest, args);
      LiteralPrefix(lit[1..], rest, args);
      assert [lit[0]] + lit[1..] == lit;
    }
  }

  /** A `%s` consumes the next operand and inserts it verbatim, whatever it holds. */
  lemma {:induction false} VerbPrefix(rest: string, arg: string, args: seq<string>)
    requires Supported(rest)
    ensures Supported("%s" + rest)
    ensures Sprintf("%s" + rest, [arg] + args) == arg + Sprintf(rest, args)
  {
    assert ("%s" + rest)[2..] == rest;
    assert ([arg] + args)[1..] == args;
  }

  /** The format made of plain pieces separated by `%s` verbs. */
  function Template(pieces: seq<string>): string
    requires |pieces| >= 1
    decreases |pieces|
  {
    if |pieces| == 1 then pieces[0] else pieces[0] + ("%s" + Template(pieces[1..]))
  }

  /** The pieces with the operands placed between them. */
  function Interleave(pieces: seq<string>, args: seq<string>): string
    requires |pieces| == |args| + 1
    decreases |args|
  {
    if |args| == 0 then pieces[0] else pieces[0] + (args[0] + Interleave(pieces[1..], args[1..]))
  }

  /**
   With exactly one operand per verb, formatting a template prints its pieces
   interleaved with the operands, each operand verbatim.
   */
  lemma {:induction false} TemplateSprintf(pieces: seq<string>, args: seq<string>)
    requires |pieces| == |args| + 1
    requires forall i :: 0 <= i < |pieces| ==> '%' !in pieces[i]
    ensures Supported(Template(pieces))
    ensures Sprintf(Template(pieces), args) == Interleave(pieces, args)
  {
    if |args| == 0 {
      LiteralSupported(pieces[0], "");
      assert pieces[0] + "" == pieces[0];
    } else {
      var tail := Template(pieces[1..]);
      assert forall i :: 0 <= i < |pieces[1..]| ==> '%' !in pieces[1..][i] by {
        forall i | 0 <= i < |pieces[1..]| ensures '%' !in pieces[1..][i] {
          assert pieces[1..][i] == pieces[i + 1];
        }
      }
      TemplateSprintf(pieces[1..], args[1..]);
      VerbPrefix(tail, args[0], args[1..]);
      assert [args[0]] + args[1..] == args;
      assert '%' !in pieces[0];
      LiteralPrefix(pieces[0], "%s" + tail, args);
    }
  }
}
