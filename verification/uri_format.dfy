/** The positional formatting `setUri` applies when it is given arguments: a
    restricted `sprintf` that knows the directives `%d` (an integer argument in
    decimal), `%s` (an argument as text) and `%%` (a literal percent sign).
    Arguments are consumed left to right; arguments left over are ignored. */
module UriFormat {
  import opened Wrappers
  import opened Decimal

  /** One of the variadic arguments of `setUri`. */
  datatype Arg = IntArg(i: int) | StrArg(s: string)

  /** How `%s` shows an argument. */
  function ArgText(a: Arg): string {
    match a
    case IntArg(i) => IntToString(i)
    case StrArg(s) => s
  }

  function Prepend(prefix: string, o: Option<string>): (r: Option<string>)
    ensures r.Some? <==> o.Some?
  {
    match o
    case None => None
    case Some(s) => Some(prefix + s)
  }

  /** The formatter, read left to right as `sprintf` reads its template.
      `None` is the failure `sprintf` raises: a `%` at the very end, an unknown
      directive, too few arguments, or a `%d` given a string. */
  function Format(template: string, args: seq<Arg>): Option<string>
    decreases |template|
  {
    if |template| == 0 then Some("")
    else if template[0] != '%' then Prepend([template[0]], Format(template[1..], args))
    else if |template| == 1 then None
    else if template[1] == '%' then Prepend("%", Format(template[2..], args))
    else if template[1] == 'd' then
      if |args| > 0 && args[0].IntArg? then
        Prepend(IntToString(args[0].i), Format(template[2..], args[1..]))
      else None
    else if template[1] == 's' then
      if |args| > 0 then Prepend(ArgText(args[0]), Format(template[2..], args[1..])) else None
    else None
  }

  // ---------------------------------------------------------------------------
  // A declarative reading of templates: a template is a sequence of pieces,
  // each a literal character or a slot waiting for one argument.
  // ---------------------------------------------------------------------------

  datatype Piece = Literal(c: char) | IntSlot | StrSlot

  /** How a piece is written in a template. */
  function Spell(p: Piece): (s: string)
    ensures |s| > 0
  {
    match p
    case Literal(c) => if c == '%' then "%%" else [c]
    case IntSlot => "%d"
    case StrSlot => "%s"
  }

  function Unparse(ps: seq<Piece>): string
    decreases |ps|
  {
    if |ps| == 0 then "" else Spell(ps[0]) + Unparse(ps[1..])
  }

  function Cons(p: Piece, o: Option<seq<Piece>>): Option<seq<Piece>> {
    match o
    case None => None
    case Some(ps) => Some([p] + ps)
  }

  /** Splits a template into pieces; `None` when it holds a malformed directive. */
  function Parse(template: string): Option<seq<Piece>>
    decreases |template|
  {
    if |template| == 0 then Some([])
    else if template[0] != '%' then Cons(Literal(template[0]), Parse(template[1..]))
    else if |template| == 1 then None
    else if template[1] == '%' then Cons(Literal('%'), Parse(template[2..]))
    else if template[1] == 'd' then Cons(IntSlot, Parse(template[2..]))
    else if template[1] == 's' then Cons(StrSlot, Parse(template[2..]))
    else None
  }

  /** The number of arguments a piece sequence consumes. */
  function Slots(ps: seq<Piece>): nat
    decreases |ps|
  {
    if |ps| == 0 then 0 else (if ps[0].Literal? then 0 else 1) + Slots(ps[1..])
  }

  /** The arguments supply every slot, in order, with a value of a fitting kind. */
  predicate Fits(ps: seq<Piece>, args: seq<Arg>)
    decreases |ps|
  {
    if |ps| == 0 then true
    else if ps[0].Literal? then Fits(ps[1..], args)
    else |args| > 0 && (ps[0].IntSlot? ==> args[0].IntArg?) && Fits(ps[1..], args[1..])
  }

  /** The pieces with each slot replaced by its argument. */
  function Render(ps: seq<Piece>, args: seq<Arg>): string
    requires Fits(ps, args)
    decreases |ps|
  {
    if |ps| == 0 then ""
    else if ps[0].Literal? then [ps[0].c] + Render(ps[1..], args)
    else ArgText(args[0]) + Render(ps[1..], args[1..])
  }

  function FillIn(parsed: Option<seq<Piece>>, args: seq<Arg>): Option<string> {
    match parsed
    case None => None
    case Some(ps) => if Fits(ps, args) then Some(Render(ps, args)) else None
  }

  /** The formatter agrees with the declarative reading: it succeeds exactly
      when the template parses and the arguments fit its slots, and then it
      yields the pieces with the slots filled in order. */
  lemma {:induction false} FormatIsParseRender(template: string, args: seq<Arg>)
    ensures Format(template, args) == FillIn(Parse(template), args)
    decreases |template|
  {
    if |template| == 0 {
    } else if template[0] != '%' {
      FormatIsParseRender(template[1..], args);
      FillInCons(Literal(template[0]), Parse(template[1..]), args);
    } else if |template| == 1 {
    } else if template[1] == '%' {
      FormatIsParseRender(template[2..], args);
      FillInCons(Literal('%'), Parse(template[2..]), args);
    } else if template[1] == 'd' {
      FillInCons(IntSlot, Parse(template[2..]), args);
      if |args| > 0 {
        FormatIsParseRender(template[2..], args[1..]);
      }
    } else if template[1] == 's' {
      FillInCons(StrSlot, Parse(template[2..]), args);
      if |args| > 0 {
        FormatIsParseRender(template[2..], args[1..]);
      }
    }
  }

  /** How filling in relates to a leading piece. */
  lemma FillInCons(p: Piece, parsed: Option<seq<Piece>>, args: seq<Arg>)
    ensures p.Literal? ==> FillIn(Cons(p, parsed), args) == Prepend([p.c], FillIn(parsed, args))
    ensures !p.Literal? && |args| == 0 ==> FillIn(Cons(p, parsed), args) == None
    ensures p.IntSlot? && |args| > 0 && args[0].StrArg? ==> FillIn(Cons(p, parsed), args) == None
    ensures !p.Literal? && |args| > 0 && (p.IntSlot? ==> args[0].IntArg?) ==>
              FillIn(Cons(p, parsed), args) == Prepend(ArgText(args[0]), FillIn(parsed, args[1..]))
  {
  }

  /** Every piece sequence is read back from its spelling. */
  lemma {:induction false} ParseUnparse(ps: seq<Piece>)
    ensures Parse(Unparse(ps)) == Some(ps)
    decreases |ps|
  {
    if |ps| > 0 {
      ParseUnparse(ps[1..]);
      var t := Unparse(ps);
      var n := |Spell(ps[0])|;
      assert t[n..] == Unparse(ps[1..]);
      assert [ps[0]] + ps[1..] == ps;
    }
  }

  /** A template that parses is the spelling of its pieces. */
  lemma {:induction false} UnparseParse(template: string)
    requires Parse(template).Some?
    ensures Unparse(Parse(template).value) == template
    decreases |template|
  {
    if |template| == 0 {
    } else if template[0] != '%' {
      UnparseParse(template[1..]);
      var ps := Parse(template).value;
      assert ps[1..] == Parse(template[1..]).value;
      assert template == [template[0]] + template[1..];
    } else {
      UnparseParse(template[2..]);
      var ps := Parse(template).value;
      assert ps[1..] == Parse(template[2..]).value;
      assert template == template[..2] + template[2..];
    }
  }

  /** Placeholders are replaced in order: formatting the spelling of `ps` with
      arguments that fit it yields `ps` with its slots filled. */
  lemma {:induction false} FormatFillsSlots(ps: seq<Piece>, args: seq<Arg>)
    requires Fits(ps, args)
    ensures Format(Unparse(ps), args) == Some(Render(ps, args))
  {
    FormatIsParseRender(Unparse(ps), args);
    ParseUnparse(ps);
  }

  /** With integer arguments only, the arguments fit exactly when there are at
      least as many of them as there are slots. */
  lemma {:induction false} FitsIffEnoughArguments(ps: seq<Piece>, args: seq<Arg>)
    requires forall k :: 0 <= k < |args| ==> args[k].IntArg?
    ensures Fits(ps, args) <==> |args| >= Slots(ps)
    decreases |ps|
  {
    if |ps| > 0 {
      if ps[0].Literal? {
        FitsIffEnoughArguments(ps[1..], args);
      } else if |args| > 0 {
        FitsIffEnoughArguments(ps[1..], args[1..]);
      }
    }
  }

  /** Arguments beyond the slots are ignored. */
  lemma {:induction false} ExtraArgumentsIgnored(ps: seq<Piece>, args: seq<Arg>, extra: seq<Arg>)
    requires Fits(ps, args)
    ensures Fits(ps, args + extra) && Render(ps, args + extra) == Render(ps, args)
    decreases |ps|
  {
    if |ps| > 0 {
      if ps[0].Literal? {
        ExtraArgumentsIgnored(ps[1..], args, extra);
      } else {
        assert (args + extra)[1..] == args[1..] + extra;
        ExtraArgumentsIgnored(ps[1..], args[1..], extra);
      }
    }
  }

  /** A run of plain characters is copied to the output as it stands. */
  lemma {:induction false} PlainPrefixCopied(prefix: string, rest: string, args: seq<Arg>)
    requires forall k :: 0 <= k < |prefix| ==> prefix[k] != '%'
    ensures Format(prefix + rest, args) == Prepend(prefix, Format(rest, args))
    decreases |prefix|
  {
    var tail := Format(rest, args);
    if |prefix| == 0 {
      assert prefix + rest == rest;
      if tail.Some? {
        assert prefix + tail.value == tail.value;
      }
    } else {
      PlainPrefixCopied(prefix[1..], rest, args);
      assert (prefix + rest)[1..] == prefix[1..] + rest;
      if tail.Some? {
        assert [prefix[0]] + (prefix[1..] + tail.value) == prefix + tail.value;
      }
    }
  }

  /** A leading `%d` consumes the first argument and shows it in decimal. */
  lemma IntDirectiveConsumesArgument(rest: string, i: int, args: seq<Arg>)
    ensures Format("%d" + rest, [IntArg(i)] + args) == Prepend(IntToString(i), Format(rest, args))
  {
  }

  /** A leading `%s` consumes the first argument and shows it as text. */
  lemma StrDirectiveConsumesArgument(rest: string, a: Arg, args: seq<Arg>)
    ensures Format("%s" + rest, [a] + args) == Prepend(ArgText(a), Format(rest, args))
  {
  }

  /** A template without a `%` formats to itself whatever the arguments. */
  lemma {:induction false} PlainTemplateUnchanged(template: string, args: seq<Arg>)
    requires forall k :: 0 <= k < |template| ==> template[k] != '%'
    ensures Format(template, args) == Some(template)
    decreases |template|
  {
    if |template| > 0 {
      PlainTemplateUnchanged(template[1..], args);
      assert template == [template[0]] + template[1..];
    }
  }
}
