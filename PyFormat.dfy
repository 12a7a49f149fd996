/**
 * The part of Python's `str.format` that the command templates of
 * ort/data/database.py rely on: literal text, automatically numbered
 * `{}` replacement fields, and the `{{` / `}}` escapes.
 *
 * Each `{}` takes the next positional argument; running out of arguments
 * raises `IndexError`, and arguments left over are ignored. A lone `{` or
 * `}` raises `ValueError`. Fields with a name, an index or a format
 * specification are outside this model and give `UnsupportedField`.
 */
module PyFormat {
  import opened Wrappers

  datatype FormatError =
    | MissingArgument   // Python: IndexError, more fields than arguments
    | StrayBrace        // Python: ValueError, a single '{' or '}'
    | UnsupportedField  // a field such as "{0}" or "{name}", not modelled

  /** Text that `str.format` copies unchanged: it holds no brace. */
  predicate Plain(s: string) {
    '{' !in s && '}' !in s
  }

  /** Puts `pre` in front of a successful result; an error passes through. */
  function Prepend(pre: string, r: Result<string, FormatError>): Result<string, FormatError> {
    match r
    case Success(s) => Success(pre + s)
    case Failure(e) => Failure(e)
  }

  /**
   * `t.format(*args)`, where every argument has already been converted with
   * `str`. A template without braces comes back unchanged.
   */
  function Format(t: string, args: seq<string>): (r: Result<string, FormatError>)
    ensures Plain(t) ==> r == Success(t)
    decreases |t|
  {
    if t == [] then Success([])
    else if t[0] == '{' then
      if |t| == 1 then Failure(StrayBrace)
      else if t[1] == '}' then
        if args == [] then Failure(MissingArgument)
        else Prepend(args[0], Format(t[2..], args[1..]))
      else if t[1] == '{' then Prepend("{", Format(t[2..], args))
      else Failure(UnsupportedField)
    else if t[0] == '}' then
      if |t| >= 2 && t[1] == '}' then Prepend("}", Format(t[2..], args))
      else Failure(StrayBrace)
    else
      assert [t[0]] + t[1..] == t;
      assert Plain(t) ==> Plain(t[1..]) by {
        forall c | c in t[1..] ensures c in t { }
      }
      Prepend([t[0]], Format(t[1..], args))
  }

  /** The template `segs[0] + "{}" + segs[1] + "{}" + ... + segs[n]`: n fields between n + 1 literal segments. */
  function Template(segs: seq<string>): string
    requires |segs| >= 1
  {
    if |segs| == 1 then segs[0] else segs[0] + "{}" + Template(segs[1..])
  }

  /** The literal segments with the arguments placed between them: what formatting `Template(segs)` should give. */
  function Interleave(segs: seq<string>, args: seq<string>): string
    requires |segs| >= 1 && |args| >= |segs| - 1
  {
    if |segs| == 1 then segs[0] else segs[0] + args[0] + Interleave(segs[1..], args[1..])
  }

  /** Every segment is brace-free. */
  predicate AllPlain(segs: seq<string>) {
    forall i :: 0 <= i < |segs| ==> Plain(segs[i])
  }

  /** Prepending twice is prepending the concatenation. */
  lemma PrependAssoc(a: string, b: string, r: Result<string, FormatError>)
    ensures Prepend(a, Prepend(b, r)) == Prepend(a + b, r)
  {
    if r.Success? {
      assert a + (b + r.value) == (a + b) + r.value;
    }
  }

  /** Brace-free text is copied verbatim and consumes no argument. */
  lemma {:induction false} FormatPlain(lit: string, rest: string, args: seq<string>)
    requires Plain(lit)
    ensures Format(lit + rest, args) == Prepend(lit, Format(rest, args))
  {
    if lit == [] {
      assert lit + rest == rest;
      match Format(rest, args)
      case Success(s) => assert lit + s == s;
      case Failure(_) =>
    } else {
      var t := lit + rest;
      assert t[0] == lit[0];
      assert t[1..] == lit[1..] + rest;
      assert lit[0] in lit;
      assert Plain(lit[1..]) by {
        forall c | c in lit[1..] ensures c in lit { }
      }
      FormatPlain(lit[1..], rest, args);
      PrependAssoc([lit[0]], lit[1..], Format(rest, args));
      assert [lit[0]] + lit[1..] == lit;
    }
  }

  /** A template of plain segments formats to the interleaving of its segments with the first arguments. */
  lemma {:induction false} FormatTemplate(segs: seq<string>, args: seq<string>)
    requires |segs| >= 1 && AllPlain(segs) && |args| >= |segs| - 1
    ensures Format(Template(segs), args) == Success(Interleave(segs, args))
  {
    if |segs| == 1 {
      FormatPlain(segs[0], [], args);
      assert segs[0] + [] == segs[0];
    } else {
      var tail := Template(segs[1..]);
      assert Plain(segs[0]);
      assert Template(segs) == segs[0] + ("{}" + tail);
      FormatPlain(segs[0], "{}" + tail, args);
      var t := "{}" + tail;
      assert t[0] == '{' && t[1] == '}' && t[2..] == tail;
      FormatTemplate(segs[1..], args[1..]);
      assert segs[0] + (args[0] + Interleave(segs[1..], args[1..])) == Interleave(segs, args);
    }
  }

  /** Too few arguments for the fields of a plain template: IndexError. */
  lemma {:induction false} FormatTooFewArguments(segs: seq<string>, args: seq<string>)
    requires |segs| >= 1 && AllPlain(segs) && |args| < |segs| - 1
    ensures Format(Template(segs), args) == Failure(MissingArgument)
  {
    var tail := Template(segs[1..]);
    assert Plain(segs[0]);
    assert Template(segs) == segs[0] + ("{}" + tail);
    FormatPlain(segs[0], "{}" + tail, args);
    var t := "{}" + tail;
    assert t[0] == '{' && t[1] == '}' && t[2..] == tail;
    if args != [] {
      FormatTooFewArguments(segs[1..], args[1..]);
    }
  }

  /** Arguments beyond the number of fields do not affect the result. */
  lemma {:induction false} InterleaveIgnoresExtra(segs: seq<string>, args: seq<string>)
    requires |segs| >= 1 && |args| >= |segs| - 1
    ensures Interleave(segs, args) == Interleave(segs, args[..|segs| - 1])
  {
    if |segs| > 1 {
      InterleaveIgnoresExtra(segs[1..], args[1..]);
      assert args[..|segs| - 1][1..] == args[1..][..|segs| - 2];
    }
  }
}
