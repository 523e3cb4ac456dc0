/**
 * The input gate of the `filepath!` macro: from the token stream it is
 * invoked with, either the trusted expression
 * `unsafe { FilePath::new_unchecked(<literal>) }` or the reason compilation
 * is aborted.
 */
module FilepathMacro {
  import opened Wrappers
  import opened TokenTree
  import Utf8

  /** The error the companion library's path check reports; only its description is kept. */
  datatype FilePathError = FilePathError(description: string)

  /**
   * The companion library's `FilePath::new`, reduced to its verdict. Its
   * rules are not visible here, so every operation takes it as a parameter
   * and every property holds for all of them.
   */
  type PathCheck = string -> Result<(), FilePathError>

  /** The generated expression, by the surface text of the literal it passes to `new_unchecked`. */
  datatype Expansion = NewUnchecked(literal: string)

  /** Why the macro aborts compilation, one case per diagnostic it can raise. */
  datatype MacroError =
    | NoneProvided
    | IdentProvided(name: string)
    | PunctProvided(ch: char)
    | TooShort(text: string)
    | NoOpeningQuote(text: string)
    | NoClosingQuote(text: string)
    | InvalidPath(text: string, reason: FilePathError)
    | MultipleProvided

  /** Fewest bytes of a literal that can hold a non-empty quoted string, as in `"a"`. */
  const MinLiteralLength: nat := 3

  /** The delimiter the literal must start and end with, as a one-character string. */
  const QuoteMark: string := "\""

  /** A non-empty string between double quotes, by characters. */
  predicate WellQuoted(text: string) {
    |text| >= 3 && text[0] == '"' && text[|text| - 1] == '"'
  }

  /** `s` between double quotes. */
  function Quoted(s: string): string {
    QuoteMark + s + QuoteMark
  }

  /** `text` without its first and last character. */
  function Unquoted(text: string): string
    requires |text| >= 2
  {
    text[1..|text| - 1]
  }

  /** Rust's `str::strip_prefix`: what follows `p`, when `s` starts with `p`. */
  function StripPrefix(s: string, p: string): (r: Option<string>)
    ensures forall rest {:trigger p + rest} :: s == p + rest ==> r == Some(rest)
    ensures r.Some? ==> s == p + r.value
  {
    if |p| <= |s| && s[..|p|] == p then Some(s[|p|..]) else None
  }

  /** Rust's `str::strip_suffix`: what precedes `q`, when `s` ends with `q`. */
  function StripSuffix(s: string, q: string): (r: Option<string>)
    ensures forall rest {:trigger rest + q} :: s == rest + q ==> r == Some(rest)
    ensures r.Some? ==> s == r.value + q
  {
    if |q| <= |s| && s[|s| - |q|..] == q then Some(s[..|s| - |q|]) else None
  }

  /**
   * The byte-length gate followed by the two quote checks lets through
   * exactly the well-quoted texts: counting bytes instead of characters only
   * changes which error a short malformed literal draws.
   */
  lemma QuoteChecksAcceptWellQuoted(text: string)
    ensures (Utf8.Length(text) >= MinLiteralLength
             && StripPrefix(text, QuoteMark).Some?
             && StripSuffix(StripPrefix(text, QuoteMark).value, QuoteMark).Some?)
            <==> WellQuoted(text)
  {
  }

  /**
   * The macro on a literal first token (src/lib.rs:27-58): the byte-length
   * check, then the opening and the closing quote, then the path check on the
   * whole quoted text, each with its own diagnostic.
   */
  function ExpandLiteral(text: string, check: PathCheck): (r: Result<Expansion, MacroError>)
    ensures r == Failure(TooShort(text)) <==> Utf8.Length(text) < MinLiteralLength
    ensures r == Failure(NoOpeningQuote(text))
            <==> Utf8.Length(text) >= MinLiteralLength && text[0] != '"'
    ensures r == Failure(NoClosingQuote(text))
            <==> Utf8.Length(text) >= MinLiteralLength && text[0] == '"' && text[|text| - 1] != '"'
    ensures (r.Failure? && r.error.InvalidPath?) <==> WellQuoted(text) && check(text).Failure?
    ensures r.Failure? && r.error.InvalidPath? ==> r.error == InvalidPath(text, check(text).error)
    ensures r.Success? <==> WellQuoted(text) && check(text).Success?
    ensures r.Success? ==> r.value == NewUnchecked(text)
    ensures r.Failure? ==> r.error.TooShort? || r.error.NoOpeningQuote?
                           || r.error.NoClosingQuote? || r.error.InvalidPath?
  {
    if Utf8.Length(text) < MinLiteralLength then Failure(TooShort(text))
    else
      match StripPrefix(text, QuoteMark)
      case None => Failure(NoOpeningQuote(text))
      case Some(noPrefix) =>
        match StripSuffix(noPrefix, QuoteMark)
        case None => Failure(NoClosingQuote(text))
        case Some(_) =>
          match check(text)
          case Success(_) => Success(NewUnchecked(text))
          case Failure(err) => Failure(InvalidPath(text, err))
  }

  /**
   * `filepath_impl` (src/lib.rs:16-84): the first token decides, a group by
   * recursion into its stream; only when it succeeded are leftover tokens an
   * error. The trusted constructor is reached only with a well-quoted literal
   * the path check accepted, and only for a single-token stream.
   */
  function FilepathImpl(ts: seq<Token>, check: PathCheck): (r: Result<Expansion, MacroError>)
    decreases ts
    ensures ts == [] ==> r == Failure(NoneProvided)
    ensures r.Success? ==> |ts| == 1 && WellQuoted(r.value.literal)
                           && check(r.value.literal).Success?
    ensures r == Failure(MultipleProvided) ==> |ts| >= 2 || ts[0].Group?
  {
    if ts == [] then Failure(NoneProvided)
    else
      var first :=
        match ts[0]
        case Literal(text) => ExpandLiteral(text, check)
        case Group(stream) => FilepathImpl(stream, check)
        case Ident(name) => Failure(IdentProvided(name))
        case Punct(ch) => Failure(PunctProvided(ch));
      if first.Failure? then first
      else if |ts| > 1 then Failure(MultipleProvided)
      else first
  }
}
