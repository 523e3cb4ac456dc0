/** What the `filepath!` gate promises, for every path check and every token stream. */
module FilepathProperties {
  import opened Wrappers
  import opened TokenTree
  import opened FilepathMacro
  import Utf8

  /** An empty group as first token draws the same error as no token at all. */
  lemma EmptyGroupFirst(rest: seq<Token>, check: PathCheck)
    ensures FilepathImpl([Group([])] + rest, check) == Failure(NoneProvided)
  {
  }

  /** An identifier first is reported as such, whatever follows and whatever the path check says. */
  lemma IdentFirst(name: string, rest: seq<Token>, check: PathCheck)
    ensures FilepathImpl([Ident(name)] + rest, check) == Failure(IdentProvided(name))
    ensures Queried([Ident(name)] + rest) == None
  {
  }

  /** A punctuation token first is reported as such, whatever follows and whatever the path check says. */
  lemma PunctFirst(ch: char, rest: seq<Token>, check: PathCheck)
    ensures FilepathImpl([Punct(ch)] + rest, check) == Failure(PunctProvided(ch))
    ensures Queried([Punct(ch)] + rest) == None
  {
  }

  /** A literal of fewer than three bytes, such as `""`, is too short, before any other check. */
  lemma ShortLiteralFirst(text: string, rest: seq<Token>, check: PathCheck)
    requires Utf8.Length(text) < MinLiteralLength
    ensures FilepathImpl([Literal(text)] + rest, check) == Failure(TooShort(text))
    ensures Queried([Literal(text)] + rest) == None
  {
    assert ([Literal(text)] + rest)[0] == Literal(text);
  }

  /** The empty string literal `""` in particular. */
  lemma EmptyStringLiteral(check: PathCheck)
    ensures FilepathImpl([Literal("\"\"")], check) == Failure(TooShort("\"\""))
  {
  }

  /**
   * The quoted literal of any non-empty `s` is decided by the path check on
   * the quoted text alone: accepted, the literal goes to `new_unchecked`
   * unchanged and its contents are `s`; rejected, the diagnostic carries the
   * check's error.
   */
  lemma QuotedLiteral(s: string, check: PathCheck)
    requires s != []
    ensures var r := FilepathImpl([Literal(Quoted(s))], check);
            match check(Quoted(s))
            case Success(_) => r == Success(NewUnchecked(Quoted(s))) && Unquoted(r.value.literal) == s
            case Failure(e) => r == Failure(InvalidPath(Quoted(s), e))
  {
  }

  /** A group around the stream is invisible. */
  lemma GroupTransparent(ts: seq<Token>, check: PathCheck)
    ensures FilepathImpl([Group(ts)], check) == FilepathImpl(ts, check)
  {
  }

  /** At any depth of nesting. */
  lemma {:induction false} WrapTransparent(depth: nat, ts: seq<Token>, check: PathCheck)
    ensures FilepathImpl(Wrap(depth, ts), check) == FilepathImpl(ts, check)
  {
    if depth > 0 {
      WrapTransparent(depth - 1, ts, check);
      GroupTransparent(Wrap(depth - 1, ts), check);
    }
  }

  /**
   * Tokens after the first make no difference when the first one fails, and
   * are an error otherwise: first-token errors take priority.
   */
  lemma TrailingTokens(ts: seq<Token>, rest: seq<Token>, check: PathCheck)
    requires ts != [] && rest != []
    ensures FilepathImpl(ts + rest, check)
            == if FilepathImpl(ts, check).Failure? then FilepathImpl(ts, check)
               else Failure(MultipleProvided)
  {
  }

  /** Two literals, such as `"a", "b"`, are multiple arguments once the first one passes. */
  lemma TwoLiterals(a: string, b: string, check: PathCheck)
    requires WellQuoted(a) && check(a).Success?
    ensures FilepathImpl([Literal(a), Literal(b)], check) == Failure(MultipleProvided)
  {
  }

  /** A successful expansion comes from one literal under some number of groups. */
  lemma {:induction false} SuccessDepth(ts: seq<Token>, check: PathCheck) returns (depth: nat)
    requires FilepathImpl(ts, check).Success?
    ensures ts == Wrap(depth, [Literal(FilepathImpl(ts, check).value.literal)])
    decreases ts
  {
    match ts[0]
    case Literal(text) =>
      depth := 0;
    case Group(stream) =>
      var inner := SuccessDepth(stream, check);
      depth := inner + 1;
      assert ts == [Group(stream)];
  }

  /**
   * The gate emits `new_unchecked(text)` exactly when the stream is the
   * literal `text` under some number of groups, `text` is well quoted, and
   * the path check accepts `text` itself, quotes included.
   */
  lemma Emits(ts: seq<Token>, text: string, check: PathCheck)
    ensures FilepathImpl(ts, check) == Success(NewUnchecked(text))
            <==> (exists depth :: ts == Wrap(depth, [Literal(text)]))
                 && WellQuoted(text) && check(text).Success?
  {
    if FilepathImpl(ts, check) == Success(NewUnchecked(text)) {
      var depth := SuccessDepth(ts, check);
      assert ts == Wrap(depth, [Literal(text)]);
    }
    if exists depth :: ts == Wrap(depth, [Literal(text)]) {
      var depth :| ts == Wrap(depth, [Literal(text)]);
      WrapTransparent(depth, [Literal(text)], check);
    }
  }

  /**
   * The text the path check is asked about while expanding `ts`, if it is
   * asked at all: the first token's, looking through groups, when that is a
   * well-quoted literal. This is a reference definition written apart from
   * `FilepathImpl`; that it is the text the check really sees is what
   * `OracleLocality` and `QueriedOutcome` prove.
   */
  function Queried(ts: seq<Token>): (q: Option<string>)
    ensures q.Some? ==> WellQuoted(q.value)
    decreases ts
  {
    if ts == [] then None
    else
      match ts[0]
      case Literal(text) => if WellQuoted(text) then Some(text) else None
      case Group(stream) => Queried(stream)
      case Ident(_) => None
      case Punct(_) => None
  }

  /**
   * The path check is consulted on one text at most: two checks that agree
   * there give the same outcome, and when nothing is queried the check does
   * not matter at all.
   */
  lemma {:induction false} OracleLocality(ts: seq<Token>, c1: PathCheck, c2: PathCheck)
    requires Queried(ts).Some? ==> c1(Queried(ts).value) == c2(Queried(ts).value)
    ensures FilepathImpl(ts, c1) == FilepathImpl(ts, c2)
    decreases ts
  {
    if ts != [] {
      match ts[0]
      case Literal(text) =>
        if WellQuoted(text) {
          assert c1(text) == c2(text);
        }
        assert ExpandLiteral(text, c1) == ExpandLiteral(text, c2);
      case Group(stream) =>
        OracleLocality(stream, c1, c2);
      case Ident(_) =>
      case Punct(_) =>
    }
  }

  /**
   * Once the check is consulted on `text`, its verdict decides: a rejection
   * is reported with the check's error whatever follows, an acceptance emits
   * `text` unless tokens are left over. Without a query, the outcome is an
   * error and never an invalid path.
   */
  lemma {:induction false} QueriedOutcome(ts: seq<Token>, check: PathCheck)
    ensures Queried(ts).None? ==> FilepathImpl(ts, check).Failure?
                                  && !FilepathImpl(ts, check).error.InvalidPath?
    ensures Queried(ts).Some? ==>
              var text := Queried(ts).value;
              match check(text)
              case Failure(e) => FilepathImpl(ts, check) == Failure(InvalidPath(text, e))
              case Success(_) => FilepathImpl(ts, check) in {Success(NewUnchecked(text)), Failure(MultipleProvided)}
    decreases ts
  {
    if ts != [] && ts[0].Group? {
      QueriedOutcome(ts[0].stream, check);
    }
  }
}
