/** The token trees a procedural macro receives from the host compiler. */
module TokenTree {

  /**
   * One token tree. A literal keeps its surface text, delimiters included
   * (`"a/b"` is the four-plus-two characters with both quotes); a group keeps
   * the token stream between its delimiters, whatever bracket they are.
   */
  datatype Token =
    | Literal(text: string)
    | Group(stream: seq<Token>)
    | Ident(name: string)
    | Punct(ch: char)

  /** `ts` enclosed in `depth` groups, each holding only the one inside it. */
  function Wrap(depth: nat, ts: seq<Token>): (r: seq<Token>)
    ensures depth > 0 ==> |r| == 1 && r[0].Group?
  {
    if depth == 0 then ts else [Group(Wrap(depth - 1, ts))]
  }
}
