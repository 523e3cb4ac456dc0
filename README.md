# filepath! macro gate, in Dafny

A model of the input gate of the `filepath!` procedural macro of
`minifilepath_macro`. The macro takes the token stream it is invoked with and
either emits the trusted expression `unsafe { FilePath::new_unchecked(<literal>) }`
or aborts compilation with a diagnostic. The gate is `filepath_impl`. It looks
at the first token tree, recursing into it when it is a group. A literal must
be at least three bytes long and start and end with a double quote. The
companion library's `FilePath::new` must then accept the literal's text,
quotes included. Only after all that may no token follow.

Files:

- `wrappers.dfy` (module `Wrappers`): `Option` and `Result`.
- `utf8.dfy` (module `Utf8`): the UTF-8 byte length of a string, which is what Rust's `str::len` counts.
- `token_tree.dfy` (module `TokenTree`): the token trees (literal, group, identifier, punctuation) and `Wrap`, a stream nested in groups.
- `filepath_macro.dfy` (module `FilepathMacro`): the error taxonomy, the literal checks and `FilepathImpl` itself.
- `filepath_properties.dfy` (module `FilepathProperties`): the properties of the gate, proved for every path check.

`FilePath::new` comes from another library whose rules are not visible. Every
operation therefore takes it as a parameter `check: string -> Result<(), FilePathError>`,
and every property is proved for all such checks. The generated expression
is modelled as `NewUnchecked(literal)`: the surface text of the literal token
that is spliced into the output.

Two details of the code are kept as written:

- The code comment `// At least ["a"]` (src/lib.rs:28) reads as three
  characters, but the code tests `orig_string.len() >= 3` (src/lib.rs:31),
  which counts UTF-8 bytes. `Utf8.Length` models that count.
  `FilepathMacro.QuoteChecksAcceptWellQuoted` proves the difference never
  changes which literals are accepted. The accepted ones are exactly those
  of at least three characters with a quote at each end. The difference only
  changes which error some short malformed literals draw. For example, `"é`
  is three bytes, so it gets "does not end with a quote" instead of
  "too short".
- The path check is run on the whole literal text with its quotes
  (src/lib.rs:40), not on the trimmed contents. The model does the same.
  The spliced token `"s"` evaluates to the string `s`, after escape
  processing. So at run time `new_unchecked` receives a value that
  `FilePath::new` never saw: it was called on `"s"`, quotes included. The
  invariant proved here (the second ensures of `FilepathMacro.FilepathImpl`,
  and `FilepathProperties.Emits`) is about the literal's text: the check
  accepted exactly the text that is emitted. It says nothing about that
  run-time value. The round trip "the emitted path is `s`" is stated for the
  literal `Quoted(s)`: it is emitted unchanged, and `Unquoted` of it gives
  back `s`.

Running the macro twice on the same literal gives textually identical
expressions. In the model this holds without any lemma, because
`FilepathImpl` is a function.

## Model

| member | source | states |
|---|---|---|
| `FilepathMacro.FilepathImpl` | src/lib.rs:16-84 | No tokens gives the missing-argument error. Success needs exactly one token and a well-quoted literal that the path check accepted. Multiple-arguments comes only from two or more tokens or from inside a first-token group. |
| `FilepathMacro.ExpandLiteral` | src/lib.rs:27-58 | For a literal token, each diagnostic appears exactly under its condition, in the source's order: fewer than 3 bytes, then no opening quote, then no closing quote, then rejection by the path check of the full quoted text, with the check's error. Otherwise it emits the literal text unchanged. No other error is possible. |
| `FilepathMacro.QuoteChecksAcceptWellQuoted` | src/lib.rs:29-39 | The byte-length test together with strip-prefix and strip-suffix of `"` accepts exactly the texts of three or more characters that start and end with `"`. |
| `FilepathMacro.StripPrefix` | src/lib.rs:38 | `s` starts with `p` exactly when the result is the rest of `s` after `p`. |
| `FilepathMacro.StripSuffix` | src/lib.rs:39 | `s` ends with `q` exactly when the result is what comes before `q`. |
| `Utf8.Length` | src/lib.rs:31 | The byte length of a string is between its character count and four times that. |
| `Utf8.AsciiLength` | src/lib.rs:31 | For ASCII text, the byte length equals the character count. |
| `FilepathProperties.EmptyGroupFirst` | src/lib.rs:21-24 | An empty group as the first token gives the missing-argument error, whatever follows it. |
| `FilepathProperties.IdentFirst` | src/lib.rs:62-67 | An identifier as the first token gives the identifier error, whatever follows it. The path check is not consulted. |
| `FilepathProperties.PunctFirst` | src/lib.rs:69-74 | A punctuation token as the first token gives the punctuation error, whatever follows it. The path check is not consulted. |
| `FilepathProperties.ShortLiteralFirst` | src/lib.rs:29-35 | A literal shorter than three bytes gives the too-short error, whatever follows it. The path check is not consulted. |
| `FilepathProperties.EmptyStringLiteral` | src/lib.rs:28-35 | `""` gives the too-short error. |
| `FilepathProperties.QuotedLiteral` | src/lib.rs:38-50 | For any non-empty `s`, the literal `"s"` is decided by the path check on `"s"` alone. If accepted, it is emitted unchanged and its contents are `s`. If rejected, the error carries the check's error. |
| `FilepathProperties.GroupTransparent` | src/lib.rs:60 | `[Group(ts)]` gives the same result as `ts`. |
| `FilepathProperties.WrapTransparent` | src/lib.rs:60 | `ts` nested in any number of groups gives the same result as `ts`. |
| `FilepathProperties.TrailingTokens` | src/lib.rs:77-83 | When tokens are appended to a non-empty stream, the stream's own error stays. A success becomes the multiple-arguments error. So first-token errors take priority. |
| `FilepathProperties.TwoLiterals` | src/lib.rs:77-81 | Two literals whose first one passes give the multiple-arguments error. |
| `FilepathProperties.SuccessDepth` | src/lib.rs:26-60 | A successful stream is one literal token, the emitted one, under some number of groups. |
| `FilepathProperties.Emits` | src/lib.rs:16-84 | It emits `new_unchecked(text)` if and only if the stream is the literal `text` under some number of groups, `text` is well quoted, and the path check accepts `text` itself. |
| `FilepathProperties.Queried` | src/lib.rs:40 | The text the path check is asked about is always a well-quoted literal. |
| `FilepathProperties.OracleLocality` | src/lib.rs:26-75 | Two path checks that agree on the one queried text give the same outcome. When nothing is queried, the check does not matter at all. |
| `FilepathProperties.QueriedOutcome` | src/lib.rs:26-83 | If the check rejects the queried text, the result is the invalid-path error with the check's error, whatever follows. If it accepts, the result is that text emitted, or multiple arguments. With no query, the result is an error other than invalid-path. |

## Left out

- `filepath`, the exported entry point (src/lib.rs:11-14): it only converts between the compiler's two token-stream types.
- The `quote!` code generation (src/lib.rs:44-46): the output is the abstract `NewUnchecked(literal)`.
- The rules of `FilePath::new` and the contract of `FilePath::new_unchecked`: they belong to the companion library. The check is a parameter.
- The wording of the diagnostics and the `Display` text of the path error: errors are enum cases that keep the offending text or the check's error.
- Rust's lexing of literals (raw strings, byte strings, numbers, escapes): a literal is just its surface text. Also which delimiter a group uses: it has no effect on the gate.
- Spans, hygiene, and the fact that a failure is a compile-time panic: the model returns a `Failure` value instead.
