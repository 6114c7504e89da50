/** Rust token trees as procedural macros see them (`proc_macro2::TokenTree`). */
module Tokens {
  datatype Delim = Paren | Bracket | Brace

  /**
   * An identifier, one punctuation character, a string literal (by its
   * value), any other literal (by its text), or a delimited group.
   */
  datatype Tok =
    | Ident(name: string)
    | Punct(ch: char)
    | Str(value: string)
    | Lit(text: string)
    | Group(delim: Delim, stream: seq<Tok>)
}
