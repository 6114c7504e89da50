/**
 * valor_plugin/src/lib.rs: the `#[vlugin]` attribute. It accepts only a
 * `pub async fn` named `on_create` or `on_request`, and then emits the
 * glue module in front of the untouched function.
 */
module PluginAttr {
  import opened Wrappers
  import opened Tokens

  datatype Visibility = Public | Restricted | Inherited

  /** What `syn` reads off a function item's signature. */
  datatype FnHeader = FnHeader(vis: Visibility, isAsync: bool, ident: string)

  /**
   * The annotated item: its tokens and, when they parse as a function
   * item, its header. Parsing itself belongs to `syn` and is not modelled.
   */
  datatype Annotated = Annotated(tokens: seq<Tok>, fn: Option<FnHeader>)

  datatype Expansion = CompileError(message: string) | Generated(tokens: seq<Tok>)

  const NotAFunction := "Can only annotate functions"
  // The spelling is the one the macro reports.
  const NotPubAsync := "Function neeeds to be \"pub async\""
  const BadName := "Function should either be named \"on_create\" or \"on_request\""
  const HookNames: set<string> := {"on_create", "on_request"}

  /**
   * `mod v { include!(concat!(env!("OUT_DIR"), "/vlugin.rs")); }` and the
   * `instantiate_vlugin` constructor behind `#[cfg(not(target_arch = "wasm32"))]`.
   */
  const Glue: seq<Tok> :=
    [Ident("mod"), Ident("v"),
     Group(Brace, [Ident("include"), Punct('!'),
       Group(Paren, [Ident("concat"), Punct('!'),
         Group(Paren, [Ident("env"), Punct('!'), Group(Paren, [Str("OUT_DIR")]), Punct(','), Str("/vlugin.rs")])]),
       Punct(';')]),
     Punct('#'),
     Group(Bracket, [Ident("cfg"), Group(Paren, [Ident("not"), Group(Paren, [Ident("target_arch"), Punct('='), Str("wasm32")])])]),
     Ident("pub"), Ident("extern"), Str("Rust"), Ident("fn"), Ident("instantiate_vlugin"), Group(Paren, []),
     Punct('-'), Punct('>'), Ident("impl"), Ident("valor"), Punct(':'), Punct(':'), Ident("Vlugin"),
     Group(Brace, [Ident("v"), Punct(':'), Punct(':'), Ident("Vlugin"), Punct(':'), Punct(':'), Ident("default"), Group(Paren, [])])]

  /** `vlugin`: the checks in source order, then the glue followed by the item as given. */
  function Expand(item: Annotated): (r: Expansion)
    ensures r.Generated? ==> r.tokens == Glue + item.tokens
    ensures r.CompileError? && item.fn.Some? && item.fn.value.isAsync && item.fn.value.vis == Public ==> r.message == BadName
  {
    match item.fn
    case None => CompileError(NotAFunction)
    case Some(f) =>
      if !f.isAsync || f.vis != Public then CompileError(NotPubAsync)
      else if f.ident !in HookNames then CompileError(BadName)
      else Generated(Glue + item.tokens)
  }

  /** A function is accepted exactly when it is `pub`, `async` and named after one of the two hooks. */
  lemma Acceptance(item: Annotated)
    ensures Expand(item).Generated? <==>
      item.fn.Some? && item.fn.value.vis == Public && item.fn.value.isAsync && item.fn.value.ident in HookNames
    ensures item.fn.None? ==> Expand(item) == CompileError(NotAFunction)
  {
  }

  /** Visibility and asyncness are checked before the name: a wrongly named sync function gets the `pub async` error. */
  lemma PubAsyncCheckedFirst(item: Annotated)
    requires item.fn.Some? && (!item.fn.value.isAsync || item.fn.value.vis != Public)
    ensures Expand(item) == CompileError(NotPubAsync)
  {
  }

  /** An accepted function comes out unchanged, after the glue and nothing after it. */
  lemma ItemKept(item: Annotated)
    requires Expand(item).Generated?
    ensures var out := Expand(item).tokens;
      |out| == |Glue| + |item.tokens| && out[|Glue|..] == item.tokens && out[..|Glue|] == Glue
  {
  }
}
