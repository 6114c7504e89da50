/**
 * lib/proc/src/parse.rs: reading `#[valor::extensions(k = "v", ..)]`,
 * `#[valor::method("name")]` and module contents for the `module` macro.
 * Items arrive already split by `syn`; the key/value grammar is parsed here
 * token by token.
 */
module ProcParse {
  import opened Wrappers
  import opened Tokens

  /** `KV(key, value)`. */
  datatype KV = KV(key: string, value: string)

  /** Why a key/value list was rejected. */
  datatype ParseError =
    | NotKeyValue        // not `path = value`
    | NotStringLiteral   // a literal, but not a string
    | NotLiteral         // an expression that is not a literal

  function Message(e: ParseError): string {
    match e
    case NotKeyValue => "Variables inside #[valor::extensions] should be key-value items"
    case NotStringLiteral => "`value` should be a literal string"
    case NotLiteral => "`value` should be a literal (i.e. 1, \"a\""
  }

  /** The rest of a path after its first segment: `::ident` pieces; `None` if a `::` has no identifier after it. */
  function PathEnd(toks: seq<Tok>, i: nat): (r: Option<nat>)
    requires i <= |toks|
    ensures r.Some? ==> i <= r.value <= |toks|
    decreases |toks| - i
  {
    if i + 1 < |toks| && toks[i] == Punct(':') && toks[i + 1] == Punct(':') then
      if i + 2 < |toks| && toks[i + 2].Ident? then PathEnd(toks, i + 3) else None
    else Some(i)
  }

  /** A module-style path (an optional leading `::`, then identifiers joined by `::`): its first identifier and its end. */
  function ParsePath(toks: seq<Tok>): (r: Option<(string, nat)>)
    ensures r.Some? ==> 0 < r.value.1 <= |toks|
  {
    var start := if |toks| >= 2 && toks[0] == Punct(':') && toks[1] == Punct(':') then 2 else 0;
    if start < |toks| && toks[start].Ident? then
      match PathEnd(toks, start + 1)
      case None => None
      case Some(e) => Some((toks[start].name, e))
    else None
  }

  /** Where the value after `=` ends: at the next top-level comma, or at the end. */
  function ValueEnd(toks: seq<Tok>, i: nat): (r: nat)
    requires i <= |toks|
    ensures i <= r <= |toks| && (r == |toks| || toks[r] == Punct(','))
    decreases |toks| - i
  {
    if i == |toks| || toks[i] == Punct(',') then i else ValueEnd(toks, i + 1)
  }

  /**
   * `KV::parse`: `key = "value"`, with the key the path's first segment.
   * Returns the pair and how many tokens it spans; what follows it is a
   * comma or nothing.
   */
  function ParseKV(toks: seq<Tok>): (r: Result<(KV, nat), ParseError>)
    ensures r.Ok? ==> 0 < r.value.1 <= |toks| && (r.value.1 == |toks| || toks[r.value.1] == Punct(','))
  {
    match ParsePath(toks)
    case None => Err(NotKeyValue)
    case Some((key, n)) =>
      if n < |toks| && toks[n] == Punct('=') then
        var e := ValueEnd(toks, n + 1);
        var v := toks[n + 1..e];
        if v == [] then Err(NotKeyValue)
        else if |v| == 1 && v[0].Str? then Ok((KV(key, v[0].value), e))
        else if |v| == 1 && v[0].Lit? then Err(NotStringLiteral)
        else Err(NotLiteral)
      else Err(NotKeyValue)
  }

  /** `Extensions::parse` as a function: pairs separated by commas, a trailing comma allowed. */
  function ExtensionsOf(toks: seq<Tok>): (r: Result<seq<KV>, ParseError>)
    ensures r.Ok? ==> (r.value == [] <==> toks == [])
    decreases |toks|
  {
    if toks == [] then Ok([])
    else
      match ParseKV(toks)
      case Err(e) => Err(e)
      case Ok((kv, n)) =>
        if n == |toks| then Ok([kv])
        else
          match ExtensionsOf(toks[n + 1..])
          case Err(e) => Err(e)
          case Ok(more) => Ok([kv] + more)
  }

  /** `ext` already collected in front of whatever the rest parses to. */
  function Prefixed(ext: seq<KV>, r: Result<seq<KV>, ParseError>): Result<seq<KV>, ParseError> {
    match r
    case Err(e) => Err(e)
    case Ok(more) => Ok(ext + more)
  }

  /** One turn of the parsing loop: the pair at the front, then a comma and the rest, or the end. */
  lemma ExtensionsStep(toks: seq<Tok>)
    requires toks != []
    ensures ParseKV(toks).Err? ==> ExtensionsOf(toks) == Err(ParseKV(toks).error)
    ensures ParseKV(toks).Ok? ==>
      var (kv, n) := ParseKV(toks).value;
      ExtensionsOf(toks) == if n == |toks| then Ok([kv]) else Prefixed([kv], ExtensionsOf(toks[n + 1..]))
  {
  }

  lemma PrefixedAppend(ext: seq<KV>, kv: KV, r: Result<seq<KV>, ParseError>)
    ensures Prefixed(ext, Prefixed([kv], r)) == Prefixed(ext + [kv], r)
  {
    if r.Ok? {
      assert ext + ([kv] + r.value) == (ext + [kv]) + r.value;
    }
  }

  /** The loop's invariant after it consumed the pair at the front of `rest` and the comma after it. */
  lemma ExtensionsAdvance(whole: Result<seq<KV>, ParseError>, rest: seq<Tok>, ext: seq<KV>, pair: KV, n: nat, after: seq<Tok>, ext': seq<KV>)
    requires ParseKV(rest) == Ok((pair, n)) && n < |rest|
    requires after == rest[n + 1..] && ext' == ext + [pair]
    requires whole == Prefixed(ext, ExtensionsOf(rest))
    ensures whole == Prefixed(ext', ExtensionsOf(after))
  {
    ExtensionsStep(rest);
    PrefixedAppend(ext, pair, ExtensionsOf(after));
  }

  /** How the loop ends at `i`: on a malformed pair, or on the last pair. */
  lemma ExtensionsFinish(toks: seq<Tok>, i: nat, ext: seq<KV>)
    requires i < |toks|
    requires ExtensionsOf(toks) == Prefixed(ext, ExtensionsOf(toks[i..]))
    ensures ParseKV(toks[i..]).Err? ==> ExtensionsOf(toks) == Err(ParseKV(toks[i..]).error)
    ensures ParseKV(toks[i..]).Ok? && i + ParseKV(toks[i..]).value.1 == |toks| ==>
      ExtensionsOf(toks) == Ok(ext + [ParseKV(toks[i..]).value.0])
  {
    ExtensionsStep(toks[i..]);
  }

  /** `Extensions::parse`: the loop that pushes each pair and then expects a comma. */
  method ParseExtensions(toks: seq<Tok>) returns (r: Result<seq<KV>, ParseError>)
    ensures r == ExtensionsOf(toks)
  {
    var ext: seq<KV> := [];
    var i: nat := 0;
    assert toks[i..] == toks;
    assert Prefixed(ext, ExtensionsOf(toks)) == ExtensionsOf(toks) by {
      if ExtensionsOf(toks).Ok? {
        assert ext + ExtensionsOf(toks).value == ExtensionsOf(toks).value;
      }
    }
    while true
      invariant i <= |toks|
      invariant ExtensionsOf(toks) == Prefixed(ext, ExtensionsOf(toks[i..]))
      decreases |toks| - i
    {
      if i == |toks| {
        assert toks[i..] == [];
        assert ext + [] == ext;
        return Ok(ext);
      }
      var kv := ParseKV(toks[i..]);
      if kv.Err? {
        ExtensionsFinish(toks, i, ext);
        return Err(kv.error);
      }
      var pair, n := kv.value.0, kv.value.1;
      if i + n == |toks| {
        ExtensionsFinish(toks, i, ext);
        return Ok(ext + [pair]);
      }
      ghost var (ext0, i0) := (ext, i);
      ext, i := ext + [pair], i + n + 1;
      assert toks[i..] == toks[i0..][n + 1..];
      ExtensionsAdvance(ExtensionsOf(toks), toks[i0..], ext0, pair, n, toks[i..], ext);
    }
  }

  /** Key/value pairs written out as `k = "v"`, comma separated, optionally with a trailing comma. */
  function Render(kvs: seq<KV>, trailingComma: bool): seq<Tok> {
    if kvs == [] then []
    else if |kvs| == 1 then [Ident(kvs[0].key), Punct('='), Str(kvs[0].value)] + (if trailingComma then [Punct(',')] else [])
    else [Ident(kvs[0].key), Punct('='), Str(kvs[0].value), Punct(',')] + Render(kvs[1..], trailingComma)
  }

  lemma ParseKVRendered(k: string, v: string, rest: seq<Tok>)
    requires rest == [] || rest[0] == Punct(',')
    ensures ParseKV([Ident(k), Punct('='), Str(v)] + rest) == Ok((KV(k, v), 3))
  {
    var toks := [Ident(k), Punct('='), Str(v)] + rest;
    assert PathEnd(toks, 1) == Some(1);
    assert ValueEnd(toks, 2) == ValueEnd(toks, 3) == 3;
    assert toks[2..3] == [Str(v)];
  }

  /** Parsing written-out pairs gives them back, in order, with or without the trailing comma. */
  lemma {:induction false} ExtensionsRoundTrip(kvs: seq<KV>, trailingComma: bool)
    ensures ExtensionsOf(Render(kvs, trailingComma)) == Ok(kvs)
    decreases |kvs|
  {
    if |kvs| == 1 {
      LastPairRoundTrip(kvs[0], trailingComma);
      assert kvs == [kvs[0]];
    } else if |kvs| > 1 {
      ExtensionsRoundTrip(kvs[1..], trailingComma);
      FirstPairRoundTrip(kvs, trailingComma);
    }
  }

  /** The first of several pairs, in front of the pairs the rest parses back to. */
  lemma FirstPairRoundTrip(kvs: seq<KV>, trailingComma: bool)
    requires |kvs| > 1 && ExtensionsOf(Render(kvs[1..], trailingComma)) == Ok(kvs[1..])
    ensures ExtensionsOf(Render(kvs, trailingComma)) == Ok(kvs)
  {
    var rest := Render(kvs[1..], trailingComma);
    assert Render(kvs, trailingComma) == [Ident(kvs[0].key), Punct('='), Str(kvs[0].value), Punct(',')] + rest;
    PairThenRest(kvs[0].key, kvs[0].value, rest);
    assert [KV(kvs[0].key, kvs[0].value)] + kvs[1..] == kvs;
  }

  /** A pair followed by a comma parses as that pair in front of whatever follows. */
  lemma PairThenRest(k: string, v: string, more: seq<Tok>)
    ensures ExtensionsOf([Ident(k), Punct('='), Str(v), Punct(',')] + more) == Prefixed([KV(k, v)], ExtensionsOf(more))
  {
    var toks := [Ident(k), Punct('='), Str(v), Punct(',')] + more;
    ParseKVRendered(k, v, [Punct(',')] + more);
    assert toks == [Ident(k), Punct('='), Str(v)] + ([Punct(',')] + more);
    ExtensionsStep(toks);
    assert toks[4..] == more;
  }

  /** The last pair, with or without its trailing comma. */
  lemma LastPairRoundTrip(kv: KV, trailingComma: bool)
    ensures ExtensionsOf(Render([kv], trailingComma)) == Ok([kv])
  {
    var tail: seq<Tok> := if trailingComma then [Punct(',')] else [];
    var toks := Render([kv], trailingComma);
    ParseKVRendered(kv.key, kv.value, tail);
    assert toks == [Ident(kv.key), Punct('='), Str(kv.value)] + tail;
    ExtensionsStep(toks);
    if trailingComma {
      assert toks[4..] == [];
      assert [KV(kv.key, kv.value)] + [] == [kv];
    }
  }

  /** A pair whose value is not a string literal, or that is not `key = value`, is refused. */
  lemma RejectsMalformedPair(k: string, text: string, name: string)
    ensures ExtensionsOf([Ident(k), Punct('='), Lit(text)]) == Err(NotStringLiteral)
    ensures ExtensionsOf([Ident(k), Punct('='), Ident(name)]) == Err(NotLiteral)
    ensures ExtensionsOf([Ident(k)]) == Err(NotKeyValue)
    ensures ExtensionsOf([Ident(k), Punct('=')]) == Err(NotKeyValue)
  {
    assert PathEnd([Ident(k), Punct('='), Lit(text)], 1) == Some(1);
    assert PathEnd([Ident(k), Punct('='), Ident(name)], 1) == Some(1);
    assert PathEnd([Ident(k)], 1) == Some(1);
    assert PathEnd([Ident(k), Punct('=')], 1) == Some(1);
    assert [Ident(k), Punct('='), Lit(text)][2..3] == [Lit(text)];
    assert [Ident(k), Punct('='), Ident(name)][2..3] == [Ident(name)];
  }

  /** An outer attribute: its path segments and, for the `#[path(..)]` form, the tokens in the parentheses. */
  datatype Attr = Attr(path: seq<string>, args: Option<seq<Tok>>)

  /** A function item: its attributes and its identifier. */
  datatype ItemFn = ItemFn(attrs: seq<Attr>, ident: string)

  datatype MethodData = MethodData(name: string, ident: string, extensions: seq<KV>)

  /** `attrs.iter().find(|a| a.path().segments.iter().any(|s| s.ident == segment))`. */
  function FindAttr(attrs: seq<Attr>, segment: string): (r: Option<nat>)
    ensures r.Some? ==> r.value < |attrs| && segment in attrs[r.value].path
    ensures r.Some? ==> forall j :: 0 <= j < r.value ==> segment !in attrs[j].path
    ensures r.None? ==> forall j :: 0 <= j < |attrs| ==> segment !in attrs[j].path
  {
    if attrs == [] then None
    else if segment in attrs[0].path then Some(0)
    else
      match FindAttr(attrs[1..], segment)
      case None => None
      case Some(i) => Some(i + 1)
  }

  /**
   * The extensions of an item: those of the first `extensions` attribute,
   * and none when there is no such attribute or its arguments do not parse.
   */
  function AttrExtensions(attrs: seq<Attr>): (r: seq<KV>)
    ensures FindAttr(attrs, "extensions").None? ==> r == []
    ensures FindAttr(attrs, "extensions").Some? ==>
      var a := attrs[FindAttr(attrs, "extensions").value];
      (if a.args.Some? && ExtensionsOf(a.args.value).Ok? then r == ExtensionsOf(a.args.value).value else r == [])
  {
    match FindAttr(attrs, "extensions")
    case None => []
    case Some(i) =>
      match attrs[i].args
      case None => []
      case Some(toks) =>
        match ExtensionsOf(toks)
        case Ok(kvs) => kvs
        case Err(_) => []
  }

  /** `MethodData::parse`. */
  function ParseMethod(item: ItemFn): (r: MethodData)
    ensures r.ident == item.ident && r.extensions == AttrExtensions(item.attrs)
  {
    var name :=
      match FindAttr(item.attrs, "method")
      case None => item.ident
      case Some(i) => if item.attrs[i].args.Some? && |item.attrs[i].args.value| == 1 && item.attrs[i].args.value[0].Str?
                      then item.attrs[i].args.value[0].value else item.ident;
    MethodData(name, item.ident, AttrExtensions(item.attrs))
  }

  /**
   * The method name is the string given to the first `method` attribute
   * when that attribute holds exactly one string literal, and the function's
   * identifier otherwise.
   */
  lemma MethodNaming(item: ItemFn)
    ensures FindAttr(item.attrs, "method").None? ==> ParseMethod(item).name == item.ident
    ensures FindAttr(item.attrs, "method").Some? ==>
      var a := item.attrs[FindAttr(item.attrs, "method").value];
      && (forall s :: a.args == Some([Str(s)]) ==> ParseMethod(item).name == s)
      && ((forall s :: a.args != Some([Str(s)])) ==> ParseMethod(item).name == item.ident)
  {
    if FindAttr(item.attrs, "method").Some? {
      var a := item.attrs[FindAttr(item.attrs, "method").value];
      if a.args.Some? && |a.args.value| == 1 && a.args.value[0].Str? {
        assert a.args.value == [a.args.value[0]];
        assert a.args.value[0] == Str(a.args.value[0].value);
      }
    }
  }

  /** `test_method_data_parse` and `test_method_data_parse_defaults`. */
  lemma MethodDataTests(ident: string, custom: string, verb: string, path: string)
    ensures var exts := [KV("http_verb", verb), KV("http_path", path)];
      var item := ItemFn([Attr(["valor", "method"], Some([Str(custom)])),
                          Attr(["valor", "extensions"], Some(Render(exts, false)))], ident);
      ParseMethod(item) == MethodData(custom, ident, exts)
    ensures ParseMethod(ItemFn([Attr(["valor", "method"], None)], ident)) == MethodData(ident, ident, [])
  {
    var exts := [KV("http_verb", verb), KV("http_path", path)];
    var attrs := [Attr(["valor", "method"], Some([Str(custom)])), Attr(["valor", "extensions"], Some(Render(exts, false)))];
    assert "extensions" !in attrs[0].path && "extensions" in attrs[1].path;
    assert FindAttr(attrs, "extensions") == Some(1);
    ExtensionsRoundTrip(exts, false);
    assert "method" in attrs[0].path;
    assert "extensions" !in ["valor", "method"];
  }

  /** A module item: a function, or anything else. */
  datatype Item = Fn(f: ItemFn) | OtherItem

  /** A module: attributes, identifier and, unless it is `mod m;`, its items. */
  datatype ItemMod = ItemMod(attrs: seq<Attr>, ident: string, content: Option<seq<Item>>)

  datatype ModuleData = ModuleData(name: string, ident: string, extensions: seq<KV>, methods: seq<MethodData>)

  const NoContent := "Module must have content"

  /** The function items of a module, in order. */
  function Functions(items: seq<Item>): (r: seq<ItemFn>)
    ensures |r| <= |items|
  {
    if items == [] then []
    else if items[0].Fn? then [items[0].f] + Functions(items[1..])
    else Functions(items[1..])
  }

  /** `ModuleData::parse`: a module without a body is refused; its methods are its functions, in order. */
  function ParseModule(m: ItemMod): (r: Result<ModuleData, string>)
    ensures m.content.None? <==> r.Err?
    ensures r.Err? ==> r.error == NoContent
    ensures r.Ok? ==> && r.value.name == m.ident && r.value.ident == m.ident
                      && r.value.extensions == AttrExtensions(m.attrs)
                      && |r.value.methods| == |Functions(m.content.value)|
                      && forall k :: 0 <= k < |r.value.methods| ==> r.value.methods[k] == ParseMethod(Functions(m.content.value)[k])
  {
    match m.content
    case None => Err(NoContent)
    case Some(items) =>
      var fns := Functions(items);
      Ok(ModuleData(m.ident, m.ident, AttrExtensions(m.attrs), seq(|fns|, k requires 0 <= k < |fns| => ParseMethod(fns[k]))))
  }

  /** Only function items become methods: other items are skipped, and every function is kept, in order. */
  lemma {:induction false} FunctionsSkipOthers(items: seq<Item>, f: ItemFn)
    ensures Functions(items + [OtherItem]) == Functions(items)
    ensures Functions(items + [Fn(f)]) == Functions(items) + [f]
    decreases |items|
  {
    if items != [] {
      assert (items + [OtherItem])[1..] == items[1..] + [OtherItem];
      assert (items + [Fn(f)])[1..] == items[1..] + [Fn(f)];
      FunctionsSkipOthers(items[1..], f);
    }
  }

  /** `test_module_data_parse`: module extensions and the one method are read as written. */
  lemma ModuleDataTest(modName: string, ident: string, custom: string, verb: string, path: string)
    ensures var methodExts := [KV("http_verb", verb), KV("http_path", path)];
      var f := ItemFn([Attr(["valor", "method"], Some([Str(custom)])),
                       Attr(["valor", "extensions"], Some(Render(methodExts, false)))], ident);
      var m := ItemMod([Attr(["valor", "module"], None),
                        Attr(["valor", "extensions"], Some(Render([KV("http_path", path)], false)))],
                       modName, Some([Fn(f)]));
      ParseModule(m) == Ok(ModuleData(modName, modName, [KV("http_path", path)], [MethodData(custom, ident, methodExts)]))
  {
    var methodExts := [KV("http_verb", verb), KV("http_path", path)];
    var f := ItemFn([Attr(["valor", "method"], Some([Str(custom)])),
                     Attr(["valor", "extensions"], Some(Render(methodExts, false)))], ident);
    var attrs := [Attr(["valor", "module"], None), Attr(["valor", "extensions"], Some(Render([KV("http_path", path)], false)))];
    MethodDataTests(ident, custom, verb, path);
    assert "extensions" !in attrs[0].path && "extensions" in attrs[1].path;
    assert FindAttr(attrs, "extensions") == Some(1);
    ExtensionsRoundTrip([KV("http_path", path)], false);
    assert Functions([Fn(f)]) == [f];
    var m := ItemMod(attrs, modName, Some([Fn(f)]));
    assert ParseMethod(f) == MethodData(custom, ident, methodExts);
    assert ParseModule(m).value.methods == [ParseMethod(f)];
  }
}
