/**
 * lib/proc/src/expand.rs: the code the `module` macro emits for a parsed
 * module. Each `to_tokens` appends to a token stream; `Decode*` read the
 * emitted trees back, which is how the lemmas state what the output holds.
 */
module ProcExpand {
  import opened Wrappers
  import opened Tokens
  import opened ProcParse

  /** A `proc_macro2::TokenStream` being written to. */
  class TokenStream {
    var tokens: seq<Tok>

    constructor ()
      ensures tokens == []
    {
      tokens := [];
    }

    method Append(t: Tok)
      modifies this
      ensures tokens == old(tokens) + [t]
    {
      tokens := tokens + [t];
    }

    method Extend(ts: seq<Tok>)
      modifies this
      ensures tokens == old(tokens) + ts
    {
      tokens := tokens + ts;
    }
  }

  /** A pair as emitted: key string, comma, value string. */
  function KVTokens(kv: KV): seq<Tok> {
    [Str(kv.key), Punct(','), Str(kv.value)]
  }

  /** `ToTokens for KV`. */
  method EmitKV(kv: KV, out: TokenStream)
    modifies out
    ensures out.tokens == old(out.tokens) + KVTokens(kv)
  {
    out.Append(Str(kv.key));
    out.Append(Punct(','));
    out.Append(Str(kv.value));
  }

  /** `hm.insert(k, v);` */
  function InsertTokens(kv: KV): seq<Tok> {
    [Ident("hm"), Punct('.'), Ident("insert"), Group(Paren, KVTokens(kv)), Punct(';')]
  }

  /** One insert statement per pair, in order. */
  function Inserts(kvs: seq<KV>): seq<Tok> {
    if kvs == [] then [] else InsertTokens(kvs[0]) + Inserts(kvs[1..])
  }

  /** `let mut hm = BTreeMap::new();` */
  const MapPrelude: seq<Tok> :=
    [Ident("let"), Ident("mut"), Ident("hm"), Punct('='), Ident("BTreeMap"), Punct(':'), Punct(':'),
     Ident("new"), Group(Paren, []), Punct(';')]

  /** The `extensions` block: the prelude, the inserts, then `hm`. */
  function MapBlock(kvs: seq<KV>): Tok {
    Group(Brace, MapPrelude + Inserts(kvs) + [Ident("hm")])
  }

  lemma {:induction false} InsertsAppend(kvs: seq<KV>, kv: KV)
    ensures Inserts(kvs + [kv]) == Inserts(kvs) + InsertTokens(kv)
    decreases |kvs|
  {
    if kvs == [] {
      assert Inserts([kv]) == InsertTokens(kv) + Inserts([]);
    } else {
      assert (kvs + [kv])[1..] == kvs[1..] + [kv];
      InsertsAppend(kvs[1..], kv);
    }
  }

  /** The `#( hm.insert(#extensions); )*` repetition inside its braces. */
  method BuildMapBlock(kvs: seq<KV>) returns (t: Tok)
    ensures t == MapBlock(kvs)
  {
    var body := new TokenStream();
    body.Extend(MapPrelude);
    var i := 0;
    while i < |kvs|
      invariant 0 <= i <= |kvs|
      invariant body.tokens == MapPrelude + Inserts(kvs[..i])
    {
      var args := new TokenStream();
      EmitKV(kvs[i], args);
      assert args.tokens == KVTokens(kvs[i]);
      var insert := [Ident("hm"), Punct('.'), Ident("insert"), Group(Paren, args.tokens), Punct(';')];
      assert insert == InsertTokens(kvs[i]);
      body.Extend(insert);
      InsertsAppend(kvs[..i], kvs[i]);
      assert kvs[..i + 1] == kvs[..i] + [kvs[i]];
      assert body.tokens == MapPrelude + (Inserts(kvs[..i]) + InsertTokens(kvs[i]));
      i := i + 1;
    }
    assert kvs[..i] == kvs;
    body.Append(Ident("hm"));
    t := Group(Brace, body.tokens);
  }

  /** `|request: &Request| -> Result<Response, ResponseError>` before the closure body. */
  const ClosureHead: seq<Tok> :=
    [Punct('|'), Ident("request"), Punct(':'), Punct('&'), Ident("Request"), Punct('|'), Punct('-'), Punct('>'),
     Ident("Result"), Punct('<'), Ident("Response"), Punct(','), Ident("ResponseError"), Punct('>')]

  const BoxNew: seq<Tok> := [Ident("Box"), Punct(':'), Punct(':'), Ident("new")]

  /** `(Box::new(<closure calling ident(request)>))` */
  function CallTokens(ident: string): Tok {
    Group(Paren, BoxNew + [Group(Paren, ClosureHead + [Group(Brace, [Ident(ident), Group(Paren, [Ident("request")])])])])
  }

  /** The fields of a generated `Method { .. }`. */
  function MethodFields(m: MethodData): seq<Tok> {
    [Ident("name"), Punct(':'), Str(m.name), Punct(','),
     Ident("call"), Punct(':'), Ident("Some"), CallTokens(m.ident), Punct(','),
     Ident("extensions"), Punct(':'), MapBlock(m.extensions), Punct(',')]
  }

  function MethodTokens(m: MethodData): seq<Tok> {
    [Ident("Method"), Group(Brace, MethodFields(m))]
  }

  /** `ToTokens for MethodData`. */
  method EmitMethod(m: MethodData, out: TokenStream)
    modifies out
    ensures out.tokens == old(out.tokens) + MethodTokens(m)
  {
    var block := BuildMapBlock(m.extensions);
    var fields := new TokenStream();
    fields.Extend([Ident("name"), Punct(':'), Str(m.name), Punct(','),
                   Ident("call"), Punct(':'), Ident("Some"), CallTokens(m.ident), Punct(','),
                   Ident("extensions"), Punct(':'), block, Punct(',')]);
    assert fields.tokens == MethodFields(m);
    out.Append(Ident("Method"));
    out.Append(Group(Brace, fields.tokens));
  }

  /** Methods in module order, each followed by a comma. */
  function MethodList(ms: seq<MethodData>): seq<Tok> {
    if ms == [] then [] else MethodTokens(ms[0]) + [Punct(',')] + MethodList(ms[1..])
  }

  lemma {:induction false} MethodListAppend(ms: seq<MethodData>, m: MethodData)
    ensures MethodList(ms + [m]) == MethodList(ms) + MethodTokens(m) + [Punct(',')]
    decreases |ms|
  {
    if ms == [] {
      assert MethodList([m]) == MethodTokens(m) + [Punct(',')] + MethodList([]);
    } else {
      assert (ms + [m])[1..] == ms[1..] + [m];
      MethodListAppend(ms[1..], m);
    }
  }

  function ModuleFields(md: ModuleData): seq<Tok> {
    [Ident("name"), Punct(':'), Str(md.name), Punct(','),
     Ident("methods"), Punct(':'), Ident("vec"), Punct('!'), Group(Bracket, MethodList(md.methods)), Punct(','),
     Ident("extensions"), Punct(':'), MapBlock(md.extensions), Punct(',')]
  }

  function ModuleTokens(md: ModuleData): seq<Tok> {
    [Ident("Module"), Group(Brace, ModuleFields(md))]
  }

  /** The `vec![..]` contents: each method's tokens and a comma, in module order. */
  method EmitMethodList(ms: seq<MethodData>) returns (list: TokenStream)
    ensures fresh(list) && list.tokens == MethodList(ms)
  {
    list := new TokenStream();
    var i := 0;
    while i < |ms|
      invariant 0 <= i <= |ms|
      invariant fresh(list) && list.tokens == MethodList(ms[..i])
    {
      EmitMethod(ms[i], list);
      list.Append(Punct(','));
      MethodListAppend(ms[..i], ms[i]);
      assert ms[..i + 1] == ms[..i] + [ms[i]];
      i := i + 1;
    }
    assert ms[..i] == ms;
  }

  /** `ToTokens for ModuleData`. */
  method EmitModule(md: ModuleData, out: TokenStream)
    modifies out
    ensures out.tokens == old(out.tokens) + ModuleTokens(md)
  {
    var list := EmitMethodList(md.methods);
    var block := BuildMapBlock(md.extensions);
    var fields := new TokenStream();
    fields.Extend([Ident("name"), Punct(':'), Str(md.name), Punct(','),
                   Ident("methods"), Punct(':'), Ident("vec"), Punct('!'), Group(Bracket, list.tokens), Punct(','),
                   Ident("extensions"), Punct(':'), block, Punct(',')]);
    assert fields.tokens == ModuleFields(md);
    out.Append(Ident("Module"));
    out.Append(Group(Brace, fields.tokens));
  }

  // Reading the emitted code back.

  /** The pairs of a run of insert statements; `None` if it is anything else. */
  function DecodeInserts(toks: seq<Tok>): Option<seq<KV>>
    decreases |toks|
  {
    if toks == [] then Some([])
    else if && |toks| >= 5 && toks[..3] == [Ident("hm"), Punct('.'), Ident("insert")] && toks[4] == Punct(';')
            && toks[3].Group? && toks[3].delim == Paren && |toks[3].stream| == 3
            && toks[3].stream[0].Str? && toks[3].stream[1] == Punct(',') && toks[3].stream[2].Str?
    then
      match DecodeInserts(toks[5..])
      case None => None
      case Some(rest) => Some([KV(toks[3].stream[0].value, toks[3].stream[2].value)] + rest)
    else None
  }

  /** The pairs of an `extensions` block. */
  function DecodeMapBlock(t: Tok): Option<seq<KV>> {
    if && t.Group? && t.delim == Brace && |t.stream| >= |MapPrelude| + 1
       && t.stream[..|MapPrelude|] == MapPrelude && t.stream[|t.stream| - 1] == Ident("hm")
    then DecodeInserts(t.stream[|MapPrelude|..|t.stream| - 1])
    else None
  }

  /** The function a `call` field's closure calls. */
  function CallTarget(t: Tok): Option<string> {
    if && t.Group? && t.delim == Paren && |t.stream| == 5 && t.stream[..4] == BoxNew
       && t.stream[4].Group? && t.stream[4].delim == Paren && |t.stream[4].stream| == 15
       && t.stream[4].stream[..14] == ClosureHead
       && t.stream[4].stream[14].Group? && t.stream[4].stream[14].delim == Brace
       && |t.stream[4].stream[14].stream| == 2 && t.stream[4].stream[14].stream[0].Ident?
       && t.stream[4].stream[14].stream[1] == Group(Paren, [Ident("request")])
    then Some(t.stream[4].stream[14].stream[0].name)
    else None
  }

  /** A generated `Method { .. }`: its name field, the function its closure calls, and its extensions. */
  function DecodeMethod(toks: seq<Tok>): Option<MethodData> {
    if && |toks| == 2 && toks[0] == Ident("Method") && toks[1].Group? && toks[1].delim == Brace
       && var f := toks[1].stream;
          && |f| == 13 && f[0] == Ident("name") && f[1] == Punct(':') && f[2].Str? && f[3] == Punct(',')
          && f[4] == Ident("call") && f[5] == Punct(':') && f[6] == Ident("Some") && CallTarget(f[7]).Some?
          && f[8] == Punct(',') && f[9] == Ident("extensions") && f[10] == Punct(':') && DecodeMapBlock(f[11]).Some?
          && f[12] == Punct(',')
    then
      var f := toks[1].stream;
      Some(MethodData(f[2].value, CallTarget(f[7]).value, DecodeMapBlock(f[11]).value))
    else None
  }

  /** A list of generated methods, each followed by a comma. */
  function DecodeMethods(toks: seq<Tok>): Option<seq<MethodData>>
    decreases |toks|
  {
    if toks == [] then Some([])
    else if |toks| >= 3 && toks[2] == Punct(',') && DecodeMethod(toks[..2]).Some? then
      match DecodeMethods(toks[3..])
      case None => None
      case Some(rest) => Some([DecodeMethod(toks[..2]).value] + rest)
    else None
  }

  /** A generated `Module { .. }`: its name, extensions and methods. */
  function DecodeModule(toks: seq<Tok>): Option<(string, seq<KV>, seq<MethodData>)> {
    if && |toks| == 2 && toks[0] == Ident("Module") && toks[1].Group? && toks[1].delim == Brace
       && var f := toks[1].stream;
          && |f| == 14 && f[0] == Ident("name") && f[1] == Punct(':') && f[2].Str? && f[3] == Punct(',')
          && f[4] == Ident("methods") && f[5] == Punct(':') && f[6] == Ident("vec") && f[7] == Punct('!')
          && f[8].Group? && f[8].delim == Bracket && DecodeMethods(f[8].stream).Some?
          && f[9] == Punct(',') && f[10] == Ident("extensions") && f[11] == Punct(':') && DecodeMapBlock(f[12]).Some?
          && f[13] == Punct(',')
    then
      var f := toks[1].stream;
      Some((f[2].value, DecodeMapBlock(f[12]).value, DecodeMethods(f[8].stream).value))
    else None
  }

  /** One `hm.insert` per pair, in source order: the inserts read back as exactly the pairs. */
  lemma {:induction false} InsertsRoundTrip(kvs: seq<KV>)
    ensures DecodeInserts(Inserts(kvs)) == Some(kvs)
    decreases |kvs|
  {
    if kvs != [] {
      var toks := Inserts(kvs);
      assert toks[..3] == [Ident("hm"), Punct('.'), Ident("insert")];
      assert toks[5..] == Inserts(kvs[1..]);
      InsertsRoundTrip(kvs[1..]);
      assert [kvs[0]] + kvs[1..] == kvs;
    }
  }

  /** Only emitted insert runs decode: whatever reads back as `kvs` is `Inserts(kvs)`. */
  lemma {:induction false} InsertsExact(toks: seq<Tok>, kvs: seq<KV>)
    requires DecodeInserts(toks) == Some(kvs)
    ensures toks == Inserts(kvs)
    decreases |toks|
  {
    if toks != [] {
      var kv := KV(toks[3].stream[0].value, toks[3].stream[2].value);
      var rest := DecodeInserts(toks[5..]).value;
      InsertsExact(toks[5..], rest);
      InsertHead(toks, kv);
      assert kvs == [kv] + rest;
      assert kvs[1..] == rest;
    }
  }

  /** A run that starts with a well-formed insert starts with that pair's insert statement. */
  lemma InsertHead(toks: seq<Tok>, kv: KV)
    requires |toks| >= 5 && toks[..3] == [Ident("hm"), Punct('.'), Ident("insert")] && toks[4] == Punct(';')
    requires toks[3].Group? && toks[3].delim == Paren && |toks[3].stream| == 3
    requires toks[3].stream[0] == Str(kv.key) && toks[3].stream[1] == Punct(',') && toks[3].stream[2] == Str(kv.value)
    ensures toks == InsertTokens(kv) + toks[5..]
  {
    assert toks[3].stream == KVTokens(kv);
    assert toks[3] == Group(Paren, KVTokens(kv));
    assert toks == toks[..3] + [toks[3], toks[4]] + toks[5..];
  }

  lemma MapBlockRoundTrip(kvs: seq<KV>)
    ensures DecodeMapBlock(MapBlock(kvs)) == Some(kvs)
  {
    var s := MapBlock(kvs).stream;
    assert s[..|MapPrelude|] == MapPrelude;
    assert s[|MapPrelude|..|s| - 1] == Inserts(kvs);
    InsertsRoundTrip(kvs);
  }

  /** An `extensions` block holds no insert exactly when there are no extensions. */
  lemma EmptyMapBlock(t: Tok)
    ensures MapBlock([]) == Group(Brace, MapPrelude + [Ident("hm")])
    ensures DecodeMapBlock(t) == Some([]) <==> t == MapBlock([])
  {
    assert MapPrelude + Inserts([]) + [Ident("hm")] == MapPrelude + [Ident("hm")];
    if DecodeMapBlock(t) == Some([]) {
      var s := t.stream;
      InsertsExact(s[|MapPrelude|..|s| - 1], []);
      assert s == s[..|MapPrelude|] + s[|MapPrelude|..|s| - 1] + [s[|s| - 1]];
    }
    if t == MapBlock([]) {
      MapBlockRoundTrip([]);
    }
  }

  lemma CallTargetRoundTrip(ident: string)
    ensures CallTarget(CallTokens(ident)) == Some(ident)
  {
    var t := CallTokens(ident);
    assert t.stream[..4] == BoxNew;
    assert t.stream[4].stream[..14] == ClosureHead;
  }

  /**
   * The generated method carries `MethodData.name` in its `name` field, a
   * closure calling the original identifier, and the extensions in order.
   */
  lemma MethodRoundTrip(m: MethodData)
    ensures DecodeMethod(MethodTokens(m)) == Some(m)
  {
    MethodFieldsShape(m);
    CallTargetRoundTrip(m.ident);
    MapBlockRoundTrip(m.extensions);
    MethodFieldsDecode(MethodFields(m), m.name, CallTokens(m.ident), MapBlock(m.extensions));
  }

  lemma MethodFieldsShape(m: MethodData)
    ensures var f := MethodFields(m);
      && |f| == 13 && f[0] == Ident("name") && f[1] == Punct(':') && f[2] == Str(m.name) && f[3] == Punct(',')
      && f[4] == Ident("call") && f[5] == Punct(':') && f[6] == Ident("Some") && f[7] == CallTokens(m.ident)
      && f[8] == Punct(',') && f[9] == Ident("extensions") && f[10] == Punct(':') && f[11] == MapBlock(m.extensions)
      && f[12] == Punct(',')
  {
  }

  /** A method frame whose fields hold any closure and extensions block that decode reads back as their decodings. */
  lemma MethodFieldsDecode(f: seq<Tok>, name: string, call: Tok, block: Tok)
    requires |f| == 13 && f[0] == Ident("name") && f[1] == Punct(':') && f[2] == Str(name) && f[3] == Punct(',')
    requires f[4] == Ident("call") && f[5] == Punct(':') && f[6] == Ident("Some") && f[7] == call
    requires f[8] == Punct(',') && f[9] == Ident("extensions") && f[10] == Punct(':') && f[11] == block
    requires f[12] == Punct(',')
    requires CallTarget(call).Some? && DecodeMapBlock(block).Some?
    ensures DecodeMethod([Ident("Method"), Group(Brace, f)])
      == Some(MethodData(name, CallTarget(call).value, DecodeMapBlock(block).value))
  {
  }

  /** Methods come out in module order, each followed by a comma. */
  lemma {:induction false} MethodListRoundTrip(ms: seq<MethodData>)
    ensures DecodeMethods(MethodList(ms)) == Some(ms)
    decreases |ms|
  {
    if ms != [] {
      MethodListRoundTrip(ms[1..]);
      MethodListCons(ms);
    }
  }

  /** The list reads back whole once its tail does. */
  lemma MethodListCons(ms: seq<MethodData>)
    requires ms != [] && DecodeMethods(MethodList(ms[1..])) == Some(ms[1..])
    ensures DecodeMethods(MethodList(ms)) == Some(ms)
  {
    DecodeMethodsCons(MethodList(ms), ms[0], MethodList(ms[1..]));
    assert [ms[0]] + ms[1..] == ms;
  }

  /** One generated method and its comma, then the rest of the list. */
  lemma DecodeMethodsCons(toks: seq<Tok>, m: MethodData, tail: seq<Tok>)
    requires toks == MethodTokens(m) + [Punct(',')] + tail
    ensures DecodeMethods(toks) == if DecodeMethods(tail).Some? then Some([m] + DecodeMethods(tail).value) else None
  {
    assert toks[..2] == MethodTokens(m);
    MethodRoundTrip(m);
    assert toks[3..] == tail;
  }

  /** The generated module reads back as its name, its extensions and its methods. */
  lemma ModuleRoundTrip(md: ModuleData)
    ensures DecodeModule(ModuleTokens(md)) == Some((md.name, md.extensions, md.methods))
  {
    ModuleFieldsShape(md);
    MethodListRoundTrip(md.methods);
    MapBlockRoundTrip(md.extensions);
    ModuleFieldsDecode(ModuleFields(md), md.name, MethodList(md.methods), MapBlock(md.extensions));
  }

  lemma ModuleFieldsShape(md: ModuleData)
    ensures var f := ModuleFields(md);
      && |f| == 14 && f[0] == Ident("name") && f[1] == Punct(':') && f[2] == Str(md.name) && f[3] == Punct(',')
      && f[4] == Ident("methods") && f[5] == Punct(':') && f[6] == Ident("vec") && f[7] == Punct('!')
      && f[8] == Group(Bracket, MethodList(md.methods)) && f[9] == Punct(',') && f[10] == Ident("extensions")
      && f[11] == Punct(':') && f[12] == MapBlock(md.extensions) && f[13] == Punct(',')
  {
  }

  /** A module frame whose fields hold any decodable method list and extensions block reads back as their decodings. */
  lemma ModuleFieldsDecode(f: seq<Tok>, name: string, list: seq<Tok>, block: Tok)
    requires |f| == 14 && f[0] == Ident("name") && f[1] == Punct(':') && f[2] == Str(name) && f[3] == Punct(',')
    requires f[4] == Ident("methods") && f[5] == Punct(':') && f[6] == Ident("vec") && f[7] == Punct('!')
    requires f[8] == Group(Bracket, list) && f[9] == Punct(',') && f[10] == Ident("extensions") && f[11] == Punct(':')
    requires f[12] == block && f[13] == Punct(',')
    requires DecodeMethods(list).Some? && DecodeMapBlock(block).Some?
    ensures DecodeModule([Ident("Module"), Group(Brace, f)])
      == Some((name, DecodeMapBlock(block).value, DecodeMethods(list).value))
  {
  }
}
