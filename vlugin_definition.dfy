/** `VluginDef`: how a plugin is named, mounted and configured (src/runtime/vlugin_definition.rs). */
module VluginDefinition {
  import opened Wrappers
  import opened Text

  /** A plugin's JSON configuration, kept as its text. */
  type VluginConfig = string

  datatype VluginType =
    | Static                      // comes with the runtime
    | Native(path: Option<string>) // natively compiled
    | Web(url: string)            // web script or WASM

  datatype VluginDef = VluginDef(name: string, prefix: Option<string>, kind: VluginType, config: Option<VluginConfig>)

  /** The characters `prefix_or_name` trims from both ends. */
  const MountTrim: set<char> := {'/', ' '}

  /** The string the mount point is derived from: the prefix when set, otherwise the name. */
  function MountSource(def: VluginDef): (r: string)
    ensures def.prefix.Some? ==> r == def.prefix.value
    ensures def.prefix.None? ==> r == def.name
  {
    def.prefix.GetOr(def.name)
  }

  /** `prefix_or_name`: the mount source with `/` and spaces trimmed off both ends. */
  function PrefixOrName(def: VluginDef): (r: string)
    ensures r == [] || (r[0] !in MountTrim && r[|r| - 1] !in MountTrim)
  {
    var t := TrimStart(MountSource(def), MountTrim);
    var r := TrimEnd(t, MountTrim);
    assert r != [] ==> r[0] == t[0];
    r
  }

  /**
   * The mount point is one contiguous piece of the mount source, and only
   * trimmed characters lie outside it.
   */
  lemma PrefixOrNameIsInfix(def: VluginDef) returns (i: nat)
    ensures var s, r := MountSource(def), PrefixOrName(def);
      && i + |r| <= |s| && s[i..i + |r|] == r
      && (forall k :: 0 <= k < i ==> s[k] in MountTrim)
      && (forall k :: i + |r| <= k < |s| ==> s[k] in MountTrim)
  {
    i := TrimmedIsInfix(MountSource(def), MountTrim, PrefixOrName(def));
  }

  lemma TrimmedIsInfix(s: string, cs: set<char>, r: string) returns (i: nat)
    requires r == TrimEnd(TrimStart(s, cs), cs)
    ensures i + |r| <= |s| && s[i..i + |r|] == r
    ensures forall k :: 0 <= k < i ==> s[k] in cs
    ensures forall k :: i + |r| <= k < |s| ==> s[k] in cs
  {
    var t := TrimStart(s, cs);
    i := |s| - |t|;
    PrefixOfSuffix(s, t, r, i, cs);
  }

  /** `r` opens the suffix `t` of `s` that starts at `i`, and `t` goes on only with characters of `cs`. */
  lemma PrefixOfSuffix(s: string, t: string, r: string, i: nat, cs: set<char>)
    requires i <= |s| && t == s[i..] && |r| <= |t| && r == t[..|r|]
    requires forall k :: |r| <= k < |t| ==> t[k] in cs
    ensures i + |r| <= |s| && s[i..i + |r|] == r
    ensures forall k :: i + |r| <= k < |s| ==> s[k] in cs
  {
    assert s[i..i + |r|] == t[..|r|];
    forall k | i + |r| <= k < |s|
      ensures s[k] in cs
    {
      assert s[k] == t[k - i];
    }
  }

  /** Trimming an already trimmed string changes nothing. */
  lemma TrimOfTrimmed(s: string, cs: set<char>)
    requires s == [] || (s[0] !in cs && s[|s| - 1] !in cs)
    ensures Trim(s, cs) == s
  {
  }

  /** `prefix_or_name` is idempotent: a definition mounted at its own result mounts at the same place. */
  lemma PrefixOrNameIdempotent(def: VluginDef)
    ensures PrefixOrName(def.(prefix := Some(PrefixOrName(def)))) == PrefixOrName(def)
  {
    TrimOfTrimmed(PrefixOrName(def), MountTrim);
  }

  /** `From<&str>`: a static plugin mounted at `_<name>`, with no configuration. */
  function FromName(name: string): (r: VluginDef)
    ensures r.name == name && r.prefix == Some("_" + name) && r.kind == Static && r.config == None
  {
    VluginDef(name, Some("_" + name), Static, None)
  }

  /** `From<(&str, &str)>`: the prefix is stored verbatim; trimming happens only when it is used. */
  function FromPair(name: string, prefix: string): (r: VluginDef)
    ensures r.name == name && r.prefix == Some(prefix) && r.kind == Static && r.config == None
  {
    VluginDef(name, Some(prefix), Static, None)
  }

  /** A plugin built from a name that does not end in `/` or a space is mounted at exactly `_<name>`. */
  lemma FromNameMountPoint(name: string)
    requires name == [] || name[|name| - 1] !in MountTrim
    ensures PrefixOrName(FromName(name)) == "_" + name
  {
    var s := "_" + name;
    assert s[0] == '_';
    assert s[|s| - 1] !in MountTrim;
    TrimOfTrimmed(s, MountTrim);
  }
}
