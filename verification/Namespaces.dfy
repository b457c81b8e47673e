/** Which dictionary a reference reads, by its suffix. */
module Namespaces {
  import opened Values
  import opened References
  import opened Contexts
  import opened Workflows

  function Printed(key: string, suffix: Option<string>): string {
    "{{" + key + Dotted(suffix) + "}}"
  }

  /** An identifier of the reference language; a bare one does not end in a reserved suffix. */
  ghost predicate Readable(h: Host, key: string, suffix: Option<string>) {
    && key != "" && AllWord(h, key)
    && (suffix.Some? ==> suffix.value in Reserved) && (suffix.None? ==> !EndsReserved(key))
  }

  /** Both resolvers answer t with the value that the dictionary has under this key; a value
      that is None counts as none. */
  ghost predicate Reads(h: Host, c: Context, t: string, values: map<string, Value>, key: string) {
    if key in values && values[key] != Null
    then ResolveToAny(h, c, t) == Ok(values[key]) && Resolve(h, c, t) == Ok(h.show(values[key]))
    else ResolveToAny(h, c, t) == Err(t) && Resolve(h, c, t) == Err(t)
  }

  lemma PrintedScans(h: Host, key: string, suffix: Option<string>)
    requires Readable(h, key, suffix)
    ensures var t := Printed(key, suffix);
            && Strip(h, t) == t && ScanAt(h, t).Match? && ScanAt(h, t).length == |t|
            && SplitBody(ScanAt(h, t).body) == Reference(key, suffix)
  {
    var t, ref := Printed(key, suffix), Reference(key, suffix);
    PrintedSpells(h, key, suffix);
    PrintParse(h, t, ref, "", "");
    ScanIsRegex(h, t, |t|, ref);
    assert t[..|t|] == t;
  }

  lemma PrintedSpells(h: Host, key: string, suffix: Option<string>)
    requires Readable(h, key, suffix)
    ensures Spelled(h, Printed(key, suffix), Reference(key, suffix), "", "")
    ensures Strip(h, Printed(key, suffix)) == Printed(key, suffix)
  {
    var t := Printed(key, suffix);
    assert t == "{{" + "" + key + Dotted(suffix) + "" + "}}";
    StripTrimmed(h, t);
  }

  lemma PrintedLooksUp(h: Host, c: Context, key: string, suffix: Option<string>)
    requires Readable(h, key, suffix)
    ensures var t, v := Printed(key, suffix), Lookup(c, Reference(key, suffix));
            if v.Some? then ResolveToAny(h, c, t) == Ok(v.value) && Resolve(h, c, t) == Ok(h.show(v.value))
            else ResolveToAny(h, c, t) == Err(t) && Resolve(h, c, t) == Err(t)
  {
    PrintedScans(h, key, suffix);
    ResolveWhole(h, c, Printed(key, suffix));
  }

  function SuffixOf(space: Namespace): string
    requires !space.Variables?
  {
    match space
    case Outputs => "output"
    case Artifacts => "artifact"
    case Assets => "asset"
    case Images => "image"
    case Videos => "video"
  }

  lemma SpaceReads(h: Host, c: Context, space: Namespace, key: string)
    requires !space.Variables? && key != "" && AllWord(h, key)
    ensures Reads(h, c, Printed(key, Some(SuffixOf(space))), Space(c, space), key)
  {
    PrintedLooksUp(h, c, key, Some(SuffixOf(space)));
  }

  /** Every suffix reads its own dictionary and no other. */
  lemma SuffixReads(h: Host, c: Context, key: string)
    requires key != "" && AllWord(h, key)
    ensures Reads(h, c, Printed(key, Some("output")), c.outputs, key)
    ensures Reads(h, c, Printed(key, Some("artifact")), c.artifacts, key)
    ensures Reads(h, c, Printed(key, Some("asset")), c.assets, key)
    ensures Reads(h, c, Printed(key, Some("image")), c.images, key)
    ensures Reads(h, c, Printed(key, Some("video")), c.videos, key)
  {
    SpaceReads(h, c, Outputs, key);
    SpaceReads(h, c, Artifacts, key);
    SpaceReads(h, c, Assets, key);
    SpaceReads(h, c, Images, key);
    SpaceReads(h, c, Videos, key);
  }

  /** A bare name reads the variables first, and the outputs when they have no value. */
  lemma BareNameReads(h: Host, c: Context, key: string)
    requires Readable(h, key, None)
    ensures Reads(h, c, Printed(key, None), if key in c.variables && c.variables[key] != Null then c.variables else c.outputs, key)
  {
    PrintedLooksUp(h, c, key, None);
  }

  /** A value that was published is what its reference resolves to; None takes the old one away. */
  lemma PublishedResolves(h: Host, c: Context, space: Namespace, key: string, v: Value)
    requires key != "" && AllWord(h, key) && (space.Variables? ==> !EndsReserved(key))
    ensures var suffix := if space.Variables? then None else Some(SuffixOf(space));
            var c2, t := Put(c, space, key, v), Printed(key, suffix);
            if v != Null then ResolveToAny(h, c2, t) == Ok(v) && Resolve(h, c2, t) == Ok(h.show(v))
            else if space.Variables? then Reads(h, c2, t, c.outputs, key)
            else ResolveToAny(h, c2, t) == Err(t) && Resolve(h, c2, t) == Err(t)
  {
    var c2 := Put(c, space, key, v);
    if space.Variables? {
      BareNameReads(h, c2, key);
    } else {
      SpaceReads(h, c2, space, key);
    }
  }

  /** Every other suffix, and every other name, resolves as before. */
  lemma OthersResolveAsBefore(h: Host, c: Context, space: Namespace, key: string, v: Value, other: Namespace, name: string)
    requires !other.Variables? && name != "" && AllWord(h, name) && (space != other || key != name)
    ensures var t := Printed(name, Some(SuffixOf(other)));
            && ResolveToAny(h, Put(c, space, key, v), t) == ResolveToAny(h, c, t)
            && Resolve(h, Put(c, space, key, v), t) == Resolve(h, c, t)
  {
    SpaceReads(h, c, other, name);
    SpaceReads(h, Put(c, space, key, v), other, name);
  }

  /** A bare name only changes with a variable of that name, or with an output of that name when
      there is no variable. */
  lemma BareNameKeeps(h: Host, c: Context, space: Namespace, key: string, v: Value, name: string)
    requires Readable(h, name, None)
    requires key != name || (!space.Variables? && (space.Outputs? ==> name in c.variables && c.variables[name] != Null))
    ensures var t := Printed(name, None);
            && ResolveToAny(h, Put(c, space, key, v), t) == ResolveToAny(h, c, t)
            && Resolve(h, Put(c, space, key, v), t) == Resolve(h, c, t)
  {
    BareNameReads(h, c, name);
    BareNameReads(h, Put(c, space, key, v), name);
  }
}
