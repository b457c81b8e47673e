/** WorkflowContext and VariableResolver of apps/api/workflow/context.py. */
module Contexts {
  import opened Values
  import opened Sequences
  import opened References

  /** The contents of the six dictionaries of a context. */
  datatype Context = Context(
    outputs: map<string, Value>,
    artifacts: map<string, Value>,
    assets: map<string, Value>,
    images: map<string, Value>,
    videos: map<string, Value>,
    variables: map<string, Value>)

  const EMPTY := Context(map[], map[], map[], map[], map[], map[])

  /** dict.get, where a stored None is the same as no entry. */
  function Find(m: map<string, Value>, key: string): Option<Value> {
    if key in m && m[key] != Null then Some(m[key]) else None
  }

  /** Holds the state of one workflow execution. */
  class WorkflowContext {
    var outputs: map<string, Value>
    var artifacts: map<string, Value>
    var assets: map<string, Value>
    var images: map<string, Value>
    var videos: map<string, Value>
    var variables: map<string, Value>

    function View(): Context
      reads this
    {
      Context(outputs, artifacts, assets, images, videos, variables)
    }

    constructor ()
      ensures View() == EMPTY
    {
      outputs, artifacts, assets, images, videos, variables := map[], map[], map[], map[], map[], map[];
    }

    method SetStepOutput(key: string, output: Value)
      modifies this`outputs
      ensures View() == old(View()).(outputs := old(outputs)[key := output])
    {
      outputs := outputs[key := output];
    }

    method SetStepArtifact(key: string, artifact: Value)
      modifies this`artifacts
      ensures View() == old(View()).(artifacts := old(artifacts)[key := artifact])
    {
      artifacts := artifacts[key := artifact];
    }

    method SetStepAsset(key: string, asset: Value)
      modifies this`assets
      ensures View() == old(View()).(assets := old(assets)[key := asset])
    {
      assets := assets[key := asset];
    }

    method SetStepImage(key: string, image: Value)
      modifies this`images
      ensures View() == old(View()).(images := old(images)[key := image])
    {
      images := images[key := image];
    }

    method SetStepVideo(key: string, video: Value)
      modifies this`videos
      ensures View() == old(View()).(videos := old(videos)[key := video])
    {
      videos := videos[key := video];
    }

    method SetVariable(key: string, v: Value)
      modifies this`variables
      ensures View() == old(View()).(variables := old(variables)[key := v])
    {
      variables := variables[key := v];
    }
  }

  /** VariableResolver._resolve_value: the namespace is chosen by the suffix; a bare name is
      a variable first and a step output second. */
  function Lookup(c: Context, ref: Reference): Option<Value> {
    match ref.suffix
    case Some(s) =>
      if s == "artifact" then Find(c.artifacts, ref.id)
      else if s == "asset" then Find(c.assets, ref.id)
      else if s == "image" then Find(c.images, ref.id)
      else if s == "video" then Find(c.videos, ref.id)
      else Find(c.outputs, ref.id)
    case None =>
      var v := Find(c.variables, ref.id);
      if v.Some? then v else Find(c.outputs, ref.id)
  }

  /** VariableResolver.resolve: one left-to-right pass; the error carries the first
      reference that has no value. */
  function Resolve(h: Host, c: Context, t: string): Result<string, string> {
    if t == "" then Ok("")
    else
      match ScanAt(h, t)
      case Match(n, w) =>
        (match Lookup(c, SplitBody(w))
         case None => Err(t[..n])
         case Some(v) =>
           var rest :- Resolve(h, c, t[n..]);
           Ok(h.show(v) + rest))
      case _ =>
        var rest :- Resolve(h, c, t[1..]);
        Ok([t[0]] + rest)
  }

  /** VariableResolver.resolve_to_any: a text that is one reference yields the value itself. */
  function ResolveToAny(h: Host, c: Context, t: string): Result<Value, string> {
    if t == "" then Ok(Str(""))
    else
      var s := Strip(h, t);
      var scan := ScanAt(h, s);
      if scan.Match? && scan.length == |s| then
        match Lookup(c, SplitBody(scan.body))
        case None => Err(t)
        case Some(v) => Ok(v)
      else
        var text :- Resolve(h, c, t);
        Ok(Str(text))
  }

  // ----- meaning -----

  predicate Defined(c: Context, token: Token) {
    token.Ref? ==> Lookup(c, token.ref).Some?
  }

  function Spliced(h: Host, c: Context, token: Token): string
    requires Defined(c, token)
  {
    match token
    case Lit(ch) => [ch]
    case Ref(_, ref) => h.show(Lookup(c, ref).value)
  }

  /** Literals kept, values spliced in once. */
  function SpliceAll(h: Host, c: Context, ts: seq<Token>): string
    requires forall i :: 0 <= i < |ts| ==> Defined(c, ts[i])
  {
    if ts == [] then "" else Spliced(h, c, ts[0]) + SpliceAll(h, c, ts[1..])
  }

  /** Index of the first undefined reference, or the number of tokens. */
  function FirstUndefined(c: Context, ts: seq<Token>): (n: nat)
    ensures n <= |ts|
    ensures forall i :: 0 <= i < n ==> Defined(c, ts[i])
    ensures n < |ts| ==> !Defined(c, ts[n])
  {
    if ts == [] || !Defined(c, ts[0]) then 0 else 1 + FirstUndefined(c, ts[1..])
  }

  /** The literals with the values spliced in, or the first undefined reference. */
  function Meaning(h: Host, c: Context, ts: seq<Token>): Result<string, string> {
    var n := FirstUndefined(c, ts);
    if n == |ts| then Ok(SpliceAll(h, c, ts)) else Err(Text(ts[n]))
  }

  /** resolve succeeds exactly when every reference of the text is defined, returns the
      literals with the values spliced in and never rescanned, and otherwise names the
      first undefined reference. */
  lemma {:induction false} ResolveIsSplice(h: Host, c: Context, t: string)
    ensures Resolve(h, c, t) == Meaning(h, c, Tokens(h, t))
    decreases |t|
  {
    if t != "" {
      var ts := Tokens(h, t);
      var rest := t[Width(h, t)..];
      ResolveIsSplice(h, c, rest);
      assert ts[1..] == Tokens(h, rest);
      assert ts[0] == First(h, t);
    }
  }

  lemma {:induction false} DefinedIffReferences(c: Context, ts: seq<Token>)
    ensures FirstUndefined(c, ts) == |ts| <==> forall r :: r in Refs(ts) ==> Lookup(c, r).Some?
  {
    if ts != [] {
      DefinedIffReferences(c, ts[1..]);
      var head := if ts[0].Ref? then [ts[0].ref] else [];
      assert Refs(ts) == head + Refs(ts[1..]);
      assert forall r :: r in Refs(ts) <==> r in head || r in Refs(ts[1..]);
      if ts[0].Ref? {
        assert ts[0].ref in head;
      }
    }
  }

  /** resolve succeeds exactly when every reference has a value. */
  lemma ResolveSucceeds(h: Host, c: Context, t: string)
    ensures Resolve(h, c, t).Ok? <==> forall r :: r in RefsIn(h, t) ==> Lookup(c, r).Some?
  {
    ResolveIsSplice(h, c, t);
    DefinedIffReferences(c, Tokens(h, t));
  }

  /** What follows a is resolved by itself; the first failure counts. */
  ghost predicate ResolvesApart(h: Host, c: Context, a: string, b: string) {
    Resolve(h, c, a + b) ==
      if Resolve(h, c, a).Err? then Resolve(h, c, a)
      else if Resolve(h, c, b).Err? then Resolve(h, c, b)
      else Ok(Resolve(h, c, a).value + Resolve(h, c, b).value)
  }

  lemma ResolveConcat(h: Host, c: Context, a: string, b: string)
    requires Decided(h, a)
    ensures ResolvesApart(h, c, a, b)
  {
    TokensConcat(h, a, b);
    ResolveIsSplice(h, c, a);
    ResolveIsSplice(h, c, b);
    ResolveIsSplice(h, c, a + b);
    MeaningConcat(h, c, Tokens(h, a), Tokens(h, b));
  }

  lemma MeaningConcat(h: Host, c: Context, a: seq<Token>, b: seq<Token>)
    ensures Meaning(h, c, a + b) ==
              if Meaning(h, c, a).Err? then Meaning(h, c, a)
              else if Meaning(h, c, b).Err? then Meaning(h, c, b)
              else Ok(Meaning(h, c, a).value + Meaning(h, c, b).value)
  {
    FirstUndefinedConcat(c, a, b);
    if FirstUndefined(c, a) == |a| && FirstUndefined(c, b) == |b| {
      SpliceConcat(h, c, a, b);
    }
  }

  lemma {:induction false} FirstUndefinedConcat(c: Context, a: seq<Token>, b: seq<Token>)
    ensures FirstUndefined(c, a + b) ==
              if FirstUndefined(c, a) < |a| then FirstUndefined(c, a) else |a| + FirstUndefined(c, b)
  {
    if a == [] {
      assert a + b == b;
    } else {
      FirstUndefinedConcat(c, a[1..], b);
      DropAppend(a, b, 1);
    }
  }

  lemma {:induction false} SpliceConcat(h: Host, c: Context, a: seq<Token>, b: seq<Token>)
    requires forall i :: 0 <= i < |a| ==> Defined(c, a[i])
    requires forall i :: 0 <= i < |b| ==> Defined(c, b[i])
    ensures SpliceAll(h, c, a + b) == SpliceAll(h, c, a) + SpliceAll(h, c, b)
  {
    if a == [] {
      assert a + b == b;
    } else {
      SpliceConcat(h, c, a[1..], b);
      DropAppend(a, b, 1);
      Associate(Spliced(h, c, a[0]), SpliceAll(h, c, a[1..]), SpliceAll(h, c, b));
    }
  }

  /** A context in which these identifiers have the empty text as their value. */
  function Blanks(ids: set<string>): Context {
    var m := map id | id in ids :: Str("");
    Context(m, m, m, m, m, m)
  }

  function Ids(refs: seq<Reference>): set<string> {
    set r | r in refs :: r.id
  }

  lemma {:induction false} BlanksSplice(h: Host, ids: set<string>, ts: seq<Token>)
    requires Ids(Refs(ts)) <= ids
    ensures FirstUndefined(Blanks(ids), ts) == |ts|
    ensures |SpliceAll(h, Blanks(ids), ts)| == Literals(ts)
  {
    if ts != [] {
      var head := if ts[0].Ref? then [ts[0].ref] else [];
      assert Refs(ts) == head + Refs(ts[1..]);
      forall r | r in head || r in Refs(ts[1..])
        ensures r.id in ids
      {
        assert r in Refs(ts);
        assert r.id in Ids(Refs(ts));
      }
      if ts[0].Ref? {
        assert ts[0].ref in head;
      }
      BlanksSplice(h, ids, ts[1..]);
    }
  }

  lemma BlanksResolve(h: Host, ids: set<string>, t: string)
    requires Ids(RefsIn(h, t)) <= ids
    ensures Resolve(h, Blanks(ids), t).Ok? && |Resolve(h, Blanks(ids), t).value| == Literals(Tokens(h, t))
  {
    ResolveIsSplice(h, Blanks(ids), t);
    BlanksSplice(h, ids, Tokens(h, t));
  }

  lemma UndecidedNeverApart(h: Host, a: string) returns (c: Context, b: string)
    requires !Decided(h, a)
    ensures !ResolvesApart(h, c, a, b)
  {
    b := UndecidedBreaks(h, a);
    var ids := Ids(RefsIn(h, a)) + Ids(RefsIn(h, b)) + Ids(RefsIn(h, a + b));
    c := Blanks(ids);
    BlanksResolve(h, ids, a);
    BlanksResolve(h, ids, b);
    BlanksResolve(h, ids, a + b);
  }

  /** resolve distributes over concatenation, failures included, for every context and every
      following text exactly when no attempt at a reference runs off the end of the left part. */
  lemma ResolveConcatIff(h: Host, a: string)
    ensures Decided(h, a) <==> forall c, b :: ResolvesApart(h, c, a, b)
  {
    if Decided(h, a) {
      forall c, b
        ensures ResolvesApart(h, c, a, b)
      {
        ResolveConcat(h, c, a, b);
      }
    } else {
      var c, b := UndecidedNeverApart(h, a);
    }
  }

  /** On a single reference resolve_to_any returns the value whose string form is what
      resolve makes of the stripped text, and fails when resolve does. */
  lemma AnyAgreesOnReference(h: Host, c: Context, t: string, ref: Reference)
    requires IsReference(h, Strip(h, t), ref)
    ensures ResolveToAny(h, c, t).Ok? <==> Resolve(h, c, Strip(h, t)).Ok?
    ensures ResolveToAny(h, c, t).Ok? ==>
              && Lookup(c, ref) == Some(ResolveToAny(h, c, t).value)
              && h.show(ResolveToAny(h, c, t).value) == Resolve(h, c, Strip(h, t)).value
  {
    var s := Strip(h, t);
    assert s[..|s|] == s && s[|s|..] == "";
    ScanIsRegex(h, s, |s|, ref);
    assert t != "";
    ResolveWhole(h, c, s);
  }

  lemma ResolveWhole(h: Host, c: Context, s: string)
    requires s != "" && ScanAt(h, s).Match? && ScanAt(h, s).length == |s|
    ensures var v := Lookup(c, SplitBody(ScanAt(h, s).body));
            Resolve(h, c, s) == if v.Some? then Ok(h.show(v.value)) else Err(s)
  {
    var tail := s[|s|..];
    assert s[..|s|] == s && tail == "";
    assert Resolve(h, c, tail) == Ok("");
    var v := Lookup(c, SplitBody(ScanAt(h, s).body));
    if v.Some? {
      assert h.show(v.value) + "" == h.show(v.value);
      assert Resolve(h, c, s) == Ok(h.show(v.value) + "");
    }
  }

  /** On any other text resolve_to_any is resolve. */
  lemma AnyAgreesOnText(h: Host, c: Context, t: string)
    requires forall ref :: !IsReference(h, Strip(h, t), ref)
    ensures ResolveToAny(h, c, t).Ok? <==> Resolve(h, c, t).Ok?
    ensures ResolveToAny(h, c, t).Ok? ==> ResolveToAny(h, c, t).value == Str(Resolve(h, c, t).value)
  {
    var s := Strip(h, t);
    var scan := ScanAt(h, s);
    if scan.Match? && scan.length == |s| {
      assert s[..|s|] == s;
      ScanIsRegex(h, s, |s|, SplitBody(scan.body));
      assert false;
    }
  }
}
