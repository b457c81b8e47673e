/** The reference language of apps/api/workflow/context.py: {{identifier}},
    {{identifier.output}} and the other reserved suffixes, embedded in arbitrary text.
    ScanAt is the scanner; IsReference is the regular expression read as a relation. */
module References {
  import opened Values
  import opened Sequences

  datatype Reference = Reference(id: string, suffix: Option<string>)

  /** Outcome of one attempt to match the pattern at the front of a text. Incomplete
      means that the text ended before the attempt was decided. */
  datatype Scan = Match(length: nat, body: string) | Mismatch | Incomplete

  function ScanAt(h: Host, t: string): (s: Scan)
    ensures s.Match? ==> 5 <= s.length <= |t| && s.body != "" && AllWord(h, s.body)
  {
    if t == "" then Incomplete
    else if t[0] != '{' then Mismatch
    else if |t| == 1 then Incomplete
    else if t[1] != '{' then Mismatch
    else
      var i := SkipSpaces(h, t, 2);
      var j := SkipWord(h, t, i);
      var k := SkipSpaces(h, t, j);
      if k == |t| then Incomplete
      else if i == j || t[k] != '}' then Mismatch
      else if k + 1 == |t| then Incomplete
      else if t[k + 1] != '}' then Mismatch
      else Match(k + 2, t[i..j])
  }

  /** Position of the last '.' of w, or -1. */
  function LastDot(w: string): (d: int)
    ensures -1 <= d < |w|
    ensures 0 <= d ==> w[d] == '.'
    ensures forall i :: d < i < |w| ==> w[i] != '.'
  {
    if w == "" then -1
    else if w[|w| - 1] == '.' then |w| - 1
    else LastDot(w[..|w| - 1])
  }

  /** The lazy identifier group followed by the optional suffix group. */
  function SplitBody(w: string): Reference {
    var d := LastDot(w);
    if 0 < d && w[d + 1..] in Reserved then Reference(w[..d], Some(w[d + 1..]))
    else Reference(w, None)
  }

  function Dotted(suffix: Option<string>): string {
    match suffix
    case None => ""
    case Some(s) => "." + s
  }

  // ----- the pattern as a relation -----

  ghost predicate Spelled(h: Host, m: string, ref: Reference, left: string, right: string) {
    && m == "{{" + left + ref.id + Dotted(ref.suffix) + right + "}}"
    && AllSpace(h, left) && AllSpace(h, right)
    && ref.id != "" && AllWord(h, ref.id)
    && (ref.suffix.Some? ==> ref.suffix.value in Reserved)
  }

  /** The whole of m is matched with these groups, in some way. */
  ghost predicate Denotes(h: Host, m: string, ref: Reference) {
    exists left, right :: Spelled(h, m, ref, left, right)
  }

  /** The whole of m is matched with these groups, and the lazy group is as short as it can be. */
  ghost predicate IsReference(h: Host, m: string, ref: Reference) {
    && Denotes(h, m, ref)
    && forall other :: Denotes(h, m, other) ==> |ref.id| <= |other.id|
  }

  lemma SkipSpacesTo(h: Host, t: string, i: nat, j: nat)
    requires i <= j < |t| && !h.space(t[j])
    requires AllSpace(h, t[i..j])
    ensures SkipSpaces(h, t, i) == j
  {
  }

  lemma SkipWordTo(h: Host, t: string, i: nat, j: nat)
    requires i <= j < |t| && !h.word(t[j])
    requires AllWord(h, t[i..j])
    ensures SkipWord(h, t, i) == j
  {
  }

  lemma ReservedIsWord(h: Host, s: string)
    requires s in Reserved
    ensures AllWord(h, s)
  {
    assert forall i :: 0 <= i < |s| ==> 'a' <= s[i] <= 'z';
  }

  lemma DottedIsWord(h: Host, ref: Reference)
    requires AllWord(h, ref.id)
    requires ref.suffix.Some? ==> ref.suffix.value in Reserved
    ensures AllWord(h, ref.id + Dotted(ref.suffix))
  {
    if ref.suffix.Some? {
      ReservedIsWord(h, ref.suffix.value);
      DotJoins(h, ref.id, ref.suffix.value);
    }
  }

  lemma DotJoins(h: Host, a: string, b: string)
    requires AllWord(h, a) && AllWord(h, b)
    ensures AllWord(h, a + ("." + b))
  {
  }

  lemma ReservedHasNoDot(s: string)
    requires s in Reserved
    ensures forall i :: 0 <= i < |s| ==> s[i] != '.'
  {
  }

  lemma SpelledParts(h: Host, m: string, ref: Reference, left: string, right: string, rest: string)
    requires Spelled(h, m, ref, left, right)
    ensures var w := ref.id + Dotted(ref.suffix);
            var t := m + rest;
            var i := 2 + |left|;
            var j := i + |w|;
            var k := j + |right|;
            && |m| == k + 2 && t[..2] == "{{" && t[2..i] == left && t[i..j] == w && t[j..k] == right && t[k..k + 2] == "}}"
  {
    var w := ref.id + Dotted(ref.suffix);
    Associate("{{" + left, ref.id, Dotted(ref.suffix));
    assert m == "{{" + left + w + right + "}}";
    Seven(m + rest, "{{", left, w, right, "}}", rest, "");
  }

  /** A text spelled like a reference, followed by anything, is matched at the front, with exactly that extent. */
  lemma ScanSpelled(h: Host, m: string, ref: Reference, left: string, right: string, rest: string)
    requires Spelled(h, m, ref, left, right)
    ensures ScanAt(h, m + rest) == Match(|m|, ref.id + Dotted(ref.suffix))
  {
    DottedIsWord(h, ref);
    SpelledParts(h, m, ref, left, right, rest);
    ScanBody(h, m + rest, left, ref.id + Dotted(ref.suffix), right);
  }

  lemma ScanBody(h: Host, t: string, left: string, w: string, right: string)
    requires AllSpace(h, left) && AllSpace(h, right) && AllWord(h, w) && w != ""
    requires var i := 2 + |left|;
             var j := i + |w|;
             var k := j + |right|;
             k + 2 <= |t| && t[..2] == "{{" && t[2..i] == left && t[i..j] == w && t[j..k] == right && t[k..k + 2] == "}}"
    ensures ScanAt(h, t) == Match(4 + |left| + |w| + |right|, w)
  {
    ScanParts(h, t, 2 + |left|, 2 + |left| + |w|, 2 + |left| + |w| + |right|);
  }

  lemma ScanParts(h: Host, t: string, i: nat, j: nat, k: nat)
    requires 2 <= i < j <= k && k + 2 <= |t|
    requires t[..2] == "{{" && t[k..k + 2] == "}}"
    requires AllSpace(h, t[2..i]) && AllWord(h, t[i..j]) && AllSpace(h, t[j..k])
    ensures ScanAt(h, t) == Match(k + 2, t[i..j])
  {
    assert t[0] == t[..2][0] && t[1] == t[..2][1] && t[k] == t[k..k + 2][0] && t[k + 1] == t[k..k + 2][1];
    assert h.word(t[i]) by {
      assert t[i] == t[i..j][0];
    }
    SkipSpacesTo(h, t, 2, i);
    if j < k {
      assert t[j] == t[j..k][0];
    }
    SkipWordTo(h, t, i, j);
    SkipSpacesTo(h, t, j, k);
  }

  lemma SplitBodyCases(w: string, ref: Reference)
    requires w == ref.id + Dotted(ref.suffix) && ref.id != ""
    requires ref.suffix.Some? ==> ref.suffix.value in Reserved
    ensures SplitBody(w) == ref || (ref.suffix.None? && SplitBody(w).suffix.Some? && |SplitBody(w).id| < |ref.id|)
  {
    if ref.suffix.Some? {
      ReservedHasNoDot(ref.suffix.value);
      assert w[|ref.id|] == '.';
      assert w[|ref.id| + 1..] == ref.suffix.value;
      assert forall i :: |ref.id| < i < |w| ==> w[i] == ref.suffix.value[i - |ref.id| - 1];
      assert LastDot(w) == |ref.id|;
      assert w[..|ref.id|] == ref.id;
    }
  }

  lemma SplitAround(w: string, d: nat)
    requires d < |w| && w[d] == '.'
    ensures w == w[..d] + ("." + w[d + 1..])
  {
  }

  lemma SplitBodyJoins(w: string)
    requires w != ""
    ensures var r := SplitBody(w); r.id != "" && w == r.id + Dotted(r.suffix) && (r.suffix.Some? ==> r.suffix.value in Reserved)
  {
    var d := LastDot(w);
    if 0 < d && w[d + 1..] in Reserved {
      SplitAround(w, d);
    }
  }

  lemma SpellFrom(h: Host, t: string, i: nat, j: nat, k: nat, ref: Reference)
    requires 2 <= i <= j <= k && k + 2 <= |t|
    requires t[0] == t[1] == '{' && t[k] == t[k + 1] == '}'
    requires AllSpace(h, t[2..i]) && AllSpace(h, t[j..k])
    requires ref.id != "" && AllWord(h, ref.id) && (ref.suffix.Some? ==> ref.suffix.value in Reserved)
    requires t[i..j] == ref.id + Dotted(ref.suffix)
    ensures Spelled(h, t[..k + 2], ref, t[2..i], t[j..k])
  {
    BracePieces(t, i, j, k);
    Associate("{{" + t[2..i], ref.id, Dotted(ref.suffix));
  }

  lemma BracePieces(t: string, i: nat, j: nat, k: nat)
    requires 2 <= i <= j <= k && k + 2 <= |t|
    requires t[0] == t[1] == '{' && t[k] == t[k + 1] == '}'
    ensures t[..k + 2] == "{{" + t[2..i] + t[i..j] + t[j..k] + "}}"
  {
  }

  lemma BodyGroups(h: Host, w: string)
    requires w != "" && AllWord(h, w)
    ensures var ref := SplitBody(w);
            && ref.id != "" && AllWord(h, ref.id)
            && w == ref.id + Dotted(ref.suffix)
            && (ref.suffix.Some? ==> ref.suffix.value in Reserved)
  {
    SplitBodyJoins(w);
    var ref := SplitBody(w);
    assert forall x :: 0 <= x < |ref.id| ==> ref.id[x] == w[x];
  }

  /** What a successful attempt consumed spells the reference that it reports. */
  lemma ScanIsSpelled(h: Host, t: string) returns (left: string, right: string)
    requires ScanAt(h, t).Match?
    ensures Spelled(h, t[..ScanAt(h, t).length], SplitBody(ScanAt(h, t).body), left, right)
  {
    var i := SkipSpaces(h, t, 2);
    var j := SkipWord(h, t, i);
    var k := SkipSpaces(h, t, j);
    left, right := t[2..i], t[j..k];
    BodyGroups(h, t[i..j]);
    SpellFrom(h, t, i, j, k, SplitBody(t[i..j]));
  }

  /** The scanner is the regular expression: at the front of any text, a prefix of length n
      matches with these groups exactly when the scanner reports that length and those groups. */
  lemma ScanIsRegex(h: Host, t: string, n: nat, ref: Reference)
    requires n <= |t|
    ensures IsReference(h, t[..n], ref) <==>
              (ScanAt(h, t).Match? && ScanAt(h, t).length == n && SplitBody(ScanAt(h, t).body) == ref)
  {
    var m := t[..n];
    assert t == m + t[n..];
    if IsReference(h, m, ref) {
      var left, right :| Spelled(h, m, ref, left, right);
      ScanSpelled(h, m, ref, left, right, t[n..]);
      var l, r := ScanIsSpelled(h, t);
      assert Denotes(h, m, SplitBody(ScanAt(h, t).body));
      SplitBodyCases(ScanAt(h, t).body, ref);
    }
    if ScanAt(h, t).Match? && ScanAt(h, t).length == n && SplitBody(ScanAt(h, t).body) == ref {
      var l, r := ScanIsSpelled(h, t);
      assert Denotes(h, m, ref);
      forall other | Denotes(h, m, other)
        ensures |ref.id| <= |other.id|
      {
        var left, right :| Spelled(h, m, other, left, right);
        ScanSpelled(h, m, other, left, right, t[n..]);
        SplitBodyCases(ScanAt(h, t).body, other);
      }
    }
  }

  // ----- tokens -----

  datatype Token = Lit(c: char) | Ref(raw: string, ref: Reference)

  /** The first token of a non-empty text, and how much of the text it takes. */
  function First(h: Host, t: string): Token
    requires t != ""
  {
    match ScanAt(h, t)
    case Match(n, w) => Ref(t[..n], SplitBody(w))
    case _ => Lit(t[0])
  }

  function Width(h: Host, t: string): (n: nat)
    requires t != ""
    ensures 1 <= n <= |t|
  {
    match ScanAt(h, t)
    case Match(n, _) => n
    case _ => 1
  }

  function Tokens(h: Host, t: string): seq<Token> {
    if t == "" then [] else [First(h, t)] + Tokens(h, t[Width(h, t)..])
  }

  function Text(token: Token): string {
    match token
    case Lit(c) => [c]
    case Ref(raw, _) => raw
  }

  function Flatten(ts: seq<Token>): string {
    if ts == [] then ""
    else Text(ts[0]) + Flatten(ts[1..])
  }

  /** Leftmost, non-overlapping reading of t: a reference wherever one starts, a literal where none does. */
  ghost predicate Reads(h: Host, t: string, ts: seq<Token>)
    decreases ts
  {
    if ts == [] then t == ""
    else
      match ts[0]
      case Ref(raw, ref) =>
        raw != "" && raw <= t && IsReference(h, raw, ref) && Reads(h, t[|raw|..], ts[1..])
      case Lit(c) =>
        && t != "" && t[0] == c
        && (forall n, ref :: 0 <= n <= |t| ==> !IsReference(h, t[..n], ref))
        && Reads(h, t[1..], ts[1..])
  }

  lemma FirstText(h: Host, t: string)
    requires t != ""
    ensures Text(First(h, t)) + t[Width(h, t)..] == t
  {
  }

  lemma FlattenStep(first: Token, rest: seq<Token>)
    ensures Flatten([first] + rest) == Text(first) + Flatten(rest)
  {
    assert ([first] + rest)[1..] == rest;
  }

  /** Reading a text loses nothing. */
  lemma {:induction false} TokensFlatten(h: Host, t: string)
    ensures Flatten(Tokens(h, t)) == t
  {
    if t != "" {
      TokensFlatten(h, t[Width(h, t)..]);
      FirstText(h, t);
      FlattenStep(First(h, t), Tokens(h, t[Width(h, t)..]));
    }
  }

  /** The token that a reading must begin with. */
  lemma ReadsFirst(h: Host, t: string, first: Token, rest: seq<Token>)
    requires t != ""
    ensures Reads(h, t, [first] + rest) <==> first == First(h, t) && Reads(h, t[Width(h, t)..], rest)
  {
    var s := ScanAt(h, t);
    assert ([first] + rest)[1..] == rest;
    if s.Match? {
      ScanIsRegex(h, t, s.length, SplitBody(s.body));
    }
    forall n, ref | 0 <= n <= |t|
      ensures IsReference(h, t[..n], ref) <==> (s.Match? && s.length == n && SplitBody(s.body) == ref)
    {
      ScanIsRegex(h, t, n, ref);
    }
    if first.Ref? && first.raw <= t {
      assert first.raw == t[..|first.raw|];
    }
  }

  /** Every text has exactly one reading, and Tokens finds it. */
  lemma {:induction false} ReadingUnique(h: Host, t: string, ts: seq<Token>)
    ensures Reads(h, t, ts) <==> ts == Tokens(h, t)
    decreases |t|
  {
    if t != "" && ts != [] {
      assert ts == [ts[0]] + ts[1..];
      ReadsFirst(h, t, ts[0], ts[1..]);
      ReadingUnique(h, t[Width(h, t)..], ts[1..]);
      assert Tokens(h, t)[1..] == Tokens(h, t[Width(h, t)..]);
    }
  }

  // ----- printing -----

  /** id is a non-empty prefix followed by a dot and a reserved word. */
  ghost predicate EndsReserved(id: string) {
    exists prefix, s :: prefix != "" && s in Reserved && id == prefix + "." + s
  }

  /** A printed reference parses back to itself; a reference without suffix does so
      exactly when its identifier does not itself end in a reserved suffix. */
  lemma PrintParse(h: Host, m: string, ref: Reference, left: string, right: string)
    requires Spelled(h, m, ref, left, right)
    ensures Tokens(h, m) == [Ref(m, ref)] <==> (ref.suffix.Some? || !EndsReserved(ref.id))
    ensures IsReference(h, m, ref) <==> (ref.suffix.Some? || !EndsReserved(ref.id))
  {
    ScanSpelled(h, m, ref, left, right, "");
    assert m + "" == m;
    var w := ref.id + Dotted(ref.suffix);
    assert m[..|m|] == m && m[|m|..] == "";
    assert Tokens(h, m) == [Ref(m, SplitBody(w))];
    ScanIsRegex(h, m, |m|, ref);
    SplitBodyExact(w, ref);
  }

  lemma SplitBodyExact(w: string, ref: Reference)
    requires w == ref.id + Dotted(ref.suffix) && ref.id != ""
    requires ref.suffix.Some? ==> ref.suffix.value in Reserved
    ensures SplitBody(w) == ref <==> (ref.suffix.Some? || !EndsReserved(ref.id))
  {
    SplitBodyCases(w, ref);
    if ref.suffix.None? {
      assert w == ref.id;
      if EndsReserved(w) {
        var prefix, s :| prefix != "" && s in Reserved && w == prefix + "." + s;
        EndsReservedSplits(w, prefix, s);
      } else {
        NotEndsReserved(w);
      }
    }
  }

  lemma EndsReservedSplits(w: string, prefix: string, s: string)
    requires prefix != "" && s in Reserved && w == prefix + "." + s
    ensures SplitBody(w).suffix.Some?
  {
    assert w == prefix + ("." + s);
    SplitBodyCases(w, Reference(prefix, Some(s)));
  }

  lemma NotEndsReserved(w: string)
    requires w != "" && !EndsReserved(w)
    ensures SplitBody(w) == Reference(w, None)
  {
    var r := SplitBody(w);
    SplitBodyJoins(w);
    if r.suffix.Some? {
      EndsReservedBy(w, r.id, r.suffix.value);
    }
  }

  lemma EndsReservedBy(w: string, prefix: string, s: string)
    requires prefix != "" && s in Reserved && w == prefix + Dotted(Some(s))
    ensures EndsReserved(w)
  {
    assert w == prefix + "." + s;
  }

  // ----- concatenation -----

  predicate IsLit(token: Token) {
    token.Lit?
  }

  /** No attempt that a reading of t makes runs off the end of t. */
  predicate Decided(h: Host, t: string)
    decreases |t|
  {
    t == "" || (!ScanAt(h, t).Incomplete? && Decided(h, t[Width(h, t)..]))
  }

  /** A decided attempt is not changed by text that comes later. */
  lemma ScanExtend(h: Host, t: string, u: string)
    requires !ScanAt(h, t).Incomplete?
    ensures ScanAt(h, t + u) == ScanAt(h, t)
  {
    if |t| >= 2 && t[0] == '{' && t[1] == '{' {
      var i := SkipSpaces(h, t, 2);
      var j := SkipWord(h, t, i);
      var k := SkipSpaces(h, t, j);
      var tu := t + u;
      assert k < |t|;
      assert forall x :: 0 <= x < |t| ==> tu[x] == t[x];
      SkipSpacesTo(h, tu, 2, i);
      SkipWordTo(h, tu, i, j);
      SkipSpacesTo(h, tu, j, k);
      SliceExtends(t, u, i, j);
    }
  }

  lemma {:induction false} NoBraceAllLiteral(h: Host, t: string)
    requires '{' !in t
    ensures forall i :: 0 <= i < |Tokens(h, t)| ==> IsLit(Tokens(h, t)[i])
  {
    if t != "" {
      NoBraceAllLiteral(h, t[1..]);
    }
  }

  /** An attempt that ran off the end began with '{', and nothing in the rest is a reference. */
  lemma IncompleteIsLiteral(h: Host, t: string)
    requires t != "" && ScanAt(h, t).Incomplete?
    ensures t[0] == '{'
    ensures forall i :: 0 <= i < |Tokens(h, t)| ==> IsLit(Tokens(h, t)[i])
  {
    if |t| == 1 {
      assert Tokens(h, t[1..]) == [];
    } else {
      assert t[1] == '{';
      var rest := t[2..];
      IncompleteTail(h, t);
      NoBraceAllLiteral(h, rest);
      assert t[1..] != "" && t[1..][0] == '{';
      assert |t| > 2 ==> t[1..][1] == rest[0];
      assert !ScanAt(h, t[1..]).Match?;
      assert t[1..][1..] == rest;
      assert Tokens(h, t[1..]) == [Lit('{')] + Tokens(h, rest);
      assert Tokens(h, t) == [Lit('{')] + Tokens(h, t[1..]);
    }
  }

  lemma IncompleteTail(h: Host, t: string)
    requires |t| >= 2 && ScanAt(h, t).Incomplete?
    ensures '{' !in t[2..]
  {
    var i := SkipSpaces(h, t, 2);
    var j := SkipWord(h, t, i);
    var k := SkipSpaces(h, t, j);
    forall x | 2 <= x < |t|
      ensures t[x] != '{'
    {
    }
  }

  /** Reading distributes over concatenation when the left part is decided, whatever follows. */
  lemma {:induction false} TokensConcat(h: Host, a: string, b: string)
    requires Decided(h, a)
    ensures Tokens(h, a + b) == Tokens(h, a) + Tokens(h, b)
    decreases |a|
  {
    if a == "" {
      assert a + b == b;
    } else {
      var n := Width(h, a);
      TokensConcat(h, a[n..], b);
      SameFirst(h, a, b);
      TokensPrepend(h, a, b, n);
    }
  }

  lemma TokensPrepend(h: Host, a: string, b: string, n: nat)
    requires a != "" && n == Width(h, a) == Width(h, a + b) && First(h, a) == First(h, a + b)
    requires Tokens(h, a[n..] + b) == Tokens(h, a[n..]) + Tokens(h, b)
    ensures Tokens(h, a + b) == Tokens(h, a) + Tokens(h, b)
  {
    DropAppend(a, b, n);
    Associate([First(h, a)], Tokens(h, a[n..]), Tokens(h, b));
  }

  lemma SameFirst(h: Host, a: string, b: string)
    requires a != "" && !ScanAt(h, a).Incomplete?
    ensures First(h, a + b) == First(h, a) && Width(h, a + b) == Width(h, a)
  {
    ScanExtend(h, a, b);
    DropAppend(a, b, Width(h, a));
  }

  /** The text that turns an attempt cut off by the end of t into a reference. */
  function Completion(h: Host, t: string): string
    requires t != "" && ScanAt(h, t).Incomplete?
  {
    if |t| == 1 then "{a}}"
    else
      var i := SkipSpaces(h, t, 2);
      var j := SkipWord(h, t, i);
      if i == j then "a}}" else if SkipSpaces(h, t, j) == |t| then "}}" else "}"
  }

  lemma Completes(h: Host, t: string)
    requires t != "" && ScanAt(h, t).Incomplete?
    ensures var u := t + Completion(h, t); ScanAt(h, u).Match? && ScanAt(h, u).length == |u|
  {
    var b := Completion(h, t);
    var u := t + b;
    assert h.word('a');
    if |t| == 1 {
      assert u[..2] == "{{" && u[2..3] == "a" && u[3..5] == "}}";
      ScanParts(h, u, 2, 3, 3);
    } else {
      var i := SkipSpaces(h, t, 2);
      var j := SkipWord(h, t, i);
      var k := SkipSpaces(h, t, j);
      assert u[..2] == "{{";
      SliceExtends(t, b, 2, i);
      SliceExtends(t, b, i, j);
      SliceExtends(t, b, j, k);
      if i == j {
        assert u[i..i + 1] == "a" && u[i + 1..i + 3] == "}}";
        ScanParts(h, u, i, i + 1, i + 1);
      } else {
        assert u[k..k + 2] == "}}";
        ScanParts(h, u, i, j, k);
      }
    }
  }

  function Literals(ts: seq<Token>): nat {
    if ts == [] then 0 else (if IsLit(ts[0]) then 1 else 0) + Literals(ts[1..])
  }

  lemma {:induction false} LiteralsConcat(a: seq<Token>, b: seq<Token>)
    ensures Literals(a + b) == Literals(a) + Literals(b)
  {
    if a == [] {
      assert a + b == b;
    } else {
      LiteralsConcat(a[1..], b);
      DropAppend(a, b, 1);
    }
  }

  lemma LiteralsStep(h: Host, t: string)
    requires t != ""
    ensures Literals(Tokens(h, t)) == (if IsLit(First(h, t)) then 1 else 0) + Literals(Tokens(h, t[Width(h, t)..]))
  {
    assert Tokens(h, t)[1..] == Tokens(h, t[Width(h, t)..]);
  }

  /** After any other left part some text can follow whose first characters are read together
      with its last ones: literals are lost. */
  lemma {:induction false} UndecidedBreaks(h: Host, a: string) returns (b: string)
    requires !Decided(h, a)
    ensures Literals(Tokens(h, a + b)) < Literals(Tokens(h, a)) + Literals(Tokens(h, b))
    decreases |a|
  {
    if ScanAt(h, a).Incomplete? {
      b := Completion(h, a);
      Completes(h, a);
      var u := a + b;
      assert u[|u|..] == "";
      LiteralsStep(h, u);
      LiteralsStep(h, a);
    } else {
      b := UndecidedBreaks(h, a[Width(h, a)..]);
      SameFirst(h, a, b);
      DropAppend(a, b, Width(h, a));
      LiteralsStep(h, a);
      LiteralsStep(h, a + b);
    }
  }

  /** Reading distributes over concatenation with every following text exactly when the left
      part is decided. */
  lemma TokensConcatIff(h: Host, a: string)
    ensures Decided(h, a) <==> forall b :: Tokens(h, a + b) == Tokens(h, a) + Tokens(h, b)
  {
    if Decided(h, a) {
      forall b
        ensures Tokens(h, a + b) == Tokens(h, a) + Tokens(h, b)
      {
        TokensConcat(h, a, b);
      }
    } else {
      var b := UndecidedBreaks(h, a);
      LiteralsConcat(Tokens(h, a), Tokens(h, b));
    }
  }

  /** The references that occur in a reading, in order. */
  function Refs(ts: seq<Token>): seq<Reference> {
    if ts == [] then []
    else (if ts[0].Ref? then [ts[0].ref] else []) + Refs(ts[1..])
  }

  /** The references of a text, as re.finditer reports them. */
  function RefsIn(h: Host, t: string): seq<Reference> {
    Refs(Tokens(h, t))
  }

  lemma {:induction false} RefsOfLiterals(ts: seq<Token>)
    requires forall i :: 0 <= i < |ts| ==> IsLit(ts[i])
    ensures Refs(ts) == []
  {
    if ts != [] {
      assert IsLit(ts[0]);
      assert forall i :: 0 <= i < |ts[1..]| ==> ts[1..][i] == ts[i + 1];
      RefsOfLiterals(ts[1..]);
    }
  }

  lemma {:induction false} RefsConcat(a: seq<Token>, b: seq<Token>)
    ensures Refs(a + b) == Refs(a) + Refs(b)
  {
    if a == [] {
      assert a + b == b;
    } else {
      RefsConcat(a[1..], b);
      DropAppend(a, b, 1);
      Associate(if a[0].Ref? then [a[0].ref] else [], Refs(a[1..]), Refs(b));
    }
  }

  lemma RefsStep(h: Host, t: string)
    requires t != ""
    ensures RefsIn(h, t) ==
              (if First(h, t).Ref? then [First(h, t).ref] else []) + RefsIn(h, t[Width(h, t)..])
  {
    assert Tokens(h, t)[1..] == Tokens(h, t[Width(h, t)..]);
  }

  /** Appending text never removes or changes the references already there. */
  lemma {:induction false} RefsPrefix(h: Host, a: string, b: string)
    ensures RefsIn(h, a) <= RefsIn(h, a + b)
    decreases |a|
  {
    if a != "" {
      if ScanAt(h, a).Incomplete? {
        IncompleteIsLiteral(h, a);
        RefsOfLiterals(Tokens(h, a));
      } else {
        var n := Width(h, a);
        SameFirst(h, a, b);
        RefsPrefix(h, a[n..], b);
        DropAppend(a, b, n);
        RefsStep(h, a);
        RefsStep(h, a + b);
      }
    }
  }

  /** Whitespace in front of a text does not change its references. */
  lemma RefsAfterSpace(h: Host, before: string, t: string)
    requires AllSpace(h, before)
    ensures RefsIn(h, before + t) == RefsIn(h, t)
  {
    NoBraceAllLiteral(h, before);
    DecidedNoBrace(h, before);
    TokensConcat(h, before, t);
    RefsConcat(Tokens(h, before), Tokens(h, t));
    RefsOfLiterals(Tokens(h, before));
  }

  lemma {:induction false} DecidedNoBrace(h: Host, t: string)
    requires '{' !in t
    ensures Decided(h, t)
  {
    if t != "" {
      DecidedNoBrace(h, t[1..]);
    }
  }

  /** Every reference found after strip() is found without it. */
  lemma RefsStripped(h: Host, t: string)
    ensures RefsIn(h, Strip(h, t)) <= RefsIn(h, t)
  {
    var before, after := StripSplits(h, t);
    RefsPrefix(h, Strip(h, t), after);
    RefsAfterSpace(h, before, Strip(h, t) + after);
    Associate(before, Strip(h, t), after);
  }
}
