/** The guard language of apps/api/workflow/evaluator.py: <left> == "<right>" or <left> != "<right>". */
module Conditions {
  import opened Values
  import opened Sequences
  import opened References
  import opened Contexts

  datatype Condition = Condition(left: string, op: string, right: string)

  const Operators: set<string> := {"==", "!="}

  predicate OneLine(s: string) {
    '\n' !in s
  }

  datatype Tail = Tail(op: string, right: string)

  /** The part of the pattern behind the left operand, matched from position k to the end. */
  function TailAt(h: Host, t: string, k: nat): Option<Tail>
    requires k <= |t|
  {
    var i := SkipSpaces(h, t, k);
    if i + 2 > |t| || t[i..i + 2] !in Operators then None
    else
      var j := SkipSpaces(h, t, i + 2);
      if j + 1 >= |t| || t[j] != '"' || t[|t| - 1] != '"' || !OneLine(t[j + 1..|t| - 1]) then None
      else Some(Tail(t[i..i + 2], t[j + 1..|t| - 1]))
  }

  /** The lazy left operand: the shortest one behind which the tail matches. */
  function ParseFrom(h: Host, t: string, k: nat): Option<Condition>
    requires k <= |t|
    decreases |t| - k
  {
    var tail := TailAt(h, t, k);
    if tail.Some? then Some(Condition(t[..k], tail.value.op, tail.value.right))
    else if k == |t| || t[k] == '\n' then None
    else ParseFrom(h, t, k + 1)
  }

  function Parse(h: Host, t: string): Option<Condition> {
    ParseFrom(h, t, 0)
  }

  /** Why evaluation raises. */
  datatype ConditionError = BadSyntax(text: string) | Unresolved(token: string)

  /** ConditionEvaluator.evaluate; the right operand is compared literally. */
  function Evaluate(h: Host, c: Context, text: string): Result<bool, ConditionError> {
    if text == "" then Ok(true)
    else
      match Parse(h, Strip(h, text))
      case None => Err(BadSyntax(text))
      case Some(cond) =>
        match Resolve(h, c, Strip(h, cond.left))
        case Err(token) => Err(Unresolved(token))
        case Ok(left) => Ok(if cond.op == "==" then left == cond.right else left != cond.right)
  }

  // ----- the pattern as a relation -----

  ghost predicate Spells(h: Host, t: string, c: Condition, a: string, b: string) {
    && t == c.left + a + c.op + b + "\"" + c.right + "\""
    && AllSpace(h, a) && AllSpace(h, b)
    && c.op in Operators && OneLine(c.left) && OneLine(c.right)
  }

  ghost predicate Matches(h: Host, t: string, c: Condition) {
    exists a, b :: Spells(h, t, c, a, b)
  }

  /** t is matched with these groups and the lazy left operand is as short as it can be. */
  ghost predicate IsCondition(h: Host, t: string, c: Condition) {
    && Matches(h, t, c)
    && forall other :: Matches(h, t, other) ==> |c.left| <= |other.left|
  }

  lemma SpellsTail(h: Host, t: string, c: Condition, a: string, b: string)
    requires Spells(h, t, c, a, b)
    ensures |c.left| <= |t| && t[..|c.left|] == c.left
    ensures TailAt(h, t, |c.left|) == Some(Tail(c.op, c.right))
  {
    var k := |c.left|;
    var i := k + |a|;
    var j := i + 2 + |b|;
    assert |c.op| == 2;
    Seven(t, c.left, a, c.op, b, "\"", c.right, "\"");
    TailParts(h, t, k, i, j);
  }

  lemma TailParts(h: Host, t: string, k: nat, i: nat, j: nat)
    requires k <= i && i + 2 <= j && j + 1 < |t|
    requires AllSpace(h, t[k..i]) && t[i..i + 2] in Operators && AllSpace(h, t[i + 2..j])
    requires t[j..j + 1] == "\"" && t[|t| - 1..] == "\"" && OneLine(t[j + 1..|t| - 1])
    ensures TailAt(h, t, k) == Some(Tail(t[i..i + 2], t[j + 1..|t| - 1]))
  {
    assert t[i] == t[i..i + 2][0] && t[j] == t[j..j + 1][0] && t[|t| - 1] == t[|t| - 1..][0];
    SkipSpacesTo(h, t, k, i);
    SkipSpacesTo(h, t, i + 2, j);
  }

  lemma TailSpells(h: Host, t: string, k: nat)
    requires k <= |t| && TailAt(h, t, k).Some? && OneLine(t[..k])
    ensures var tail := TailAt(h, t, k).value; Matches(h, t, Condition(t[..k], tail.op, tail.right))
  {
    var i := SkipSpaces(h, t, k);
    var j := SkipSpaces(h, t, i + 2);
    var tail := TailAt(h, t, k).value;
    var a, b := t[k..i], t[i + 2..j];
    Pieces(t, k, i, j);
    assert Spells(h, t, Condition(t[..k], tail.op, tail.right), a, b);
  }

  lemma Pieces(t: string, k: nat, i: nat, j: nat)
    requires k <= i && i + 2 <= j && j + 1 < |t| && t[j] == '"' && t[|t| - 1] == '"'
    ensures t == t[..k] + t[k..i] + t[i..i + 2] + t[i + 2..j] + "\"" + t[j + 1..|t| - 1] + "\""
  {
  }

  lemma OneLineGrows(t: string, k: nat)
    requires k < |t| && OneLine(t[..k]) && t[k] != '\n'
    ensures OneLine(t[..k + 1])
  {
    assert t[..k + 1] == t[..k] + [t[k]];
  }

  /** What is found is a match. */
  lemma {:induction false} ParseFromFinds(h: Host, t: string, k: nat)
    requires k <= |t| && OneLine(t[..k]) && ParseFrom(h, t, k).Some?
    ensures var r := ParseFrom(h, t, k).value;
            && k <= |r.left| <= |t| && r.left == t[..|r.left|] && OneLine(r.left)
            && TailAt(h, t, |r.left|) == Some(Tail(r.op, r.right))
    decreases |t| - k
  {
    if TailAt(h, t, k).None? {
      OneLineGrows(t, k);
      ParseFromFinds(h, t, k + 1);
    }
  }

  /** Nothing shorter is a match, and a match is found if there is one. */
  lemma {:induction false} ParseFromLeast(h: Host, t: string, k: nat, m: nat)
    requires k <= m <= |t| && TailAt(h, t, m).Some? && OneLine(t[..m])
    ensures var r := ParseFrom(h, t, k); r.Some? && |r.value.left| <= m
    decreases m - k
  {
    if TailAt(h, t, k).None? {
      assert t[..m][k] == t[k];
      ParseFromLeast(h, t, k + 1, m);
    }
  }

  lemma ParseIsLeast(h: Host, t: string, other: Condition)
    requires Matches(h, t, other)
    ensures Parse(h, t).Some? && |Parse(h, t).value.left| <= |other.left|
    ensures |Parse(h, t).value.left| == |other.left| ==> Parse(h, t).value == other
  {
    var a, b :| Spells(h, t, other, a, b);
    SpellsTail(h, t, other, a, b);
    ParseFromLeast(h, t, 0, |other.left|);
    ParseFromFinds(h, t, 0);
  }

  lemma ParseMatches(h: Host, t: string)
    requires Parse(h, t).Some?
    ensures Matches(h, t, Parse(h, t).value)
  {
    ParseFromFinds(h, t, 0);
    TailSpells(h, t, |Parse(h, t).value.left|);
  }

  /** The search is the regular expression: a text parses to a condition exactly when the
      pattern matches it with these groups and a lazily chosen left operand. */
  lemma ParseIsRegex(h: Host, t: string, c: Condition)
    ensures IsCondition(h, t, c) <==> Parse(h, t) == Some(c)
  {
    if IsCondition(h, t, c) {
      ParseIsLeast(h, t, c);
      ParseMatches(h, t);
    }
    if Parse(h, t) == Some(c) {
      ParseMatches(h, t);
      forall other | Matches(h, t, other)
        ensures |c.left| <= |other.left|
      {
        ParseIsLeast(h, t, other);
      }
    }
  }

  // ----- printing -----

  function Print(c: Condition): string {
    c.left + " " + c.op + " \"" + c.right + "\""
  }

  ghost predicate HasOperator(s: string) {
    exists i :: 0 <= i < |s| - 1 && (s[i] == '=' || s[i] == '!') && s[i + 1] == '='
  }

  /** A printed condition parses back, whatever quotes and operators its right operand contains. */
  lemma PrintParse(h: Host, c: Condition)
    requires c.op in Operators && OneLine(c.left) && OneLine(c.right)
    requires Strip(h, c.left) == c.left && !HasOperator(c.left)
    ensures Parse(h, Strip(h, Print(c))) == Some(c)
  {
    var t := Print(c);
    if c.left == "" {
      PrintParseEmpty(h, c);
    } else {
      var q := "\"" + c.right + "\"";
      assert t == c.left + " " + c.op + " " + q;
      assert t[0] == c.left[0] && t[|t| - 1] == '"';
      assert !h.space(c.left[0]) && !h.space(c.left[|c.left| - 1]);
      StripTrimmed(h, t);
      assert t == c.left + " " + c.op + " " + "\"" + c.right + "\"";
      ParseSpelled(h, t, c, " ", " ");
    }
  }

  lemma PrintParseEmpty(h: Host, c: Condition)
    requires c.op in Operators && OneLine(c.right) && c.left == ""
    ensures Parse(h, Strip(h, Print(c))) == Some(c)
  {
    var s := c.op + " \"" + c.right + "\"";
    assert Print(c) == " " + s;
    StripPrinted(h, Print(c), s);
    EmptyLeft(s, c);
    ParseSpelled(h, s, c, "", " ");
  }

  lemma EmptyLeft(s: string, c: Condition)
    requires c.left == "" && s == c.op + " \"" + c.right + "\""
    ensures s == c.left + "" + c.op + " " + "\"" + c.right + "\""
  {
    assert c.left + "" + c.op == c.op;
    assert " \"" == " " + "\"";
    Associate(c.op, " ", "\"");
  }

  lemma StripPrinted(h: Host, t: string, s: string)
    requires t == " " + s && s != "" && !h.space(s[0]) && !h.space(s[|s| - 1])
    ensures Strip(h, t) == s
  {
    SkipSpacesTo(h, t, 0, 1);
    assert t[1..] == s;
  }

  lemma ParseSpelled(h: Host, t: string, c: Condition, a: string, b: string)
    requires Spells(h, t, c, a, b) && AllSpace(h, a) && (a == "" ==> c.left == "")
    requires c.left != "" ==> !h.space(c.left[|c.left| - 1])
    requires !HasOperator(c.left)
    ensures Parse(h, t) == Some(c)
  {
    assert Matches(h, t, c);
    forall other | Matches(h, t, other)
      ensures |c.left| <= |other.left|
    {
      if |other.left| < |c.left| {
        var a', b' :| Spells(h, t, other, a', b');
        NoEarlierOperator(h, t, c, a, b, other, a', b');
      }
    }
    ParseIsRegex(h, t, c);
  }

  lemma NoEarlierOperator(h: Host, t: string, c: Condition, a: string, b: string, other: Condition, a': string, b': string)
    requires Spells(h, t, c, a, b) && a != "" && c.left != "" && !h.space(c.left[|c.left| - 1])
    requires Spells(h, t, other, a', b') && |other.left| < |c.left|
    ensures HasOperator(c.left)
  {
    var i := |other.left| + |a'|;
    var n := |c.left|;
    assert t[i..i + 2] == other.op && |other.op| == 2;
    assert t[n - 1] == c.left[n - 1] && t[n] == a[0];
    assert forall x :: |other.left| <= x < i ==> t[x] == a'[x - |other.left|];
    assert i <= n - 1;
    assert t[i] == other.op[0] && t[i + 1] == other.op[1] == '=';
    assert i + 1 < n;
    assert c.left[i] == t[i] && c.left[i + 1] == t[i + 1];
  }

  // ----- what evaluation looks up -----

  /** The references that evaluating a condition queries: those of the left operand only. */
  function Queried(h: Host, text: string): seq<Reference> {
    if text == "" then []
    else
      match Parse(h, Strip(h, text))
      case None => []
      case Some(cond) => RefsIn(h, Strip(h, cond.left))
  }

  /** A condition evaluates exactly when it has the syntax and its left operand resolves. */
  lemma EvaluateSucceeds(h: Host, c: Context, text: string)
    ensures Evaluate(h, c, text).Ok? <==>
              text == "" || (Parse(h, Strip(h, text)).Some? && forall r :: r in Queried(h, text) ==> Lookup(c, r).Some?)
  {
    if text != "" && Parse(h, Strip(h, text)).Some? {
      ResolveSucceeds(h, c, Strip(h, Parse(h, Strip(h, text)).value.left));
    }
  }

  /** Everything a condition queries is a reference of its full text, in the same order and from the front. */
  lemma QueriedInText(h: Host, text: string)
    ensures Queried(h, text) <= RefsIn(h, text)
  {
    if text != "" && Parse(h, Strip(h, text)).Some? {
      var s := Strip(h, text);
      var left := Parse(h, s).value.left;
      ParseFromFinds(h, s, 0);
      PrefixRefs(h, left, s);
      RefsStripped(h, left);
      RefsStripped(h, text);
      PrefixTrans(RefsIn(h, Strip(h, left)), RefsIn(h, left), RefsIn(h, s));
      PrefixTrans(RefsIn(h, Strip(h, left)), RefsIn(h, s), RefsIn(h, text));
    }
  }

  lemma PrefixRefs(h: Host, a: string, t: string)
    requires |a| <= |t| && a == t[..|a|]
    ensures RefsIn(h, a) <= RefsIn(h, t)
  {
    assert t == a + t[|a|..];
    RefsPrefix(h, a, t[|a|..]);
  }

  // ----- what a condition says -----

  /** The left operand, spliced, is compared with the right one as it is written: for equality
      under one operator, for difference under the other. */
  lemma EvaluateCompares(h: Host, c: Context, text: string, cond: Condition, left: string)
    requires text != "" && IsCondition(h, Strip(h, text), cond)
    requires Meaning(h, c, Tokens(h, Strip(h, cond.left))) == Ok(left)
    ensures cond.op in Operators
    ensures cond.op == "==" ==> Evaluate(h, c, text) == Ok(left == cond.right)
    ensures cond.op == "!=" ==> Evaluate(h, c, text) == Ok(left != cond.right)
  {
    ParseIsRegex(h, Strip(h, text), cond);
    ParsedOperator(h, Strip(h, text), cond);
    ParsedCompares(h, c, text, cond, left);
  }

  lemma ParsedCompares(h: Host, c: Context, text: string, cond: Condition, left: string)
    requires text != "" && Parse(h, Strip(h, text)) == Some(cond) && cond.op in Operators
    requires Meaning(h, c, Tokens(h, Strip(h, cond.left))) == Ok(left)
    ensures Evaluate(h, c, text) == Ok(if cond.op == "!=" then left != cond.right else left == cond.right)
  {
    ResolveIsSplice(h, c, Strip(h, cond.left));
  }

  lemma ParsedOperator(h: Host, t: string, cond: Condition)
    requires IsCondition(h, t, cond)
    ensures cond.op in Operators
  {
    var a, b :| Spells(h, t, cond, a, b);
  }

  /** A text that is no condition is reported as it stands; otherwise the first undefined
      reference of the left operand is. */
  lemma EvaluateFails(h: Host, c: Context, text: string)
    requires text != ""
    ensures (forall cond :: !IsCondition(h, Strip(h, text), cond)) ==> Evaluate(h, c, text) == Err(BadSyntax(text))
    ensures forall cond :: IsCondition(h, Strip(h, text), cond) && Meaning(h, c, Tokens(h, Strip(h, cond.left))).Err? ==>
              Evaluate(h, c, text) == Err(Unresolved(Meaning(h, c, Tokens(h, Strip(h, cond.left))).error))
  {
    var s := Strip(h, text);
    var parsed := Parse(h, s);
    if parsed.Some? {
      ParseIsRegex(h, s, parsed.value);
    }
    forall cond | IsCondition(h, s, cond)
      ensures parsed == Some(cond)
    {
      ParseIsRegex(h, s, cond);
    }
    if parsed.Some? {
      ResolveIsSplice(h, c, Strip(h, parsed.value.left));
    }
  }

  /** No condition holds always. */
  lemma EmptyHolds(h: Host, c: Context)
    ensures Evaluate(h, c, "") == Ok(true)
  {
  }

  /** The two operators say the opposite of the same operands. */
  lemma OperatorsNegate(h: Host, c: Context, left: string, right: string)
    requires OneLine(left) && OneLine(right) && Strip(h, left) == left && !HasOperator(left)
    ensures var same, other := Evaluate(h, c, Print(Condition(left, "==", right))), Evaluate(h, c, Print(Condition(left, "!=", right)));
            && (same.Ok? <==> other.Ok?)
            && (same.Ok? ==> other.value == !same.value)
            && (same.Err? ==> other == same)
  {
    PrintParse(h, Condition(left, "==", right));
    PrintParse(h, Condition(left, "!=", right));
  }
}
