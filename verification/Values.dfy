/** The JSON-like values a workflow computes with, and the parts of the host platform
    (character tables, string forms, UUID parsing) that every other module is
    parametric in. */
module Values {

  datatype Option<+T> = None | Some(value: T)

  datatype Result<+T, +E> = Ok(value: T) | Err(error: E) {
    predicate IsFailure() {
      Err?
    }

    function PropagateFailure<U>(): Result<U, E>
      requires Err?
    {
      Err(error)
    }

    function Extract(): T
      requires Ok?
    {
      value
    }
  }

  /** Step outputs, configuration entries and loop items. Id is a UUID. */
  datatype Value =
    | Null
    | Bool(b: bool)
    | Num(n: int)
    | Str(s: string)
    | Id(id: nat)
    | List(items: seq<Value>)
    | Dict(fields: seq<Field>)

  datatype Field = Field(key: string, value: Value)

  type Config = seq<Field>

  /** config.get(key): keys of a JSON object are unique, so the first hit is the only one. */
  function Get(config: Config, key: string): Option<Value> {
    if config == [] then None
    else if config[0].key == key then Some(config[0].value)
    else Get(config[1..], key)
  }

  /** {**config, key: v} */
  function With(config: Config, key: string, v: Value): Config {
    if config == [] then [Field(key, v)]
    else if config[0].key == key then [Field(key, v)] + config[1..]
    else [config[0]] + With(config[1..], key, v)
  }

  lemma {:induction false} GetWith(config: Config, key: string, v: Value, other: string)
    ensures Get(With(config, key, v), other) == if other == key then Some(v) else Get(config, other)
  {
    if config != [] && config[0].key != key {
      GetWith(config[1..], key, v, other);
      assert With(config, key, v)[1..] == With(config[1..], key, v);
    } else if config != [] {
      assert With(config, key, v)[1..] == config[1..];
    }
  }

  /** Python truthiness, as used by "config.get(...) or default". */
  predicate Truthy(v: Value) {
    match v
    case Null => false
    case Bool(b) => b
    case Num(n) => n != 0
    case Str(s) => s != ""
    case Id(_) => true
    case List(items) => items != []
    case Dict(fields) => fields != []
  }

  const Reserved: set<string> := {"output", "artifact", "asset", "image", "video"}

  /** What the interpreter takes from its host: the two character classes of the regular
      expressions (word stands for [\w\-\.], space for \s), str(), UUID(), the set of AI
      providers the factory knows, and the text with which a library rejects a value. */
  datatype HostTables = HostTables(
    word: char -> bool,
    space: char -> bool,
    show: Value -> string,
    uuid: string -> Option<nat>,
    provider: Value -> bool,
    complaint: Value -> string)
  {
    ghost predicate Lawful() {
      && (forall c :: word(c) ==> !space(c))
      && !word('{') && !word('}') && !word('"') && !word('=') && !word('!')
      && !space('{') && !space('}') && !space('"') && !space('=') && !space('!')
      && space(' ') && space('\n') && word('.')
      && (forall c :: 'a' <= c <= 'z' ==> word(c))
      && (forall s :: show(Str(s)) == s)
      && (forall n: nat :: uuid(show(Id(n))) == Some(n))
    }
  }

  ghost function ShowWitness(v: Value): string {
    match v
    case Str(s) => s
    case Id(n) => seq(n, _ => '-')
    case _ => "?"
  }

  ghost predicate WitnessWord(c: char) {
    c == '.' || 'a' <= c <= 'z'
  }

  ghost predicate WitnessSpace(c: char) {
    c == ' ' || c == '\n'
  }

  ghost const WITNESS_HOST: HostTables :=
    HostTables(WitnessWord, WitnessSpace, ShowWitness, s => Some(|s|), v => true, v => "")

  ghost function HostWitness(): (h: HostTables)
    ensures h.Lawful()
  {
    var h := WITNESS_HOST;
    assert forall n: nat :: |ShowWitness(Id(n))| == n;
    h
  }

  type Host = h: HostTables | h.Lawful() ghost witness HostWitness()

  /** str(id) never confuses two UUIDs. */
  lemma ShowIdInjective(h: Host, m: nat, n: nat)
    ensures h.show(Id(m)) == h.show(Id(n)) <==> m == n
  {
    assert h.uuid(h.show(Id(m))) == Some(m) && h.uuid(h.show(Id(n))) == Some(n);
  }

  predicate AllSpace(h: Host, s: string) {
    forall i :: 0 <= i < |s| ==> h.space(s[i])
  }

  predicate AllWord(h: Host, s: string) {
    forall i :: 0 <= i < |s| ==> h.word(s[i])
  }

  /** First position from i on that is not whitespace. */
  function SkipSpaces(h: Host, t: string, i: nat): (j: nat)
    requires i <= |t|
    ensures i <= j <= |t|
    ensures forall k :: i <= k < j ==> h.space(t[k])
    ensures j < |t| ==> !h.space(t[j])
    decreases |t| - i
  {
    if i < |t| && h.space(t[i]) then SkipSpaces(h, t, i + 1) else i
  }

  /** First position from i on that is not an identifier character. */
  function SkipWord(h: Host, t: string, i: nat): (j: nat)
    requires i <= |t|
    ensures i <= j <= |t|
    ensures forall k :: i <= k < j ==> h.word(t[k])
    ensures j < |t| ==> !h.word(t[j])
    decreases |t| - i
  {
    if i < |t| && h.word(t[i]) then SkipWord(h, t, i + 1) else i
  }

  /** Drop trailing whitespace. */
  function TrimRight(h: Host, t: string): (r: string)
    ensures r <= t
    ensures AllSpace(h, t[|r|..])
    ensures r != "" ==> !h.space(r[|r| - 1])
  {
    if t != "" && h.space(t[|t| - 1]) then TrimRight(h, t[..|t| - 1]) else t
  }

  /** str.strip() */
  function Strip(h: Host, t: string): (r: string)
    ensures r != "" ==> !h.space(r[0]) && !h.space(r[|r| - 1])
  {
    TrimRight(h, t[SkipSpaces(h, t, 0)..])
  }

  /** strip() removes only whitespace, on both ends. */
  lemma StripSplits(h: Host, t: string) returns (before: string, after: string)
    ensures t == before + Strip(h, t) + after
    ensures AllSpace(h, before) && AllSpace(h, after)
  {
    var k := SkipSpaces(h, t, 0);
    var rest := t[k..];
    var r := TrimRight(h, rest);
    before, after := t[..k], rest[|r|..];
    assert rest == r + after;
    assert t == before + rest;
  }

  lemma StripTrimmed(h: Host, t: string)
    requires t != "" ==> !h.space(t[0]) && !h.space(t[|t| - 1])
    ensures Strip(h, t) == t
  {
    assert t[0..] == t;
  }
}
