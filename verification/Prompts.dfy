/** Prompt composition: apps/api/services/prompt_builder.py and apps/api/domain/prompt.py. */
module Prompts {
  import opened Values
  import opened References
  import opened Contexts

  datatype PromptComposition = PromptComposition(user: string, system: Option<string>)

  /** Why composition raises: a blank template, with the library's text, or a reference that
      has no value. */
  datatype PromptError = Blank(text: string) | Unresolved(token: string)

  /** The template text of a PromptTemplate: stripped, and rejected when nothing is left. */
  function Template(h: Host, text: string): Result<string, PromptError> {
    var s := Strip(h, text);
    if s == "" then Err(Blank(h.complaint(Str(s)))) else Ok(s)
  }

  function Filled(h: Host, c: Context, template: string): Result<string, PromptError> {
    match Resolve(h, c, template)
    case Err(token) => Err(Unresolved(token))
    case Ok(text) => Ok(text)
  }

  /** str(config.get("prompt") or default) */
  function UserText(h: Host, config: Config, fallback: string): string {
    match Get(config, "prompt")
    case Some(v) => if Truthy(v) then h.show(v) else fallback
    case None => fallback
  }

  /** str(config["system_prompt"]) when it is there and not None. */
  function SystemText(h: Host, config: Config): Option<string> {
    match Get(config, "system_prompt")
    case Some(v) => if v == Null then None else Some(h.show(v))
    case None => None
  }

  /** build_from_config: both templates are constructed before either is resolved. */
  function Build(h: Host, c: Context, config: Config, fallback: string): Result<PromptComposition, PromptError> {
    var user :- Template(h, UserText(h, config, fallback));
    match SystemText(h, config)
    case None =>
      var u :- Filled(h, c, user);
      Ok(PromptComposition(u, None))
    case Some(text) =>
      var system :- Template(h, text);
      var u :- Filled(h, c, user);
      var s :- Filled(h, c, system);
      Ok(PromptComposition(u, Some(s)))
  }

  /** The references that composing the prompts queries. */
  function Queried(h: Host, config: Config, fallback: string): seq<Reference> {
    RefsIn(h, Strip(h, UserText(h, config, fallback))) +
    (match SystemText(h, config)
     case None => []
     case Some(text) => RefsIn(h, Strip(h, text)))
  }

  /** Both templates have something left after stripping. */
  predicate NonBlank(h: Host, config: Config, fallback: string) {
    && Strip(h, UserText(h, config, fallback)) != ""
    && (SystemText(h, config).Some? ==> Strip(h, SystemText(h, config).value) != "")
  }

  /** Composition succeeds exactly when neither template is blank and every reference of
      the stripped templates has a value. */
  lemma BuildSucceeds(h: Host, c: Context, config: Config, fallback: string)
    ensures Build(h, c, config, fallback).Ok? <==>
              NonBlank(h, config, fallback) && forall r :: r in Queried(h, config, fallback) ==> Lookup(c, r).Some?
  {
    var user := Strip(h, UserText(h, config, fallback));
    ResolveSucceeds(h, c, user);
    if SystemText(h, config).Some? {
      ResolveSucceeds(h, c, Strip(h, SystemText(h, config).value));
    }
    assert forall r :: r in RefsIn(h, user) ==> r in Queried(h, config, fallback);
  }

  // ----- what is composed -----

  /** The stripped template with its references spliced in, or why there is none. */
  ghost function Composed(h: Host, c: Context, template: string): Result<string, PromptError> {
    var s := Strip(h, template);
    if s == "" then Err(Blank(h.complaint(Str(s))))
    else
      match Meaning(h, c, Tokens(h, s))
      case Ok(text) => Ok(text)
      case Err(token) => Err(Unresolved(token))
  }

  /** The user template, and the system template if there is one. */
  ghost predicate Templates(h: Host, config: Config, fallback: string, user: string, system: Option<string>) {
    && user == (match Get(config, "prompt")
                case Some(v) => if Truthy(v) then h.show(v) else fallback
                case None => fallback)
    && system == (match Get(config, "system_prompt")
                  case Some(v) => if v == Null then None else Some(h.show(v))
                  case None => None)
  }

  lemma TemplateComposes(h: Host, c: Context, text: string)
    ensures match Template(h, text)
            case Ok(s) => s != "" && Composed(h, c, text) == Filled(h, c, s)
            case Err(e) => e.Blank? && Composed(h, c, text) == Err(e)
  {
    ResolveIsSplice(h, c, Strip(h, text));
  }

  /** The user prompt is composed from a truthy prompt entry or else from the fallback, and the
      system prompt from a system_prompt entry that is there and not None. A blank template is
      reported before an undefined reference, and the user prompt's before the system prompt's. */
  lemma BuildComposes(h: Host, c: Context, config: Config, fallback: string, user: string, system: Option<string>)
    requires Templates(h, config, fallback, user, system)
    ensures var u := Composed(h, c, user);
            var r := Build(h, c, config, fallback);
            if system.None? then r == (if u.Ok? then Ok(PromptComposition(u.value, None)) else Err(u.error))
            else
              var s := Composed(h, c, system.value);
              r == if u.Err? && u.error.Blank? then Err(u.error)
                   else if s.Err? && s.error.Blank? then Err(s.error)
                   else if u.Err? then Err(u.error)
                   else if s.Err? then Err(s.error)
                   else Ok(PromptComposition(u.value, Some(s.value)))
  {
    assert user == UserText(h, config, fallback) && system == SystemText(h, config);
    TemplateComposes(h, c, user);
    if system.Some? {
      TemplateComposes(h, c, system.value);
    }
  }
}
