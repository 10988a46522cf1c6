/** `expand` of scripts/inject_secrets.py: turning a value specification into
    the string to inject, given the process environment. */
module Resolver {
  import opened Base
  import opened Text

  /** The four forms a specification can take. */
  datatype Spec =
    | Env(name: string)                      // env:NAME
    | Literal(value: string)                 // literal:VALUE
    | Default(name: string, fallback: string) // default:NAME:FALLBACK
    | Bare(name: string)                     // NAME

  /** Python's message when `_, var, default = spec.split(":", 2)` finds only two parts. */
  const UnpackError := "not enough values to unpack (expected 3, got 2)"

  /** Reads the prefixes in the order `expand` tests them. */
  function Parse(spec: string): Result<Spec>
  {
    if "env:" <= spec then Ok(Env(spec[4..]))
    else if "literal:" <= spec then Ok(Literal(spec[8..]))
    else if "default:" <= spec then
      match SplitOnce(spec[8..], ':')
      case Some((name, fallback)) => Ok(Default(name, fallback))
      case None => Err(UnpackError)
    else Ok(Bare(spec))
  }

  /** The value a parsed specification stands for. */
  function Resolve(s: Spec, env: map<string, string>): string
  {
    match s
    case Env(name) => GetOr(env, name, "")
    case Literal(value) => value
    case Default(name, fallback) => GetOr(env, name, fallback)
    case Bare(name) => GetOr(env, name, "")
  }

  /** `expand(spec)` with `os.environ` as `env`: the value, or the error it raises. */
  function Expand(spec: string, env: map<string, string>): (r: Result<string>)
    ensures "env:" <= spec ==> r == Ok(GetOr(env, spec[4..], ""))
    ensures !("env:" <= spec) && "literal:" <= spec ==> r == Ok(spec[8..])
    ensures !("env:" <= spec) && "default:" <= spec ==>
      (r.Err? <==> ':' !in spec[8..])
    ensures !("env:" <= spec) && !("literal:" <= spec) && !("default:" <= spec) ==>
      r == Ok(GetOr(env, spec, ""))
  {
    match Parse(spec)
    case Ok(s) => Ok(Resolve(s, env))
    case Err(e) => Err(e)
  }

  /** The text of a specification. */
  function Render(s: Spec): string
  {
    match s
    case Env(name) => "env:" + name
    case Literal(value) => "literal:" + value
    case Default(name, fallback) => "default:" + name + ":" + fallback
    case Bare(name) => name
  }

  /** The specifications that `Render` writes unambiguously: a default's name
      has no colon, and a bare name does not look like a prefixed form. */
  predicate WellFormed(s: Spec)
  {
    match s
    case Default(name, _) => ':' !in name
    case Bare(name) => !("env:" <= name) && !("literal:" <= name) && !("default:" <= name)
    case _ => true
  }

  /** Rendering and parsing back returns the same specification. */
  lemma ParseRender(s: Spec)
    requires WellFormed(s)
    ensures Parse(Render(s)) == Ok(s)
  {
    match s
    case Env(name) =>
      assert Render(s)[4..] == name;
    case Literal(value) =>
      assert !("env:" <= Render(s)) by { assert Render(s)[0] == 'l'; }
      assert Render(s)[8..] == value;
    case Default(name, fallback) =>
      var text := Render(s);
      assert !("env:" <= text) by { assert text[0] == 'd'; }
      assert !("literal:" <= text) by { assert text[0] == 'd'; }
      assert text[8..] == name + [':'] + fallback;
      SplitOnceAt(name, ':', fallback);
    case Bare(name) =>
  }

  /** Every specification that parses is the rendering of a well-formed one. */
  lemma RenderParse(spec: string)
    requires Parse(spec).Ok?
    ensures WellFormed(Parse(spec).value) && Render(Parse(spec).value) == spec
  {
    if "env:" <= spec {
      assert spec == "env:" + spec[4..];
    } else if "literal:" <= spec {
      assert spec == "literal:" + spec[8..];
    } else if "default:" <= spec {
      var rest := spec[8..];
      var (name, fallback) := SplitOnce(rest, ':').value;
      assert Parse(spec).value == Default(name, fallback);
      assert rest == name + ":" + fallback;
      assert spec == "default:" + rest;
    }
  }

  /** `literal:` keeps everything after the prefix, colons and emptiness included. */
  lemma LiteralVerbatim(v: string, env: map<string, string>)
    ensures Expand("literal:" + v, env) == Ok(v)
  {
    var spec := "literal:" + v;
    assert !("env:" <= spec) by { assert spec[0] == 'l'; }
    assert spec[8..] == v;
  }

  /** `default:NAME:FALLBACK` reads NAME when it is set, even to the empty
      string, and otherwise gives FALLBACK with all its colons. */
  lemma DefaultChoice(name: string, fallback: string, env: map<string, string>)
    requires ':' !in name
    ensures Expand("default:" + name + ":" + fallback, env) ==
      Ok(if name in env then env[name] else fallback)
  {
    ParseRender(Default(name, fallback));
  }

  /** `default:NAME` with no second colon raises, as the unpacking fails. */
  lemma DefaultWithoutFallback(name: string, env: map<string, string>)
    requires ':' !in name
    ensures Expand("default:" + name, env) == Err(UnpackError)
  {
    var spec := "default:" + name;
    assert !("env:" <= spec) by { assert spec[0] == 'd'; }
    assert !("literal:" <= spec) by { assert spec[0] == 'd'; }
    assert spec[8..] == name;
  }

  /** The `env:` prefix is checked first: `env:literal:x` reads the variable `literal:x`. */
  lemma EnvPrefixFirst(env: map<string, string>)
    ensures Expand("env:literal:x", env) == Ok(GetOr(env, "literal:x", ""))
  {
  }
}
