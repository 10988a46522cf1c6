/** The secret wiring check of app/main.py: four independent probes (the
    JSON config, the optional YAML settings, the token-substituted app
    module, the environment) whose problems are collected in order, and the
    masked secrets shown when there are none. The file contents, the
    parsing libraries, the outcome of running app/app.py and the
    environment are inputs. */
module WiringCheck {
  import opened Base
  import opened Text
  import opened Tree

  /** The parsing libraries: `json.loads`, and `yaml.safe_load` when PyYAML
      is importable. */
  datatype Libs = Libs(json: string -> Result<Node>, yaml: Option<string -> Result<Node>>)

  /** What `runpy.run_path` on app/app.py gives: its globals, or the
      message of the exception it raised. */
  datatype AppRun = Ran(globals: map<string, Node>) | Raised(message: string)

  /** What a probe found: at most one problem, and the secret it read (shown
      masked when the whole check passes). */
  datatype Probe = Probe(problem: Option<string>, secret: Node)

  /** How `main()` ends: the problems it lists (exit 1), the masked secrets
      it shows (exit 0), or an exception nothing catches (exit 1). */
  datatype Report = Failed(problems: seq<string>) | Passed(shown: seq<string>) | Crashed(error: string)

  const ConfigPrefix := "config.json: "
  const SettingsPrefix := "settings.yaml: "
  const AppPrefix := "app/app.py load failed: "
  const EnvPrefix := "ENV: "
  const ApiKeyMsg := ConfigPrefix + "api.key missing/empty"
  const EndpointMsg := ConfigPrefix + "api.endpoint missing/empty"
  const ServiceKeyMsg := SettingsPrefix + "service.api.key missing/empty"
  const PublicUrlMsg := SettingsPrefix + "service.public_url missing/empty"
  // The longer messages are joined from two literals so that the verifier
  // can read their first characters, which `Origin` tells apart.
  const NoYamlMsg := "PyYAML " + "not installed (needed to read settings.yaml)."
  const PlaceholderMsg := "app/app.py: " + "API_TOKEN placeholder not replaced"
  const EnvMsg := EnvPrefix + "API_TOKEN not present (consider passing in job env)"

  function ExitCode(r: Report): int
  {
    if r.Passed? then 0 else 1
  }

  // ---------------------------------------------------------------------------
  // Masking

  function Stars(n: nat): (r: string)
    ensures |r| == n && forall i :: 0 <= i < n ==> r[i] == '*'
  {
    seq(n, _ => '*')
  }

  /** `mask(s)` with `keep_last=4`: every character but the last four
      becomes `*`. */
  function Mask(s: string): (r: string)
    ensures |r| == |s|
    ensures forall i :: 0 <= i < |s| - 4 ==> r[i] == '*'
    ensures forall i :: 0 <= i < |s| && |s| - 4 <= i ==> r[i] == s[i]
  {
    if s == "" then ""
    else
      var hidden := if |s| > 4 then |s| - 4 else 0;
      Stars(hidden) + s[hidden..]
  }

  lemma MaskExamples()
    ensures Mask("abcdefgh") == "****efgh"
    ensures Mask("abc") == "abc"
    ensures Mask("") == ""
  {
    var m := Mask("abcdefgh");
    assert m[..4] == "****" && m[4..] == "efgh";
    assert m == m[..4] + m[4..];
  }

  function TypeName(n: Node): string
  {
    match n
    case Map(_) => "dict"
    case Seq(_) => "list"
    case Str(_) => "str"
    case Num(_) => "int"
    case Bool(_) => "bool"
    case Null => "NoneType"
  }

  /** `mask` on a value the documents or the app module supplied: a falsy
      value gives "", a string is masked, and any other value makes `len`,
      the slice or the concatenation raise. The messages are those of
      Python 3.11; from 3.12 on, slicing a dict raises a `KeyError` instead. */
  function MaskValue(n: Node): (r: Result<string>)
    ensures n.Str? ==> r == Ok(Mask(n.s))
    ensures !Truthy(n) ==> r == Ok("")
    ensures r.Err? <==> Truthy(n) && !n.Str?
  {
    if !Truthy(n) then Ok("")
    else
      match n
      case Str(s) => Ok(Mask(s))
      case Map(_) => Err("unhashable type: 'slice'")
      case Seq(_) => Err("can only concatenate str (not \"list\") to str")
      case _ => Err("object of type '" + TypeName(n) + "' has no len()")
  }

  // ---------------------------------------------------------------------------
  // The probes

  /** `assert_non_empty(val, msg)`: the message when the value is falsy. */
  function NonEmpty(val: Node, msg: string): (r: Option<string>)
    ensures r.Some? <==> val in {Null, Str(""), Num(0), Bool(false), Map(map[]), Seq([])}
    ensures r.Some? ==> r.value == msg
  {
    FalsyValues(val);
    if Truthy(val) then None else Some(msg)
  }

  /** The message of `.get` called on something that is not a dict. */
  function NoGet(n: Node): string
  {
    "'" + TypeName(n) + "' object has no attribute 'get'"
  }

  /** `x or {}`. */
  function OrEmpty(n: Node): Node
  {
    if Truthy(n) then n else Map(map[])
  }

  /** `load_json`: an absent or empty file reads as `{}`. */
  function LoadJson(text: Option<string>, libs: Libs): (r: Result<Node>)
    ensures text.None? || text.value == "" ==> r == Ok(Map(map[]))
    ensures text.Some? && text.value != "" ==> r == libs.json(text.value)
  {
    if text.Some? && text.value != "" then libs.json(text.value) else Ok(Map(map[]))
  }

  /** Check 1: `api.key`, then `api.endpoint`; the first falsy one is the
      problem. Only an `AssertionError` is caught, so a document or an `api`
      entry that is not a mapping ends the run. */
  function ConfigCheck(cfg: Node): (r: Result<Probe>)
    ensures r.Err? <==> !cfg.Map? || ("api" in cfg.entries && !cfg.entries["api"].Map?)
    ensures r.Ok? ==>
      var api := Get(cfg.entries, "api");
      var key := if api.Map? then Get(api.entries, "key") else Null;
      var ep := if api.Map? then Get(api.entries, "endpoint") else Null;
      && r.value.secret == key
      && (r.value.problem == Some(ApiKeyMsg) <==> !Truthy(key))
      && (r.value.problem == Some(EndpointMsg) <==> Truthy(key) && !Truthy(ep))
      && (r.value.problem.None? <==> Truthy(key) && Truthy(ep))
  {
    if !cfg.Map? then Err(NoGet(cfg))
    else
      var api := if "api" in cfg.entries then cfg.entries["api"] else Map(map[]);
      if !api.Map? then Err(NoGet(api))
      else
        var key := Get(api.entries, "key");
        var ep := Get(api.entries, "endpoint");
        var problem := if !Truthy(key) then Some(ApiKeyMsg) else NonEmpty(ep, EndpointMsg);
        Ok(Probe(problem, key))
  }

  /** Check 2, for a settings file that exists: without PyYAML the loader's
      `SystemExit` message is the problem; otherwise `service.api.key`, then
      `service.public_url`, with a falsy `service` or `api` read as `{}`. A
      YAML error, or a truthy non-mapping where a mapping is read, ends the
      run. */
  function SettingsCheck(text: string, libs: Libs): (r: Result<Probe>)
    ensures libs.yaml.None? ==> r == Ok(Probe(Some(NoYamlMsg), Null))
    ensures r.Ok? && r.value.problem.Some? ==>
      r.value.problem.value in {NoYamlMsg, ServiceKeyMsg, PublicUrlMsg}
    ensures r.Ok? && r.value.problem.None? ==> Truthy(r.value.secret)
    ensures libs.yaml.Some? ==>
      var loaded := if IsBlank(text) then Ok(Map(map[])) else libs.yaml.value(text);
      var st := if loaded.Ok? then loaded.value else Null;
      var service := if st.Map? then OrEmpty(Get(st.entries, "service")) else Null;
      var api := if service.Map? then OrEmpty(Get(service.entries, "api")) else Null;
      var key := if api.Map? then Get(api.entries, "key") else Null;
      var url := if service.Map? then Get(service.entries, "public_url") else Null;
      && (loaded.Err? ==> r == Err(loaded.error))
      && (r.Err? <==> loaded.Err? || !st.Map? || !service.Map? || !api.Map?)
      && (r.Ok? ==>
            && r.value.secret == key
            && (r.value.problem == Some(ServiceKeyMsg) <==> !Truthy(key))
            && (r.value.problem == Some(PublicUrlMsg) <==> Truthy(key) && !Truthy(url))
            && (r.value.problem.None? <==> Truthy(key) && Truthy(url)))
  {
    match libs.yaml
    case None => Ok(Probe(Some(NoYamlMsg), Null))
    case Some(parse) =>
      var loaded := if IsBlank(text) then Ok(Map(map[])) else parse(text);
      if loaded.Err? then Err(loaded.error)
      else
        var st := loaded.value;
        if !st.Map? then Err(NoGet(st))
        else
          var service := OrEmpty(Get(st.entries, "service"));
          if !service.Map? then Err(NoGet(service))
          else
            var api := OrEmpty(Get(service.entries, "api"));
            if !api.Map? then Err(NoGet(api))
            else
              var key := Get(api.entries, "key");
              var url := Get(service.entries, "public_url");
              var problem := if !Truthy(key) then Some(ServiceKeyMsg) else NonEmpty(url, PublicUrlMsg);
              Ok(Probe(problem, key))
  }

  /** Check 3: every exception, the failed placeholder assertion included,
      becomes one problem behind the load-failed prefix. */
  function AppCheck(app: AppRun): (r: Probe)
    ensures r.problem.Some? ==> AppPrefix <= r.problem.value
    ensures r.problem.None? <==> app.Ran? && "API_TOKEN" in app.globals && Truthy(app.globals["API_TOKEN"])
    ensures app.Raised? ==> r.problem == Some(AppPrefix + app.message)
    ensures app.Ran? ==> r.secret == (if "API_TOKEN" in app.globals then app.globals["API_TOKEN"] else Str(""))
    ensures app.Ran? && r.problem.Some? ==> r.problem == Some(AppPrefix + PlaceholderMsg)
  {
    match app
    case Raised(message) => Probe(Some(AppPrefix + message), Null)
    case Ran(globals) =>
      var token := if "API_TOKEN" in globals then globals["API_TOKEN"] else Str("");
      match NonEmpty(token, PlaceholderMsg)
      case None => Probe(None, token)
      case Some(msg) => Probe(Some(AppPrefix + msg), token)
  }

  /** Check 4: `API_TOKEN` absent from the environment or empty. */
  function EnvCheck(env: map<string, string>): (r: Option<string>)
    ensures r.None? <==> "API_TOKEN" in env && env["API_TOKEN"] != ""
    ensures r.Some? ==> r.value == EnvMsg
  {
    if "API_TOKEN" in env && env["API_TOKEN"] != "" then None else Some(EnvMsg)
  }

  function AsList(p: Option<string>): seq<string>
  {
    if p.Some? then [p.value] else []
  }

  /** The problems of the four probes, in the order they run. */
  function Collect(c: Probe, s: Probe, a: Probe, e: Option<string>): seq<string>
  {
    AsList(c.problem) + AsList(s.problem) + AsList(a.problem) + AsList(e)
  }

  /** `main()`: the config is loaded outside any `try`, the settings are
      checked only when the file exists, and the masked secrets are computed
      only when no probe found a problem. */
  function Verify(cfgText: Option<string>, settingsText: Option<string>, app: AppRun,
                  env: map<string, string>, libs: Libs): Report
  {
    match LoadJson(cfgText, libs)
    case Err(e) => Crashed(e)
    case Ok(cfg) =>
      match ConfigCheck(cfg)
      case Err(e) => Crashed(e)
      case Ok(c) =>
        var settings := if settingsText.Some? then SettingsCheck(settingsText.value, libs)
                        else Ok(Probe(None, Null));
        match settings
        case Err(e) => Crashed(e)
        case Ok(s) =>
          var a := AppCheck(app);
          var problems := Collect(c, s, a, EnvCheck(env));
          if problems != [] then Failed(problems)
          else Shown(c.secret, if settingsText.Some? then Some(s.secret) else None, a.secret, env["API_TOKEN"])
  }

  /** A value `mask` raises on: truthy, but not a string. */
  predicate Unmaskable(n: Node)
  {
    Truthy(n) && !n.Str?
  }

  /** The masked secrets of the success report, in print order: the config
      key, the settings key when the settings file exists, the module's token
      and the environment's token. The first secret that cannot be masked
      ends the run with its exception. */
  function Shown(apiKey: Node, serviceKey: Option<Node>, appToken: Node, envToken: string): (r: Report)
    ensures !r.Failed?
    ensures r.Crashed? <==>
      Unmaskable(apiKey) || (serviceKey.Some? && Unmaskable(serviceKey.value)) || Unmaskable(appToken)
    ensures Unmaskable(apiKey) ==> r == Crashed(MaskValue(apiKey).error)
    ensures !Unmaskable(apiKey) && serviceKey.Some? && Unmaskable(serviceKey.value) ==>
      r == Crashed(MaskValue(serviceKey.value).error)
    ensures !Unmaskable(apiKey) && !(serviceKey.Some? && Unmaskable(serviceKey.value)) && Unmaskable(appToken) ==>
      r == Crashed(MaskValue(appToken).error)
    ensures r.Passed? ==>
      && |r.shown| == (if serviceKey.Some? then 4 else 3)
      && r.shown[0] == (if apiKey.Str? then Mask(apiKey.s) else "")
      && (serviceKey.Some? ==> r.shown[1] == (if serviceKey.value.Str? then Mask(serviceKey.value.s) else ""))
      && r.shown[|r.shown| - 2] == (if appToken.Str? then Mask(appToken.s) else "")
      && r.shown[|r.shown| - 1] == Mask(envToken)
  {
    var k := MaskValue(apiKey);
    var sk := if serviceKey.Some? then MaskValue(serviceKey.value) else Ok("");
    var t := MaskValue(appToken);
    if k.Err? then Crashed(k.error)
    else if sk.Err? then Crashed(sk.error)
    else if t.Err? then Crashed(t.error)
    else Passed([k.value] + (if serviceKey.Some? then [sk.value] else []) + [t.value, Mask(envToken)])
  }

  /** `main()` as written: the problems list grows check by check. */
  method CheckWiring(cfgText: Option<string>, settingsText: Option<string>, app: AppRun,
                     env: map<string, string>, libs: Libs)
    returns (report: Report)
    ensures report == Verify(cfgText, settingsText, app, env, libs)
  {
    var problems: seq<string> := [];
    var cfg := LoadJson(cfgText, libs);
    if cfg.Err? {
      return Crashed(cfg.error);
    }
    var c := ConfigCheck(cfg.value);
    if c.Err? {
      return Crashed(c.error);
    }
    if c.value.problem.Some? {
      problems := problems + [c.value.problem.value];
    }
    assert problems == AsList(c.value.problem);
    var s := Probe(None, Null);
    if settingsText.Some? {
      var checked := SettingsCheck(settingsText.value, libs);
      if checked.Err? {
        return Crashed(checked.error);
      }
      s := checked.value;
      if s.problem.Some? {
        problems := problems + [s.problem.value];
      }
    }
    assert problems == AsList(c.value.problem) + AsList(s.problem);
    var a := AppCheck(app);
    if a.problem.Some? {
      problems := problems + [a.problem.value];
    }
    var e := EnvCheck(env);
    if e.Some? {
      problems := problems + [e.value];
    }
    assert problems == Collect(c.value, s, a, e);
    if |problems| > 0 {
      return Failed(problems);
    }
    report := Shown(c.value.secret, if settingsText.Some? then Some(s.secret) else None, a.secret, env["API_TOKEN"]);
  }

  // ---------------------------------------------------------------------------
  // What the report promises

  /** Which probe a problem comes from, by its opening: 0 config, 1 settings,
      2 app, 3 env. */
  function Origin(p: string): nat
  {
    if ConfigPrefix <= p then 0
    else if SettingsPrefix <= p || p == NoYamlMsg then 1
    else if AppPrefix <= p then 2
    else 3
  }

  /** Problems come in probe order, at most one per probe, so at most four. */
  lemma ReportOrder(cfgText: Option<string>, settingsText: Option<string>, app: AppRun,
                    env: map<string, string>, libs: Libs)
    ensures var r := Verify(cfgText, settingsText, app, env, libs);
      && (r.Failed? ==>
            && 1 <= |r.problems| <= 4
            && forall i, j :: 0 <= i < j < |r.problems| ==> Origin(r.problems[i]) < Origin(r.problems[j]))
  {
    var r := Verify(cfgText, settingsText, app, env, libs);
    if r.Failed? {
      var c := ConfigCheck(LoadJson(cfgText, libs).value).value;
      var s := if settingsText.Some? then SettingsCheck(settingsText.value, libs).value else Probe(None, Null);
      var a := AppCheck(app);
      var e := EnvCheck(env);
      assert r.problems == Collect(c, s, a, e);
      CollectOrdered(c, s, a, e);
    }
  }

  /** When no probe crashes, the run fails exactly when some probe reports a
      problem, and then lists all of them; it exits 0 exactly when no probe
      reports one and every secret shown can be masked. */
  lemma FailsOnProblems(cfgText: Option<string>, settingsText: Option<string>, app: AppRun,
                        env: map<string, string>, libs: Libs)
    ensures var r := Verify(cfgText, settingsText, app, env, libs);
      var cfg := LoadJson(cfgText, libs);
      var c := if cfg.Ok? then ConfigCheck(cfg.value) else Err(cfg.error);
      var s := if settingsText.Some? then SettingsCheck(settingsText.value, libs) else Ok(Probe(None, Null));
      var a := AppCheck(app);
      var e := EnvCheck(env);
      var crashes := c.Err? || s.Err?;
      var reported := !crashes && (c.value.problem.Some? || s.value.problem.Some? || a.problem.Some? || e.Some?);
      && (crashes ==> r.Crashed?)
      && (r.Failed? <==> reported)
      && (r.Failed? ==> forall p :: p in r.problems <==>
            (c.value.problem == Some(p) || s.value.problem == Some(p) || a.problem == Some(p) || e == Some(p)))
      && (r.Passed? ==> !crashes && c.value.problem.None? && s.value.problem.None? && a.problem.None? && e.None?)
      && (ExitCode(r) == 0 <==>
            !crashes && !reported &&
            !(Unmaskable(c.value.secret) || (settingsText.Some? && Unmaskable(s.value.secret)) || Unmaskable(a.secret)))
  {
    var r := Verify(cfgText, settingsText, app, env, libs);
    var cfg := LoadJson(cfgText, libs);
    if cfg.Ok? && ConfigCheck(cfg.value).Ok? {
      var c := ConfigCheck(cfg.value).value;
      var s := if settingsText.Some? then SettingsCheck(settingsText.value, libs) else Ok(Probe(None, Null));
      if s.Ok? {
        var a := AppCheck(app);
        var e := EnvCheck(env);
        var ps := Collect(c, s.value, a, e);
        assert ps == [] <==> c.problem.None? && s.value.problem.None? && a.problem.None? && e.None?;
        if r.Failed? {
          assert r.problems == ps;
        }
      }
    }
  }

  /** Problems that come from the probes they are attributed to are listed
      in probe order. */
  lemma CollectOrdered(c: Probe, s: Probe, a: Probe, e: Option<string>)
    requires c.problem.Some? ==> c.problem.value == ApiKeyMsg || c.problem.value == EndpointMsg
    requires s.problem.Some? ==> s.problem.value in {NoYamlMsg, ServiceKeyMsg, PublicUrlMsg}
    requires a.problem.Some? ==> AppPrefix <= a.problem.value
    requires e.Some? ==> e.value == EnvMsg
    ensures var ps := Collect(c, s, a, e);
      |ps| <= 4 && forall i, j :: 0 <= i < j < |ps| ==> Origin(ps[i]) < Origin(ps[j])
  {
    MessageOrigins();
    if a.problem.Some? {
      assert Origin(a.problem.value) == 2;
    }
    OrderedConcat(AsList(c.problem), AsList(s.problem), AsList(a.problem), AsList(e));
  }

  /** Each message is attributed to the probe that issues it. */
  lemma MessageOrigins()
    ensures Origin(ApiKeyMsg) == 0 && Origin(EndpointMsg) == 0
    ensures Origin(ServiceKeyMsg) == 1 && Origin(PublicUrlMsg) == 1 && Origin(NoYamlMsg) == 1
    ensures Origin(EnvMsg) == 3
    ensures forall p :: AppPrefix <= p ==> Origin(p) == 2
  {
    assert ConfigPrefix[0] == 'c' && SettingsPrefix[0] == 's' && AppPrefix[0] == 'a';
    assert EnvMsg[0] == 'E' && NoYamlMsg[0] == 'P';
  }

  /** Which of four consecutive lists, of the lengths given, holds position `k`. */
  function Slot(nw: nat, nx: nat, ny: nat, k: nat): nat
  {
    if k < nw then 0 else if k < nw + nx then 1 else if k < nw + nx + ny then 2 else 3
  }

  lemma OriginAt(w: seq<string>, x: seq<string>, y: seq<string>, z: seq<string>, k: nat)
    requires forall p :: p in w ==> Origin(p) == 0
    requires forall p :: p in x ==> Origin(p) == 1
    requires forall p :: p in y ==> Origin(p) == 2
    requires forall p :: p in z ==> Origin(p) == 3
    requires k < |w + x + y + z|
    ensures Origin((w + x + y + z)[k]) == Slot(|w|, |x|, |y|, k)
  {
    var ps := w + x + y + z;
    if k < |w| {
      assert ps[k] == w[k];
    } else if k < |w| + |x| {
      assert ps[k] == x[k - |w|];
    } else if k < |w| + |x| + |y| {
      assert ps[k] == y[k - |w| - |x|];
    } else {
      assert ps[k] == z[k - |w| - |x| - |y|];
    }
  }

  /** Four lists of at most one message each, with strictly increasing
      origins from list to list, are ordered by origin when concatenated. */
  lemma OrderedConcat(w: seq<string>, x: seq<string>, y: seq<string>, z: seq<string>)
    requires |w| <= 1 && |x| <= 1 && |y| <= 1 && |z| <= 1
    requires forall p :: p in w ==> Origin(p) == 0
    requires forall p :: p in x ==> Origin(p) == 1
    requires forall p :: p in y ==> Origin(p) == 2
    requires forall p :: p in z ==> Origin(p) == 3
    ensures var ps := w + x + y + z;
      |ps| <= 4 && forall i, j :: 0 <= i < j < |ps| ==> Origin(ps[i]) < Origin(ps[j])
  {
    var ps := w + x + y + z;
    forall i, j | 0 <= i < j < |ps|
      ensures Origin(ps[i]) < Origin(ps[j])
    {
      OriginAt(w, x, y, z, i);
      OriginAt(w, x, y, z, j);
    }
  }

  /** A config with a key but no endpoint and an environment without
      `API_TOKEN` (no settings file, a working app module) give exactly those
      two problems, and the run fails. */
  lemma MissingEndpointAndToken(app_token: string, libs: Libs, cfgText: string)
    requires libs.json(cfgText) == Ok(Map(map["api" := Map(map["key" := Str("k")])]))
    requires cfgText != "" && app_token != ""
    ensures var r := Verify(Some(cfgText), None, Ran(map["API_TOKEN" := Str(app_token)]), map[], libs);
      r == Failed([EndpointMsg, EnvMsg]) && ExitCode(r) == 1
  {
  }

  /** A settings document without a usable `service` (absent, null or any
      other falsy value) reads as `{}`, so the service key is the problem. */
  lemma SettingsWithoutService(text: string, libs: Libs, st: map<string, Node>)
    requires libs.yaml.Some? && !IsBlank(text) && libs.yaml.value(text) == Ok(Map(st))
    requires "service" !in st || !Truthy(st["service"])
    ensures SettingsCheck(text, libs) == Ok(Probe(Some(ServiceKeyMsg), Null))
  {
  }

  /** A blank settings file reads as `{}` too, but still needs PyYAML. */
  lemma BlankSettings(text: string, libs: Libs)
    requires IsBlank(text)
    ensures SettingsCheck(text, libs) ==
      Ok(Probe(Some(if libs.yaml.Some? then ServiceKeyMsg else NoYamlMsg), Null))
  {
  }

  /** A module whose `API_TOKEN` is absent or falsy (`None`, `0`, `False`,
      `""`, `[]`, `{}`) fails with the assertion's message behind the
      load-failed prefix. */
  lemma PlaceholderWrapped(globals: map<string, Node>)
    requires "API_TOKEN" !in globals || !Truthy(globals["API_TOKEN"])
    ensures AppCheck(Ran(globals)).problem == Some(AppPrefix + PlaceholderMsg)
  {
  }

  /** A module that still holds the literal placeholder passes check 3: the
      placeholder is a non-empty string, so the assertion does not fire. */
  lemma LiteralPlaceholderPasses()
    ensures AppCheck(Ran(map["API_TOKEN" := Str("${API_TOKEN}")])).problem.None?
  {
  }

  /** A passing run had every secret it shows present as a non-empty string
      (the config key, the settings key when the file exists, the module's
      token and the environment's token), and shows them masked in that
      order. */
  lemma PassedShowsMasked(cfgText: Option<string>, settingsText: Option<string>, app: AppRun,
                          env: map<string, string>, libs: Libs)
    requires Verify(cfgText, settingsText, app, env, libs).Passed?
    ensures "API_TOKEN" in env && env["API_TOKEN"] != ""
    ensures app.Ran? && "API_TOKEN" in app.globals && app.globals["API_TOKEN"].Str?
    ensures app.globals["API_TOKEN"].s != ""
    ensures LoadJson(cfgText, libs).Ok? && LoadJson(cfgText, libs).value.Map?
    ensures var cfg := LoadJson(cfgText, libs).value.entries;
      && "api" in cfg && cfg["api"].Map? && "key" in cfg["api"].entries
      && cfg["api"].entries["key"].Str? && cfg["api"].entries["key"].s != ""
    ensures settingsText.Some? ==>
      && SettingsCheck(settingsText.value, libs).Ok?
      && SettingsCheck(settingsText.value, libs).value.secret.Str?
      && SettingsCheck(settingsText.value, libs).value.secret.s != ""
    ensures var shown := Verify(cfgText, settingsText, app, env, libs).shown;
      var key := LoadJson(cfgText, libs).value.entries["api"].entries["key"];
      && |shown| == (if settingsText.Some? then 4 else 3)
      && shown[0] == Mask(key.s)
      && (settingsText.Some? ==> shown[1] == Mask(SettingsCheck(settingsText.value, libs).value.secret.s))
      && shown[|shown| - 1] == Mask(env["API_TOKEN"])
      && shown[|shown| - 2] == Mask(app.globals["API_TOKEN"].s)
  {
    var a := AppCheck(app);
    assert a.problem.None?;
    assert a.secret == app.globals["API_TOKEN"];
    var cfg := LoadJson(cfgText, libs).value;
    var c := ConfigCheck(cfg).value;
    assert c.problem.None?;
    assert c.secret == cfg.entries["api"].entries["key"];
  }
}
