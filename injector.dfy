/** The driver of scripts/inject_secrets.py with its I/O made explicit: the
    files are a map from path to text, the JSON/YAML libraries are functions
    passed in, and the run's result is the files it leaves and its verdict. */
module Injector {
  import opened Base
  import opened Text
  import opened Tree
  import opened Resolver
  import opened DottedPath

  datatype Format = Json | Yaml

  /** The libraries the driver calls: parsing and serialising documents, and
      whether PyYAML can be imported at all. */
  datatype Io = Io(
    parse: (Format, string) -> Result<Node>,
    dump: (Format, Node) -> string,
    yamlAvailable: bool)

  /** The mapping file: `structured` (target path to its `(dotted, spec)`
      entries, in file order), `tokens` (text file to variable names) and
      `templates` (target path to template path). Absent sections are empty. */
  datatype Descriptor = Descriptor(
    structured: seq<(string, seq<(string, string)>)>,
    tokens: seq<(string, seq<string>)>,
    templates: map<string, string>)

  /** The file system: path to text. */
  type Files = map<string, string>

  /** How a run ends: success, the strict-mode failure with its stderr line,
      or an error that stopped the run (a `sys.exit` message or an exception). */
  datatype Verdict = Succeeded | MissingEnvs(message: string) | Aborted(message: string)

  datatype Outcome = Outcome(files: Files, verdict: Verdict)

  /** The files after processing some structured targets, and the error that
      stopped processing, if any. */
  datatype FileStep = FileStep(files: Files, error: Option<string>)

  const NoYamlError := "PyYAML not installed. Add a step: `pip install pyyaml`."
  const MissingPrefix := "Missing required env(s): "

  /** The process exit status. */
  function ExitCode(v: Verdict): int
  {
    if v.Succeeded? then 0 else 1
  }

  // ---------------------------------------------------------------------------
  // One structured target

  /** `pathlib.PurePath(path).name` for a '/'-separated path. */
  function Name(path: string): string
  {
    match LastIndex(path, '/')
    case None => path
    case Some(i) => path[i + 1..]
  }

  /** `pathlib.PurePath(path).suffix`: the name from its last dot on, unless
      that dot starts or ends the name. */
  function Suffix(path: string): string
  {
    var name := Name(path);
    match LastIndex(name, '.')
    case Some(i) => if 0 < i < |name| - 1 then name[i..] else ""
    case None => ""
  }

  function UnsupportedError(relpath: string): string
  {
    "Structured only supports JSON/YAML; got " + relpath
  }

  /** The format the lower-cased suffix selects, or the `sys.exit` message. */
  function FormatOf(relpath: string): Result<Format>
  {
    var suffix := Lower(Suffix(relpath));
    if suffix == ".json" then Ok(Json)
    else if suffix == ".yml" || suffix == ".yaml" then Ok(Yaml)
    else Err(UnsupportedError(relpath))
  }

  /** The name is what follows the directory, and its suffix is the extension. */
  lemma SuffixOfExtension(dir: string, stem: string, ext: string)
    requires dir == "" || dir[|dir| - 1] == '/'
    requires stem != "" && '/' !in stem && '/' !in ext
    requires |ext| >= 2 && ext[0] == '.' && '.' !in ext[1..]
    ensures Suffix(dir + stem + ext) == ext
  {
    var path := dir + stem + ext;
    var name := stem + ext;
    if dir == "" {
      assert path == name;
    } else {
      assert path[|dir|..] == name;
      assert path[|dir| - 1] == '/';
      LastIndexAt(path, '/', |dir| - 1);
    }
    assert Name(path) == name;
    assert name[|stem|..] == ext && name[|stem| + 1..] == ext[1..];
    LastIndexAt(name, '.', |stem|);
  }

  /** `.json` selects JSON and `.yml`/`.yaml` select YAML in any letter case;
      every other extension stops the run. */
  lemma FormatByExtension(dir: string, stem: string, ext: string)
    requires dir == "" || dir[|dir| - 1] == '/'
    requires stem != "" && '/' !in stem && '/' !in ext
    requires |ext| >= 2 && ext[0] == '.' && '.' !in ext[1..]
    ensures FormatOf(dir + stem + ext) ==
      if Lower(ext) == ".json" then Ok(Json)
      else if Lower(ext) == ".yml" || Lower(ext) == ".yaml" then Ok(Yaml)
      else Err(UnsupportedError(dir + stem + ext))
  {
    SuffixOfExtension(dir, stem, ext);
  }

  /** A dot that starts the name is not a suffix: a name whose only dot is
      its first character, such as `.json`, is refused. */
  lemma DotFileUnsupported(relpath: string)
    requires |Name(relpath)| >= 1 && Name(relpath)[0] == '.' && '.' !in Name(relpath)[1..]
    ensures FormatOf(relpath) == Err(UnsupportedError(relpath))
  {
    LastIndexAt(Name(relpath), '.', 0);
    assert Suffix(relpath) == "";
    assert Lower("") == "";
  }

  /** A name without a dot, such as `Makefile`, has no suffix and is refused. */
  lemma NoSuffixUnsupported(relpath: string)
    requires '.' !in Name(relpath)
    ensures FormatOf(relpath) == Err(UnsupportedError(relpath))
  {
    assert Suffix(relpath) == "";
    assert Lower("") == "";
  }

  /** `templates.get(relpath)`. */
  function Template(templates: map<string, string>, relpath: string): Option<string>
  {
    if relpath in templates then Some(templates[relpath]) else None
  }

  /** The template bootstrap: an absent target whose template is named (by a
      non-empty path) and exists is created with the template's text; nothing
      else changes. */
  function Bootstrap(files: Files, relpath: string, template: Option<string>): (r: Files)
    ensures relpath in files ==> r == files
    ensures relpath in r <==>
      relpath in files || (template.Some? && template.value != "" && template.value in files)
    ensures relpath !in files && relpath in r ==> r[relpath] == files[template.value]
    ensures forall k :: k != relpath ==> (k in r <==> k in files)
    ensures forall k :: k != relpath && k in files ==> r[k] == files[k]
  {
    if relpath !in files && template.Some? && template.value != "" && template.value in files
    then files[relpath := files[template.value]]
    else files
  }

  /** `load_json` / `load_yaml`: an absent or empty JSON file and an absent or
      blank YAML file read as `{}`; YAML needs PyYAML even then. */
  function Load(format: Format, text: Option<string>, io: Io): (r: Result<Node>)
    ensures format == Json && (text.None? || text.value == "") ==> r == Ok(Map(map[]))
    ensures format == Json && text.Some? && text.value != "" ==> r == io.parse(Json, text.value)
    ensures format == Yaml && !io.yamlAvailable ==> r == Err(NoYamlError)
    ensures format == Yaml && io.yamlAvailable && (text.None? || IsBlank(text.value)) ==> r == Ok(Map(map[]))
    ensures format == Yaml && io.yamlAvailable && text.Some? && !IsBlank(text.value) ==>
      r == io.parse(Yaml, text.value)
  {
    match format
    case Json =>
      if text.Some? && text.value != "" then io.parse(Json, text.value) else Ok(Map(map[]))
    case Yaml =>
      if !io.yamlAvailable then Err(NoYamlError)
      else
        var t := if text.Some? then text.value else "";
        if IsBlank(t) then Ok(Map(map[])) else io.parse(Yaml, t)
  }

  /** One entry: expand its spec, then write the value at its dotted path. */
  function ApplyEntry(data: Node, entry: (string, string), env: map<string, string>): Result<Node>
  {
    match Expand(entry.1, env)
    case Err(e) => Err(e)
    case Ok(v) => Assign(data, entry.0, Str(v))
  }

  /** The `for dotted, spec in path_map.items()` loop: entry after entry; the
      first error stops it. */
  function ApplyEntries(data: Node, entries: seq<(string, string)>, env: map<string, string>): Result<Node>
    decreases |entries|
  {
    if entries == [] then Ok(data)
    else
      var next := ApplyEntry(data, entries[0], env);
      if next.Err? then next else ApplyEntries(next.value, entries[1..], env)
  }

  /** What one spec adds to `missing`: the name of an `env:` spec whose value
      came out empty. */
  function Missed(spec: string, env: map<string, string>): set<string>
  {
    if Expand(spec, env) == Ok("") && "env:" <= spec then {spec[4..]} else {}
  }

  function EntryMissing(entries: seq<(string, string)>, env: map<string, string>): set<string>
    decreases |entries|
  {
    if entries == [] then {}
    else EntryMissing(entries[..|entries| - 1], env) + Missed(entries[|entries| - 1].1, env)
  }

  /** One iteration of the structured loop: bootstrap, pick the format, load,
      apply the entries, write the document back. An error keeps the files
      written so far, the bootstrap copy included. */
  function StructuredFile(files: Files, relpath: string, entries: seq<(string, string)>,
                          template: Option<string>, env: map<string, string>, io: Io): FileStep
  {
    var fs := Bootstrap(files, relpath, template);
    match FormatOf(relpath)
    case Err(e) => FileStep(fs, Some(e))
    case Ok(format) =>
      match Load(format, if relpath in fs then Some(fs[relpath]) else None, io)
      case Err(e) => FileStep(fs, Some(e))
      case Ok(data) =>
        match ApplyEntries(data, entries, env)
        case Err(e) => FileStep(fs, Some(e))
        case Ok(d) => FileStep(fs[relpath := io.dump(format, d)], None)
  }

  /** One step of `ApplyEntries` from position `i`. */
  lemma ApplyEntriesStep(data: Node, entries: seq<(string, string)>, env: map<string, string>, i: nat)
    requires i < |entries|
    ensures ApplyEntries(data, entries[i..], env) ==
      var next := ApplyEntry(data, entries[i], env);
      if next.Err? then next else ApplyEntries(next.value, entries[i + 1..], env)
  {
    assert entries[i..][0] == entries[i] && entries[i..][1..] == entries[i + 1..];
  }

  /** One step of `EntryMissing` up to position `i + 1`. */
  lemma EntryMissingStep(entries: seq<(string, string)>, env: map<string, string>, i: nat)
    requires i < |entries|
    ensures EntryMissing(entries[..i + 1], env) == EntryMissing(entries[..i], env) + Missed(entries[i].1, env)
  {
    assert entries[..i + 1][..i] == entries[..i];
  }

  /** One entry of the loop: expand the spec, note an `env:` spec that reads
      empty, write the value at the dotted path. */
  method InjectEntry(data: Node, dotted: string, spec: string, env: map<string, string>)
    returns (r: Result<Node>, added: set<string>)
    ensures r == ApplyEntry(data, (dotted, spec), env)
    ensures r.Ok? ==> added == Missed(spec, env)
  {
    var val := Expand(spec, env);
    if val.Err? {
      return Err(val.error), {};
    }
    added := {};
    if val.value == "" && "env:" <= spec {
      added := {spec[4..]};
    }
    r := SetPath(data, dotted, Str(val.value));
  }

  /** The entries loop of one structured target, on the loaded document. */
  method InjectEntries(data0: Node, entries: seq<(string, string)>, env: map<string, string>)
    returns (r: Result<Node>, missing: set<string>)
    ensures r == ApplyEntries(data0, entries, env)
    ensures r.Ok? ==> missing == EntryMissing(entries, env)
  {
    var data := data0;
    missing := {};
    var i := 0;
    while i < |entries|
      invariant 0 <= i <= |entries|
      invariant ApplyEntries(data0, entries, env) == ApplyEntries(data, entries[i..], env)
      invariant missing == EntryMissing(entries[..i], env)
    {
      ApplyEntriesStep(data, entries, env, i);
      EntryMissingStep(entries, env, i);
      var next, added := InjectEntry(data, entries[i].0, entries[i].1, env);
      if next.Err? {
        return next, missing;
      }
      missing := missing + added;
      data := next.value;
      i := i + 1;
    }
    assert entries[..i] == entries;
    r := Ok(data);
  }

  method InjectStructured(files: Files, relpath: string, entries: seq<(string, string)>,
                          template: Option<string>, env: map<string, string>, io: Io)
    returns (step: FileStep, missing: set<string>)
    ensures step == StructuredFile(files, relpath, entries, template, env, io)
    ensures step.error.None? ==> missing == EntryMissing(entries, env)
  {
    var fs := Bootstrap(files, relpath, template);
    missing := {};
    var format := FormatOf(relpath);
    if format.Err? {
      return FileStep(fs, Some(format.error)), missing;
    }
    var loaded := Load(format.value, if relpath in fs then Some(fs[relpath]) else None, io);
    if loaded.Err? {
      return FileStep(fs, Some(loaded.error)), missing;
    }
    var r;
    r, missing := InjectEntries(loaded.value, entries, env);
    if r.Err? {
      return FileStep(fs, Some(r.error)), missing;
    }
    step := FileStep(fs[relpath := io.dump(format.value, r.value)], None);
  }

  // ---------------------------------------------------------------------------
  // One token file

  function Placeholder(name: string): string
  {
    "${" + name + "}"
  }

  /** The `for var in vars_list` loop: each variable's placeholders replaced by
      its value, or by "" when it is unset, in list order. */
  function ReplaceVars(content: string, vars: seq<string>, env: map<string, string>): string
    decreases |vars|
  {
    if vars == [] then content
    else ReplaceVars(ReplaceAll(content, Placeholder(vars[0]), GetOr(env, vars[0], "")), vars[1..], env)
  }

  /** A token file is rewritten if it exists and skipped otherwise; no other
      file changes and no file appears or disappears. */
  function TokenFile(files: Files, relpath: string, vars: seq<string>, env: map<string, string>): (r: Files)
    ensures r.Keys == files.Keys
    ensures forall k :: k in files && k != relpath ==> r[k] == files[k]
  {
    if relpath in files then files[relpath := ReplaceVars(files[relpath], vars, env)] else files
  }

  /** The listed variables the environment does not define. */
  function Unset(vars: seq<string>, env: map<string, string>): set<string>
  {
    set v | v in vars && v !in env
  }

  method InjectTokens(files: Files, relpath: string, vars: seq<string>, env: map<string, string>,
                      requireAll: bool)
    returns (out: Files, missing: set<string>)
    ensures out == TokenFile(files, relpath, vars, env)
    ensures missing == if requireAll && relpath in files then Unset(vars, env) else {}
  {
    if relpath !in files {
      return files, {};
    }
    var content := files[relpath];
    missing := {};
    var i := 0;
    while i < |vars|
      invariant 0 <= i <= |vars|
      invariant ReplaceVars(files[relpath], vars, env) == ReplaceVars(content, vars[i..], env)
      invariant missing == if requireAll then Unset(vars[..i], env) else {}
    {
      var name := vars[i];
      var val: Option<string> := if name in env then Some(env[name]) else None;
      if val.None? && requireAll {
        missing := missing + {name};
      }
      assert vars[i..][0] == name && vars[i..][1..] == vars[i + 1..];
      assert vars[..i + 1] == vars[..i] + [name];
      content := ReplaceAll(content, Placeholder(name), if val.Some? then val.value else "");
      i := i + 1;
    }
    assert vars[..i] == vars;
    out := files[relpath := content];
  }

  // ---------------------------------------------------------------------------
  // The whole run

  function StructuredPhase(files: Files, structured: seq<(string, seq<(string, string)>)>,
                           templates: map<string, string>, env: map<string, string>, io: Io): FileStep
    decreases |structured|
  {
    if structured == [] then FileStep(files, None)
    else
      var relpath := structured[0].0;
      var step := StructuredFile(files, relpath, structured[0].1, Template(templates, relpath), env, io);
      if step.error.Some? then step
      else StructuredPhase(step.files, structured[1..], templates, env, io)
  }

  function StructuredMissing(structured: seq<(string, seq<(string, string)>)>, env: map<string, string>): set<string>
    decreases |structured|
  {
    if structured == [] then {}
    else StructuredMissing(structured[..|structured| - 1], env) + EntryMissing(structured[|structured| - 1].1, env)
  }

  function TokenPhase(files: Files, tokens: seq<(string, seq<string>)>, env: map<string, string>): Files
    decreases |tokens|
  {
    if tokens == [] then files
    else TokenPhase(TokenFile(files, tokens[0].0, tokens[0].1, env), tokens[1..], env)
  }

  /** The unset variables of the token files that exist in `files`. */
  function TokenMissing(files: Files, tokens: seq<(string, seq<string>)>, env: map<string, string>): set<string>
    decreases |tokens|
  {
    if tokens == [] then {}
    else
      var (relpath, vars) := tokens[|tokens| - 1];
      TokenMissing(files, tokens[..|tokens| - 1], env) + (if relpath in files then Unset(vars, env) else {})
  }

  /** The stderr line of the strict-mode failure. */
  function MissingMessage(missing: set<string>): string
  {
    MissingPrefix + Join(SortedNames(missing), ", ")
  }

  /** `main()` after its mapping file is read: every structured target in
      order, then every token file, then the strict-mode verdict. */
  function Run(desc: Descriptor, requireAll: bool, env: map<string, string>, files: Files, io: Io): Outcome
  {
    var s := StructuredPhase(files, desc.structured, desc.templates, env, io);
    if s.error.Some? then Outcome(s.files, Aborted(s.error.value))
    else
      var missing := StructuredMissing(desc.structured, env)
        + (if requireAll then TokenMissing(s.files, desc.tokens, env) else {});
      Outcome(TokenPhase(s.files, desc.tokens, env),
              if requireAll && missing != {} then MissingEnvs(MissingMessage(missing)) else Succeeded)
  }

  lemma StructuredPhaseStep(files: Files, structured: seq<(string, seq<(string, string)>)>,
                            templates: map<string, string>, env: map<string, string>, io: Io, i: nat)
    requires i < |structured|
    ensures StructuredPhase(files, structured[i..], templates, env, io) ==
      var step := StructuredFile(files, structured[i].0, structured[i].1,
                                 Template(templates, structured[i].0), env, io);
      if step.error.Some? then step else StructuredPhase(step.files, structured[i + 1..], templates, env, io)
  {
    assert structured[i..][0] == structured[i] && structured[i..][1..] == structured[i + 1..];
  }

  lemma StructuredMissingStep(structured: seq<(string, seq<(string, string)>)>, env: map<string, string>, i: nat)
    requires i < |structured|
    ensures StructuredMissing(structured[..i + 1], env) ==
      StructuredMissing(structured[..i], env) + EntryMissing(structured[i].1, env)
  {
    assert structured[..i + 1][..i] == structured[..i];
  }

  /** The structured loop of `main`. */
  method InjectAllStructured(files: Files, structured: seq<(string, seq<(string, string)>)>,
                             templates: map<string, string>, env: map<string, string>, io: Io)
    returns (step: FileStep, missing: set<string>)
    ensures step == StructuredPhase(files, structured, templates, env, io)
    ensures step.error.None? ==> missing == StructuredMissing(structured, env)
  {
    var fs := files;
    missing := {};
    var i := 0;
    while i < |structured|
      invariant 0 <= i <= |structured|
      invariant StructuredPhase(files, structured, templates, env, io)
             == StructuredPhase(fs, structured[i..], templates, env, io)
      invariant missing == StructuredMissing(structured[..i], env)
    {
      var (relpath, entries) := structured[i];
      StructuredPhaseStep(fs, structured, templates, env, io, i);
      StructuredMissingStep(structured, env, i);
      var one, added := InjectStructured(fs, relpath, entries, Template(templates, relpath), env, io);
      if one.error.Some? {
        return one, missing;
      }
      fs := one.files;
      missing := missing + added;
      i := i + 1;
    }
    assert structured[..i] == structured;
    step := FileStep(fs, None);
  }

  lemma TokenPhaseStep(files: Files, tokens: seq<(string, seq<string>)>, env: map<string, string>, i: nat)
    requires i < |tokens|
    ensures TokenPhase(files, tokens[i..], env) ==
      TokenPhase(TokenFile(files, tokens[i].0, tokens[i].1, env), tokens[i + 1..], env)
  {
    assert tokens[i..][0] == tokens[i] && tokens[i..][1..] == tokens[i + 1..];
  }

  lemma TokenMissingStep(files: Files, tokens: seq<(string, seq<string>)>, env: map<string, string>, i: nat)
    requires i < |tokens|
    ensures TokenMissing(files, tokens[..i + 1], env) ==
      TokenMissing(files, tokens[..i], env) + (if tokens[i].0 in files then Unset(tokens[i].1, env) else {})
  {
    assert tokens[..i + 1][..i] == tokens[..i];
  }

  /** The token loop of `main`; `missing` collects only in strict mode. */
  method InjectAllTokens(files: Files, tokens: seq<(string, seq<string>)>, env: map<string, string>,
                         requireAll: bool)
    returns (out: Files, missing: set<string>)
    ensures out == TokenPhase(files, tokens, env)
    ensures missing == if requireAll then TokenMissing(files, tokens, env) else {}
  {
    out := files;
    missing := {};
    var j := 0;
    while j < |tokens|
      invariant 0 <= j <= |tokens|
      invariant out.Keys == files.Keys
      invariant TokenPhase(files, tokens, env) == TokenPhase(out, tokens[j..], env)
      invariant missing == if requireAll then TokenMissing(files, tokens[..j], env) else {}
    {
      var (relpath, vars) := tokens[j];
      TokenPhaseStep(out, tokens, env, j);
      TokenMissingStep(files, tokens, env, j);
      var added;
      out, added := InjectTokens(out, relpath, vars, env, requireAll);
      missing := missing + added;
      j := j + 1;
    }
    assert tokens[..j] == tokens;
  }

  /** `main()` after the mapping file is read. */
  method Inject(desc: Descriptor, requireAll: bool, env: map<string, string>, files: Files, io: Io)
    returns (out: Outcome)
    ensures out == Run(desc, requireAll, env, files, io)
  {
    var step, missing := InjectAllStructured(files, desc.structured, desc.templates, env, io);
    if step.error.Some? {
      return Outcome(step.files, Aborted(step.error.value));
    }
    var fs, added := InjectAllTokens(step.files, desc.tokens, env, requireAll);
    missing := missing + added;
    var verdict := Succeeded;
    if requireAll && missing != {} {
      verdict := MissingEnvs(MissingMessage(missing));
    }
    out := Outcome(fs, verdict);
  }

  // ---------------------------------------------------------------------------
  // What the run promises

  /** One spec adds `x` to `missing` exactly when it is `env:x` and `x` reads
      empty, whether unset or set to "". */
  lemma MissedIff(spec: string, env: map<string, string>, x: string)
    ensures x in Missed(spec, env) <==> spec == "env:" + x && GetOr(env, x, "") == ""
  {
    if spec == "env:" + x {
      assert spec[..4] == "env:" && spec[4..] == x;
    }
    if "env:" <= spec {
      assert spec == "env:" + spec[4..];
    }
  }

  /** The names the entries of one target add to `missing`. */
  lemma {:induction false} EntryMissingIff(entries: seq<(string, string)>, env: map<string, string>, x: string)
    ensures x in EntryMissing(entries, env) <==>
      GetOr(env, x, "") == "" && exists i :: 0 <= i < |entries| && entries[i].1 == "env:" + x
    decreases |entries|
  {
    if entries != [] {
      var n := |entries| - 1;
      var init := entries[..n];
      EntryMissingIff(init, env, x);
      MissedIff(entries[n].1, env, x);
      if exists i :: 0 <= i < |entries| && entries[i].1 == "env:" + x {
        var i :| 0 <= i < |entries| && entries[i].1 == "env:" + x;
        if i < n {
          assert init[i] == entries[i];
        }
      }
      if exists i :: 0 <= i < |init| && init[i].1 == "env:" + x {
        var i :| 0 <= i < |init| && init[i].1 == "env:" + x;
        assert entries[i] == init[i];
      }
    }
  }

  /** The names the whole structured phase adds to `missing`: every `env:`
      spec of every target whose variable reads empty. */
  lemma {:induction false} StructuredMissingIff(structured: seq<(string, seq<(string, string)>)>,
                                                env: map<string, string>, x: string)
    ensures x in StructuredMissing(structured, env) <==>
      GetOr(env, x, "") == "" &&
      exists i, j :: 0 <= i < |structured| && 0 <= j < |structured[i].1| && structured[i].1[j].1 == "env:" + x
    decreases |structured|
  {
    if structured != [] {
      var n := |structured| - 1;
      var init := structured[..n];
      StructuredMissingIff(init, env, x);
      EntryMissingIff(structured[n].1, env, x);
      if exists i, j :: 0 <= i < |structured| && 0 <= j < |structured[i].1| && structured[i].1[j].1 == "env:" + x {
        var i, j :| 0 <= i < |structured| && 0 <= j < |structured[i].1| && structured[i].1[j].1 == "env:" + x;
        if i < n {
          assert init[i] == structured[i];
        }
      }
      if exists i, j :: 0 <= i < |init| && 0 <= j < |init[i].1| && init[i].1[j].1 == "env:" + x {
        var i, j :| 0 <= i < |init| && 0 <= j < |init[i].1| && init[i].1[j].1 == "env:" + x;
        assert structured[i] == init[i];
      }
    }
  }

  /** The names the token phase adds in strict mode: the unset variables of
      the token files that exist. */
  lemma {:induction false} TokenMissingIff(files: Files, tokens: seq<(string, seq<string>)>,
                                           env: map<string, string>, x: string)
    ensures x in TokenMissing(files, tokens, env) <==>
      x !in env && exists i :: 0 <= i < |tokens| && tokens[i].0 in files && x in tokens[i].1
    decreases |tokens|
  {
    if tokens != [] {
      var n := |tokens| - 1;
      var init := tokens[..n];
      TokenMissingIff(files, init, env, x);
      if exists i :: 0 <= i < |tokens| && tokens[i].0 in files && x in tokens[i].1 {
        var i :| 0 <= i < |tokens| && tokens[i].0 in files && x in tokens[i].1;
        if i < n {
          assert init[i] == tokens[i];
        }
      }
      if exists i :: 0 <= i < |init| && init[i].0 in files && x in init[i].1 {
        var i :| 0 <= i < |init| && init[i].0 in files && x in init[i].1;
        assert tokens[i] == init[i];
      }
    }
  }

  /** Some `env:` spec of some structured target names a variable that reads empty. */
  ghost predicate SomeEnvSpecEmpty(structured: seq<(string, seq<(string, string)>)>, env: map<string, string>)
  {
    exists i, j, x :: 0 <= i < |structured| && 0 <= j < |structured[i].1|
                   && structured[i].1[j].1 == "env:" + x && GetOr(env, x, "") == ""
  }

  /** Some token file that exists lists a variable that is not set. */
  ghost predicate SomeTokenUnset(files: Files, tokens: seq<(string, seq<string>)>, env: map<string, string>)
  {
    exists i, x :: 0 <= i < |tokens| && tokens[i].0 in files && x in tokens[i].1 && x !in env
  }

  lemma StructuredMissingNonEmpty(structured: seq<(string, seq<(string, string)>)>, env: map<string, string>)
    ensures StructuredMissing(structured, env) != {} <==> SomeEnvSpecEmpty(structured, env)
  {
    if StructuredMissing(structured, env) != {} {
      var x :| x in StructuredMissing(structured, env);
      StructuredMissingIff(structured, env, x);
    }
    if SomeEnvSpecEmpty(structured, env) {
      var i, j, x :| 0 <= i < |structured| && 0 <= j < |structured[i].1|
                  && structured[i].1[j].1 == "env:" + x && GetOr(env, x, "") == "";
      StructuredMissingIff(structured, env, x);
    }
  }

  lemma TokenMissingNonEmpty(files: Files, tokens: seq<(string, seq<string>)>, env: map<string, string>)
    ensures TokenMissing(files, tokens, env) != {} <==> SomeTokenUnset(files, tokens, env)
  {
    if TokenMissing(files, tokens, env) != {} {
      var x :| x in TokenMissing(files, tokens, env);
      TokenMissingIff(files, tokens, env, x);
    }
    if SomeTokenUnset(files, tokens, env) {
      var i, x :| 0 <= i < |tokens| && tokens[i].0 in files && x in tokens[i].1 && x !in env;
      TokenMissingIff(files, tokens, env, x);
    }
  }

  /** The strict verdict: a run that gets through the structured targets
      fails on missing variables exactly when `--require-all` is given and
      some `env:` spec read empty or some existing token file lists an unset
      variable; without `--require-all` it always succeeds. */
  lemma StrictVerdict(desc: Descriptor, requireAll: bool, env: map<string, string>, files: Files, io: Io)
    ensures var s := StructuredPhase(files, desc.structured, desc.templates, env, io);
      var out := Run(desc, requireAll, env, files, io);
      && (out.verdict.Aborted? <==> s.error.Some?)
      && (s.error.None? ==>
           (out.verdict.MissingEnvs? <==>
              requireAll &&
              (SomeEnvSpecEmpty(desc.structured, env) || SomeTokenUnset(s.files, desc.tokens, env))))
      && (!requireAll ==> out.verdict == if s.error.Some? then Aborted(s.error.value) else Succeeded)
      && (ExitCode(out.verdict) == 0 <==>
            (s.error.None? &&
             !(requireAll && (SomeEnvSpecEmpty(desc.structured, env) || SomeTokenUnset(s.files, desc.tokens, env)))))
  {
    var s := StructuredPhase(files, desc.structured, desc.templates, env, io);
    StructuredMissingNonEmpty(desc.structured, env);
    TokenMissingNonEmpty(s.files, desc.tokens, env);
  }

  /** The failure message names each missing variable once, in sorted order. */
  lemma MissingMessageNames(missing: set<string>)
    requires missing != {}
    ensures exists names: seq<string> ::
      && MissingMessage(missing) == MissingPrefix + Join(names, ", ")
      && |names| == |missing|
      && (forall x :: x in names <==> x in missing)
      && (forall i, j :: 0 <= i < j < |names| ==> Below(names[i], names[j]))
  {
    var names := SortedNames(missing);
    assert MissingMessage(missing) == MissingPrefix + Join(names, ", ");
  }

  /** Applying entries on a mapping document fails exactly when some spec
      cannot be expanded (the assignments themselves never fail there), and
      the document stays a mapping. */
  lemma {:induction false} ApplyEntriesOnMapping(data: Node, entries: seq<(string, string)>, env: map<string, string>)
    requires data.Map?
    ensures ApplyEntries(data, entries, env).Err? <==>
      exists i :: 0 <= i < |entries| && Expand(entries[i].1, env).Err?
    ensures ApplyEntries(data, entries, env).Ok? ==> ApplyEntries(data, entries, env).value.Map?
    decreases |entries|
  {
    if entries != [] {
      var next := ApplyEntry(data, entries[0], env);
      if next.Ok? {
        ApplyEntriesOnMapping(next.value, entries[1..], env);
        if exists i :: 0 <= i < |entries| && Expand(entries[i].1, env).Err? {
          var i :| 0 <= i < |entries| && Expand(entries[i].1, env).Err?;
          assert entries[1..][i - 1] == entries[i];
        }
        if exists i :: 0 <= i < |entries[1..]| && Expand(entries[1..][i].1, env).Err? {
          var i :| 0 <= i < |entries[1..]| && Expand(entries[1..][i].1, env).Err?;
          assert entries[i + 1] == entries[1..][i];
        }
      }
    }
  }

  /** Applying one more entry after a list is applying it to the list's result. */
  lemma {:induction false} ApplyEntriesSnoc(data: Node, entries: seq<(string, string)>, e: (string, string),
                                            env: map<string, string>)
    ensures ApplyEntries(data, entries + [e], env) ==
      var r := ApplyEntries(data, entries, env);
      if r.Err? then r else ApplyEntry(r.value, e, env)
    decreases |entries|
  {
    if entries == [] {
      assert [e][1..] == [];
    } else {
      assert (entries + [e])[0] == entries[0] && (entries + [e])[1..] == entries[1..] + [e];
      var next := ApplyEntry(data, entries[0], env);
      if next.Ok? {
        ApplyEntriesSnoc(next.value, entries[1..], e, env);
      }
    }
  }

  /** Entries are applied in file order, so the last entry wins: after a run
      that succeeds, its dotted path holds its expanded value. */
  lemma LastEntryWins(data: Node, entries: seq<(string, string)>, dotted: string, spec: string,
                      env: map<string, string>)
    requires ApplyEntries(data, entries + [(dotted, spec)], env).Ok?
    ensures Expand(spec, env).Ok?
    ensures Lookup(ApplyEntries(data, entries + [(dotted, spec)], env).value, Split(dotted, '.')) ==
      Some(Str(Expand(spec, env).value))
  {
    ApplyEntriesSnoc(data, entries, (dotted, spec), env);
    var r := ApplyEntries(data, entries, env);
    AssignReaches(r.value, dotted, Str(Expand(spec, env).value));
  }

  /** Text holding none of the placeholders comes out unchanged. */
  lemma {:induction false} ReplaceVarsAbsent(content: string, vars: seq<string>, env: map<string, string>)
    requires forall v :: v in vars ==> !Contains(content, Placeholder(v))
    ensures ReplaceVars(content, vars, env) == content
    decreases |vars|
  {
    if vars != [] {
      ReplaceAbsent(content, Placeholder(vars[0]), GetOr(env, vars[0], ""));
      ReplaceVarsAbsent(content, vars[1..], env);
    }
  }

  /** One variable: the text is cut at its placeholders (none of which
      survives in a piece) and the pieces are joined by its value, or by ""
      when it is unset. */
  lemma ReplaceOneVar(content: string, v: string, env: map<string, string>)
    ensures var pieces := Pieces(content, Placeholder(v));
      && ReplaceVars(content, [v], env) == Join(pieces, GetOr(env, v, ""))
      && Join(pieces, Placeholder(v)) == content
      && forall k :: 0 <= k < |pieces| ==> !Contains(pieces[k], Placeholder(v))
  {
    var pat := Placeholder(v);
    ReplaceAllIsJoin(content, pat, GetOr(env, v, ""));
    PiecesJoin(content, pat);
    PiecesFree(content, pat);
  }

  /** Variables are replaced in list order, one after the other. */
  lemma {:induction false} ReplaceVarsAppend(content: string, vs: seq<string>, ws: seq<string>,
                                             env: map<string, string>)
    ensures ReplaceVars(content, vs + ws, env) == ReplaceVars(ReplaceVars(content, vs, env), ws, env)
    decreases |vs|
  {
    if vs == [] {
      assert vs + ws == ws;
    } else {
      assert (vs + ws)[0] == vs[0] && (vs + ws)[1..] == vs[1..] + ws;
      ReplaceVarsAppend(ReplaceAll(content, Placeholder(vs[0]), GetOr(env, vs[0], "")), vs[1..], ws, env);
    }
  }

  /** A single placeholder after text without `$` is replaced by the value. */
  lemma PlaceholderAfterPlain(pre: string, name: string, env: map<string, string>)
    requires '$' !in pre
    ensures ReplaceVars(pre + Placeholder(name), [name], env) == pre + GetOr(env, name, "")
  {
    var pat := Placeholder(name);
    assert pat[0] == '$';
    ReplaceSkipsPlain(pre, pat, pat, GetOr(env, name, ""));
    ReplaceWhole(pat, GetOr(env, name, ""));
    assert [name][1..] == [];
  }

  lemma HostText()
    ensures "url=${HOST}" == "url=" + Placeholder("HOST")
    ensures "url=" + "example.com" == "url=example.com"
  {
  }

  /** `url=${HOST}` with `HOST=example.com` becomes `url=example.com`. */
  lemma HostExample()
    ensures ReplaceVars("url=${HOST}", ["HOST"], map["HOST" := "example.com"]) == "url=example.com"
  {
    HostText();
    PlaceholderAfterPlain("url=", "HOST", map["HOST" := "example.com"]);
  }

  lemma ConfigJsonIsJson()
    ensures FormatOf("config.json") == Ok(Json)
  {
    var path := "config.json";
    assert '/' !in path;
    assert Name(path) == path;
    assert path[6] == '.' && path[7..] == "json";
    LastIndexAt(path, '.', 6);
    assert Suffix(path) == ".json";
    assert Lower(".json") == ".json";
  }

  lemma ApiKeySplit()
    ensures Split("api.key", '.') == ["api", "key"]
  {
    var parts := ["api", "key"];
    assert Join(parts, ".") == "api.key" by {
      assert parts[1..] == ["key"];
    }
    SplitJoin(parts, '.');
  }

  lemma ApiKeyExpand(env: map<string, string>)
    requires env == map["API_KEY" := "secret123xyz"]
    ensures Expand("env:API_KEY", env) == Ok("secret123xyz")
    ensures Missed("env:API_KEY", env) == {}
  {
    var spec := "env:API_KEY";
    assert spec[..4] == "env:" && spec[4..] == "API_KEY";
  }

  lemma ApiKeyAssign()
    ensures Assign(Map(map[]), "api.key", Str("secret123xyz"))
         == Ok(Map(map["api" := Map(map["key" := Str("secret123xyz")])]))
  {
    ApiKeySplit();
    var parts := ["api", "key"];
    assert parts[1..] == ["key"];
  }

  lemma ApiKeyEntries(env: map<string, string>)
    requires env == map["API_KEY" := "secret123xyz"]
    ensures ApplyEntries(Map(map[]), [("api.key", "env:API_KEY")], env)
         == Ok(Map(map["api" := Map(map["key" := Str("secret123xyz")])]))
    ensures EntryMissing([("api.key", "env:API_KEY")], env) == {}
  {
    ApiKeyExpand(env);
    ApiKeyAssign();
    var entries := [("api.key", "env:API_KEY")];
    assert entries[1..] == [];
    assert entries[..0] == [];
  }

  /** A structured target that does not exist yet, with no template, is
      created from `{}`: `api.key` from `env:API_KEY` becomes
      `{"api": {"key": <value>}}`, and nothing is missing. */
  lemma ApiKeyScenario(requireAll: bool, io: Io)
    ensures Run(Descriptor([("config.json", [("api.key", "env:API_KEY")])], [], map[]), requireAll,
                map["API_KEY" := "secret123xyz"], map[], io)
         == Outcome(map["config.json" := io.dump(Json, Map(map["api" := Map(map["key" := Str("secret123xyz")])]))],
                    Succeeded)
  {
    var env := map["API_KEY" := "secret123xyz"];
    var entries := [("api.key", "env:API_KEY")];
    var doc := Map(map["api" := Map(map["key" := Str("secret123xyz")])]);
    var files: Files := map[];
    var out := map["config.json" := io.dump(Json, doc)];
    ApiKeyFile(io, env);
    var structured := [("config.json", entries)];
    assert Template(map[], "config.json") == None;
    assert structured[1..] == [] && structured[..0] == [];
    assert StructuredPhase(files, structured, map[], env, io) == FileStep(out, None);
    ApiKeyEntries(env);
    assert StructuredMissing(structured, env) == {};
  }

  /** The target file of that scenario, written once. */
  lemma ApiKeyFile(io: Io, env: map<string, string>)
    requires env == map["API_KEY" := "secret123xyz"]
    ensures StructuredFile(map[], "config.json", [("api.key", "env:API_KEY")], None, env, io)
         == FileStep(map["config.json" := io.dump(Json, Map(map["api" := Map(map["key" := Str("secret123xyz")])]))], None)
  {
    ConfigJsonIsJson();
    ApiKeyEntries(env);
    var files: Files := map[];
    assert Bootstrap(files, "config.json", None) == files;
    assert Load(Json, None, io) == Ok(Map(map[]));
  }

  lemma DbPassText()
    ensures "pw=${DB_PASS}" == "pw=" + Placeholder("DB_PASS")
    ensures "pw=" + "" == "pw="
  {
  }

  lemma DbPassReplaced()
    ensures ReplaceVars("pw=${DB_PASS}", ["DB_PASS"], map[]) == "pw="
  {
    DbPassText();
    PlaceholderAfterPlain("pw=", "DB_PASS", map[]);
  }

  /** The strict-mode failure line for the one missing name `DB_PASS`. */
  lemma DbPassMessage()
    ensures MissingMessage({"DB_PASS"}) == "Missing required env(s): DB_PASS"
  {
    var names := SortedNames({"DB_PASS"});
    assert "DB_PASS" in names;
    assert names == ["DB_PASS"];
  }

  lemma DbPassTokens(files: Files, tokens: seq<(string, seq<string>)>)
    requires files == map["app.env" := "pw=${DB_PASS}"] && tokens == [("app.env", ["DB_PASS"])]
    ensures TokenPhase(files, tokens, map[]) == map["app.env" := "pw="]
    ensures TokenMissing(files, tokens, map[]) == {"DB_PASS"}
  {
    assert tokens[1..] == [] && tokens[..0] == [];
    assert Unset(["DB_PASS"], map[]) == {"DB_PASS"};
    DbPassReplaced();
  }

  /** In strict mode an unset token variable is replaced by "" and the file
      is still written; the run then fails naming the variable. */
  lemma StrictTokenScenario(io: Io)
    ensures Run(Descriptor([], [("app.env", ["DB_PASS"])], map[]), true, map[],
                map["app.env" := "pw=${DB_PASS}"], io)
         == Outcome(map["app.env" := "pw="], MissingEnvs("Missing required env(s): DB_PASS"))
  {
    DbPassTokens(map["app.env" := "pw=${DB_PASS}"], [("app.env", ["DB_PASS"])]);
    DbPassMessage();
  }

  /** Replacing is not idempotent even when the value holds no `${...}`: the
      value can complete a placeholder together with the text before it. */
  lemma ReplaceNotIdempotent()
    ensures var env := map["H" := "{H}"];
      var once := ReplaceVars("$${H}", ["H"], env);
      once == "${H}" && ReplaceVars(once, ["H"], env) == "{H}"
  {
    var pat := Placeholder("H");
    var t := "$${H}";
    assert pat == "${H}";
    assert !(pat <= t) && pat <= t[1..] && t[1..][|pat|..] == [];
    assert ReplaceAll(t, pat, "{H}") == "${H}";
    var u := "${H}";
    assert pat <= u && u[|pat|..] == [];
  }
}
