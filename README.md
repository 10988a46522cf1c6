# Secret injection and wiring check, modelled in Dafny

The repository wires CI secrets into a small application in two steps.

- **Injection** (`scripts/inject_secrets.py`) reads a mapping descriptor with three sections:
  - `structured` names JSON/YAML targets and, for each, dotted paths with a value specification (`env:NAME`, `literal:V`, `default:NAME:FALLBACK` or a bare `NAME`);
  - `tokens` names text files and the variables whose `${VAR}` placeholders they hold;
  - `templates` names, for a structured target, a file to copy when the target does not exist.

  The script writes the values into the targets. In strict mode (`--require-all`) it fails when variables were missing.
- **Wiring check** (`app/main.py`) looks for four things:
  - a key and an endpoint in `config.json`;
  - a key and a public URL in `settings.yaml`, when that file exists;
  - a substituted `API_TOKEN` in `app/app.py`;
  - `API_TOKEN` in the environment.

  It lists every problem found. When there is none, it shows the secrets masked.

The model is split into modules:

- `Base`: shared wrappers (`Option`, `Result`, `GetOr`).
- `Text`: the Python string operations the scripts rely on:
  - `str.split`, `str.join`, the pathlib suffix search and ASCII `lower`;
  - `str.strip` blankness;
  - literal `re.sub` replacement;
  - `sorted` on strings.
- `Tree`: the loaded documents as values (`Node`), with lookups and Python truthiness.
- `Resolver`: `expand`.
- `DottedPath`: `set_path`. It has a specification function `Assign` and a method `SetPath` that walks the path step by step.
- `Injector`: `main` of the injection script. The files are a map from path to text, and the JSON/YAML libraries are passed in as functions (`Io`). `Run` specifies the whole run. The methods `InjectEntries`, `InjectStructured`, `InjectTokens`, `InjectAllStructured`, `InjectAllTokens` and `Inject` run its loops and are proved equal to it.
- `WiringCheck`: `main` of the wiring check. `Verify` specifies the report, and `CheckWiring` collects the problems step by step. Its inputs are the file texts, the parsers, what running app/app.py gave, and the environment.

Behaviours of the code that are easy to miss, all of which the model follows:

- A non-mapping value met on the way down a dotted path is replaced by `{}`. `set_path` raises only when the document root itself is not a mapping.
- Structured entries record `NAME` as missing whenever an `env:NAME` spec reads empty, whether the variable is unset or set to `""`. Token files record a variable only when it is unset, only in strict mode, and only for files that exist.
- Each check of the wiring check stops at its first failed assertion. So config and settings contribute at most one problem each.
- The "placeholder not replaced" assertion is caught by the generic handler. It is reported as `app/app.py load failed: app/app.py: API_TOKEN placeholder not replaced`.
- An unsupported structured suffix stops the run with `Structured only supports JSON/YAML; got <path>`.
- Check 3 of the wiring check does not detect a placeholder that was left in place: `API_TOKEN = "${API_TOKEN}"` is a non-empty string, so the "placeholder not replaced" assertion does not fire (`WiringCheck.LiteralPlaceholderPasses`).
- Token replacement is not idempotent even when no value contains `${`. `Injector.ReplaceNotIdempotent` shows the value `{H}` completing a placeholder with the `$` before it, so a second pass changes the text again.

## Model

| member | source | states |
|---|---|---|
| Text.SplitOnce | scripts/inject_secrets.py:56 | splitting at the first separator gives the text before it (without the separator) and everything after it; no separator means no split |
| Text.Split | scripts/inject_secrets.py:36 | `str.split` gives at least one piece, and no piece holds the separator |
| Text.JoinSplit | scripts/inject_secrets.py:36 | joining the pieces of a split with the separator gives the string back |
| Text.SplitJoin | scripts/inject_secrets.py:36 | splitting a join of separator-free pieces gives the pieces back |
| Text.LastIndex | scripts/inject_secrets.py:80 | the position found holds the character and no later position does; none is found only when the character is absent |
| Text.PiecesJoin | scripts/inject_secrets.py:109 | the stretches between replaced occurrences, joined by the pattern, are the original text |
| Text.PiecesFree | scripts/inject_secrets.py:109 | no stretch between replaced occurrences contains the pattern, so every occurrence is replaced |
| Text.ReplaceAllIsJoin | scripts/inject_secrets.py:109 | replacing all occurrences is joining those stretches with the replacement |
| Text.ReplaceAbsent | scripts/inject_secrets.py:109 | text without the pattern is left unchanged |
| Text.ReplaceBySelf | scripts/inject_secrets.py:109 | replacing the pattern by itself leaves any text unchanged |
| Text.ReplaceSkipsPlain | scripts/inject_secrets.py:109 | text before which the pattern cannot start is kept as it is, and replacing goes on after it |
| Text.ReplaceWhole | scripts/inject_secrets.py:109 | the pattern alone becomes the replacement |
| Text.BelowTransitive | scripts/inject_secrets.py:113 | Python's string order is transitive |
| Text.BelowTotal | scripts/inject_secrets.py:113 | Python's string order relates any two distinct strings |
| Text.LeastExists | scripts/inject_secrets.py:113 | every non-empty set of names has a least one |
| Text.SortedNames | scripts/inject_secrets.py:113 | `sorted(missing)` lists each name of the set exactly once, in strictly increasing order |
| Tree.FalsyValues | app/main.py:26 | the falsy values are exactly null, false, 0, "", [] and {} |
| Resolver.Expand | scripts/inject_secrets.py:49-58 | `env:` gives the variable or ""; `literal:` gives the rest verbatim; `default:` fails exactly when no second colon follows; anything else is read as a variable name |
| Resolver.ParseRender | scripts/inject_secrets.py:49-58 | a well-formed specification is parsed back from its text |
| Resolver.RenderParse | scripts/inject_secrets.py:49-58 | every specification that parses is the text of a well-formed one |
| Resolver.LiteralVerbatim | scripts/inject_secrets.py:53-54 | `literal:V` gives exactly V, colons and emptiness included |
| Resolver.DefaultChoice | scripts/inject_secrets.py:55-57 | `default:N:F` gives the variable whenever it is set, even to "", and otherwise F with its colons |
| Resolver.DefaultWithoutFallback | scripts/inject_secrets.py:56 | `default:N` without a second colon raises the unpacking error |
| Resolver.EnvPrefixFirst | scripts/inject_secrets.py:51-52 | the `env:` test comes before the other prefixes |
| DottedPath.SetPath | scripts/inject_secrets.py:35-47 | the step-by-step walk produces the document `Assign` specifies, or its error |
| DottedPath.PutReaches | scripts/inject_secrets.py:38-47 | after the write, the path leads to the value and every proper prefix leads to a mapping |
| DottedPath.AssignReaches | scripts/inject_secrets.py:35-47 | `set_path` succeeds exactly on a mapping root; the value is then at the path, and there is a mapping at every step before it |
| DottedPath.PutFrame | scripts/inject_secrets.py:38-47 | a path that neither leads to nor passes through the written one reads as before |
| DottedPath.AssignFrame | scripts/inject_secrets.py:35-47 | every key off the dotted path is unchanged |
| DottedPath.SplitABC | scripts/inject_secrets.py:36 | `a.b.c` splits into `a`, `b`, `c` |
| DottedPath.AssignFromEmpty | scripts/inject_secrets.py:35-47 | from `{}`, `a.b.c` builds `{a: {b: {c: value}}}` |
| DottedPath.AssignReplacesScalar | scripts/inject_secrets.py:39-41 | a string standing where a mapping is needed is replaced by `{}`, and sibling keys stay |
| DottedPath.AssignRejectsScalarRoot | scripts/inject_secrets.py:45-46 | a root that is not a mapping raises `Parent for '<path>' is not a mapping` |
| Injector.SuffixOfExtension | scripts/inject_secrets.py:80 | the suffix of a path is the extension of its last component |
| Injector.FormatByExtension | scripts/inject_secrets.py:80-86 | `.json` selects JSON and `.yml`/`.yaml` select YAML in any letter case; any other extension stops the run with the unsupported-format message |
| Injector.DotFileUnsupported | scripts/inject_secrets.py:80-86 | a name whose only dot is its first character, such as `.json`, has no suffix and is refused |
| Injector.NoSuffixUnsupported | scripts/inject_secrets.py:80-86 | a name without a dot, such as `Makefile`, has no suffix and is refused |
| Injector.ConfigJsonIsJson | scripts/inject_secrets.py:80-82 | `config.json` is handled as JSON |
| Injector.Bootstrap | scripts/inject_secrets.py:74-78 | an absent target is created from its template exactly when the template path is non-empty and exists; an existing target and all other files are untouched |
| Injector.Load | scripts/inject_secrets.py:20-29 | an absent or empty JSON file reads as `{}`, other JSON text is parsed; YAML without PyYAML raises the install message before the text is looked at; an absent or blank YAML file reads as `{}`, other YAML text is parsed |
| Injector.InjectEntry | scripts/inject_secrets.py:88-92 | one entry expands its spec, records the variable of an `env:` spec that reads empty, and writes the value at its path, as `ApplyEntry` specifies; an expansion error stops it |
| Injector.InjectEntries | scripts/inject_secrets.py:88-92 | the entries loop gives the document of applying every entry in order, and the names of `env:` specs that read empty |
| Injector.InjectStructured | scripts/inject_secrets.py:71-97 | one structured target is bootstrapped, loaded in its format, has its entries applied and is written back; a failure keeps the files written before it |
| Injector.TokenFile | scripts/inject_secrets.py:100-110 | a token file is rewritten only if it exists; no file appears, disappears or otherwise changes |
| Injector.InjectTokens | scripts/inject_secrets.py:100-110 | one token file has each variable's placeholders replaced in list order; in strict mode its unset variables are recorded |
| Injector.InjectAllStructured | scripts/inject_secrets.py:70-97 | the structured loop gives the files and error that the structured phase specifies, and the names missed on success |
| Injector.InjectAllTokens | scripts/inject_secrets.py:99-110 | the token loop gives the files that the token phase specifies, and in strict mode the unset variables of existing files |
| Injector.Inject | scripts/inject_secrets.py:69-114 | the whole run gives exactly the files and verdict `Run` specifies |
| Injector.MissedIff | scripts/inject_secrets.py:89-91 | an entry records `x` exactly when its spec is `env:x` and `x` reads empty, unset or set to "" |
| Injector.EntryMissingIff | scripts/inject_secrets.py:88-92 | a target's entries record exactly the names of their `env:` specs that read empty |
| Injector.StructuredMissingIff | scripts/inject_secrets.py:70-92 | the structured phase records exactly the names of `env:` specs, in any target, that read empty |
| Injector.TokenMissingIff | scripts/inject_secrets.py:100-108 | the token phase records exactly the unset variables listed for token files that exist |
| Injector.StructuredMissingNonEmpty | scripts/inject_secrets.py:88-92 | the structured phase records some name exactly when some `env:` spec of some target reads empty |
| Injector.TokenMissingNonEmpty | scripts/inject_secrets.py:100-108 | the strict token phase records some name exactly when an existing token file lists an unset variable |
| Injector.StrictVerdict | scripts/inject_secrets.py:112-114 | a run fails on missing variables exactly when strict mode is on and some `env:` spec read empty or some existing token file lists an unset variable; without strict mode it succeeds unless it was stopped; the exit status is 0 exactly when the run is neither stopped nor failing on missing variables |
| Injector.MissingMessageNames | scripts/inject_secrets.py:113 | the failure line names every missing variable once, in sorted order, joined by `, ` |
| Injector.ApplyEntriesOnMapping | scripts/inject_secrets.py:88-92 | on a mapping document, applying entries fails exactly when some spec cannot be expanded, and otherwise leaves a mapping |
| Injector.ApplyEntriesSnoc | scripts/inject_secrets.py:88-92 | entries are applied in order: one more entry acts on the result of the ones before |
| Injector.LastEntryWins | scripts/inject_secrets.py:88-92 | after a successful run of entries, the last entry's path holds its expanded value |
| Injector.ApiKeyEntries | scripts/inject_secrets.py:88-92 | `api.key` from `env:API_KEY` builds `{api: {key: value}}` from `{}` and records nothing |
| Injector.ReplaceVarsAbsent | scripts/inject_secrets.py:105-109 | text holding none of the placeholders is unchanged |
| Injector.ReplaceOneVar | scripts/inject_secrets.py:109 | one variable: every placeholder occurrence is replaced by the value, or by "" when unset |
| Injector.PlaceholderAfterPlain | scripts/inject_secrets.py:109 | a placeholder after text with no `$` is replaced by the value, or by "" when unset, and the text before is kept |
| Injector.ReplaceVarsAppend | scripts/inject_secrets.py:105-109 | variables are replaced one after the other, in list order |
| Injector.HostExample | scripts/inject_secrets.py:109 | `url=${HOST}` with `HOST=example.com` becomes `url=example.com` |
| Injector.ReplaceNotIdempotent | scripts/inject_secrets.py:109 | a replacement value can complete a new placeholder, so replacing twice differs from replacing once |
| Injector.ApiKeyScenario | scripts/inject_secrets.py:70-97 | an absent `config.json` with `api.key` from `env:API_KEY` is written as `{api: {key: secret}}`, and the run succeeds |
| Injector.StrictTokenScenario | scripts/inject_secrets.py:99-114 | strict mode with `${DB_PASS}` unset writes the file with "" in its place and fails naming `DB_PASS` |
| WiringCheck.Stars | app/main.py:23 | the masking prefix is the given number of `*` |
| WiringCheck.Mask | app/main.py:21-23 | the result has the input's length; every character but the last four is `*`, and the last four are kept |
| WiringCheck.MaskExamples | app/main.py:21-23 | `abcdefgh` shows as `****efgh`, `abc` as `abc`, and "" as "" |
| WiringCheck.MaskValue | app/main.py:21-23 | a string is masked; a falsy value gives ""; exactly the truthy values that are not strings raise |
| WiringCheck.LoadJson | app/main.py:12-13 | an absent or empty config file reads as `{}`; any other text is parsed as JSON |
| WiringCheck.NonEmpty | app/main.py:25-26 | `assert_non_empty` fails, with its message, exactly on the six falsy values |
| WiringCheck.ConfigCheck | app/main.py:34-40 | the check crashes exactly when the document or its `api` entry is not a mapping; otherwise the key problem is reported iff the key is falsy, the endpoint problem iff the key is truthy and the endpoint falsy, and nothing iff both are truthy |
| WiringCheck.SettingsCheck | app/main.py:44-54 | without PyYAML the `SystemExit` message is the one problem; otherwise, with a blank file read as `{}` and a falsy `service` or `api` read as `{}`, the check crashes exactly on a YAML error or a non-mapping document, `service` or `api`; the secret is `service.api.key`; the key problem is reported exactly when the key is falsy, the URL problem exactly when the key is truthy and `service.public_url` is falsy, and none exactly when both are truthy |
| WiringCheck.SettingsWithoutService | app/main.py:47-49 | a settings document without a truthy `service` reads it as `{}` and reports the service key |
| WiringCheck.BlankSettings | app/main.py:15-19 | a blank settings file reads as `{}` but still needs PyYAML |
| WiringCheck.AppCheck | app/main.py:57-62 | every app problem carries the load-failed prefix; there is none exactly when the module ran and its `API_TOKEN` is truthy; a raised exception gives its message behind the prefix; a module that ran is reported only with the placeholder message, and its secret is `API_TOKEN`, or "" when absent |
| WiringCheck.PlaceholderWrapped | app/main.py:59-62 | an absent or falsy `API_TOKEN` (`None`, `0`, `False`, "", `[]`, `{}`) is reported as the placeholder message behind the load-failed prefix |
| WiringCheck.LiteralPlaceholderPasses | app/main.py:59-60 | a module still holding the literal `${API_TOKEN}` passes check 3 |
| WiringCheck.EnvCheck | app/main.py:65-67 | an absent or empty environment `API_TOKEN` is exactly one problem |
| WiringCheck.CheckWiring | app/main.py:28-82 | collecting the problems step by step gives the report `Verify` specifies |
| WiringCheck.Shown | app/main.py:74-81 | the success report never lists problems; it crashes exactly when a shown secret is truthy but not a string, with the exception of the first such secret in print order; otherwise it shows the masked config key, settings key (when the file exists), module token and environment token, in that order |
| WiringCheck.OriginAt | app/main.py:69-72 | in the concatenated problem list, each problem's origin is the check whose list holds its position |
| WiringCheck.OrderedConcat | app/main.py:69-72 | lists of at most one problem per check, concatenated in check order, are strictly ordered by origin |
| WiringCheck.CollectOrdered | app/main.py:69-72 | the problems collected from the four checks number at most four and are strictly ordered by the check they come from |
| WiringCheck.ReportOrder | app/main.py:69-72 | problems appear in the order config, settings, app, env, at most one from each and so at most four |
| WiringCheck.FailsOnProblems | app/main.py:33-72 | a crashing probe ends the run; otherwise the run fails exactly when some probe reports a problem and lists exactly those problems; a passing run had no problem; the exit status is 0 exactly when no probe crashes or reports a problem and every shown secret can be masked |
| WiringCheck.MissingEndpointAndToken | app/main.py:34-40 | with a config key but no endpoint, no settings file, a module whose token is a non-empty string and an empty environment, the run fails with exactly the endpoint and environment problems and exit 1 |
| WiringCheck.PassedShowsMasked | app/main.py:74-82 | a passing run had the config key, the settings key (when the file exists), the module's token and the environment's token as non-empty strings, and shows them masked in that order |

## Left out

- File I/O. Reading, writing, `mkdir`, `exists` and `stat` are modelled as a map from path to text; a path that exists but cannot be read (a directory, say) is not modelled.
- JSON and YAML parsing and serialising. These are functions passed in (`Injector.Io`, `WiringCheck.Libs`). So the output format (indentation, trailing newline, key order) is not modelled, and the documents' mappings have no key order.
- Reading the mapping descriptor and `argparse`. The descriptor is an input, with its sections as ordered lists. If the descriptor file is missing, the code raises an uncaught exception and exits with status 1; this is not modelled.
- `os.environ` is a map from name to value, taken once per run.
- `runpy.run_path` is not executed. Its outcome (the module's globals, or an `Exception` message) is an input. A `SystemExit` or other `BaseException` raised by the module is not modelled.
- The printed lines of the wiring check: the headers, the endpoint and public URL values, and the problem markers. The model keeps only the problem list and the masked secrets. Messages of uncaught exceptions are given for information only.
- Mapping keys other than strings. `Tree.Node` mappings have string keys only, so a YAML mapping with integer, boolean or null keys cannot be represented; `set_path` would treat such a key as different from the string segment it resembles.
- Floating-point values in documents, and the truthiness of `0.0`.
- Shared sub-mappings (YAML anchors and aliases). `set_path` mutates in place, so a shared sub-mapping would show the write at every alias. The model works on values and does not capture that aliasing.
- `mask` is modelled with `keep_last` fixed at 4, the only value its callers use.
- Text.Lower: lowers ASCII letters only. Python's `str.lower` also lowers non-ASCII letters. The only ones it turns into ASCII letters are the Kelvin sign and the dotted capital I, and neither can form `.json`, `.yml` or `.yaml`. So the choice of format is unaffected.
- Injector.ReplaceVars: values are inserted literally; `re.sub` also interprets backslash escapes in the replacement string, so an environment value containing a backslash is not modelled.
- Injector.Name: pathlib's handling of trailing slashes, `.` components and other path separators is not modelled; the name is what follows the last `/`.
