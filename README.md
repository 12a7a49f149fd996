# ort connection profile — a Dafny model

ort ties a local MySQL schema to git history. Before git moves the working tree, ort dumps the
database to a snapshot file. When a commit is checked out, ort restores the matching snapshot. This
project models the connection profile in `ort/data/database.py`:

- `Database()` creates a profile whose five fields (`host`, `schema`, `port`, `username`,
  `password`) are all `None`.
- `Database.build_from(config)` creates a new profile and fills it from the `database` record of
  the configuration. It reads the keys in the order `database_host`, `database_schema`,
  `database_port`, `database_user`, `database_password`. Note that `database_user` goes to the
  field `username`.
- `snapshot_command(path)` builds the `mysqldump` command line that dumps the schema to `path`.
- `restore_command(path)` builds the `mysql` command line that replays the dump at `path`.

Both command builders use Python's `str.format`. The model contains a reference definition of that
method (`PyFormat.Format`), and the builders are defined by applying it to the source's own
templates. Lemmas then prove the exact shape of each command:

- which options each command carries and in what order;
- that the password appears in plain text;
- that the restore command ignores the schema;
- that, for a given profile, each command determines the path;
- that the command text alone does not: fields are not quoted, so a host holding ` < ` can mimic a
  longer path.

Files:

- `Wrappers.dfy`: the `Option` and `Result` types.
- `PyFormat.dfy`: the subset of `str.format` used by the templates, with its lemmas.
- `Database.dfy`: the `Database` class, its construction, the two command builders, and the
  lemmas about the two templates.
- `DatabaseProperties.dfy`: properties of the built commands.

Python's `None` is modelled as `Option.None`. `str.format` prints it as the text `None`, and the
model does the same (`Show`). A profile that was never filled in therefore yields commands such as
`mysqldump --user=None ...`. The commands are built with no quoting or escaping, exactly as the
source does.

Two facts about the code are worth stating plainly:

- Nothing checks that the fields are non-empty. `Database()` leaves every field `None`, and
  `build_from` copies whatever string it finds, including an empty one.
- `build_from` reads the configuration by indexing a `dict`. A missing key raises `KeyError` for the
  first absent key in reading order. `BuildFrom` returns that key in a `Failure`.

## Model

| member | source | states |
|---|---|---|
| `OrtDatabase.Database.constructor` | ort/data/database.py:2-7 | a new profile has all five fields `None` |
| `OrtDatabase.Database.BuildFrom` | ort/data/database.py:9-19 | fails with `KeyError(k)` exactly when some key is missing, where `k` is the first absent key in reading order; otherwise returns a fresh object whose `host`, `schema`, `port`, `username` and `password` hold the values of `database_host`, `database_schema`, `database_port`, `database_user` and `database_password` |
| `OrtDatabase.FirstMissing` | ort/data/database.py:13-17 | returns none exactly when every key is present; otherwise returns a key that is absent and is preceded only by present keys |
| `OrtDatabase.FirstMissingConfigKeys` | ort/data/database.py:13-17 | the key `build_from` fails on is decided in the order host, schema, port, user, password |
| `OrtDatabase.Database.SnapshotCommand` | ort/data/database.py:21-28 | formatting the dump template gives exactly `mysqldump --user=U --password=P --port=O --host=H --result-file=PATH --add-drop-database --databases S`, with each field printed as `str` prints it |
| `OrtDatabase.Database.RestoreCommand` | ort/data/database.py:30-37 | formatting the restore template gives exactly `mysql --user=U --password=P --port=O --host=H < PATH` |
| `OrtDatabase.FormatSnapshot` | ort/data/database.py:22-28 | the dump template is six `{}` fields between brace-free option texts, so `str.format` on it with six arguments never raises and places them in template order |
| `OrtDatabase.FormatRestore` | ort/data/database.py:31-37 | the restore template is five `{}` fields between brace-free option texts, so `str.format` on it with five arguments never raises and places them in template order |
| `OrtDatabase.Show` | ort/data/database.py:22-37 | `str` of a field: a string prints as itself, and `None` prints as "None", the same text as the string "None" |
| `PyFormat.Format` | ort/data/database.py:22-37 | reference definition of `str.format`: `{}` takes the next argument, `{{` and `}}` print one brace, running out of arguments is `IndexError`, a lone `{` or `}` is `ValueError`, any other field gives `UnsupportedField`; its contract states that a brace-free template comes back unchanged |
| `PyFormat.FormatPlain` | ort/data/database.py:22 | `str.format` copies brace-free text verbatim and uses no argument for it |
| `PyFormat.FormatTemplate` | ort/data/database.py:22-28 | a template of brace-free segments joined by `{}` formats to the segments interleaved with the arguments, given enough arguments |
| `PyFormat.FormatTooFewArguments` | ort/data/database.py:31-37 | the same template with fewer arguments than fields raises `IndexError` |
| `PyFormat.InterleaveIgnoresExtra` | ort/data/database.py:31-37 | arguments beyond the number of fields do not change the result |
| `OrtDatabaseProperties.SnapshotLayout` | ort/data/database.py:22-28 | the dump command is `mysqldump `, then the connection options, then ` --result-file=PATH --add-drop-database --databases S` |
| `OrtDatabaseProperties.RestoreLayout` | ort/data/database.py:31-37 | the restore command is `mysql `, then the same connection options, then ` < PATH` |
| `OrtDatabaseProperties.SnapshotOptions` | ort/data/database.py:22-28 | the dump command starts with `mysqldump `, contains `--add-drop-database` and `--result-file=PATH`, and ends with ` --databases S` |
| `OrtDatabaseProperties.RestoreOptions` | ort/data/database.py:31-37 | the restore command starts with `mysql ` and ends with ` < PATH` |
| `OrtDatabaseProperties.PasswordInPlainText` | ort/data/database.py:22-37 | both commands contain `--password=` followed by the password verbatim |
| `OrtDatabaseProperties.RestoreIgnoresSchema` | ort/data/database.py:31-37 | two profiles that differ only in `schema` give the same restore command |
| `OrtDatabaseProperties.SnapshotDependsOnSchema` | ort/data/database.py:22-28 | two profiles that differ only in how `schema` prints give different dump commands |
| `OrtDatabaseProperties.SnapshotPathDetermined` | ort/data/database.py:22-28 | for one profile, equal dump commands mean equal paths |
| `OrtDatabaseProperties.RestorePathDetermined` | ort/data/database.py:31-37 | for one profile, equal restore commands mean equal paths |
| `OrtDatabaseProperties.RestoreCommandAmbiguous` | ort/data/database.py:31-37 | with no quoting, a profile with host `h < x` and path `p` gives the same restore command as a profile with host `h` and path `x < p` |
| `OrtDatabaseProperties.LoadedCommands` | ort/data/database.py:12-37 | for a profile filled from a configuration, the commands put `database_user` after `--user=`, `database_password` after `--password=`, `database_port` after `--port=`, `database_host` after `--host=`, and `database_schema` after `--databases ` |
| `OrtDatabaseProperties.UnsetCommands` | ort/data/database.py:2-7 | for a profile whose fields are all `None`, both commands print `None` for every field |

The two command builders are Dafny functions that only read the object (`reads this`). They
therefore change no field of the profile.

## Left out

- `ort/cli.py` is not part of this model. It is I/O over `click` and the file system: the `.git`
  and `.ort` directory checks, the interactive prompts, the `reset` removal, and the help text. The
  configuration record it writes (lines 46-55) and its JSON serialisation are also left out.
- Git hook installation and chaining, snapshot file paths (`ref_snapshots`, `named_snapshots`),
  snapshot storage and restore orchestration are not part of this model. Their code is not in the
  modelled source.
- Running `mysqldump` or `mysql` is an external process. The model covers only the command strings.
- Configuration values are modelled as strings (`map<string, string>`). A JSON number given as
  `database_port` would be printed by `str()` in Python. That conversion is not modelled.
- `PyFormat.Format` models only the `{}`, `{{` and `}}` forms of `str.format`. Indexed or named
  fields, conversions and format specifications are not modelled and give `UnsupportedField`. None
  of them appear in the source's templates.
- `OrtDatabase.Database.BuildFrom` does not expose the partly filled object that Python creates
  before it raises `KeyError`. That object is unreachable in the source too.
- Fields are typed `Option<string>`. Python would let a caller store any value in them.
