# Environment configuration manager, modelled in Dafny

The system keeps named environments such as `development` and
`production`. Each environment holds a dict from configuration name to a
configuration value, and a configuration value is itself a dict of JSON
values. On top of this it offers:

- guarded add, update and delete of configurations;
- add, remove and list of environments;
- a one-level differ over the union of two values' keys;
- a comparison that checks both environments and the configuration exist before it diffs;
- in one copy, export and import of the whole nested map `{environment: {configuration: value}}`.

A standalone `Configuration` record holds one value and a version counter.

The manager appears in three copies of largely the same text:

- `Task/EnvironmentConfigImp.py` (classes at lines 15-105);
- `Task/EnvironmentConfigImp2.py` (lines 13-119, which add export/import);
- `Task/EnvironmentManager.py` (lines 2-51, the manager only).

The shared code is modelled once. The table below cites whichever copy a
member was read against. `Configuration` and `Environment` read the same
in the first two files. The manager's add, remove, list, compare and diff
methods read the same in all three. Export and import exist only in
`Task/EnvironmentConfigImp2.py`.

Files:

- `json.dfy`, module `Json`: JSON values, Python's `dict.get`, and Python's `==` on JSON values (`PyEq`).
- `differ.dfy`, module `Differ`: `_find_differences` as a loop, proved equal to a key-by-key reference definition `Differences`, plus the differ's laws.
- `snapshots.dfy`, module `Snapshots`: the nested map that export produces, and `Import`, the function that says what importing one into a manager's state does to it. The round-trip and idempotence laws are proved about these.
- `environment_config.dfy`, module `EnvironmentConfig`: the classes `Configuration`, `Environment` and `EnvironmentManager`. Their fields are updated in place, each method states its whole new state, and the importing loops are proved against `Snapshots.Import`.
- `demos.dfy`, module `Demos`: the example scenarios at the foot of two of the files.

Modelling choices:

- Environments store raw values. `add_configuration` and `update_configuration` put the given dict itself into `configurations`, not a `Configuration` object. The version counter therefore lives only in the standalone `Configuration` class. A ghost `history` lists every value that class has held, and the class invariant makes `version == |history|`: after `n` calls to `SetConfigValue` the version is `1 + n`.
- Python's `!=` in the differ is modelled as the negation of `PyEq`, which follows Python and not Dafny's structural equality. `True == 1` and `False == 0` hold, lists compare element by element and dicts key by key. So `{"debug": true}` against `{"debug": 1}` is not reported (`Differ.BoolAndIntNotReported`).
- `dict.get` reads a missing key as `None`. The differ therefore does not report a key that one side lacks and the other holds as JSON `null` (`Differ.NullAndMissingNotReported`).
- The guarded operations return an `Outcome` tag for the message they print. `import_configurations` prints one message per environment it adds and one per configuration it offers. Its model returns what those messages say:
  - `created`: the environments that were missing and were added;
  - `skipped`: for each environment of the data, the configuration names refused as already existing.
  Every other configuration of the data was added (`Snapshots.NotSkippedArrives`).
- Each `raise ValueError(msg)` becomes `Err(ValueError(msg))`, with the same message text.
- `EnvironmentManager.Repr` is exactly the set of environment objects the manager holds. `RemoveEnvironment` takes the removed object out of it, so no later manager operation may change that object, just as the Python code never touches it again (`Demos.RemovedEnvironmentUntouched`).
- `Task/EnvironmentManager.py` does `import Environment` and then calls `Environment(env_name)` (lines 1 and 10). That call is modelled as what it is evidently meant to do: create an empty environment with that name.
- Export and import are modelled on the in-memory nested map, not on the file. `EnvironmentManager.Export` is the dict comprehension of line 106. `EnvironmentManager.ImportConfigurations` is the outer loop of lines 114-118; its body is `EnvironmentManager.ImportEnvironment`, which holds the inner loop.

## Model

| member | source | states |
|---|---|---|
| Json.Get | Task/EnvironmentConfigImp.py:103-104 | `config.get(key)`: a missing key reads as `None` (JNull), a present key as its value |
| Json.PyEqReflexive | Task/EnvironmentConfigImp.py:103 | every JSON value is `==` to itself under Python's rules, including nested lists and dicts |
| Json.PyEqSymmetric | Task/EnvironmentConfigImp2.py:101 | Python's `==` on JSON values is symmetric, so `a != b` exactly when `b != a` |
| Json.BoolEqualsOne | Task/EnvironmentConfigImp.py:103 | Python's `==` is coarser than identity: `True == 1` and `False == 0` hold, `True == 2` does not |
| Differ.FindDifferences | Task/EnvironmentConfigImp.py:98-105 | the loop over the key union yields key k exactly when k is in either dict and the two `.get` lookups differ; each entry holds both lookups; the result equals the reference `Differences` |
| Differ.DifferencesOfSelfEmpty | Task/EnvironmentConfigImp2.py:96-103 | diffing a value against itself reports nothing |
| Differ.DifferencesSwapSides | Task/EnvironmentManager.py:44-51 | swapping the two arguments gives the same key set, with `env1` and `env2` swapped in every entry |
| Differ.DifferencesSidesUnequal | Task/EnvironmentConfigImp.py:103-104 | a reported entry never records two sides that are equal, by Python's `==` or by identity |
| Differ.NullAndMissingNotReported | Task/EnvironmentConfigImp2.py:101 | a key absent from one dict and holding `null` in the other is not reported |
| Differ.BoolAndIntNotReported | Task/EnvironmentManager.py:49 | changing a value from `true` to `1` is not reported, because Python's `True == 1` |
| Snapshots.AddAbsentFromPoints | Task/EnvironmentConfigImp2.py:117-118 | a dict that keeps every existing configuration and adds exactly the incoming names it lacked is the one the guarded adds leave behind |
| Snapshots.AddAbsentIntoEmpty | Task/EnvironmentConfigImp2.py:115-118 | a freshly added (empty) environment ends up holding exactly the imported configurations |
| Snapshots.ImportKeys | Task/EnvironmentConfigImp2.py:114-116 | after import the environments are exactly the old ones plus every one named in the data; none is removed |
| Snapshots.ImportKeepsExisting | Task/EnvironmentConfigImp2.py:117-118 | import is additive only: every configuration that already existed keeps its old value |
| Snapshots.ImportAddsMissing | Task/EnvironmentConfigImp2.py:117-118 | a configuration the data has and the environment lacked arrives with the data's value |
| Snapshots.ImportAddsNothingElse | Task/EnvironmentConfigImp2.py:114-118 | every configuration after import came from the old state or from the data |
| Snapshots.AddAbsentOfSelf | Task/EnvironmentConfigImp2.py:117-118 | re-adding an environment's own configurations to it changes nothing |
| Snapshots.ImportIntoEmpty | Task/EnvironmentConfigImp2.py:105-118 | importing an export into a new manager reproduces the same environment → configuration → value map |
| Snapshots.ImportOwnExport | Task/EnvironmentConfigImp2.py:111-118 | importing a manager's own export back into it leaves its state unchanged |
| Snapshots.AddAbsentAbsorbs | Task/EnvironmentConfigImp2.py:117-118 | adding only names the environment already has changes nothing |
| Snapshots.ImportTwice | Task/EnvironmentConfigImp2.py:111-118 | importing the same data a second time changes nothing more (import is idempotent) |
| Snapshots.PartialImportStep | Task/EnvironmentConfigImp2.py:114-118 | importing one more environment of the data changes that environment's entry only, to the value the full import gives it |
| Snapshots.PartialImportAll | Task/EnvironmentConfigImp2.py:114 | once every environment of the data has been imported, the state is the full import |
| Snapshots.ReportedSoFarStep | Task/EnvironmentConfigImp2.py:115-118 | recording whether one more environment was created, and which of its names were refused, keeps the report correct |
| Snapshots.ReportedSoFarAll | Task/EnvironmentConfigImp2.py:114-118 | once every environment of the data is done, the created environments are exactly those the data names and the state lacked, and the refused names are `Skipped` |
| Snapshots.SkippedKeepsOld | Task/EnvironmentConfigImp2.py:118 | every configuration import reports as already existing is one the data offered, the environment had, and keeps its old value |
| Snapshots.NotSkippedArrives | Task/EnvironmentConfigImp2.py:118 | every configuration of the data that is not reported as already existing arrives with the data's value |
| Snapshots.SkippedIntoEmpty | Task/EnvironmentConfigImp2.py:114-118 | importing into a new manager refuses nothing |
| Snapshots.SkippedOwnExport | Task/EnvironmentConfigImp2.py:111-118 | importing a manager's own export refuses every configuration it offers, as already existing |
| EnvironmentConfig.Configuration.constructor | Task/EnvironmentConfigImp.py:16-20 | a new configuration holds exactly the given name and value and is at version 1 |
| EnvironmentConfig.Configuration.GetConfigValue | Task/EnvironmentConfigImp.py:22-23 | returns the current (most recently set) value and changes nothing |
| EnvironmentConfig.Configuration.SetConfigValue | Task/EnvironmentConfigImp.py:25-28 | replaces the value and raises the version by exactly 1, so the version is always 1 plus the number of updates |
| EnvironmentConfig.Environment.constructor | Task/EnvironmentConfigImp2.py:29-31 | a new environment has the given name and no configurations |
| EnvironmentConfig.Environment.AddConfiguration | Task/EnvironmentConfigImp.py:35-40 | an existing name leaves the dict unchanged and reports it exists; a new name adds exactly that key with that content, all other keys untouched |
| EnvironmentConfig.Environment.UpdateConfiguration | Task/EnvironmentConfigImp.py:42-47 | an absent name changes nothing; a present one has only its entry replaced; the key set never changes |
| EnvironmentConfig.Environment.DeleteConfiguration | Task/EnvironmentConfigImp2.py:47-52 | removes exactly that key if present, and is a no-op otherwise |
| EnvironmentConfig.EnvironmentManager.constructor | Task/EnvironmentConfigImp.py:57-58 | a new manager has no environments |
| EnvironmentConfig.EnvironmentManager.Export | Task/EnvironmentConfigImp2.py:105-106 | the export's keys are exactly the environment names, and each entry is that environment's configuration dict |
| EnvironmentConfig.EnvironmentManager.ExportFromPoints | Task/EnvironmentConfigImp2.py:106 | a nested map with the same names and the same per-environment dicts is the export |
| EnvironmentConfig.EnvironmentManager.AddEnvironment | Task/EnvironmentManager.py:6-11 | an existing name changes nothing; a new name adds a new empty environment of that name, and every other environment is unchanged |
| EnvironmentConfig.EnvironmentManager.RemoveEnvironment | Task/EnvironmentManager.py:13-18 | removes only the given name, or does nothing when it is absent; the removed object leaves the manager's footprint and nothing else does; the export loses exactly that entry |
| EnvironmentConfig.EnvironmentManager.ListEnvironments | Task/EnvironmentManager.py:20-21 | returns exactly the current environment names and changes nothing |
| EnvironmentConfig.EnvironmentManager.CompareConfigurations | Task/EnvironmentConfigImp.py:77-96 | fails with "One or both environments do not exist." when either environment is missing, then with "Configuration does not exist in one or both environments." when either lacks the name; otherwise returns both names, both raw values and their differences; never changes the manager |
| EnvironmentConfig.EnvironmentManager.ImportEnvironment | Task/EnvironmentConfigImp2.py:114-118 | creates the environment (a new object) only if it is missing and never replaces one that exists; the export changes in that environment only, which ends up with its old configurations plus the incoming ones it lacked; reports whether it was created and exactly the incoming names it already had |
| EnvironmentConfig.EnvironmentManager.ImportConfigurations | Task/EnvironmentConfigImp2.py:111-119 | existing environments are kept as the same objects, every added one is a new object, and the new export is `Import(old export, data)`; reports exactly the environments created and, per environment, the names refused as already existing (`Skipped`) |
| Demos.DemoDifferences | Task/EnvironmentConfigImp2.py:126-127 | the demo values `{'url': 'localhost', 'port': 5432}` and `{'url': 'prod.db.com', 'port': 5432}` differ in `url` only |
| Demos.DemoManager | Task/EnvironmentConfigImp2.py:122-127 | the scenario's set-up leaves exactly `development` and `production`, each with its `database` value |
| Demos.DemoSnapshotSkipped | Task/EnvironmentConfigImp2.py:130-133 | importing the demo export into the manager it came from refuses `database` in both environments |
| Demos.ExportImportDemo | Task/EnvironmentConfigImp2.py:129-136 | exporting and importing the export back leaves both environments and their values unchanged and creates nothing; `database` is refused as already existing in both; both are listed |
| Demos.CopyDemo | Task/EnvironmentConfigImp2.py:105-118 | importing the demo export into a new manager creates both environments, refuses nothing and reproduces the export |
| Demos.RemovedEnvironmentUntouched | Task/EnvironmentConfigImp2.py:65-70 | after `development` is removed, an import that names it creates a new environment and leaves the removed object's configurations as they were |
| Demos.StandaloneDemo | Task/EnvironmentManager.py:54-69 | the comparison returns both values with only `url` in the differences, and after removing `development` only `production` is listed |

## Left out

- The argparse command-line `main()` in `Task/EnvironmentConfigImp.py:107-171` is not modelled. It is an adapter that parses arguments and JSON strings and then calls the modelled methods; it builds a new, empty manager on every run.
- File I/O in export and import (`open`, `json.dump`, `json.load`, the file path) is not modelled. Export and import work on the nested map directly.
- Nothing is serialised: the model treats `json.dump` followed by `json.load` as preserving every value.
- Timestamps (`datetime.now()`) and the `VersionedConfig` record with its `__repr__` are left out: they are nondeterministic and hold no logic.
- The text of the `print` messages is left out. The guarded operations return an `Outcome` tag, import returns its `created` and `skipped` reports, and the scripts' final prints are the demo methods' results.
- The order of import's messages is left out. `created` and `skipped` are a set and a map, so they do not record the order the data was walked in. The "imported from" and "exported to" messages at `Task/EnvironmentConfigImp2.py:109` and `:119` name only the file path, which is not modelled.
- `list_environments` returns a Python list in insertion order. The model returns the set of names, so the order is not modelled.
- Floating-point JSON numbers are left out: numbers are integers. Configuration values are dicts, as the type hints say, so non-dict top-level values are not modelled.
- Looking up an environment name that is missing from `environments` raises `KeyError`. That only happens in the command-line `main()`, so it is not modelled.
- The Git operations and `Validator` that `Task/UnitTest.py` tests are not part of this model: no code for them exists in the modelled files.
- Two expectations of `Task/UnitTest.py` are not met by the modelled code, and the model follows the code. At lines 27-29 the test expects `set_config_value` to raise `ValueError` for a non-numeric port, but `set_config_value` validates nothing, so `SetConfigValue` accepts any value. At lines 41 and 49 the test expects `configurations[name]` to be a `Configuration` object, but `add_configuration` stores the raw dict, so environments hold raw values.
- `Calculator.py`, `overriding.py`, `OOPS/server.py` and `servers.py` are not part of this model.
- EnvironmentConfig.EnvironmentManager.AddEnvironment: does not restate its effect in terms of `Export()`. It states the new `environments` map and the new environment's empty contents, from which the export follows.
