# Source.Python conversion registry and `install_lib` — a Dafny model

This project models two small pieces of Source.Python.

**The identifier conversion registry.** The `_entities._helpers` and
`_players._helpers` scripting modules each publish sentinel constants and
declare conversion functions between the ways a game object can be named:
an entity index, an edict pointer, a `CBaseHandle`, an integer handle, a
`CPointer`, a `CBaseEntity` pointer and, for players, a user id and an
`IPlayerInfo` pointer. The code declares eight kinds, BaseEntity and
PlayerInfo among them. Each declaration names a target kind and a source
kind, with their C++ types, and optionally carries a call policy:
none (the result is a plain value), `reference_existing_object_policy()`
(the result is borrowed from the engine) or `manage_new_object_policy()`
(the script side owns a new object). The model represents each module's
declarations as a lookup table `(target, source) -> Option<Policy>`
over the kinds (the C++ types follow from the kinds)
(`EntitiesHelpers.EntityTable`, `PlayersHelpers.PlayerTable`) and their
union (`ConversionRegistry.RegistryTable`). It proves how many pairs each
module declares, which kinds reach which, that no kind converts to itself,
that every pair not involving BaseEntity comes in both directions, which policy each target kind carries,
and that the two modules never declare the same pair.

**The `install_lib` packaging command.** `InstallLibCommand.InstallLib` is a
class with the command's option fields. Its constructor is
`initialize_options`. `FinalizeOptions` fills unset options from
`install_dist` and applies the `compile` and `optimize` defaults. It also
raises the `optimize must be 0, 1, or 2` error. `MutateOutputs` and
`BytecodeFilenames` are the two list-building loops. They are proved equal
to the specification functions `MutatedOutputs` and `BytecodeNames`.
`GetOutputs` concatenates `MutatedOutputs` and `BytecodeNames`; `GetInputs`
concatenates the build commands' outputs. Lemmas about `MutatedOutputs` and `BytecodeNames` state what the lists contain,
how long they are and in which order they come. The last group of lemmas
relates `get_outputs` to `get_inputs`.

Calls into code outside the model are parameters:
- `os.path.join` is `join`.
- `os.path.splitext(os.path.normcase(f))[1]` is `extension`.
- `imp.cache_from_source` is `cache`.
- Python's `int` applied to text is `parseInt`; `None` stands for `ValueError`.
- `os.sep` is `sep`.
- The distribution's `has_pure_modules`/`has_ext_modules` answers are a `Distribution` value.
- What `get_finalized_command('build_py'/'build_ext')` reports is a `BuildCommand` value.
- The `install_dist` options that `set_undefined_options` copies are an `InstallDistOptions` value.

## Model

| member | source | states |
|---|---|---|
| `EntitiesHelpers.PublishedConstants` | src/core/modules/entities/entities_helpers_wrap_python.cpp:86-87 | the module publishes exactly `INVALID_ENTITY_INDEX` and `INVALID_ENTITY_INTHANDLE`, the latter bound to the value of `INVALID_EHANDLE_INDEX` |
| `EntitiesHelpers.EntityTable` | src/core/modules/entities/entities_helpers_wrap_python.cpp:89-122 | a pair is declared exactly when the target is one of Index, Edict, BaseHandle, IntHandle, Pointer and the source is another of them or BaseEntity; every conversion into a target carries that target's policy (Edict borrowed, Pointer newly owned, the rest plain values) |
| `EntitiesHelpers.SourcesAreDeclared` | src/core/modules/entities/entities_helpers_wrap_python.cpp:90-122 | an entity target is produced from exactly the other four entity targets and BaseEntity; every other kind from nothing |
| `EntitiesHelpers.FiveSourcesPerTarget` | src/core/modules/entities/entities_helpers_wrap_python.cpp:90-122 | each of the five entity targets has exactly five sources; no other kind is a target |
| `EntitiesHelpers.PairCount` | src/core/modules/entities/entities_helpers_wrap_python.cpp:90-122 | 25 pairs are declared in all |
| `EntitiesHelpers.NoSelfConversion` | src/core/modules/entities/entities_helpers_wrap_python.cpp:90-122 | no kind is converted into itself |
| `EntitiesHelpers.BaseEntityOnlySource` | src/core/modules/entities/entities_helpers_wrap_python.cpp:94-122 | BaseEntity is a source of all five entity targets and the target of no conversion |
| `EntitiesHelpers.Symmetric` | src/core/modules/entities/entities_helpers_wrap_python.cpp:90-122 | among the five entity targets, A→B is declared exactly when B→A is |
| `EntitiesHelpers.PolicyByTarget` | src/core/modules/entities/entities_helpers_wrap_python.cpp:90-122 | conversions into Edict are borrowed, into Pointer newly owned, into Index, BaseHandle or IntHandle plain values |
| `PlayersHelpers.PublishedConstants` | src/core/modules/players/players_helpers_wrap_python.cpp:57 | the module publishes exactly `INVALID_PLAYER_USERID` |
| `PlayersHelpers.PlayerTable` | src/core/modules/players/players_helpers_wrap_python.cpp:59-93 | a pair is declared exactly when its two kinds differ, neither is BaseEntity and one of them is Userid or PlayerInfo; conversions into Edict, Pointer and PlayerInfo are borrowed, all others plain values |
| `PlayersHelpers.SourcesAreDeclared` | src/core/modules/players/players_helpers_wrap_python.cpp:59-93 | Userid and PlayerInfo are each produced from exactly the other kinds except BaseEntity; each entity target from exactly Userid and PlayerInfo; BaseEntity from nothing |
| `PlayersHelpers.SourcesPerTarget` | src/core/modules/players/players_helpers_wrap_python.cpp:59-93 | Index, Edict, BaseHandle, IntHandle and Pointer come from exactly Userid and PlayerInfo; Userid and PlayerInfo each come from six sources; BaseEntity from none |
| `PlayersHelpers.PairCount` | src/core/modules/players/players_helpers_wrap_python.cpp:59-93 | 22 pairs are declared in all |
| `PlayersHelpers.NoSelfConversion` | src/core/modules/players/players_helpers_wrap_python.cpp:79-93 | neither Userid→Userid nor PlayerInfo→PlayerInfo (nor any other self pair) is declared |
| `PlayersHelpers.Symmetric` | src/core/modules/players/players_helpers_wrap_python.cpp:59-93 | every declared player pair is declared in both directions, Userid↔PlayerInfo included |
| `PlayersHelpers.PolicyByTarget` | src/core/modules/players/players_helpers_wrap_python.cpp:59-93 | conversions into Edict, Pointer and PlayerInfo are borrowed; into Index, BaseHandle, IntHandle and Userid plain values |
| `PlayersHelpers.InvolvesPlayerKind` | src/core/modules/players/players_helpers_wrap_python.cpp:59-93 | every declared player pair has Userid or PlayerInfo on one side |
| `Conversions.AllKindsListsKindSet` | src/core/modules/entities/entities_helpers_wrap_python.cpp:89-122 | the list of kinds the pair counts run over holds every kind exactly once, the same kinds as the set of all kinds |
| `ConversionRegistry.Disjoint` | src/core/modules/players/players_helpers_wrap_python.cpp:59-93 | no pair is declared by both the entity and the player module (over both tables: entities_helpers_wrap_python.cpp:89-122 and players_helpers_wrap_python.cpp:59-93) |
| `ConversionRegistry.RegistryTable` | src/core/modules/entities/entities_helpers_wrap_python.cpp:89-122 | the union of both tables: a pair is registered when either module declares it, with that module's policy (over both tables: entities_helpers_wrap_python.cpp:89-122 and players_helpers_wrap_python.cpp:59-93) |
| `ConversionRegistry.Coverage` | src/core/modules/players/players_helpers_wrap_python.cpp:59-93 | between any two different kinds other than BaseEntity a conversion is registered; BaseEntity converts into the five entity kinds only and nothing converts into it (over both tables: entities_helpers_wrap_python.cpp:89-122 and players_helpers_wrap_python.cpp:59-93) |
| `ConversionRegistry.Symmetric` | src/core/modules/players/players_helpers_wrap_python.cpp:59-93 | apart from BaseEntity, every registered pair is registered in both directions (over both tables: entities_helpers_wrap_python.cpp:89-122 and players_helpers_wrap_python.cpp:59-93) |
| `ConversionRegistry.PointerPolicyDiffers` | src/core/modules/players/players_helpers_wrap_python.cpp:75-77 | conversions into Pointer are newly owned from entity kinds and BaseEntity, borrowed from Userid and PlayerInfo (newly owned at entities_helpers_wrap_python.cpp:117-122, borrowed at players_helpers_wrap_python.cpp:75-77) |
| `ConversionRegistry.SourcesAreDeclared` | src/core/modules/players/players_helpers_wrap_python.cpp:59-93 | in the registry an entity target is produced from every other kind, Userid and PlayerInfo from every other kind except BaseEntity, BaseEntity from nothing (over both tables: entities_helpers_wrap_python.cpp:89-122 and players_helpers_wrap_python.cpp:59-93) |
| `ConversionRegistry.SourcesPerTarget` | src/core/modules/players/players_helpers_wrap_python.cpp:59-93 | in the registry each entity target has seven sources, Userid and PlayerInfo six each, BaseEntity none (over both tables: entities_helpers_wrap_python.cpp:89-122 and players_helpers_wrap_python.cpp:59-93) |
| `ConversionRegistry.PairCount` | src/core/modules/entities/entities_helpers_wrap_python.cpp:89-122 | the registry holds 47 pairs, 25 from the entity module and 22 from the player module (over both tables: entities_helpers_wrap_python.cpp:89-122 and players_helpers_wrap_python.cpp:59-93) |
| `InstallLibCommand.InstallLib.constructor` | addons/source-python/Python3/packaging/command/install_lib.py:45-52 | `initialize_options`: install_dir, build_dir, compile, optimize and skip_build unset, force false |
| `InstallLibCommand.InstallLib.FinalizeOptions` | addons/source-python/Python3/packaging/command/install_lib.py:54-75 | unset options take the install_dist values and force keeps its value; compile becomes true if still unset; optimize is normalised by `CheckOptimize`; the outcome is the `optimize must be 0, 1, or 2` error exactly when `CheckOptimize` rejects |
| `InstallLibCommand.FillUnset` | addons/source-python/Python3/packaging/command/install_lib.py:58-62 | `set_undefined_options` for one option: a set option keeps its value, an unset one takes the install_dist value (which may itself be unset) |
| `InstallLibCommand.CheckOptimize` | addons/source-python/Python3/packaging/command/install_lib.py:64-75 | unset becomes 0; an int is kept unchanged with no range check; text is accepted exactly when it parses to 0, 1 or 2, the option then holding the parsed int; text that fails to parse is rejected and left as it was; accepted values are ints |
| `InstallLibCommand.CompileTruthy` | addons/source-python/Python3/packaging/command/install_lib.py:141 | Python's truth value of `compile`: true only for a set `True`, false for None and False |
| `InstallLibCommand.OptimizeTruthy` | addons/source-python/Python3/packaging/command/install_lib.py:143 | Python's truth value of `optimize`: None and 0 are false, any other int is true, text is true unless empty (so unparsed text "0" is true) |
| `InstallLibCommand.CheckedOptimizeTruthy` | addons/source-python/Python3/packaging/command/install_lib.py:64-75 | after `finalize_options` accepts `optimize`, its truth value is exactly "non-zero int"; text stays in the option only when it is rejected |
| `InstallLibCommand.SliceFrom` | addons/source-python/Python3/packaging/command/install_lib.py:125-128 | Python's `file[prefix_len:]`: the rest after the prefix, or empty when the prefix is longer than the name |
| `InstallLibCommand.Rerooted` | addons/source-python/Python3/packaging/command/install_lib.py:125-128 | one output per build file, in order, each `join(output_dir, file[prefix_len:])` |
| `InstallLibCommand.Reported` | addons/source-python/Python3/packaging/command/install_lib.py:117-119 | the `has_any` guard: the build command's outputs when the distribution has modules of its kind, none otherwise (also the two branches of `get_inputs`, lines 180-186) |
| `InstallLibCommand.MutatedOutputs` | addons/source-python/Python3/packaging/command/install_lib.py:117-130 | empty when has_any is false; otherwise one output per build file in input order, each `join(output_dir, file[len(build_dir)+len(sep):])` |
| `InstallLibCommand.InstallLib.MutateOutputs` | addons/source-python/Python3/packaging/command/install_lib.py:117-130 | the loop builds exactly `MutatedOutputs` |
| `InstallLibCommand.FileBytecode` | addons/source-python/Python3/packaging/command/install_lib.py:138-144 | one file's bytecode names: none unless its extension is `.py`; otherwise `cache(f, True)` when compile is set, then `cache(f, False)` when optimize is set, and nothing else |
| `InstallLibCommand.BytecodeNames` | addons/source-python/Python3/packaging/command/install_lib.py:132-146 | `_bytecode_filenames` as a function: each file's names in file order (its properties are stated by `BytecodeNamesAppend`, `PerFileContribution`, `BytecodeCount`, `BytecodeMembership` and `OnlySourcesMatter`) |
| `InstallLibCommand.InstallLib.BytecodeFilenames` | addons/source-python/Python3/packaging/command/install_lib.py:132-146 | the loop builds exactly `BytecodeNames` for the object's compile and optimize values |
| `InstallLibCommand.BytecodeNamesAppend` | addons/source-python/Python3/packaging/command/install_lib.py:133-144 | the names of a concatenation are the concatenated names: files are handled one after another |
| `InstallLibCommand.PerFileContribution` | addons/source-python/Python3/packaging/command/install_lib.py:134-144 | each file's names come after those of earlier files and before those of later ones |
| `InstallLibCommand.BytecodeCount` | addons/source-python/Python3/packaging/command/install_lib.py:132-146 | exactly one name per enabled flag and Python source, so at most twice as many names as Python sources |
| `InstallLibCommand.BytecodeMembership` | addons/source-python/Python3/packaging/command/install_lib.py:132-146 | a name is listed exactly when it is `cache(f, True)` with compile set or `cache(f, False)` with optimize set, for some input f with extension `.py` |
| `InstallLibCommand.OnlySourcesMatter` | addons/source-python/Python3/packaging/command/install_lib.py:138-140 | files whose extension is not `.py` contribute nothing |
| `InstallLibCommand.InstallLib.GetOutputs` | addons/source-python/Python3/packaging/command/install_lib.py:151-170 | `get_outputs`: pure-module outputs, then their bytecode names when compile is set, then extension outputs (stated by the lemmas below) |
| `InstallLibCommand.InstalledFiles` | addons/source-python/Python3/packaging/command/install_lib.py:156-170 | what `get_outputs` computes for a given install directory and truth values of compile and optimize (its properties are stated by `OutputsFollowInputs`, `BytecodeOutputCount`, `BytecodeOutputsNamePureSources` and `NoCompileNoBytecode`) |
| `InstallLibCommand.InstallLib.GetInputs` | addons/source-python/Python3/packaging/command/install_lib.py:172-188 | `get_inputs`: build_py outputs if there are pure modules, then build_ext outputs if there are extension modules (stated by the lemmas below) |
| `InstallLibCommand.OutputsFollowInputs` | addons/source-python/Python3/packaging/command/install_lib.py:151-188 | the outputs begin with the pure-module inputs and end with the extension inputs, one for one and in order, each re-rooted under the install directory |
| `InstallLibCommand.BytecodeOutputCount` | addons/source-python/Python3/packaging/command/install_lib.py:156-170 | the outputs exceed the inputs by one name per enabled flag and Python pure-module output when compile is set, and by nothing otherwise |
| `InstallLibCommand.BytecodeOutputsNamePureSources` | addons/source-python/Python3/packaging/command/install_lib.py:156-170 | every output between the two re-rooted parts is a bytecode name of a re-rooted Python source, and appears only when compile is set |
| `InstallLibCommand.NoCompileNoBytecode` | addons/source-python/Python3/packaging/command/install_lib.py:160-163 | with compile off, the outputs are the pure-module outputs followed by the extension outputs, whatever optimize says |

## Left out

- The bodies of the conversion functions (index, handle, edict and pointer resolution, and any generation or staleness check) are in `utilities/conversions.h`, which is not part of this model. Only the declared table is modelled.
- The values of `INVALID_ENTITY_INDEX`, `INVALID_EHANDLE_INDEX` and `INVALID_PLAYER_USERID` come from headers that are not part of this model. They are parameters of `PublishedConstants`.
- The Python names that `EXPORT_CONVERSION_FUNCTION` generates are not modelled. The macro is defined in a header that is not part of this model.
- `create_entity`, `remove_entity` and `spawn_entity` are thin calls into the game engine.
- `install_lib.run`, `build`, `install` and `byte_compile` are left out: they copy files, dispatch subcommands and compile bytecode.
- `set_undefined_options` is modelled as "an unset option takes the install_dist value" (`FillUnset`). Its code, in `packaging/command/cmd.py`, is not part of this model.
- The `os.extsep` branch is left out. The Python source extension is fixed to `".py"`.
- The option tables (`user_options`, `boolean_options`, `negative_opt`) belong to command-line parsing and are not modelled.
- InstallLibCommand.CheckOptimize: only unset, int and text values of `optimize` are modelled. Other values, such as a float, or a bool (which Python treats as an int), are not. Neither is the `TypeError` that `int` raises on some of them.
- InstallLibCommand.InstallLib.GetOutputs: requires `install_dir` to be set. With it unset, Python raises the `TypeError` of `os.path.join(None, ...)` when some build output is re-rooted, but returns `[]` when there are no modules or no build outputs, because `_mutate_outputs` then returns early or its loop runs zero times (install_lib.py:118-119, 127) and `join` is never called. The requires excludes both cases, so neither is modelled.
- InstallLibCommand.InstallLib.MutateOutputs: the `cmd_option` argument of `_mutate_outputs` is dropped and `build_lib` is always read, because both call sites pass `'build_lib'` (install_lib.py:158, 167). The `get_finalized_command` lookup it names is a `BuildCommand` parameter.
- The `get_inputs` docstring says its list corresponds one to one with `get_outputs`. That holds only when no bytecode names are listed. `OutputsFollowInputs` and `BytecodeOutputCount` state the correspondence that does hold.
