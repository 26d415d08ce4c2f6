# Scylla API client: listing routine and self-test registry

This project models the core of `scylla.py`, the command-line front end of a
Scylla REST API client. It covers two pieces:

- The listing routine. `list_module` prints one module and its commands. `list_api`
  checks its two listing options for a conflict and then prints the module names
  only, one module's commands, or every module with its commands.
- The self-test builder, `test`. It builds a small registry of modules, commands
  and options, and asserts the registry's ordering and lookup contract along the way.

The descriptor classes (`ScyllaApi`, `ScyllaApiModule`, `ScyllaApiCommand`,
`ScyllaApiOption`) come from `scylla_cli`, and `scylla_cli` is not part of this
model. They are modelled only as far as `scylla.py` uses them. Each holds an
ordered collection of named children. `add` appends at the end, `keys()` gives the
names in insertion order, and `[i]` and `[name]` look up a child.

Files:

- `wrappers.dfy`: `Option`.
- `named_collections.dfy`: `NamedList<T>`, the ordered name-keyed collection. Its
  `Valid` says that names are distinct. Its lemma `IndexAndNameAgree` shows that
  lookup by position and lookup by name return the same object.
- `scylla_cli.dfy`: the descriptor classes. The option is an immutable datatype.
  Commands, modules and the API are classes, because `test` compares them by
  identity and shares one command between two modules.
- `listing_spec.dfy`: a reference definition of what `list_api` prints and raises
  (`Expected`), over a value view of the registry, with the lemmas about it.
- `scylla.dfy`: `ListModule` and `ListApi` as methods with loops. `ListModule` is
  proved equal to the module's block, `ModuleBlock`, and `ListApi` is proved equal
  to `Expected`. `Test` proves the source's asserts statically.

Modelling choices:

- A `print` call appends one line to the output sequence that a method returns.
- The `RuntimeError` raised by `list_api` is returned as `raised`, the exception
  message. The lines printed before it are the output, and there are none.
- `list_module_commands` is an `Option<string>`, because argparse leaves it `None`
  when the flag is absent. Python truthiness is `Truthy`: both `None` and `''` count
  as unset.
- The listing methods have no `modifies` clause, so the verifier guarantees that
  they change nothing in the registry.
- The default listing is kept exactly as the code writes it. The `first` flag is
  cleared after the first module, so exactly one blank line is printed, right after
  the first module's block. No blank line is printed between later modules.

Two behaviours of the code are kept as written, though a reader might expect
otherwise:

- The conflict fires only when the module name is truthy. An empty
  `--list-module-commands ''` together with `--list-modules` lists the modules.
- The single blank line is the code's behaviour, not a separator between modules.

## Model

| member | source | states |
|---|---|---|
| NamedCollections.NamedList.Add | scylla.py:49-50 | `add` appends the item and its name at the end and keeps names distinct. A duplicate name is refused and leaves the collection unchanged. |
| NamedCollections.NamedList.At | scylla.py:52-53 | `[i]` gives the i-th inserted item exactly when `0 <= i < size`, and nothing otherwise. |
| NamedCollections.NamedList.Get | scylla.py:31-35 | `[name]` finds an item exactly when the name is among the keys, and the item found is the one stored under that name: for every position i whose key is the name, it is `items[i]`. A missing name gives nothing, which is the `KeyError` that `list_api` catches. |
| NamedCollections.NamedList.IndexAndNameAgree | scylla.py:75-78 | Under distinct names, looking up the name of the item at position i returns that same item, the one `[i]` returns. |
| NamedCollections.IndexOf | scylla.py:33 | The name search finds the first position holding the name, and finds nothing exactly when the name is absent. |
| ScyllaCli.ScyllaApiCommand.AddOption | scylla.py:49-50 | `add_option` appends the option under its own name. The command's options stay distinct and keyed by name. |
| ScyllaCli.ScyllaApiModule.AddCommand | scylla.py:56 | `add_command` appends the command object itself, not a copy, under its name. |
| ScyllaCli.ScyllaApi.AddModule | scylla.py:67 | `add_module` appends the module under its name. The API's keys stay equal to its modules' names. |
| ScyllaCli.ScyllaApiCommand.constructor | scylla.py:48 | A new command keeps the given name and starts with no options. |
| ScyllaCli.ScyllaApiModule.constructor | scylla.py:55 | A new module keeps the given name and starts with no commands. |
| ScyllaCli.ScyllaApi.constructor | scylla.py:66 | A new API keeps the given address and port and starts with no modules. |
| ListingSpec.Expected | scylla.py:23-43 | `list_api` raises exactly when `list_modules` is set and the module name is truthy. When it raises, it has printed nothing and the message is the conflict message. |
| ListingSpec.Find | scylla.py:31-35 | Finding a module by name fails exactly when no module has that name. Otherwise it gives the first module of that name in key order. |
| ListingSpec.ModulesOnlyListsNames | scylla.py:27-29 | With only `list_modules`, the output is the module names in key order, one per line, with nothing else, and nothing is raised. |
| ListingSpec.AbsentModuleIsRecovered | scylla.py:31-36 | Naming an absent module prints exactly `Error: module '<name>' not found` and returns normally. |
| ListingSpec.PresentModuleIsListed | scylla.py:16-21 | Naming a present module prints `<name>:` and then each command key behind four spaces, in key order. |
| ListingSpec.EmptyModuleNameIsUnset | scylla.py:31 | An empty module name behaves like no name: it never conflicts, and without `list_modules` it gives the full listing. |
| ListingSpec.ModuleBlockHasNoBlankLine | scylla.py:17-21 | A module's printed block never contains an empty line. |
| ListingSpec.BlocksHaveNoBlankLine | scylla.py:39-40 | Printing any number of module blocks back to back produces no empty line. |
| ListingSpec.FullListingHasOneBlankLine | scylla.py:38-43 | The default listing has exactly one blank line when there is a module and none when there is none. The blank line comes right after the first module's block. |
| ListingSpec.FullListingIsBlocksInOrder | scylla.py:39-40 | Removing that blank line leaves every module's block, in key order. |
| ListingSpec.FullListingSnoc | scylla.py:39-43 | Listing one more module extends the default listing by that module's block. A blank line follows only when it is the first module. |
| Scylla.ListModule | scylla.py:16-21 | The loop prints the header and then each command key indented, which is exactly the module's block. |
| Scylla.ListApi | scylla.py:23-43 | The branches and loops, including the `first` flag, print and raise exactly what `Expected` says for the registry's modules in key order. |
| Scylla.NewTestCommand | scylla.py:48-50 | Builds a command whose options are a positional option and then a flag option, in that order. |
| Scylla.NewTestModule | scylla.py:52-64 | The asserts at lines 52-53 and 63-64 hold: options and commands come back by position in insertion order. The module holds `test_command` and then `test_command_1`. |
| Scylla.Test | scylla.py:66-82 | The asserts at lines 75-78 hold. The registry's keys are `test_module`, `test_module_1`. Both modules hold the same `test_command_1` object. |

## Left out

- Argument parsing and the `__main__` dispatch are command-line glue (scylla.py:84-121). The rule there is that `list_api` runs only when `--list`, `--list-modules` or a truthy `--list-module-commands` is given. It is not modelled.
- Logging setup and the `log.debug` calls are process-wide diagnostics (scylla.py:11-12, 46, 73, 80, 106-109, 120-121). This includes the `repr` of the test registry.
- `scylla_cli` is not part of this model, so its own behaviour is not modelled. That covers the default address and port, the network transport, and the bare `ScyllaApi()` built when the test is off. On a duplicate name, the model refuses the `add` and leaves the collection unchanged. The real class might raise instead; no caller in `scylla.py` adds a duplicate, and `Test` proves every `add` succeeds.
- NamedCollections.NamedList.At: an index outside `[0, size)` gives `None` where Python would raise. Python's negative indices from the end are not modelled either. `scylla.py` uses only indices 0 and 1 on collections that hold two items.
- Scylla.ListApi: only `KeyError` from the name lookup is recovered, as in the source. Other failures inside `list_module` cannot happen in the model.
- Scylla.NewTestCommand and Scylla.NewTestModule: `test`'s body is split into these two methods and `Test` to keep each proof small. The operations and their order are the source's.
- Names that contain line breaks are not modelled: one `print` call is one output line, so a command or module name such as `"\n"` would print further empty physical lines in Python that the blank-line count in `ListingSpec.BlankLines` does not see.
