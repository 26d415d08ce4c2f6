/**
 * The descriptor classes imported by scylla.py from `scylla_cli`: an API holds
 * modules, a module holds commands, a command holds options. Only what scylla.py
 * constructs, adds and reads is modelled; each class's collection is a
 * `NamedList` keyed by the descriptors' own `name`.
 */
module ScyllaCli {

  import opened NamedCollections

  /** An option of a command; immutable once built. */
  datatype ScyllaApiOption = ScyllaApiOption(name: string, positional: bool, help: string)

  class ScyllaApiCommand {
    const name: string
    const options: NamedList<ScyllaApiOption>

    ghost predicate Valid()
      reads options
    {
      options.Valid() && forall i :: 0 <= i < |options.items| ==> options.keys[i] == options.items[i].name
    }

    constructor (name: string)
      ensures this.name == name && fresh(options) && options.items == [] && Valid()
    {
      this.name := name;
      options := new NamedList<ScyllaApiOption>();
    }

    /** `add_option`: appends `option` to the command's options. */
    method AddOption(option: ScyllaApiOption) returns (ok: bool)
      requires Valid()
      modifies options
      ensures Valid()
      ensures ok <==> option.name !in old(options.keys)
      ensures options.items == if ok then old(options.items) + [option] else old(options.items)
      ensures options.keys == if ok then old(options.keys) + [option.name] else old(options.keys)
    {
      ok := options.Add(option.name, option);
    }
  }

  class ScyllaApiModule {
    const name: string
    const commands: NamedList<ScyllaApiCommand>

    ghost predicate Valid()
      reads commands
    {
      commands.Valid() && forall i :: 0 <= i < |commands.items| ==> commands.keys[i] == commands.items[i].name
    }

    constructor (name: string)
      ensures this.name == name && fresh(commands) && commands.items == [] && Valid()
    {
      this.name := name;
      commands := new NamedList<ScyllaApiCommand>();
    }

    /** `add_command`: appends `command` (by reference, not a copy) to the module's commands. */
    method AddCommand(command: ScyllaApiCommand) returns (ok: bool)
      requires Valid()
      modifies commands
      ensures Valid()
      ensures ok <==> command.name !in old(commands.keys)
      ensures commands.items == if ok then old(commands.items) + [command] else old(commands.items)
      ensures commands.keys == if ok then old(commands.keys) + [command.name] else old(commands.keys)
    {
      ok := commands.Add(command.name, command);
    }
  }

  class ScyllaApi {
    const nodeAddress: string
    const port: int
    const modules: NamedList<ScyllaApiModule>

    ghost predicate Valid()
      reads modules
    {
      modules.Valid() && forall i :: 0 <= i < |modules.items| ==> modules.keys[i] == modules.items[i].name
    }

    constructor (nodeAddress: string, port: int)
      ensures this.nodeAddress == nodeAddress && this.port == port
      ensures fresh(modules) && modules.items == [] && Valid()
    {
      this.nodeAddress := nodeAddress;
      this.port := port;
      modules := new NamedList<ScyllaApiModule>();
    }

    /** `add_module`: appends `apiModule` to the API's modules. */
    method AddModule(apiModule: ScyllaApiModule) returns (ok: bool)
      requires Valid()
      modifies modules
      ensures Valid()
      ensures ok <==> apiModule.name !in old(modules.keys)
      ensures modules.items == if ok then old(modules.items) + [apiModule] else old(modules.items)
      ensures modules.keys == if ok then old(modules.keys) + [apiModule.name] else old(modules.keys)
    {
      ok := modules.Add(apiModule.name, apiModule);
    }
  }
}
