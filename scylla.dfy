/**
 * scylla.py: the listing routine (`list_module`, `list_api`) and the self-test
 * builder (`test`). Printing is modelled as appending lines to an output
 * sequence; the listing routines have no `modifies` clause, so they change
 * nothing in the registry.
 */
module Scylla {

  import opened Wrappers
  import opened NamedCollections
  import opened ScyllaCli
  import opened ListingSpec

  /** A module seen as its name and its command keys. */
  function ViewOf(m: ScyllaApiModule): ModuleView
    reads m.commands
  {
    ModuleView(m.name, m.commands.keys)
  }

  /** The registry seen as its modules, in key order. */
  function View(api: ScyllaApi): (vs: seq<ModuleView>)
    reads api.modules, set m | m in api.modules.items :: m.commands
    ensures |vs| == |api.modules.items|
    ensures forall i :: 0 <= i < |vs| ==> vs[i] == ViewOf(api.modules.items[i])
  {
    var ms := api.modules.items;
    seq(|ms|, i requires 0 <= i < |ms| reads set m | m in ms :: m.commands => ViewOf(ms[i]))
  }

  /** The names in the view are the registry's keys, so they are distinct. */
  lemma ViewNamesAreKeys(api: ScyllaApi)
    requires api.Valid()
    ensures Names(View(api)) == api.modules.keys
    ensures DistinctKeys(Names(View(api)))
  {
  }

  /** `list_module`: the module's header, then each command key indented by four spaces. */
  method ListModule(m: ScyllaApiModule) returns (lines: seq<string>)
    ensures lines == ModuleBlock(ViewOf(m))
  {
    lines := [m.name + ":"];
    var keys := m.commands.keys;
    for i := 0 to |keys|
      invariant lines == [m.name + ":"] + Indented(keys[..i])
    {
      lines := lines + [Indent + keys[i]];
      assert Indented(keys[..i + 1]) == Indented(keys[..i]) + [Indent + keys[i]];
    }
    assert keys[..|keys|] == keys;
  }

  /**
   * `list_api`: `output` is everything printed and `raised` the message of the
   * exception raised, if any; the two together are exactly `Expected`.
   */
  method ListApi(api: ScyllaApi, listModules: bool, listModuleCommands: Option<string>)
    returns (output: seq<string>, raised: Option<string>)
    requires api.Valid()
    ensures Listing(output, raised) == Expected(View(api), listModules, listModuleCommands)
  {
    output, raised := [], None;
    ViewNamesAreKeys(api);
    if listModules {
      if Truthy(listModuleCommands) {
        raised := Some(ConflictMessage);
        return;
      }
      var keys := api.modules.keys;
      for i := 0 to |keys|
        invariant output == keys[..i]
      {
        output := output + [keys[i]];
      }
      assert keys[..|keys|] == keys;
      return;
    }

    if Truthy(listModuleCommands) {
      var name := listModuleCommands.value;
      match api.modules.Get(name) {
        case Some(m) =>
          output := ListModule(m);
        case None =>
          output := [NotFoundLine(name)];
      }
      return;
    }

    ghost var views := View(api);
    var first := true;
    var keys := api.modules.keys;
    assert views[..0] == [];
    for i := 0 to |keys|
      invariant first <==> i == 0
      invariant output == FullListing(views[..i])
    {
      api.modules.IndexAndNameAgree(i);
      var m := api.modules.Get(keys[i]).value;
      var lines := ListModule(m);
      assert lines == ModuleBlock(views[i]);
      FullListingSnoc(views, i);
      output := output + lines;
      if first {
        output := output + [""];
        first := false;
      }
    }
    assert views[..|keys|] == views;
  }

  /**
   * The command built twice by `test`: a positional option, then a flag option,
   * each with the help text "help for <option name>".
   */
  method NewTestCommand(name: string, positionalOption: string, option: string)
    returns (command: ScyllaApiCommand)
    requires positionalOption != option
    ensures fresh(command) && fresh(command.options) && command.Valid() && command.name == name
    ensures command.options.items == [ScyllaApiOption(positionalOption, true, "help for " + positionalOption),
                                      ScyllaApiOption(option, false, "help for " + option)]
  {
    command := new ScyllaApiCommand(name);
    var ok := command.AddOption(ScyllaApiOption(positionalOption, true, "help for " + positionalOption));
    assert ok;
    ok := command.AddOption(ScyllaApiOption(option, false, "help for " + option));
    assert ok;
  }

  /**
   * The first part of `test`: `test_module` holding `test_command` and
   * `test_command_1`, each checked by position after it is added.
   */
  method NewTestModule() returns (testModule: ScyllaApiModule, testCommand1: ScyllaApiCommand)
    ensures fresh(testModule) && fresh(testModule.commands) && testModule.Valid()
    ensures testModule.name == "test_module" && testCommand1.name == "test_command_1"
    ensures |testModule.commands.items| == 2 && testModule.commands.items[1] == testCommand1
    ensures testModule.commands.keys == ["test_command", "test_command_1"]
  {
    var testCommand := NewTestCommand("test_command", "test_positional_option_1", "test_option_2");
    assert testCommand.options.At(0).Some? && testCommand.options.At(0).value.name == "test_positional_option_1";
    assert testCommand.options.At(1).Some? && testCommand.options.At(1).value.name == "test_option_2";

    testModule := new ScyllaApiModule("test_module");
    var ok := testModule.AddCommand(testCommand);
    assert ok;

    testCommand1 := NewTestCommand("test_command_1", "test_positional_option_1_1", "test_option_1_2");
    ok := testModule.AddCommand(testCommand1);
    assert ok;

    assert testModule.commands.At(0) == Some(testCommand);
    assert testModule.commands.At(1) == Some(testCommand1);
    assert testModule.commands.keys == [testCommand.name, testCommand1.name];
  }

  /**
   * `test`: builds a registry of two modules that share the command
   * `test_command_1`, and checks that position and name lookups agree.
   */
  method Test(nodeAddress: string, port: int) returns (api: ScyllaApi)
    ensures fresh(api) && api.Valid()
    ensures api.nodeAddress == nodeAddress && api.port == port
    ensures api.modules.keys == ["test_module", "test_module_1"]
    ensures api.modules.items[0].Valid() && api.modules.items[1].Valid()
    ensures api.modules.items[0].commands.keys == ["test_command", "test_command_1"]
    ensures api.modules.items[1].commands.keys == ["test_command_1"]
    ensures api.modules.items[0].commands.items[1] == api.modules.items[1].commands.items[0]
  {
    var testModule, testCommand1 := NewTestModule();

    api := new ScyllaApi(nodeAddress, port);
    assert api.modules != testModule.commands as object;
    var ok := api.AddModule(testModule);
    assert ok;
    assert api.modules.keys == [testModule.name];

    var testModule1 := new ScyllaApiModule("test_module_1");
    assert testModule1.commands != testModule.commands && testModule1.commands as object != api.modules;
    ok := testModule1.AddCommand(testCommand1);
    assert ok;
    ok := api.AddModule(testModule1);
    assert ok;
    assert api.modules.keys == [testModule.name, testModule1.name];

    api.modules.IndexAndNameAgree(0);
    api.modules.IndexAndNameAgree(1);
    assert api.modules.At(0) == Some(testModule);
    assert api.modules.At(1) == Some(testModule1);
    assert api.modules.Get("test_module") == Some(testModule);
    assert api.modules.Get("test_module_1") == Some(testModule1);
  }
}
