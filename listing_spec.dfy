/**
 * The output of scylla.py's `list_api`, as a reference definition over plain
 * values: a module is seen as its name and the names of its commands, in key
 * order. `print` contributes one line per call; the `RuntimeError` of the
 * conflicting-options check is `raised`.
 */
module ListingSpec {

  import opened Wrappers
  import opened NamedCollections

  /** A module as the listing sees it. */
  datatype ModuleView = ModuleView(name: string, commands: seq<string>)

  /** Lines printed, and the message of the exception raised, if any. */
  datatype Listing = Listing(output: seq<string>, raised: Option<string>)

  /** `f"{'':4}"`: the indentation in front of each command name. */
  const Indent := "    "

  const ConflictMessage := "--list-modules option cannot be used along with --list-module-commands"

  function NotFoundLine(name: string): string
  {
    "Error: module '" + name + "' not found"
  }

  /** Python truthiness of an optional string: `None` and `''` are both false. */
  predicate Truthy(s: Option<string>)
  {
    s.Some? && s.value != ""
  }

  function Names(ms: seq<ModuleView>): (names: seq<string>)
    ensures |names| == |ms|
    ensures forall i :: 0 <= i < |ms| ==> names[i] == ms[i].name
  {
    seq(|ms|, i requires 0 <= i < |ms| => ms[i].name)
  }

  function Indented(names: seq<string>): (lines: seq<string>)
    ensures |lines| == |names|
    ensures forall i :: 0 <= i < |names| ==> lines[i] == Indent + names[i]
  {
    seq(|names|, i requires 0 <= i < |names| => Indent + names[i])
  }

  /** What `list_module` prints: the header, then each command name indented. */
  function ModuleBlock(m: ModuleView): (lines: seq<string>)
    ensures |lines| == 1 + |m.commands|
  {
    [m.name + ":"] + Indented(m.commands)
  }

  /** The blocks of all modules, one after the other, with no separator. */
  function Blocks(ms: seq<ModuleView>): seq<string>
  {
    if ms == [] then [] else ModuleBlock(ms[0]) + Blocks(ms[1..])
  }

  /** The default listing: every block, and one blank line after the first block only. */
  function FullListing(ms: seq<ModuleView>): seq<string>
  {
    if ms == [] then [] else ModuleBlock(ms[0]) + [""] + Blocks(ms[1..])
  }

  /** The module whose name is `name`; the first one if several share it. */
  function Find(ms: seq<ModuleView>, name: string): (r: Option<ModuleView>)
    ensures r.None? <==> forall m :: m in ms ==> m.name != name
    ensures r.Some? ==> r.value in ms && r.value.name == name
    ensures r.Some? ==>
      exists i :: 0 <= i < |ms| && ms[i] == r.value && forall j :: 0 <= j < i ==> ms[j].name != name
  {
    match IndexOf(Names(ms), name)
    case None => None
    case Some(i) =>
      assert forall j :: 0 <= j < i ==> Names(ms)[..i][j] == ms[j].name;
      Some(ms[i])
  }

  /** The whole behaviour of `list_api` on a registry seen as `ms`. */
  function Expected(ms: seq<ModuleView>, listModules: bool, listModuleCommands: Option<string>): (r: Listing)
    ensures r.raised.Some? <==> listModules && Truthy(listModuleCommands)
    ensures r.raised.Some? ==> r.output == [] && r.raised.value == ConflictMessage
  {
    if listModules then
      if Truthy(listModuleCommands) then Listing([], Some(ConflictMessage))
      else Listing(Names(ms), None)
    else if Truthy(listModuleCommands) then
      match Find(ms, listModuleCommands.value)
      case None => Listing([NotFoundLine(listModuleCommands.value)], None)
      case Some(m) => Listing(ModuleBlock(m), None)
    else Listing(FullListing(ms), None)
  }

  /** Number of blank lines. */
  function BlankLines(lines: seq<string>): nat
  {
    if lines == [] then 0 else (if lines[0] == "" then 1 else 0) + BlankLines(lines[1..])
  }

  lemma {:induction false} BlankLinesAppend(a: seq<string>, b: seq<string>)
    ensures BlankLines(a + b) == BlankLines(a) + BlankLines(b)
  {
    if a == [] {
      assert a + b == b;
    } else {
      assert (a + b)[1..] == a[1..] + b;
      BlankLinesAppend(a[1..], b);
    }
  }

  lemma {:induction false} NoBlankLinesIn(lines: seq<string>)
    requires forall i :: 0 <= i < |lines| ==> lines[i] != ""
    ensures BlankLines(lines) == 0
  {
    if lines != [] {
      NoBlankLinesIn(lines[1..]);
    }
  }

  /** A module's block never holds a blank line: the header ends in ':' and commands are indented. */
  lemma ModuleBlockHasNoBlankLine(m: ModuleView)
    ensures BlankLines(ModuleBlock(m)) == 0
  {
    var lines := ModuleBlock(m);
    forall i | 0 <= i < |lines|
      ensures lines[i] != ""
    {
      if i > 0 {
        assert lines[i] == Indent + m.commands[i - 1];
      }
    }
    NoBlankLinesIn(lines);
  }

  lemma {:induction false} BlocksHaveNoBlankLine(ms: seq<ModuleView>)
    ensures BlankLines(Blocks(ms)) == 0
  {
    if ms != [] {
      ModuleBlockHasNoBlankLine(ms[0]);
      BlocksHaveNoBlankLine(ms[1..]);
      BlankLinesAppend(ModuleBlock(ms[0]), Blocks(ms[1..]));
    }
  }

  /**
   * The default listing holds exactly one blank line when there is at least one
   * module and none otherwise, and that line comes right after the first block.
   */
  lemma FullListingHasOneBlankLine(ms: seq<ModuleView>)
    ensures BlankLines(FullListing(ms)) == if ms == [] then 0 else 1
    ensures ms != [] ==> FullListing(ms)[|ModuleBlock(ms[0])|] == ""
  {
    if ms != [] {
      ModuleBlockHasNoBlankLine(ms[0]);
      BlocksHaveNoBlankLine(ms[1..]);
      BlankLinesAppend(ModuleBlock(ms[0]), [""]);
      BlankLinesAppend(ModuleBlock(ms[0]) + [""], Blocks(ms[1..]));
    }
  }

  /** Leaving out the blank line, the default listing is every module's block in order. */
  lemma FullListingIsBlocksInOrder(ms: seq<ModuleView>)
    requires ms != []
    ensures var k := |ModuleBlock(ms[0])|;
            FullListing(ms)[..k] + FullListing(ms)[k + 1..] == Blocks(ms)
  {
  }

  /** With only `list_modules`, the output is the module names, one per line, in order. */
  lemma ModulesOnlyListsNames(ms: seq<ModuleView>, listModuleCommands: Option<string>)
    requires !Truthy(listModuleCommands)
    ensures var r := Expected(ms, true, listModuleCommands);
            r.raised == None && |r.output| == |ms| &&
            forall i :: 0 <= i < |ms| ==> r.output[i] == ms[i].name
  {
  }

  /** Naming an absent module prints one error line and raises nothing. */
  lemma AbsentModuleIsRecovered(ms: seq<ModuleView>, name: string)
    requires name != ""
    requires forall m :: m in ms ==> m.name != name
    ensures Expected(ms, false, Some(name)) == Listing(["Error: module '" + name + "' not found"], None)
  {
  }

  /** Naming a present module prints its header and its indented command names, in order. */
  lemma PresentModuleIsListed(ms: seq<ModuleView>, i: nat)
    requires i < |ms| && ms[i].name != ""
    requires DistinctKeys(Names(ms))
    ensures var r := Expected(ms, false, Some(ms[i].name));
            r.raised == None && |r.output| == 1 + |ms[i].commands| &&
            r.output[0] == ms[i].name + ":" &&
            forall j :: 0 <= j < |ms[i].commands| ==> r.output[j + 1] == "    " + ms[i].commands[j]
  {
  }

  /**
   * An empty module name counts as unset: it never conflicts with
   * `list_modules`, and without `list_modules` it gives the default listing.
   */
  lemma EmptyModuleNameIsUnset(ms: seq<ModuleView>, listModules: bool)
    ensures Expected(ms, listModules, Some("")) == Expected(ms, listModules, None)
    ensures Expected(ms, false, Some("")) == Listing(FullListing(ms), None)
  {
  }

  lemma {:induction false} BlocksSnoc(ms: seq<ModuleView>, m: ModuleView)
    ensures Blocks(ms + [m]) == Blocks(ms) + ModuleBlock(m)
  {
    if ms == [] {
      assert ms + [m] == [m];
    } else {
      assert (ms + [m])[1..] == ms[1..] + [m];
      BlocksSnoc(ms[1..], m);
    }
  }

  /** Listing one more module extends the default listing by its block, plus the blank line after the first. */
  lemma FullListingSnoc(ms: seq<ModuleView>, i: nat)
    requires i < |ms|
    ensures FullListing(ms[..i + 1]) == FullListing(ms[..i]) + ModuleBlock(ms[i]) + (if i == 0 then [""] else [])
  {
    var ys := ms[..i];
    assert ms[..i + 1] == ys + [ms[i]];
    if i == 0 {
      assert ys + [ms[i]] == [ms[i]];
      assert FullListing([ms[i]]) == ModuleBlock(ms[i]) + [""] + Blocks([]);
    } else {
      var zs := ys + [ms[i]];
      assert zs[0] == ys[0];
      assert zs[1..] == ys[1..] + [ms[i]];
      BlocksSnoc(ys[1..], ms[i]);
      calc {
        FullListing(zs);
        ModuleBlock(ys[0]) + [""] + Blocks(ys[1..] + [ms[i]]);
        ModuleBlock(ys[0]) + [""] + (Blocks(ys[1..]) + ModuleBlock(ms[i]));
        FullListing(ys) + ModuleBlock(ms[i]);
      }
    }
  }
}
