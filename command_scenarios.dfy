/** Concrete messages run through a small registry with the prefix `!`,
    a single space as separator and empty tokens kept. */
module CommandScenarios {
  import opened Wrappers
  import opened ArgumentParsing
  import opened CommandInfo
  import opened FailedEvents
  import opened CommandDispatch
  import opened Commands

  const Ping := Command("ping", [], false)
  const Echo := Command("echo", [ArgumentInfo("words", StringArrayType)], true)
  const SetXp := Command("setxp", [ArgumentInfo("user", StringType), ArgumentInfo("amount", IntType)], false)
  const Show := Command("show", [], false)
  const Registry := [CommandLeaf(Ping), CommandLeaf(Echo), CommandLeaf(SetXp), Container("config", [CommandLeaf(Show)])]
  const Config := CommandConfiguration("!", [' '], KeepEmptyEntries)

  /** The words joined by single spaces. */
  function SpaceJoined(name: string, words: seq<string>): string
    decreases |words|
  {
    if words == [] then name else name + [' '] + SpaceJoined(words[0], words[1..])
  }

  /** The message `!name word1 word2 ...`. */
  function Text(name: string, words: seq<string>): string {
    "!" + SpaceJoined(name, words)
  }

  /** The messages of the scenarios below without arguments or with a
      sub-command name, written out. */
  lemma CommandTexts()
    ensures Text("ping", []) == "!ping"
    ensures Text("unknown", []) == "!unknown"
    ensures Text("config", []) == "!config"
    ensures Text("config", ["show"]) == "!config show"
  {
    assert SpaceJoined("show", []) == "show";
  }

  // The messages of the scenarios below with arguments, written out.

  lemma EchoText()
    ensures Text("echo", ["hello", "world"]) == "!echo hello world"
  {
    assert SpaceJoined("world", []) == "world";
    assert SpaceJoined("hello", ["world"]) == "hello world";
  }

  lemma SetXpText()
    ensures Text("setxp", ["abc", "10"]) == "!setxp abc 10"
  {
    assert SpaceJoined("10", []) == "10";
    assert SpaceJoined("abc", ["10"]) == "abc 10";
  }

  lemma SetXpTenText()
    ensures Text("setxp", ["abc", "ten"]) == "!setxp abc ten"
  {
    assert SpaceJoined("ten", []) == "ten";
    assert SpaceJoined("abc", ["ten"]) == "abc ten";
  }

  /** Words without spaces, joined by spaces, split back into those words. */
  lemma {:induction false} Tokens(name: string, words: seq<string>)
    requires SeparatorFree([' '], name)
    requires forall i :: 0 <= i < |words| ==> SeparatorFree([' '], words[i])
    ensures SplitKeepingEmpty(SpaceJoined(name, words), [' ']) == [name] + words
    decreases |words|
  {
    if words == [] {
      SplitWord(name, [' ']);
    } else {
      Tokens(words[0], words[1..]);
      SplitWordThen(name, ' ', SpaceJoined(words[0], words[1..]), [' ']);
      assert [words[0]] + words[1..] == words;
    }
  }

  /** A message resolves its first word with the others as arguments. */
  lemma TextDispatches(name: string, words: seq<string>, accepts: (ArgType, string) -> bool)
    requires name != "" && SeparatorFree([' '], name)
    requires forall i :: 0 <= i < |words| ==> SeparatorFree([' '], words[i])
    ensures var ctx := RootContext("!", name, words);
      DoCommands(Text(name, words), "!", Config, Registry, accepts) ==
        Dispatched(ctx, Resolve(ctx, Registry, name, words, accepts))
  {
    Tokens(name, words);
    assert Text(name, words)[1..] == SpaceJoined(name, words);
    assert ([name] + words)[1..] == words;
  }

  /** Where each name of the scenarios resolves at the top level. */
  lemma RegistryLookups()
    ensures Lookup(Registry, "ping") == Some(CommandLeaf(Ping))
    ensures Lookup(Registry, "echo") == Some(CommandLeaf(Echo))
    ensures Lookup(Registry, "setxp") == Some(CommandLeaf(SetXp))
    ensures Lookup(Registry, "config") == Some(Container("config", [CommandLeaf(Show)]))
    ensures Lookup(Registry, "unknown") == None
  {
    var r1 := [CommandLeaf(Echo), CommandLeaf(SetXp), Container("config", [CommandLeaf(Show)])];
    var r2 := [CommandLeaf(SetXp), Container("config", [CommandLeaf(Show)])];
    var r3 := [Container("config", [CommandLeaf(Show)])];
    assert Registry[1..] == r1 && r1[1..] == r2 && r2[1..] == r3 && r3[1..] == [];
    assert Lookup(r3, "config") == Some(Container("config", [CommandLeaf(Show)]));
    assert Lookup(r2, "setxp") == Some(CommandLeaf(SetXp));
    assert Lookup(r2, "config") == Lookup(r3, "config");
    assert Lookup(r1, "setxp") == Lookup(r2, "setxp");
    assert Lookup(r1, "config") == Lookup(r2, "config");
    assert Lookup(r3, "unknown") == Lookup([], "unknown") == None;
    assert Lookup(r2, "unknown") == Lookup(r3, "unknown");
    assert Lookup(r1, "unknown") == Lookup(r2, "unknown");
  }

  /** None of the words of the scenarios holds a space. */
  lemma WordsHaveNoSpaces()
    ensures SeparatorFree([' '], "ping") && SeparatorFree([' '], "echo")
    ensures SeparatorFree([' '], "hello") && SeparatorFree([' '], "world")
    ensures SeparatorFree([' '], "setxp") && SeparatorFree([' '], "abc")
    ensures SeparatorFree([' '], "10") && SeparatorFree([' '], "ten")
    ensures SeparatorFree([' '], "unknown") && SeparatorFree([' '], "config")
    ensures SeparatorFree([' '], "show")
  {
  }

  /** `10` is the `int` ten. */
  lemma TenParses()
    ensures ParseInteger(IntType, "10") == Some(10)
  {
    IntegerRoundTrip(IntType, 10);
    assert FormatInteger(10) == "10";
  }

  /** `abc` and `10` bind to a string and an `int`. */
  lemma SetXpBinds(accepts: (ArgType, string) -> bool)
    ensures GenerateMethodParameters(SetXp, ["abc", "10"], accepts) == Success([StringValue("abc"), IntegerValue(IntType, 10)])
  {
    var args := ["abc", "10"];
    var values := [StringValue("abc"), IntegerValue(IntType, 10)];
    TenParses();
    assert BindPrefix(SetXp.arguments, args, 1, accepts) == Success([values[0]]) by {
      assert BindPrefix(SetXp.arguments, args, 0, accepts) == Success([]);
      assert BindAt(SetXp.arguments, args, 0, accepts) == Success(values[0]);
      assert [] + [values[0]] == [values[0]];
    }
    assert BindAt(SetXp.arguments, args, 1, accepts) == Success(values[1]);
    assert [values[0]] + [values[1]] == values;
  }

  /** `ten` is not a number. */
  lemma TenDoesNotParse()
    ensures ParseInteger(IntType, "ten").None?
  {
    assert TrimEnd("ten", NullChars) == "ten";
    assert DecimalBody("ten") == "ten" by {
      TrimUntouched("ten", NumberWhite);
    }
    assert "ten"[0] == 't' && !IsDigit('t');
    assert !IsSignedDigits("ten");
  }

  /** `ten` is not an `int`: binding stops at the second argument. */
  lemma SetXpRejectsTen(accepts: (ArgType, string) -> bool)
    ensures GenerateMethodParameters(SetXp, ["abc", "ten"], accepts).Failure?
    ensures GenerateMethodParameters(SetXp, ["abc", "ten"], accepts).error.index == 1
  {
    var args := ["abc", "ten"];
    TenDoesNotParse();
    assert BindPrefix(SetXp.arguments, args, 1, accepts).Success? by {
      assert BindPrefix(SetXp.arguments, args, 0, accepts) == Success([]);
      assert BindAt(SetXp.arguments, args, 0, accepts) == Success(StringValue("abc"));
    }
    assert BindAt(SetXp.arguments, args, 1, accepts).Failure?;
  }

  // The outcome of resolving each scenario's tokens.

  lemma PingResolves(ctx: RootContext, accepts: (ArgType, string) -> bool)
    ensures var ev := CommandEvent(ctx, "ping", []);
      Resolve(ctx, Registry, "ping", [], accepts) == Invoked(Ping, ev, [EventArgument(ev)])
  {
    var ev := CommandEvent(ctx, "ping", []);
    RegistryLookups();
    CommandNameBinds(ctx, Registry, "ping", Ping, [], accepts);
    assert GenerateMethodParameters(Ping, [], accepts) == Success([]);
    assert InvokeArguments(ev, []) == [EventArgument(ev)];
  }

  lemma EchoResolves(ctx: RootContext, accepts: (ArgType, string) -> bool)
    ensures var args := ["hello", "world"];
      var ev := CommandEvent(ctx, "echo", args);
      Resolve(ctx, Registry, "echo", args, accepts) == Invoked(Echo, ev, [EventArgument(ev), ValueArgument(RestValue(args))])
  {
    var args := ["hello", "world"];
    var ev := CommandEvent(ctx, "echo", args);
    assert GenerateMethodParameters(Echo, args, accepts) == Success([RestValue(args)]) by {
      assert BindPrefix(Echo.arguments, args, 0, accepts) == Success([]);
      assert args[0..] == args;
      assert BindAt(Echo.arguments, args, 0, accepts) == Success(RestValue(args));
      assert [] + [RestValue(args)] == [RestValue(args)];
    }
    assert Resolve(ctx, Registry, "echo", args, accepts) == ResolveCommand(ctx, Echo, "echo", args, accepts) by {
      RegistryLookups();
      CommandNameBinds(ctx, Registry, "echo", Echo, args, accepts);
    }
    assert InvokeArguments(ev, [RestValue(args)]) == [EventArgument(ev), ValueArgument(RestValue(args))];
  }

  lemma SetXpResolves(ctx: RootContext, accepts: (ArgType, string) -> bool)
    ensures var args := ["abc", "10"];
      var ev := CommandEvent(ctx, "setxp", args);
      Resolve(ctx, Registry, "setxp", args, accepts) ==
        Invoked(SetXp, ev, [EventArgument(ev), ValueArgument(StringValue("abc")), ValueArgument(IntegerValue(IntType, 10))])
  {
    var args := ["abc", "10"];
    var ev := CommandEvent(ctx, "setxp", args);
    var a, b := StringValue("abc"), IntegerValue(IntType, 10);
    assert Resolve(ctx, Registry, "setxp", args, accepts) == ResolveCommand(ctx, SetXp, "setxp", args, accepts) by {
      RegistryLookups();
      CommandNameBinds(ctx, Registry, "setxp", SetXp, args, accepts);
    }
    assert ResolveCommand(ctx, SetXp, "setxp", args, accepts) == Invoked(SetXp, ev, InvokeArguments(ev, [a, b])) by {
      SetXpBinds(accepts);
    }
    assert InvokeArguments(ev, [a, b]) == [EventArgument(ev), ValueArgument(a), ValueArgument(b)];
  }

  lemma SetXpTenResolves(ctx: RootContext, accepts: (ArgType, string) -> bool)
    ensures var args := ["abc", "ten"];
      Resolve(ctx, Registry, "setxp", args, accepts) ==
        NotInvoked(BadArgument(CommandEvent(ctx, "setxp", args), [ArgumentInfo("amount", IntType)]))
  {
    var args := ["abc", "ten"];
    SetXpRejectsTen(accepts);
    assert Resolve(ctx, Registry, "setxp", args, accepts) == ResolveCommand(ctx, SetXp, "setxp", args, accepts) by {
      RegistryLookups();
      CommandNameBinds(ctx, Registry, "setxp", SetXp, args, accepts);
    }
  }

  lemma ConfigResolves(ctx: RootContext, accepts: (ArgType, string) -> bool)
    ensures Resolve(ctx, Registry, "config", [], accepts) == NotInvoked(Failed(CommandEvent(ctx, "config", []), Unspecified))
    ensures var ev := CommandEvent(ctx, "show", []);
      Resolve(ctx, Registry, "config", ["show"], accepts) == Invoked(Show, ev, [EventArgument(ev)])
  {
    var ev := CommandEvent(ctx, "show", []);
    RegistryLookups();
    ContainerWithoutSubName(ctx, Registry, "config", accepts);
    assert Resolve(ctx, Registry, "config", ["show"], accepts) == Resolve(ctx, [CommandLeaf(Show)], "show", [], accepts) by {
      ContainerConsumesSubName(ctx, Registry, "config", ["show"], accepts);
      assert ["show"][1..] == [];
    }
    assert Resolve(ctx, [CommandLeaf(Show)], "show", [], accepts) == ResolveCommand(ctx, Show, "show", [], accepts) by {
      assert Lookup([CommandLeaf(Show)], "show") == Some(CommandLeaf(Show));
      CommandNameBinds(ctx, [CommandLeaf(Show)], "show", Show, [], accepts);
    }
    assert GenerateMethodParameters(Show, [], accepts) == Success([]);
    assert InvokeArguments(ev, []) == [EventArgument(ev)];
  }

  // The scenarios, from message text to outcome.

  /** `!ping` invokes `ping` with the event as its only argument. */
  lemma PingInvokesWithoutArguments(accepts: (ArgType, string) -> bool)
    ensures var ctx := RootContext("!", "ping", []);
      var ev := CommandEvent(ctx, "ping", []);
      DoCommands(Text("ping", []), "!", Config, Registry, accepts) ==
        Dispatched(ctx, Invoked(Ping, ev, [EventArgument(ev)]))
  {
    WordsHaveNoSpaces();
    TextDispatches("ping", [], accepts);
    PingResolves(RootContext("!", "ping", []), accepts);
  }

  /** `!echo hello world` hands both words to the rest argument. */
  lemma EchoTakesTheRest(accepts: (ArgType, string) -> bool)
    ensures var ctx := RootContext("!", "echo", ["hello", "world"]);
      var ev := CommandEvent(ctx, "echo", ["hello", "world"]);
      DoCommands(Text("echo", ["hello", "world"]), "!", Config, Registry, accepts) ==
        Dispatched(ctx, Invoked(Echo, ev, [EventArgument(ev), ValueArgument(RestValue(["hello", "world"]))]))
  {
    WordsHaveNoSpaces();
    TextDispatches("echo", ["hello", "world"], accepts);
    EchoResolves(RootContext("!", "echo", ["hello", "world"]), accepts);
  }

  /** `!setxp abc 10` converts both tokens. */
  lemma SetXpParses(accepts: (ArgType, string) -> bool)
    ensures var ctx := RootContext("!", "setxp", ["abc", "10"]);
      var ev := CommandEvent(ctx, "setxp", ["abc", "10"]);
      DoCommands(Text("setxp", ["abc", "10"]), "!", Config, Registry, accepts) ==
        Dispatched(ctx, Invoked(SetXp, ev, [EventArgument(ev), ValueArgument(StringValue("abc")), ValueArgument(IntegerValue(IntType, 10))]))
  {
    WordsHaveNoSpaces();
    TextDispatches("setxp", ["abc", "10"], accepts);
    SetXpResolves(RootContext("!", "setxp", ["abc", "10"]), accepts);
  }

  /** `!setxp abc ten` reports the second argument as bad. */
  lemma SetXpBadArgument(accepts: (ArgType, string) -> bool)
    ensures var ctx := RootContext("!", "setxp", ["abc", "ten"]);
      var ev := CommandEvent(ctx, "setxp", ["abc", "ten"]);
      DoCommands(Text("setxp", ["abc", "ten"]), "!", Config, Registry, accepts) ==
        Dispatched(ctx, NotInvoked(BadArgument(ev, [ArgumentInfo("amount", IntType)])))
  {
    WordsHaveNoSpaces();
    TextDispatches("setxp", ["abc", "ten"], accepts);
    SetXpTenResolves(RootContext("!", "setxp", ["abc", "ten"]), accepts);
  }

  /** `!unknown` finds no command. */
  lemma UnknownFindsNothing(accepts: (ArgType, string) -> bool)
    ensures var ctx := RootContext("!", "unknown", []);
      DoCommands(Text("unknown", []), "!", Config, Registry, accepts) ==
        Dispatched(ctx, NotInvoked(Failed(CommandEvent(ctx, "unknown", []), NoCommandFound)))
  {
    WordsHaveNoSpaces();
    TextDispatches("unknown", [], accepts);
    RegistryLookups();
  }

  /** `!config` names a container without a sub-command. */
  lemma ContainerWithoutSubCommand(accepts: (ArgType, string) -> bool)
    ensures var ctx := RootContext("!", "config", []);
      DoCommands(Text("config", []), "!", Config, Registry, accepts) ==
        Dispatched(ctx, NotInvoked(Failed(CommandEvent(ctx, "config", []), Unspecified)))
  {
    WordsHaveNoSpaces();
    TextDispatches("config", [], accepts);
    ConfigResolves(RootContext("!", "config", []), accepts);
  }

  /** `!config show` invokes the sub-command `show`. */
  lemma ContainerInvokesSubCommand(accepts: (ArgType, string) -> bool)
    ensures var ctx := RootContext("!", "config", ["show"]);
      var ev := CommandEvent(ctx, "show", []);
      DoCommands(Text("config", ["show"]), "!", Config, Registry, accepts) ==
        Dispatched(ctx, Invoked(Show, ev, [EventArgument(ev)]))
  {
    WordsHaveNoSpaces();
    TextDispatches("config", ["show"], accepts);
    ConfigResolves(RootContext("!", "config", ["show"]), accepts);
  }

  /** `hello` does not start with the prefix: nothing happens. */
  lemma UnprefixedIsIgnored(accepts: (ArgType, string) -> bool)
    ensures DoCommands("hello", "!", Config, Registry, accepts) == NotACommand
  {
    assert "hello"[0] != "!"[0];
  }
}
