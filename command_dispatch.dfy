/** Name resolution over the tree of commands and containers, and the decision
    between invoking a handler and reporting a failure. The resolver of the
    library (`CommandBase.InvokeCommandByNameAsync`) is not part of this model;
    this module states a resolver using only the documented meaning of each
    failure type. */
module CommandDispatch {
  import opened Wrappers
  import opened ArgumentParsing
  import opened CommandInfo
  import opened FailedEvents

  /** The handler was invoked with these arguments, or a failure event was raised. */
  datatype DispatchOutcome =
    | Invoked(command: Command, event: CommandEvent, handlerArguments: seq<HandlerArgument<CommandEvent>>)
    | NotInvoked(failure: FailedCommandEvent)

  /** The first node of the scope whose name equals `name` exactly (case-sensitive). */
  function Lookup(scope: seq<CommandNode>, name: string): (r: Option<CommandNode>)
    ensures r.Some? ==> exists i :: (0 <= i < |scope| && scope[i] == r.value &&
      r.value.Name() == name && forall j :: 0 <= j < i ==> scope[j].Name() != name)
    ensures r.None? ==> forall i :: 0 <= i < |scope| ==> scope[i].Name() != name
  {
    if scope == [] then None
    else if scope[0].Name() == name then Some(scope[0])
    else
      var r := Lookup(scope[1..], name);
      assert r.Some? ==> exists i :: (0 <= i < |scope[1..]| && scope[1..][i] == r.value &&
        forall j :: 0 <= j < i ==> scope[1..][j].Name() != name);
      r
  }

  /** Binding for a command that was found: the count check comes first and,
      when it fails, no token is parsed; then every argument is converted or
      the argument where conversion stopped is reported. */
  function ResolveCommand(root: RootContext, c: Command, name: string, args: seq<string>, accepts: (ArgType, string) -> bool): (r: DispatchOutcome)
    ensures r.NotInvoked? ==> r.failure.event == CommandEvent(root, name, args)
    ensures (r.NotInvoked? && r.failure.FailType() == BadArgumentCount) <==> !HasCorrectCount(c, |args|)
    ensures (r.NotInvoked? && r.failure.FailType() == BadArguments) <==>
      HasCorrectCount(c, |args|) && GenerateMethodParameters(c, args, accepts).Failure?
    ensures r.Invoked? <==> HasCorrectCount(c, |args|) && GenerateMethodParameters(c, args, accepts).Success?
    ensures r.Invoked? ==>
      && r.command == c
      && r.event == CommandEvent(root, name, args)
      && r.handlerArguments == InvokeArguments(r.event, GenerateMethodParameters(c, args, accepts).value)
    ensures r.NotInvoked? && r.failure.BadArgument? ==>
      r.failure.badArguments == [c.arguments[GenerateMethodParameters(c, args, accepts).error.index]]
  {
    if !HasCorrectCount(c, |args|) then
      NotInvoked(NewFailedCommandEvent(root, name, args, BadArgumentCount))
    else
      match GenerateMethodParameters(c, args, accepts)
      case Failure(e) => NotInvoked(NewBadCommandArgumentEvent(root, name, args, [c.arguments[e.index]]))
      case Success(values) =>
        var event := CommandEvent(root, name, args);
        Invoked(c, event, InvokeArguments(event, values))
  }

  /** The command `c` is declared somewhere in the tree below `scope`. */
  predicate InTree(scope: seq<CommandNode>, c: Command)
    decreases scope
  {
    exists i :: 0 <= i < |scope| &&
      (scope[i] == CommandLeaf(c) || (scope[i].Container? && InTree(scope[i].subCommands, c)))
  }

  /** Resolves `name` in `scope`: a container consumes the next token as the
      sub-command name (none left is `Unspecified`); a name that does not resolve
      is `NoCommandFound`; a command is bound by ResolveCommand. */
  function Resolve(root: RootContext, scope: seq<CommandNode>, name: string, args: seq<string>, accepts: (ArgType, string) -> bool): (r: DispatchOutcome)
    decreases |args|
    ensures r.NotInvoked? ==> r.failure.event.context == root
    ensures r.Invoked? ==>
      && r.event.context == root
      && InTree(scope, r.command)
      && |r.event.arguments| <= |args|
      && r.event.arguments == args[|args| - |r.event.arguments|..]
      && HasCorrectCount(r.command, |r.event.arguments|)
      && GenerateMethodParameters(r.command, r.event.arguments, accepts).Success?
  {
    match Lookup(scope, name)
    case None => NotInvoked(NewFailedCommandEvent(root, name, args, NoCommandFound))
    case Some(node) =>
      match node
      case CommandLeaf(c) => ResolveCommand(root, c, name, args, accepts)
      case Container(_, subs) =>
        if args == [] then NotInvoked(NewFailedCommandEvent(root, name, args, Unspecified))
        else
          var r := Resolve(root, subs, args[0], args[1..], accepts);
          assert r.Invoked? ==> args[1..][|args[1..]| - |r.event.arguments|..] == args[|args| - |r.event.arguments|..];
          r
  }

  /** Every command in a tree of successfully declared commands is well formed. */
  lemma {:induction false} InTreeIsWellFormed(scope: seq<CommandNode>, c: Command)
    requires forall i :: 0 <= i < |scope| ==> TreeWellFormed(scope[i])
    requires InTree(scope, c)
    ensures WellFormed(c)
    decreases scope
  {
    var i :| 0 <= i < |scope| &&
      (scope[i] == CommandLeaf(c) || (scope[i].Container? && InTree(scope[i].subCommands, c)));
    if scope[i] != CommandLeaf(c) {
      InTreeIsWellFormed(scope[i].subCommands, c);
    }
  }

  /** In a registry of declared commands, the invoked command is a declared
      one: its rest argument, if any, is last and its types are allowed. */
  lemma InvokedCommandIsDeclared(root: RootContext, scope: seq<CommandNode>, name: string, args: seq<string>, accepts: (ArgType, string) -> bool)
    requires forall i :: 0 <= i < |scope| ==> TreeWellFormed(scope[i])
    ensures Resolve(root, scope, name, args, accepts).Invoked? ==>
      WellFormed(Resolve(root, scope, name, args, accepts).command)
  {
    var r := Resolve(root, scope, name, args, accepts);
    if r.Invoked? {
      InTreeIsWellFormed(scope, r.command);
    }
  }

  /** A container reached with no token left reports `Unspecified`: the parent
      command was called without a sub-command name (FailedCommandEvent.cs:74-77). */
  lemma ContainerWithoutSubName(root: RootContext, scope: seq<CommandNode>, name: string, accepts: (ArgType, string) -> bool)
    requires Lookup(scope, name).Some? && Lookup(scope, name).value.Container?
    ensures Resolve(root, scope, name, [], accepts) == NotInvoked(Failed(CommandEvent(root, name, []), Unspecified))
  {
    var node := Lookup(scope, name).value;
    assert node.Container?;
    assert Resolve(root, scope, name, [], accepts) == NotInvoked(NewFailedCommandEvent(root, name, [], Unspecified));
  }

  /** A container reached with a token left resolves that token among its
      sub-commands, with the remaining tokens, so each of the outcomes of
      FailedCommandEvent.cs:74-92 may then arise one level down. */
  lemma ContainerConsumesSubName(root: RootContext, scope: seq<CommandNode>, name: string, args: seq<string>, accepts: (ArgType, string) -> bool)
    requires Lookup(scope, name).Some? && Lookup(scope, name).value.Container? && args != []
    ensures Resolve(root, scope, name, args, accepts) ==
      Resolve(root, Lookup(scope, name).value.subCommands, args[0], args[1..], accepts)
  {
  }

  /** A name that resolves to a command is bound by ResolveCommand with all the
      tokens, which reports `BadArgumentCount` or `BadArguments`
      (FailedCommandEvent.cs:84-92) or invokes the handler. */
  lemma CommandNameBinds(root: RootContext, scope: seq<CommandNode>, name: string, c: Command, args: seq<string>, accepts: (ArgType, string) -> bool)
    requires Lookup(scope, name) == Some(CommandLeaf(c))
    ensures Resolve(root, scope, name, args, accepts) == ResolveCommand(root, c, name, args, accepts)
  {
  }

  /** A name absent from the scope reports `NoCommandFound` and invokes nothing
      (FailedCommandEvent.cs:79-82). */
  lemma UnknownNameIsNoCommandFound(root: RootContext, scope: seq<CommandNode>, name: string, args: seq<string>, accepts: (ArgType, string) -> bool)
    requires forall i :: 0 <= i < |scope| ==> scope[i].Name() != name
    ensures Resolve(root, scope, name, args, accepts) == NotInvoked(Failed(CommandEvent(root, name, args), NoCommandFound))
  {
    assert Lookup(scope, name).None?;
  }

  /** The count check precedes parsing: with a wrong count the outcome is
      `BadArgumentCount`, and argument integrity is not checked, so it is the same
      whatever the foreign parsers accept (FailedCommandEvent.cs:84-87). */
  lemma CountCheckPrecedesParsing(root: RootContext, c: Command, name: string, args: seq<string>, accepts: (ArgType, string) -> bool, accepts': (ArgType, string) -> bool)
    requires !HasCorrectCount(c, |args|)
    ensures ResolveCommand(root, c, name, args, accepts) == ResolveCommand(root, c, name, args, accepts')
    ensures ResolveCommand(root, c, name, args, accepts).NotInvoked?
    ensures ResolveCommand(root, c, name, args, accepts).failure.FailType() == BadArgumentCount
  {
  }
}
