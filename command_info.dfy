/** A declared command: its parameters checked against the allow-list when it
    is declared, the argument-count check, and the conversion of message tokens
    into the handler's arguments. Containers of sub-commands form a tree. */
module CommandInfo {
  import opened Wrappers
  import opened ArgumentParsing

  /** A formal parameter of a handler method, after its leading event parameter. */
  datatype Parameter = Parameter(name: string, paramType: ArgType)

  /** An argument a user can pass to a command. */
  datatype ArgumentInfo = ArgumentInfo(name: string, argType: ArgType)

  /** A command declared on a handler method. */
  datatype Command = Command(name: string, arguments: seq<ArgumentInfo>, hasRestArgument: bool)

  /** Why a command declaration is refused (the source throws `InvalidOperationException`). */
  datatype DeclarationError =
    | RestNotLast(index: nat)
    | UnsupportedType(index: nat, argType: ArgType)

  function ArgumentOf(p: Parameter): ArgumentInfo {
    ArgumentInfo(p.name, p.paramType)
  }

  /** Parameter `i` is acceptable: a rest parameter only in last position, any
      other parameter of an allow-listed type. */
  predicate ParameterOk(parameters: seq<Parameter>, i: nat)
    requires i < |parameters|
  {
    if parameters[i].paramType == StringArrayType then i + 1 == |parameters|
    else parameters[i].paramType in AllowedTypes
  }

  predicate EndsWithRest(parameters: seq<Parameter>) {
    |parameters| > 0 && parameters[|parameters| - 1].paramType == StringArrayType
  }

  /** The shape every declared command has. */
  predicate WellFormed(c: Command) {
    && (forall i :: 0 <= i < |c.arguments| ==>
          if c.arguments[i].argType == StringArrayType then i + 1 == |c.arguments|
          else c.arguments[i].argType in AllowedTypes)
    && (c.hasRestArgument <==> |c.arguments| > 0 && c.arguments[|c.arguments| - 1].argType == StringArrayType)
  }

  /** The refusal for parameter `i`, which is not acceptable. */
  function ErrorAt(parameters: seq<Parameter>, i: nat): DeclarationError
    requires i < |parameters|
  {
    if parameters[i].paramType == StringArrayType then RestNotLast(i)
    else UnsupportedType(i, parameters[i].paramType)
  }

  /** Declares a command: the parameters are checked in order, the first bad
      one refuses the declaration, and a trailing `string[]` sets the rest flag. */
  method Declare(name: string, parameters: seq<Parameter>) returns (r: Result<Command, DeclarationError>)
    ensures r.Success? <==> forall i :: 0 <= i < |parameters| ==> ParameterOk(parameters, i)
    ensures r.Success? ==> r.value.name == name && WellFormed(r.value)
    ensures r.Success? ==> (|r.value.arguments| == |parameters| &&
      forall i :: 0 <= i < |parameters| ==> r.value.arguments[i] == ArgumentOf(parameters[i]))
    ensures r.Success? ==> (r.value.hasRestArgument <==> EndsWithRest(parameters))
    ensures r.Failure? ==>
      && r.error.index < |parameters|
      && r.error == ErrorAt(parameters, r.error.index)
      && !ParameterOk(parameters, r.error.index)
      && forall j :: 0 <= j < r.error.index ==> ParameterOk(parameters, j)
  {
    var arguments: seq<ArgumentInfo> := [];
    var hasRest := false;
    var i := 0;
    while i < |parameters|
      invariant 0 <= i <= |parameters|
      invariant |arguments| == i
      invariant forall j :: 0 <= j < i ==> arguments[j] == ArgumentOf(parameters[j])
      invariant forall j :: 0 <= j < i ==> ParameterOk(parameters, j)
      invariant hasRest <==> i == |parameters| && EndsWithRest(parameters)
    {
      var p := parameters[i];
      if p.paramType == StringArrayType {
        if i + 1 != |parameters| {
          assert !ParameterOk(parameters, i);
          return Failure(RestNotLast(i));
        }
        hasRest := true;
      } else if p.paramType !in AllowedTypes {
        assert !ParameterOk(parameters, i);
        return Failure(UnsupportedType(i, p.paramType));
      }
      arguments := arguments + [ArgumentOf(p)];
      i := i + 1;
    }
    forall j | 0 <= j < |arguments|
      ensures if arguments[j].argType == StringArrayType then j + 1 == |arguments| else arguments[j].argType in AllowedTypes
    {
      assert ParameterOk(parameters, j);
    }
    r := Success(Command(name, arguments, hasRest));
  }

  /** A well-formed command has at most one rest argument, and only in last position. */
  lemma RestArgumentIsLast(c: Command, i: nat, j: nat)
    requires WellFormed(c)
    requires i < |c.arguments| && j < |c.arguments|
    requires c.arguments[i].argType == StringArrayType && c.arguments[j].argType == StringArrayType
    ensures i == j == |c.arguments| - 1 && c.hasRestArgument
  {
  }

  /** The token count a command accepts: exactly one token per argument, or,
      with a rest argument, at least that many (the rest slot needs one token). */
  function HasCorrectCount(c: Command, count: int): (r: bool)
    ensures r ==> count >= |c.arguments|
    ensures r <==> count == |c.arguments| || (c.hasRestArgument && count > |c.arguments|)
  {
    if c.hasRestArgument then count >= |c.arguments| else count == |c.arguments|
  }

  /** Why converting the tokens failed: the token for argument `index` is
      missing (`ElementAt` throws) or is not a value of the argument's type. */
  datatype BindError =
    | TokenMissing(index: nat)
    | Unparsable(index: nat, argument: ArgumentInfo, token: string)

  /** The value for argument `k`: a rest argument takes every token from its own
      index onward, unconverted; any other argument converts token `k`. */
  function BindAt(arguments: seq<ArgumentInfo>, tokens: seq<string>, k: nat, accepts: (ArgType, string) -> bool): (r: Result<Value, BindError>)
    requires k < |arguments|
    ensures r.Success? ==> k < |tokens| && HasType(r.value, arguments[k].argType)
    ensures r.Failure? ==> r.error.index == k
    ensures k >= |tokens| ==> r == Failure(TokenMissing(k))
    ensures k < |tokens| && arguments[k].argType == StringArrayType ==> r == Success(RestValue(tokens[k..]))
    ensures k < |tokens| && arguments[k].argType != StringArrayType ==>
      && (r.Success? <==> ParseArgument(arguments[k].argType, tokens[k], accepts).Some?)
      && (r.Success? ==> r.value == ParseArgument(arguments[k].argType, tokens[k], accepts).value)
      && (r.Failure? ==> r.error == Unparsable(k, arguments[k], tokens[k]))
    ensures k < |tokens| && arguments[k].argType == StringType ==> r == Success(StringValue(tokens[k]))
  {
    if k >= |tokens| then Failure(TokenMissing(k))
    else if arguments[k].argType == StringArrayType then Success(RestValue(tokens[k..]))
    else
      match ParseArgument(arguments[k].argType, tokens[k], accepts)
      case Some(v) => Success(v)
      case None => Failure(Unparsable(k, arguments[k], tokens[k]))
  }

  /** The values of the first `n` arguments, or the first of them that fails. */
  function BindPrefix(arguments: seq<ArgumentInfo>, tokens: seq<string>, n: nat, accepts: (ArgType, string) -> bool): (r: Result<seq<Value>, BindError>)
    requires n <= |arguments|
    ensures r.Success? ==> (|r.value| == n &&
      forall k :: 0 <= k < n ==> BindAt(arguments, tokens, k, accepts) == Success(r.value[k]))
    ensures r.Failure? ==>
      && r.error.index < n
      && BindAt(arguments, tokens, r.error.index, accepts) == Failure(r.error)
      && forall k :: 0 <= k < r.error.index ==> BindAt(arguments, tokens, k, accepts).Success?
  {
    if n == 0 then Success([])
    else
      match BindPrefix(arguments, tokens, n - 1, accepts)
      case Failure(e) => Failure(e)
      case Success(vs) =>
        match BindAt(arguments, tokens, n - 1, accepts)
        case Failure(e) => Failure(e)
        case Success(v) =>
          assert forall k :: 0 <= k < n - 1 ==> (vs + [v])[k] == vs[k];
          Success(vs + [v])
  }

  /** `GenerateMethodParameters`: one value per declared argument, in
      declaration order, token `i` feeding argument `i`; the first argument that
      cannot be converted makes the whole generation fail. */
  function GenerateMethodParameters(c: Command, tokens: seq<string>, accepts: (ArgType, string) -> bool): (r: Result<seq<Value>, BindError>)
    ensures r.Success? <==> forall k :: 0 <= k < |c.arguments| ==> BindAt(c.arguments, tokens, k, accepts).Success?
    ensures r.Success? ==> (|r.value| == |c.arguments| &&
      forall k :: 0 <= k < |c.arguments| ==> BindAt(c.arguments, tokens, k, accepts) == Success(r.value[k]))
    ensures r.Failure? ==>
      && r.error.index < |c.arguments|
      && BindAt(c.arguments, tokens, r.error.index, accepts) == Failure(r.error)
      && forall k :: 0 <= k < r.error.index ==> BindAt(c.arguments, tokens, k, accepts).Success?
  {
    BindPrefix(c.arguments, tokens, |c.arguments|, accepts)
  }

  /** After a successful count check no token is missing: a failure can only be
      a token of the wrong form. */
  lemma CountCheckRulesOutMissingTokens(c: Command, tokens: seq<string>, accepts: (ArgType, string) -> bool)
    requires HasCorrectCount(c, |tokens|)
    ensures GenerateMethodParameters(c, tokens, accepts).Failure? ==>
      GenerateMethodParameters(c, tokens, accepts).error.Unparsable?
  {
  }

  /** The generated values have the declared types; a string argument is its
      token unchanged, the rest argument is every token from its index onward,
      and every other argument is its token as that type's parser reads it. */
  lemma GeneratedValuesMatchDeclaration(c: Command, tokens: seq<string>, accepts: (ArgType, string) -> bool, k: nat)
    requires GenerateMethodParameters(c, tokens, accepts).Success?
    requires k < |c.arguments|
    ensures var vs := GenerateMethodParameters(c, tokens, accepts).value;
      && HasType(vs[k], c.arguments[k].argType)
      && (c.arguments[k].argType == StringType ==> vs[k] == StringValue(tokens[k]))
      && (c.arguments[k].argType == StringArrayType ==> vs[k] == RestValue(tokens[k..]))
      && (IsIntegerType(c.arguments[k].argType) ==> vs[k] == IntegerValue(c.arguments[k].argType, ParseInteger(c.arguments[k].argType, tokens[k]).value))
      && (c.arguments[k].argType == BoolType ==> vs[k] == BoolValue(ParseBool(tokens[k]).value))
      && (IsForeignType(c.arguments[k].argType) ==> vs[k] == ForeignValue(c.arguments[k].argType, tokens[k]))
  {
    assert BindAt(c.arguments, tokens, k, accepts).Success?;
  }

  /** An argument handed to the handler: the command event first, then values. */
  datatype HandlerArgument<E> = EventArgument(event: E) | ValueArgument(value: Value)

  /** The argument list `InvokeAsync` passes to the handler method. */
  function InvokeArguments<E>(event: E, values: seq<Value>): (r: seq<HandlerArgument<E>>)
    ensures |r| == |values| + 1 && r[0] == EventArgument(event)
    ensures forall i :: 0 <= i < |values| ==> r[i + 1] == ValueArgument(values[i])
  {
    [EventArgument(event)] + seq(|values|, i requires 0 <= i < |values| => ValueArgument(values[i]))
  }

  /** A declared command or a container of sub-commands (`CommandContainerInfo`,
      whose sub-commands are the commands of its instance). */
  datatype CommandNode =
    | CommandLeaf(command: Command)
    | Container(containerName: string, subCommands: seq<CommandNode>)
  {
    function Name(): string {
      match this
      case CommandLeaf(c) => c.name
      case Container(n, _) => n
    }
  }

  /** Every command in the tree was declared successfully. */
  predicate TreeWellFormed(n: CommandNode) {
    match n
    case CommandLeaf(c) => WellFormed(c)
    case Container(_, subs) => forall i :: 0 <= i < |subs| ==> TreeWellFormed(subs[i])
  }

  /** A generated value is present for every argument, so a rest argument,
      which is declared last, receives the tokens after all the others. */
  lemma RestValueIsTheTail(c: Command, tokens: seq<string>, accepts: (ArgType, string) -> bool)
    requires WellFormed(c) && c.hasRestArgument
    requires GenerateMethodParameters(c, tokens, accepts).Success?
    ensures var vs := GenerateMethodParameters(c, tokens, accepts).value;
      vs[|vs| - 1] == RestValue(tokens[|c.arguments| - 1..])
  {
    assert BindAt(c.arguments, tokens, |c.arguments| - 1, accepts).Success?;
  }
}
