/** The command module: deciding whether a chat message is a command and
    splitting it into a name and argument tokens, and attaching the module to
    (and detaching it from) a client's stream of created messages. */
module Commands {
  import opened Wrappers
  import opened ArgumentParsing
  import opened CommandInfo
  import opened FailedEvents
  import opened CommandDispatch
  import Client

  /** `StringSplitOptions.None` keeps empty tokens; `RemoveEmptyEntries` drops them. */
  datatype SplitOptions = KeepEmptyEntries | RemoveEmptyEntries

  /** The part of `CommandConfiguration` that tokenising reads. */
  datatype CommandConfiguration = CommandConfiguration(prefix: string, separators: seq<char>, splitOptions: SplitOptions)

  // ---------------------------------------------------------------------------
  // `string.Split(char[], StringSplitOptions)`

  /** A token boundary; an empty separator array means white space. */
  predicate IsSeparator(separators: seq<char>, c: char) {
    if separators == [] then IsWhiteSpace(c) else c in separators
  }

  predicate SeparatorFree(separators: seq<char>, s: string) {
    forall i :: 0 <= i < |s| ==> !IsSeparator(separators, s[i])
  }

  predicate AllSeparators(separators: seq<char>, s: string) {
    forall i :: 0 <= i < |s| ==> IsSeparator(separators, s[i])
  }

  /** The pieces of `s` between separators, empty pieces included. */
  function SplitKeepingEmpty(s: string, separators: seq<char>): (r: seq<string>)
    ensures |r| >= 1
    ensures forall i :: 0 <= i < |r| ==> SeparatorFree(separators, r[i])
  {
    if s == [] then [""]
    else
      var rest := SplitKeepingEmpty(s[1..], separators);
      if IsSeparator(separators, s[0]) then [""] + rest
      else [[s[0]] + rest[0]] + rest[1..]
  }

  /** The non-empty pieces, in their order. */
  function NonEmpty(parts: seq<string>): (r: seq<string>)
    ensures forall i :: 0 <= i < |r| ==> r[i] != ""
    ensures forall p :: p in r <==> p in parts && p != ""
    ensures |r| <= |parts|
  {
    if parts == [] then []
    else (if parts[0] == "" then [] else [parts[0]]) + NonEmpty(parts[1..])
  }

  /** Filtering distributes over concatenation, so the kept pieces keep their order. */
  lemma {:induction false} NonEmptyAppend(a: seq<string>, b: seq<string>)
    ensures NonEmpty(a + b) == NonEmpty(a) + NonEmpty(b)
  {
    if a != [] {
      NonEmptyAppend(a[1..], b);
      assert (a + b)[1..] == a[1..] + b;
    } else {
      assert a + b == b;
    }
  }

  /** The pieces written one after the other. */
  function Concat(parts: seq<string>): string {
    if parts == [] then "" else parts[0] + Concat(parts[1..])
  }

  /** The characters of `s` that are not separators, in order. */
  function NonSeparators(s: string, separators: seq<char>): string {
    if s == [] then ""
    else (if IsSeparator(separators, s[0]) then "" else [s[0]]) + NonSeparators(s[1..], separators)
  }

  /** The pieces of a split hold every character that is not a separator, in order. */
  lemma {:induction false} SplitKeepsCharacters(s: string, separators: seq<char>)
    ensures Concat(SplitKeepingEmpty(s, separators)) == NonSeparators(s, separators)
  {
    if s != [] {
      SplitKeepsCharacters(s[1..], separators);
      var rest := SplitKeepingEmpty(s[1..], separators);
      var parts := SplitKeepingEmpty(s, separators);
      if IsSeparator(separators, s[0]) {
        assert parts[1..] == rest;
      } else {
        assert parts[1..] == rest[1..];
        assert Concat(rest) == rest[0] + Concat(rest[1..]);
        assert Concat(parts) == [s[0]] + rest[0] + Concat(rest[1..]);
      }
    }
  }

  /** Dropping empty pieces drops no character. */
  lemma {:induction false} NonEmptyKeepsCharacters(parts: seq<string>)
    ensures Concat(NonEmpty(parts)) == Concat(parts)
  {
    if parts != [] {
      NonEmptyKeepsCharacters(parts[1..]);
      var r := NonEmpty(parts);
      if parts[0] != "" {
        assert r == [parts[0]] + NonEmpty(parts[1..]);
        assert r[1..] == NonEmpty(parts[1..]);
        assert Concat(r) == parts[0] + Concat(NonEmpty(parts[1..]));
      } else {
        assert r == NonEmpty(parts[1..]);
        assert Concat(parts) == "" + Concat(parts[1..]);
        assert "" + Concat(parts[1..]) == Concat(parts[1..]);
      }
    }
  }

  /** Dropping empty pieces keeps the kept ones free of separators. */
  lemma NonEmptySeparatorFree(parts: seq<string>, separators: seq<char>)
    requires forall i :: 0 <= i < |parts| ==> SeparatorFree(separators, parts[i])
    ensures forall i :: 0 <= i < |NonEmpty(parts)| ==> SeparatorFree(separators, NonEmpty(parts)[i])
  {
    var r := NonEmpty(parts);
    forall i | 0 <= i < |r|
      ensures SeparatorFree(separators, r[i])
    {
      assert r[i] in parts;
      var j :| 0 <= j < |parts| && parts[j] == r[i];
    }
  }

  /** `string.Split(char[], StringSplitOptions)`: separator-free pieces that,
      written one after the other, are the text without its separators; with
      empty entries removed, exactly the non-empty pieces of the plain split. */
  function Split(s: string, separators: seq<char>, options: SplitOptions): (r: seq<string>)
    ensures forall i :: 0 <= i < |r| ==> SeparatorFree(separators, r[i])
    ensures Concat(r) == NonSeparators(s, separators)
    ensures options == KeepEmptyEntries ==> |r| == |SeparatorsOf(s, separators)| + 1
    ensures options == RemoveEmptyEntries ==> forall i :: 0 <= i < |r| ==> r[i] != ""
    ensures forall p :: p in r <==> p in SplitKeepingEmpty(s, separators) && (options == KeepEmptyEntries || p != "")
  {
    SplitKeepsCharacters(s, separators);
    SplitRebuilds(s, separators);
    match options
    case KeepEmptyEntries => SplitKeepingEmpty(s, separators)
    case RemoveEmptyEntries =>
      NonEmptyKeepsCharacters(SplitKeepingEmpty(s, separators));
      NonEmptySeparatorFree(SplitKeepingEmpty(s, separators), separators);
      NonEmpty(SplitKeepingEmpty(s, separators))
  }

  /** The separator characters of `s`, in order. */
  function SeparatorsOf(s: string, separators: seq<char>): seq<char> {
    if s == [] then []
    else (if IsSeparator(separators, s[0]) then [s[0]] else []) + SeparatorsOf(s[1..], separators)
  }

  /** `parts[0] + [cs[0]] + parts[1] + ... + parts[|cs|]`. */
  function Interleave(parts: seq<string>, cs: seq<char>): string
    requires |parts| == |cs| + 1
  {
    if cs == [] then parts[0] else parts[0] + [cs[0]] + Interleave(parts[1..], cs[1..])
  }

  /** Splitting loses nothing: putting the separators back between the pieces
      gives the original text. */
  lemma {:induction false} SplitRebuilds(s: string, separators: seq<char>)
    ensures |SplitKeepingEmpty(s, separators)| == |SeparatorsOf(s, separators)| + 1
    ensures Interleave(SplitKeepingEmpty(s, separators), SeparatorsOf(s, separators)) == s
  {
    if s != [] {
      SplitRebuilds(s[1..], separators);
      var rest := SplitKeepingEmpty(s[1..], separators);
      var cs := SeparatorsOf(s[1..], separators);
      if IsSeparator(separators, s[0]) {
        assert SplitKeepingEmpty(s, separators)[1..] == rest;
        assert s == [s[0]] + s[1..];
      } else {
        var parts := SplitKeepingEmpty(s, separators);
        assert parts[1..] == rest[1..];
        if cs == [] {
          assert s == [s[0]] + s[1..];
        } else {
          assert SeparatorsOf(s, separators) == cs;
          assert parts[0] == [s[0]] + rest[0];
          assert Interleave(parts, cs) == parts[0] + [cs[0]] + Interleave(parts[1..], cs[1..]);
          assert Interleave(rest, cs) == rest[0] + [cs[0]] + Interleave(rest[1..], cs[1..]);
          assert Interleave(parts, cs) == [s[0]] + Interleave(rest, cs);
          assert s == [s[0]] + s[1..];
        }
      }
    }
  }

  /** A piece without separators splits to itself. */
  lemma {:induction false} SplitWord(w: string, separators: seq<char>)
    requires SeparatorFree(separators, w)
    ensures SplitKeepingEmpty(w, separators) == [w]
  {
    if w != [] {
      SplitWord(w[1..], separators);
      assert !IsSeparator(separators, w[0]);
      assert [w[0]] + w[1..] == w;
    }
  }

  /** A piece followed by a separator is the first token; splitting goes on after the separator. */
  lemma {:induction false} SplitWordThen(w: string, c: char, rest: string, separators: seq<char>)
    requires SeparatorFree(separators, w) && IsSeparator(separators, c)
    ensures SplitKeepingEmpty(w + [c] + rest, separators) == [w] + SplitKeepingEmpty(rest, separators)
  {
    var s := w + [c] + rest;
    if w == [] {
      assert s == [c] + rest && s[1..] == rest;
    } else {
      assert s[0] == w[0] && !IsSeparator(separators, w[0]);
      assert s[1..] == w[1..] + [c] + rest;
      SplitWordThen(w[1..], c, rest, separators);
      assert [w[0]] + w[1..] == w;
    }
  }

  /** Removing empty pieces leaves nothing exactly when the text is all separators. */
  lemma {:induction false} SplitAllEmpty(s: string, separators: seq<char>)
    ensures NonEmpty(SplitKeepingEmpty(s, separators)) == [] <==> AllSeparators(separators, s)
  {
    if s != [] {
      SplitAllEmpty(s[1..], separators);
      var rest := SplitKeepingEmpty(s[1..], separators);
      if IsSeparator(separators, s[0]) {
        assert SplitKeepingEmpty(s, separators) == [""] + rest;
        assert NonEmpty([""] + rest) == NonEmpty(rest) by {
          assert ([""] + rest)[1..] == rest;
        }
        assert AllSeparators(separators, s) <==> AllSeparators(separators, s[1..]) by {
          assert forall i :: 0 < i < |s| ==> s[i] == s[1..][i - 1];
        }
      } else {
        assert !AllSeparators(separators, s);
      }
    }
  }

  // ---------------------------------------------------------------------------
  // `DoCommandsAsync`

  /** What happens to one message: not a command, the exception `First()` throws
      when the split has no tokens, or a dispatch. */
  datatype MessageOutcome =
    | NotACommand
    | NoTokens
    | Dispatched(context: RootContext, outcome: DispatchOutcome)

  /** The prefix test, the split of the rest, the name as first token and the
      dispatch of the remaining tokens. */
  function DoCommands(content: string, prefix: string, config: CommandConfiguration,
                      commands: seq<CommandNode>, accepts: (ArgType, string) -> bool): (r: MessageOutcome)
    ensures !(prefix <= content) ==> r == NotACommand
    ensures prefix <= content ==>
      var tokens := Split(content[|prefix|..], config.separators, config.splitOptions);
      && (r == NoTokens <==> tokens == [])
      && (tokens != [] && tokens[0] == "" ==> r == NotACommand)
      && (tokens != [] && tokens[0] != "" ==> r.Dispatched?)
    ensures r.Dispatched? ==>
      var tokens := Split(content[|prefix|..], config.separators, config.splitOptions);
      && prefix <= content
      && |tokens| > 0 && tokens[0] != ""
      && r.context == RootContext(prefix, tokens[0], tokens[1..])
      && r.outcome == Resolve(r.context, commands, tokens[0], tokens[1..], accepts)
  {
    if !(prefix <= content) then NotACommand
    else
      var tokens := Split(content[|prefix|..], config.separators, config.splitOptions);
      if tokens == [] then NoTokens
      else if tokens[0] == "" then NotACommand
      else
        var context := RootContext(prefix, tokens[0], tokens[1..]);
        Dispatched(context, Resolve(context, commands, tokens[0], tokens[1..], accepts))
  }

  /** With empty tokens kept the split always has a first token, so `First()` never throws. */
  lemma KeepEmptyNeverThrows(content: string, prefix: string, config: CommandConfiguration,
                             commands: seq<CommandNode>, accepts: (ArgType, string) -> bool)
    requires config.splitOptions == KeepEmptyEntries
    ensures DoCommands(content, prefix, config, commands, accepts) != NoTokens
  {
  }

  /** With empty tokens removed, `First()` throws exactly when the prefix
      matches and only separators follow it. */
  lemma RemoveEmptyThrowsOnBlank(content: string, prefix: string, config: CommandConfiguration,
                                 commands: seq<CommandNode>, accepts: (ArgType, string) -> bool)
    requires config.splitOptions == RemoveEmptyEntries
    ensures DoCommands(content, prefix, config, commands, accepts) == NoTokens <==>
      prefix <= content && AllSeparators(config.separators, content[|prefix|..])
  {
    if prefix <= content {
      SplitAllEmpty(content[|prefix|..], config.separators);
    }
  }

  /** With empty tokens kept, a separator right after the prefix gives an empty
      name, so the message is not a command and nothing is dispatched. */
  lemma PrefixThenSeparatorIsNotACommand(prefix: string, c: char, rest: string, config: CommandConfiguration,
                                         commands: seq<CommandNode>, accepts: (ArgType, string) -> bool)
    requires config.splitOptions == KeepEmptyEntries && IsSeparator(config.separators, c)
    ensures DoCommands(prefix + [c] + rest, prefix, config, commands, accepts) == NotACommand
  {
    var content := prefix + [c] + rest;
    assert content[|prefix|..] == [c] + rest;
    assert ([c] + rest)[1..] == rest;
  }

  /** Name and argument tokens put back together with the separators they were
      split on give the message again. */
  lemma DispatchedTokensRebuildMessage(content: string, prefix: string, config: CommandConfiguration,
                                       commands: seq<CommandNode>, accepts: (ArgType, string) -> bool)
    requires config.splitOptions == KeepEmptyEntries
    requires DoCommands(content, prefix, config, commands, accepts).Dispatched?
    ensures var ctx := DoCommands(content, prefix, config, commands, accepts).context;
      var body := content[|prefix|..];
      && |[ctx.commandName] + ctx.arguments| == |SeparatorsOf(body, config.separators)| + 1
      && content == prefix + Interleave([ctx.commandName] + ctx.arguments, SeparatorsOf(body, config.separators))
      && SeparatorFree(config.separators, ctx.commandName)
  {
    var body := content[|prefix|..];
    SplitRebuilds(body, config.separators);
    var tokens := SplitKeepingEmpty(body, config.separators);
    assert [tokens[0]] + tokens[1..] == tokens;
    assert content == prefix + body;
  }

  /** With empty tokens removed, name and arguments are non-empty, hold no
      separator, and written one after the other are the text after the prefix
      without its separators. */
  lemma DispatchedTokensKeepCharacters(content: string, prefix: string, config: CommandConfiguration,
                                       commands: seq<CommandNode>, accepts: (ArgType, string) -> bool)
    requires config.splitOptions == RemoveEmptyEntries
    requires DoCommands(content, prefix, config, commands, accepts).Dispatched?
    ensures var ctx := DoCommands(content, prefix, config, commands, accepts).context;
      var tokens := [ctx.commandName] + ctx.arguments;
      && Concat(tokens) == NonSeparators(content[|prefix|..], config.separators)
      && forall i :: 0 <= i < |tokens| ==> tokens[i] != "" && SeparatorFree(config.separators, tokens[i])
  {
    var split := Split(content[|prefix|..], config.separators, config.splitOptions);
    assert [split[0]] + split[1..] == split;
  }

  /** A null content is dropped by the subscription's filter; any other message
      goes to DoCommands with the configured prefix. */
  function OnMessageCreated(content: Option<string>, config: CommandConfiguration,
                            commands: seq<CommandNode>, accepts: (ArgType, string) -> bool): (r: Option<MessageOutcome>)
    ensures r.None? <==> content.None?
    ensures content.Some? ==> r.value == DoCommands(content.value, config.prefix, config, commands, accepts)
  {
    match content
    case Some(text) => Some(DoCommands(text, config.prefix, config, commands, accepts))
    case None => None
  }

  // ---------------------------------------------------------------------------
  // Attaching to a client

  /** The subscription to a client's created messages. Once disposed it
      delivers nothing. */
  class Subscription {
    const client: Client.AbstractGuildedClient
    const config: CommandConfiguration
    const commands: seq<CommandNode>
    var disposed: bool

    constructor (client: Client.AbstractGuildedClient, config: CommandConfiguration, commands: seq<CommandNode>)
      ensures this.client == client && this.config == config && this.commands == commands
      ensures !disposed
    {
      this.client, this.config, this.commands := client, config, commands;
      disposed := false;
    }

    method Dispose()
      modifies this
      ensures disposed
    {
      disposed := true;
    }

    /** What a created message leads to through this subscription. */
    function Deliver(content: Option<string>, accepts: (ArgType, string) -> bool): (r: Option<MessageOutcome>)
      reads this
      ensures disposed ==> r.None?
      ensures !disposed ==> r == OnMessageCreated(content, config, commands, accepts)
    {
      if disposed then None else OnMessageCreated(content, config, commands, accepts)
    }
  }

  /** The `InvalidOperationException`s of `AddTo` and `Remove`. */
  datatype ModuleError = AlreadyAttached | NotAttached

  /** A command module with its commands, the client it is attached to and the
      active subscription. `disposedSubscriptions` is the ghost log of the
      subscriptions it has disposed. */
  class CommandModule {
    const commands: seq<CommandNode>
    var subscribedClient: Client.AbstractGuildedClient?
    var commandSubscription: Subscription?
    ghost var disposedSubscriptions: seq<Subscription>

    /** While attached, the module holds a live subscription to that client. */
    ghost predicate Valid()
      reads this, commandSubscription
    {
      subscribedClient != null ==>
        && commandSubscription != null
        && !commandSubscription.disposed
        && commandSubscription.client == subscribedClient
        && commandSubscription.commands == commands
    }

    constructor (commands: seq<CommandNode>)
      ensures Valid() && this.commands == commands
      ensures subscribedClient == null && commandSubscription == null && disposedSubscriptions == []
    {
      this.commands := commands;
      subscribedClient, commandSubscription := null, null;
      disposedSubscriptions := [];
    }

    /** Attaching to the client it is already attached to fails and changes
        nothing; attaching elsewhere first disposes the old subscription, then
        subscribes afresh to the new client. */
    method AddTo(client: Client.AbstractGuildedClient, config: CommandConfiguration) returns (r: Outcome<ModuleError>)
      requires Valid()
      modifies this, commandSubscription
      ensures Valid()
      ensures old(subscribedClient) == client ==>
        && r == Fail(AlreadyAttached)
        && unchanged(this)
        && (commandSubscription != null ==> unchanged(commandSubscription))
      ensures old(subscribedClient) != client ==>
        && r == Pass
        && subscribedClient == client
        && fresh(commandSubscription)
        && commandSubscription.config == config
        && !commandSubscription.disposed
      ensures old(subscribedClient) != client && old(subscribedClient) != null ==>
        && old(commandSubscription).disposed
        && disposedSubscriptions == old(disposedSubscriptions) + [old(commandSubscription)]
      ensures old(subscribedClient) == null ==>
        && disposedSubscriptions == old(disposedSubscriptions)
        && (old(commandSubscription) != null ==> unchanged(old(commandSubscription)))
    {
      if subscribedClient == client {
        return Fail(AlreadyAttached);
      } else if subscribedClient != null {
        commandSubscription.Dispose();
        disposedSubscriptions := disposedSubscriptions + [commandSubscription];
      }
      commandSubscription := new Subscription(client, config, commands);
      subscribedClient := client;
      r := Pass;
    }

    /** Detaching when not attached fails and changes nothing; otherwise the
        subscription is disposed and the module is no longer attached (the
        disposed subscription stays referenced). */
    method Remove() returns (r: Outcome<ModuleError>)
      requires Valid()
      modifies this, commandSubscription
      ensures Valid()
      ensures old(subscribedClient) == null ==>
        && r == Fail(NotAttached)
        && unchanged(this)
        && (commandSubscription != null ==> unchanged(commandSubscription))
      ensures old(subscribedClient) != null ==>
        && r == Pass
        && subscribedClient == null
        && commandSubscription == old(commandSubscription)
        && commandSubscription != null && commandSubscription.disposed
        && disposedSubscriptions == old(disposedSubscriptions) + [commandSubscription]
    {
      if subscribedClient == null {
        return Fail(NotAttached);
      }
      commandSubscription.Dispose();
      disposedSubscriptions := disposedSubscriptions + [commandSubscription];
      subscribedClient := null;
      r := Pass;
    }
  }

  /** Detaching and attaching again to the same client succeeds, and the old
      subscription stays disposed. */
  method ReattachAfterRemove(m: CommandModule, client: Client.AbstractGuildedClient, config: CommandConfiguration)
      returns (removed: Outcome<ModuleError>, added: Outcome<ModuleError>)
    requires m.Valid() && m.subscribedClient == client
    modifies m, m.commandSubscription
    ensures removed == Pass && added == Pass
    ensures m.Valid() && m.subscribedClient == client && fresh(m.commandSubscription)
    ensures old(m.commandSubscription) != null && old(m.commandSubscription).disposed
  {
    removed := m.Remove();
    added := m.AddTo(client, config);
  }
}
