# Guilded.NET command and embed core, modelled in Dafny

Guilded.NET is a .NET client library for the Guilded chat platform. This project
models the sequential logic at its centre:

- **Commands.** A handler method is declared as a command. Its parameter types are checked against
  a closed allow-list of sixteen types, and a `string[]` rest parameter is allowed only in last
  position. At dispatch time the token count is checked, each raw message token is converted to its
  declared type, and the handler's argument list is built with the command event first.
  Containers of sub-commands form a tree.
- **The command module.** The module decides whether a chat message is a command: it tests the
  prefix, splits the remainder on the configured separators (keeping or removing empty tokens) and
  takes the first token as the command name. It also attaches to a client and detaches from it
  through a two-field state machine (`_subscribedClient`, `_commandSubscription`).
- **Failure events.** The four `FallbackType` cases, `FailedCommandEvent` and
  `BadCommandArgumentEvent`.
- **Embeds.** The mutable `Embed` record with its fluent setters, the 25-field cap of `AddFields`
  (including its nullable-arithmetic quirk), the 4000-code-unit cap of `SetDescription`, the null
  check of `SetFooter(string)`, and the `EmbedField` constructors.
- **The client.** The readiness state of `AbstractGuildedClient` (`Me`, `IsPrepared`, the
  `Prepared` stream) driven by welcome and disconnection events, the `EnforceLimit` length guards,
  and the table of socket event names.

Files and modules:

| file | module | contents |
|---|---|---|
| wrappers.dfy | `Wrappers` | `Option`, `Result`, `Outcome` |
| argument_parsing.dfy | `ArgumentParsing` | parameter types, the allow-list, token conversion (integers, `bool`, foreign types) |
| command_info.dfy | `CommandInfo` | declaration (`Declare`), `HasCorrectCount`, `GenerateMethodParameters`, `InvokeArguments`, the container tree |
| failed_command_event.dfy | `FailedEvents` | `FallbackType`, the command event, the failure events |
| command_dispatch.dfy | `CommandDispatch` | resolution over the container tree |
| command_module.dfy | `Commands` | `string.Split`, `DoCommands`, the message filter, `class CommandModule` |
| command_scenarios.dfy | `CommandScenarios` | concrete messages through a small registry, from text to outcome |
| embed_field.dfy | `EmbedFields` | `EmbedField` and its constructors |
| embed.dfy | `Embeds` | `class Embed`, the checked updates as functions of the state |
| utf16.dfy | `Utf16` | .NET's `string.Length`, counted in UTF-16 code units |
| guilded_client.dfy | `Client` | `class AbstractGuildedClient` readiness, the length guards, the event table |

The C# `null` is `Option.None` throughout. A C# `string.Length` counts UTF-16 code units, so a
character outside the Basic Multilingual Plane (an emoji, say) counts twice; the length guards use
`Utf16.Utf16Length` for it, not the number of characters of the Dafny string. An exception thrown
on a checked path becomes a `Failure`/`Fail` value naming the exception. Under it, the state is
unchanged: each C# method throws before assigning anything.

Two places where the code and its documentation disagree; the model follows the code:

- `Embed.SetDescription(string)` is documented to throw `ArgumentNullException` on null, empty or
  white-space text. The code only checks the length in UTF-16 code units (`value?.Length > 4000`).
  Null, empty and white-space text are all stored.
- The `AddFields` cap is documented as an upper bound. While `Fields` is null, the lifted
  comparison `null + n > 25` is false, so a first call accepts any number of fields. The later
  calls check the cap (`Embeds.NullFieldsSkipTheCap`).

## Model

| member | source | states |
|---|---|---|
| ArgumentParsing.AllowListIsClosed | src/Guilded.Commands/CommandInfo.Implementation.cs:15-22 | the allow-list has sixteen types: `string`, `bool`, the eight integer widths and the six foreign types; `string[]` is not among them |
| ArgumentParsing.ParseDecimal | src/Guilded.Commands/CommandInfo.Implementation.cs:86-101 | a token is read as a number exactly when, after trailing NULs and then white space at both ends are removed, what is left is an optional sign and one or more digits; the value is those digits' value, negated under `-` |
| ArgumentParsing.ParseInteger | src/Guilded.Commands/CommandInfo.Implementation.cs:86-101 | the parser of an integer width succeeds exactly when the token is decimal text (as `ParseDecimal` reads it) whose value lies in that width's range, and then returns that very value |
| ArgumentParsing.IntegerRoundTrip | src/Guilded.Commands/CommandInfo.Implementation.cs:86-101 | the decimal text of any integer parses back to the same integer under a width exactly when the width can hold it |
| ArgumentParsing.DecimalRoundTrip | src/Guilded.Commands/CommandInfo.Implementation.cs:86-101 | `ParseDecimal(FormatInteger(n)) == Some(n)` for every integer, negative ones included |
| ArgumentParsing.DigitsRoundTrip | src/Guilded.Commands/CommandInfo.Implementation.cs:86-101 | reading back the decimal digits of a natural number gives the number |
| ArgumentParsing.ParseBool | src/Guilded.Commands/CommandInfo.Implementation.cs:85 | `bool.Parse` accepts a token exactly when, with white space and NULs trimmed from both ends, it is `true` or `false` in any letter case; it returns true exactly for `true` |
| ArgumentParsing.BoolTokenLength | src/Guilded.Commands/CommandInfo.Implementation.cs:85 | a token that `bool.Parse` accepts has at least four characters |
| ArgumentParsing.BoolRoundTrip | src/Guilded.Commands/CommandInfo.Implementation.cs:85 | `bool.Parse` accepts `bool.ToString()`'s text for both values and returns the same value |
| ArgumentParsing.TrimStart | src/Guilded.Commands/CommandInfo.Implementation.cs:85-101 | the result is a suffix of the token that does not start with a trimmed character, and every character removed is one of the trimmed kind |
| ArgumentParsing.TrimEnd | src/Guilded.Commands/CommandInfo.Implementation.cs:85-101 | the result is a prefix of the token that does not end with a trimmed character, and every character removed is one of the trimmed kind |
| ArgumentParsing.TrimUntouched | src/Guilded.Commands/CommandInfo.Implementation.cs:85-101 | a token with no trimmable character at either end is left unchanged by trimming |
| ArgumentParsing.DecimalDigits | src/Guilded.Commands/CommandInfo.Implementation.cs:86-101 | the decimal text of a number is non-empty and all digits |
| ArgumentParsing.ParseArgument | src/Guilded.Commands/CommandInfo.Implementation.cs:81-114 | a converted value has the declared type; `string` is the token unchanged; an integer width succeeds exactly when its parser does and holds the parsed value; a type outside the allow-list fails |
| ArgumentParsing.BoolArgument | src/Guilded.Commands/CommandInfo.Implementation.cs:85 | the `bool` conversion succeeds exactly when `bool.Parse` does and holds its value |
| ArgumentParsing.IntegerArgument | src/Guilded.Commands/CommandInfo.Implementation.cs:86-101 | an integer conversion succeeds exactly when that width's parser does, holds the parsed value and lies in the width's range |
| ArgumentParsing.ParseArgumentBoolAndForeign | src/Guilded.Commands/CommandInfo.Implementation.cs:84-113 | the `bool` case is `bool.Parse` with its value; a foreign type succeeds exactly when its parser accepts the token and then keeps the token |
| CommandInfo.Declare | src/Guilded.Commands/CommandInfo.Implementation.cs:39-55 | declaration succeeds iff every parameter is acceptable (a `string[]` only last, any other type on the allow-list); on success there is one argument per parameter in order and the rest flag is set iff the last parameter is `string[]`; on failure the error names the first bad parameter and the reason |
| CommandInfo.RestArgumentIsLast | src/Guilded.Commands/CommandInfo.Implementation.cs:46-50 | a declared command has at most one `string[]` argument, it is the last one and the rest flag is set |
| CommandInfo.HasCorrectCount | src/Guilded.Commands/CommandInfo.Implementation.cs:57-58 | the count is accepted iff it equals the number of arguments, or the command has a rest argument and the count is larger; so the rest slot needs a token |
| CommandInfo.BindAt | src/Guilded.Commands/CommandInfo.Implementation.cs:69-114 | an index past the last token fails with a missing token at that index; a rest argument takes every token from its own index onward; any other argument succeeds exactly when its token converts to its declared type, holds the converted value, and otherwise fails naming index k, the argument and the token |
| CommandInfo.BindPrefix | src/Guilded.Commands/CommandInfo.Implementation.cs:69-114 | binding the first n arguments gives n values, value k being argument k's, or fails at the first argument that cannot be bound, with all earlier ones bound |
| CommandInfo.GenerateMethodParameters | src/Guilded.Commands/CommandInfo.Implementation.cs:65-118 | it succeeds iff every argument binds; then value k is argument k's, one per argument in declaration order; otherwise it fails at the first argument that does not bind and produces no values |
| CommandInfo.CountCheckRulesOutMissingTokens | src/Guilded.Commands/CommandInfo.Implementation.cs:57-58 | after a passed count check no token is missing, so a failed generation is a token that does not parse |
| CommandInfo.GeneratedValuesMatchDeclaration | src/Guilded.Commands/CommandInfo.Implementation.cs:69-114 | each generated value has its argument's declared type; a `string` value is its token, the rest value is the tokens from its index onward, an integer value is the parsed token, a `bool` value is `bool.Parse` of its token and a foreign value keeps its token |
| CommandInfo.RestValueIsTheTail | src/Guilded.Commands/CommandInfo.Implementation.cs:76 | when a command with a rest argument binds, its last value is every token from the rest index onward |
| CommandInfo.InvokeArguments | src/Guilded.Commands/CommandInfo.Implementation.cs:126-127 | the handler receives the event first and then the generated values in their order |
| FailedEvents.NewFailedCommandEvent | src/Guilded.Commands/FailedCommandEvent.cs:33-34 | the failure event keeps the fallback type and the command event it was given |
| FailedEvents.NewBadCommandArgumentEvent | src/Guilded.Commands/FailedCommandEvent.cs:63-64 | the bad-argument event always has failure type `BadArguments` and holds the bad arguments as given |
| CommandDispatch.Lookup | src/Guilded.Commands/CommandInfo.Implementation.cs:132-149 | the node found is the first in the scope with that exact name; nothing is found iff no node has that name |
| CommandDispatch.ResolveCommand | src/Guilded.Commands/FailedCommandEvent.cs:75-87 | a found command invokes its handler iff the count check passes and every token converts; a wrong count is `BadArgumentCount`, a failed conversion is `BadArguments` naming the argument where it stopped; the failure event carries the tokens given |
| CommandDispatch.Resolve | src/Guilded.Commands/FailedCommandEvent.cs:72-93 | an invoked command lies in the container tree, gets a suffix of the tokens, and passes both the count check and the conversion on them; every event keeps the root context |
| CommandDispatch.ContainerWithoutSubName | src/Guilded.Commands/FailedCommandEvent.cs:74-77 | a container name with no token left reports `Unspecified` |
| CommandDispatch.ContainerConsumesSubName | src/Guilded.Commands/CommandInfo.Implementation.cs:132-149 | a container name with tokens left resolves the next token among the container's sub-commands |
| CommandDispatch.CommandNameBinds | src/Guilded.Commands/CommandInfo.Implementation.cs:57-127 | a name that resolves to a command binds all remaining tokens to that command |
| CommandDispatch.UnknownNameIsNoCommandFound | src/Guilded.Commands/FailedCommandEvent.cs:79-82 | a name absent from the scope reports `NoCommandFound` and invokes nothing |
| CommandDispatch.CountCheckPrecedesParsing | src/Guilded.Commands/FailedCommandEvent.cs:84-87 | with a wrong count the outcome is `BadArgumentCount` and does not depend on what the parsers accept |
| CommandDispatch.InTreeIsWellFormed | src/Guilded.Commands/CommandInfo.Implementation.cs:39-55 | a command found anywhere in a tree of declared commands is itself declared: its rest argument is last and every other argument is on the allow-list |
| CommandDispatch.InvokedCommandIsDeclared | src/Guilded.Commands/CommandInfo.Implementation.cs:132-149 | in a tree of declared commands, the command that resolution invokes was declared |
| Commands.SplitKeepingEmpty | src/Guilded.Commands/CommandModule.cs:37-39 | splitting gives at least one piece and no piece holds a separator |
| Commands.NonEmpty | src/Guilded.Commands/CommandModule.cs:37-39 | removing empty entries keeps exactly the non-empty pieces, no more than there were, and leaves no empty piece |
| Commands.NonEmptyAppend | src/Guilded.Commands/CommandModule.cs:37-39 | removing empty entries from two lists joined is removing them from each and joining the results |
| Commands.NonEmptyKeepsCharacters | src/Guilded.Commands/CommandModule.cs:37-39 | removing empty entries loses no character: the pieces still concatenate to the same text |
| Commands.NonEmptySeparatorFree | src/Guilded.Commands/CommandModule.cs:37-39 | removing empty entries from separator-free pieces leaves separator-free pieces |
| Commands.SplitKeepsCharacters | src/Guilded.Commands/CommandModule.cs:37-39 | the pieces of a split concatenate to the text with its separators removed |
| Commands.Split | src/Guilded.Commands/CommandModule.cs:37-39 | `string.Split` with either option gives separator-free pieces that concatenate to the text without its separators; with empty entries kept there is one piece more than separators; with them removed no piece is empty; a string is a piece exactly when it is a piece of the split keeping empty entries and, when removing, non-empty |
| Commands.SplitRebuilds | src/Guilded.Commands/CommandModule.cs:37-39 | the pieces of a split, with the separators put back between them, give the original text |
| Commands.SplitWord | src/Guilded.Commands/CommandModule.cs:37-39 | text without separators splits to itself |
| Commands.SplitWordThen | src/Guilded.Commands/CommandModule.cs:37-39 | a separator-free word followed by a separator is the first piece, and splitting continues after the separator |
| Commands.SplitAllEmpty | src/Guilded.Commands/CommandModule.cs:37-39 | with empty entries removed the split is empty iff the text is all separators |
| Commands.DoCommands | src/Guilded.Commands/CommandModule.cs:33-51 | a message not starting with the prefix is not a command; otherwise, over the tokens of the rest of the message: no tokens is the `First()` exception, an empty first token is not a command, and a non-empty first token is dispatched, with that token as the name and the remaining tokens, in order, as arguments, resolved in the module's commands |
| Commands.KeepEmptyNeverThrows | src/Guilded.Commands/CommandModule.cs:41 | with empty entries kept, `First()` always finds a token |
| Commands.RemoveEmptyThrowsOnBlank | src/Guilded.Commands/CommandModule.cs:41 | with empty entries removed, `First()` throws iff the prefix matches and only separators follow it |
| Commands.PrefixThenSeparatorIsNotACommand | src/Guilded.Commands/CommandModule.cs:43 | with empty entries kept, a separator right after the prefix gives an empty name: not a command |
| Commands.DispatchedTokensRebuildMessage | src/Guilded.Commands/CommandModule.cs:37-48 | with empty entries kept, the prefix, then the name and arguments joined by the separators they were split on, give the message again; the name holds no separator |
| Commands.DispatchedTokensKeepCharacters | src/Guilded.Commands/CommandModule.cs:37-46 | with empty entries removed, the name and arguments are non-empty, hold no separator, and concatenate to the rest of the message with its separators removed |
| Commands.OnMessageCreated | src/Guilded.Commands/CommandModule.cs:67-71 | a message with null content is dropped; any other goes to the command pipeline with the configured prefix |
| Commands.Subscription.Deliver | src/Guilded.Commands/CommandModule.cs:63-71 | a disposed subscription delivers nothing; a live one runs the command pipeline |
| Commands.Subscription.constructor | src/Guilded.Commands/CommandModule.cs:67-71 | a new subscription is live and holds the client, the configuration and the commands it was made with |
| Commands.Subscription.Dispose | src/Guilded.Commands/CommandModule.cs:64 | a disposed subscription stays disposed, so it delivers nothing more |
| Commands.CommandModule.AddTo | src/Guilded.Commands/CommandModule.cs:58-73 | attaching to the client already attached fails and changes nothing; otherwise any old subscription is disposed and logged, a fresh live subscription with the given configuration is made, and the module is attached to the new client |
| Commands.CommandModule.Remove | src/Guilded.Commands/CommandModule.cs:78-85 | detaching when not attached fails and changes nothing; otherwise the subscription is disposed and logged and the module is no longer attached |
| Commands.ReattachAfterRemove | src/Guilded.Commands/CommandModule.cs:58-85 | after `Remove`, attaching to the same client again succeeds with a fresh subscription, and the old one stays disposed |
| Commands.CommandModule.constructor | src/Guilded.Commands/CommandModule.cs:19-23 | a new module holds its commands, is attached to no client and has no subscription |
| CommandScenarios.PingInvokesWithoutArguments | src/Guilded.Commands/CommandModule.cs:33-51 | `!ping` invokes `ping` with only the event |
| CommandScenarios.EchoTakesTheRest | src/Guilded.Commands/CommandInfo.Implementation.cs:76 | `!echo hello world` passes both words to the rest argument |
| CommandScenarios.SetXpParses | src/Guilded.Commands/CommandInfo.Implementation.cs:81-101 | `!setxp abc 10` passes the string `abc` and the `int` 10 |
| CommandScenarios.SetXpBadArgument | src/Guilded.Commands/CommandInfo.Implementation.cs:86-114 | `!setxp abc ten` raises a bad-argument event naming `amount` |
| CommandScenarios.UnknownFindsNothing | src/Guilded.Commands/FailedCommandEvent.cs:79-82 | `!unknown` reports `NoCommandFound` |
| CommandScenarios.ContainerWithoutSubCommand | src/Guilded.Commands/FailedCommandEvent.cs:74-77 | `!config` reports `Unspecified` |
| CommandScenarios.ContainerInvokesSubCommand | src/Guilded.Commands/CommandInfo.Implementation.cs:132-149 | `!config show` invokes the sub-command `show` |
| CommandScenarios.UnprefixedIsIgnored | src/Guilded.Commands/CommandModule.cs:35 | `hello` is not a command |
| EmbedFields.NewEmbedField | src/Guilded.Base/Embeds/EmbedField.cs:57-74 | the field is built iff name and value are both non-null and then holds them and the inline flag exactly; a null name is reported first, then a null value |
| EmbedFields.NewUntitledField | src/Guilded.Base/Embeds/EmbedField.cs:80 | an untitled field has the empty name, and fails only on a null value |
| EmbedFields.TextOf | src/Guilded.Base/Embeds/EmbedField.cs:86-92 | a null object becomes the empty text; any other keeps its text |
| EmbedFields.FieldOfObjects | src/Guilded.Base/Embeds/EmbedField.cs:86 | the `object?` overload never fails and agrees with the primary constructor on the texts |
| EmbedFields.FieldOfObject | src/Guilded.Base/Embeds/EmbedField.cs:92 | the untitled `object?` overload never fails and agrees with the untitled constructor |
| EmbedFields.OverloadsAgree | src/Guilded.Base/Embeds/EmbedField.cs:57-92 | for non-null strings all overloads build the same field |
| EmbedFields.NameCheckedFirst | src/Guilded.Base/Embeds/EmbedField.cs:68-71 | with both null, the error names `name` |
| Embeds.AddingFields | src/Guilded.Base/Embeds/Embed.cs:494-504 | adding fails with `Overflow` iff there is a field list and the total would pass 25; otherwise the new fields follow the old ones and nothing else changes |
| Embeds.SettingDescription | src/Guilded.Base/Embeds/Embed.cs:417-423 | setting fails with `Overflow` iff the text's `Length` in UTF-16 code units passes 4000; otherwise the description is the given value, null included |
| Embeds.AddingFieldsKeepsCap | src/Guilded.Base/Embeds/Embed.cs:494-504 | an embed with a field list within the cap stays within it |
| Embeds.AddingFieldsAppends | src/Guilded.Base/Embeds/Embed.cs:499-502 | the old fields stay in front in order, the new ones follow them, and no other property changes |
| Embeds.AddingFieldsTwice | src/Guilded.Base/Embeds/Embed.cs:494-504 | once there is a field list, two calls succeed iff one call with both lists does, with the same result |
| Embeds.NullFieldsSkipTheCap | src/Guilded.Base/Embeds/Embed.cs:497-500 | without a field list any number of fields is accepted in one call, but the same fields split over two calls are refused |
| Embeds.DescriptionBoundary | src/Guilded.Base/Embeds/Embed.cs:419-420 | exactly 4000 UTF-16 code units are accepted, 4001 are refused, null is accepted |
| Embeds.AstralDescription | src/Guilded.Base/Embeds/Embed.cs:419-420 | a text made only of characters outside the Basic Multilingual Plane is refused once it has more than 2000 of them, and accepted up to 2000 |
| Embeds.Embed.constructor | src/Guilded.Base/Embeds/Embed.cs:179 | a new embed has every property null |
| Embeds.Embed.OfDescription | src/Guilded.Base/Embeds/Embed.cs:222-223 | the embed holds only the description, unchecked against the cap |
| Embeds.Embed.OfTitle | src/Guilded.Base/Embeds/Embed.cs:230-231 | the embed holds only the title and the description |
| Embeds.Embed.OfFields | src/Guilded.Base/Embeds/Embed.cs:289-290 | the embed holds only the fields, unchecked against the cap |
| Embeds.Embed.SetTitle | src/Guilded.Base/Embeds/Embed.cs:378-382 | only the title changes, and the same instance is returned |
| Embeds.Embed.SetUrl | src/Guilded.Base/Embeds/Embed.cs:389-393 | only the URL changes, and the same instance is returned |
| Embeds.Embed.SetDescription | src/Guilded.Base/Embeds/Embed.cs:417-423 | across the call the state follows `SettingDescription`: unchanged with `Overflow`, or the new description on the same instance |
| Embeds.Embed.SetDescriptionOfObject | src/Guilded.Base/Embeds/Embed.cs:433-434 | a null object sets the empty description; otherwise as `SetDescription` on its text |
| Embeds.Embed.SetAuthor | src/Guilded.Base/Embeds/Embed.cs:443-447 | only the author changes, and the same instance is returned |
| Embeds.Embed.SetAuthorNamed | src/Guilded.Base/Embeds/Embed.cs:470-471 | the author becomes one with that name, URL and icon; nothing else changes |
| Embeds.Embed.AddFields | src/Guilded.Base/Embeds/Embed.cs:494-504 | across the call the state follows `AddingFields`: unchanged with `Overflow`, or the fields appended on the same instance |
| Embeds.Embed.AddField | src/Guilded.Base/Embeds/Embed.cs:516-517 | adding one field is `AddFields` of a one-element list |
| Embeds.Embed.AddNamedField | src/Guilded.Base/Embeds/Embed.cs:527-528 | the field's null checks come first and leave the embed unchanged; then the field is added as by `AddField` |
| Embeds.Embed.AddFieldOfObject | src/Guilded.Base/Embeds/Embed.cs:534-535 | a null name fails and changes nothing; a null value becomes ""; then the field is added as by `AddField` |
| Embeds.Embed.SetImage | src/Guilded.Base/Embeds/Embed.cs:544-548 | only the image changes, and the same instance is returned |
| Embeds.Embed.SetImageUri | src/Guilded.Base/Embeds/Embed.cs:555-556 | the image becomes a media object with that address; nothing else changes |
| Embeds.Embed.SetThumbnail | src/Guilded.Base/Embeds/Embed.cs:567-571 | only the thumbnail changes, and the same instance is returned |
| Embeds.Embed.SetThumbnailUri | src/Guilded.Base/Embeds/Embed.cs:578-582 | the thumbnail becomes a media object with that address; nothing else changes |
| Embeds.Embed.SetFooter | src/Guilded.Base/Embeds/Embed.cs:595-599 | only the footer changes, and the same instance is returned |
| Embeds.Embed.SetFooterText | src/Guilded.Base/Embeds/Embed.cs:606-612 | a null text fails with an argument-null error naming `text` and changes nothing; otherwise only the footer changes, to that text without an icon |
| Embeds.Embed.SetFooterWithIcon | src/Guilded.Base/Embeds/Embed.cs:620-621 | the footer becomes that text and icon; nothing else changes |
| Embeds.Embed.SetFooterOfObject | src/Guilded.Base/Embeds/Embed.cs:633-634 | never fails: a null object gives the empty footer text |
| Embeds.Embed.SetTimestamp | src/Guilded.Base/Embeds/Embed.cs:656-660 | only the timestamp changes, and the same instance is returned |
| Embeds.Embed.SetTimestampNow | src/Guilded.Base/Embeds/Embed.cs:666-667 | the timestamp becomes the current time given; nothing else changes |
| Embeds.Embed.SetColor | src/Guilded.Base/Embeds/Embed.cs:675-679 | only the colour changes, and the same instance is returned |
| Embeds.BuildExample | src/Guilded.Base/Embeds/Embed.cs:378-517 | chained setters act on one instance: title, description and a field end up together on it |
| Client.LastReset | src/Guilded/client/AbstractGuildedClient.Client.cs:125-129 | the index found is a resetting disconnection with none after it, or there is none at all |
| Client.PreparedIffWelcomedSinceReset | src/Guilded/client/AbstractGuildedClient.Client.cs:115-129 | the client is prepared iff a welcome arrived after the last disconnection other than a heartbeat time-out |
| Client.NoEmissionWithoutReset | src/Guilded/client/AbstractGuildedClient.Client.cs:115-129 | between two welcomes that both emit `Prepared` lies a resetting disconnection |
| Client.EmissionsBoundedByResets | src/Guilded/client/AbstractGuildedClient.Client.cs:115-129 | `Prepared` fires at most once more than the number of resetting disconnections |
| Client.AbstractGuildedClient.constructor | src/Guilded/client/AbstractGuildedClient.Client.cs:32-46 | a new client has no `Me`, is not prepared and has emitted nothing |
| Client.AbstractGuildedClient.OnWelcome | src/Guilded/client/AbstractGuildedClient.Client.cs:115-124 | `Me` becomes the welcomed user; `Prepared` emits that user iff the client was not prepared; the client is prepared afterwards |
| Client.AbstractGuildedClient.OnDisconnected | src/Guilded/client/AbstractGuildedClient.Client.cs:125-129 | a disconnection clears `IsPrepared` unless it is a heartbeat time-out; `Me` and the emissions are unchanged |
| Client.EnforceLimit | src/Guilded/client/AbstractGuildedClient.Client.cs:174-178 | the guard throws iff the value's `Length` in UTF-16 code units passes the limit, naming the parameter, the value and the limit |
| Client.EnforceLimitOnNullable | src/Guilded/client/AbstractGuildedClient.Client.cs:180-183 | a null value passes; any other value is checked as by `EnforceLimit` |
| Client.EnforceLimitMonotone | src/Guilded/client/AbstractGuildedClient.Client.cs:174-178 | a value that passes still passes under a larger limit, and every prefix of it passes the same limit |
| Client.SurrogatePairCountsTwice | src/Guilded/client/AbstractGuildedClient.Client.cs:176 | one emoji, a single character, is refused under a limit of one and accepted under two |
| Client.EventTableKeys | src/Guilded/client/AbstractGuildedClient.Client.cs:62-105 | created and updated chat messages share one payload type |
| Client.RolesEventKey | src/Guilded/client/AbstractGuildedClient.Client.cs:62-105 | the roles key is `teamRolesUpdated` with a lower-case `t`, mapped to the roles payload, and the capitalised spelling is absent |
| Utf16.CodeUnits | src/Guilded/client/AbstractGuildedClient.Client.cs:176 | a character takes two code units iff it lies above U+FFFF, and one otherwise |
| Utf16.Utf16Length | src/Guilded.Base/Embeds/Embed.cs:419 | the `Length` of a text is between its number of characters and twice that |
| Utf16.Utf16LengthAppend | src/Guilded/client/AbstractGuildedClient.Client.cs:176 | the `Length` of a concatenation is the sum of the `Length`s |
| Utf16.Utf16LengthPrefix | src/Guilded/client/AbstractGuildedClient.Client.cs:176 | a prefix is never longer than the whole text |
| Utf16.Utf16LengthOfPlane | src/Guilded.Base/Embeds/Embed.cs:419 | a text within the Basic Multilingual Plane has one code unit per character, and one wholly outside it has two |

## Left out

- Reflection and tasks: `MethodInfo.Invoke`, `ParameterInfo` and `Task.Run` are replaced by declared type tags and the data handed to the handler (`InvokeArguments`). The handler's own effect is not modelled.
- CommandInfo.GenerateMethodParameters: the C# `Select` is lazy, so a parse exception surfaces only when the values are enumerated inside `Task.Run`. The model evaluates eagerly and reports the first failure as a value.
- ArgumentParsing.ParseArgument: the parsers of `float`, `double`, `decimal`, `DateTime`, `Guid` and `HashId` are foreign, culture-dependent code. They are a parameter `accepts`, and an accepted value keeps its token.
- ArgumentParsing.ParseInteger: an idealised invariant-culture decimal parser. It allows leading and trailing ASCII white space, trailing NUL characters, an optional sign and one or more ASCII digits, with a range check per width. Thousands separators, culture-specific signs and the other `NumberStyles` are not modelled.
- ArgumentParsing.ParseBool: letter case is folded for ASCII only. Trimming of white space and NUL is modelled.
- CommandBase.cs is not part of this model. The name lookup and the sub-command walk (`InvokeCommandByNameAsync`) are an abstract resolver built only on the documented meaning of each `FallbackType`. Aliases, fallback attributes, handler exceptions and the `Task<bool>` result of `DoCommandsAsync` are not modelled.
- CommandDispatch.ResolveCommand: the bad-argument list holds the single argument where conversion stopped. The given binder stops at the first bad token, so no "all bad arguments" semantics is claimed.
- Commands.DoCommands: `string.StartsWith(string)` is culture-sensitive; it is modelled as an ordinal prefix test. `StringSplitOptions.TrimEntries` is not modelled; only `None` and `RemoveEmptyEntries` are.
- RootCommandContext.cs is not part of this model. The root context is a record of the prefix, the name and the argument tokens; the message event it also holds is left out.
- The subscription is synchronous here. The `MessageCreated` observable, its async fire-and-forget handler and the scheduling of deliveries are not modelled.
- Embeds: `Uri` parsing, `Color.FromArgb` and `DateTime.UtcNow` are foreign. Addresses, colours and timestamps are opaque values, and the current time is a parameter. Hence the string overloads `SetUrl(string)`, `SetImage(string)`, `SetThumbnail(string)`, `SetFooter(string, string?)` and the `SetColor` overloads that build a `Color` are not modelled separately.
- Embeds: the embed constructors at Embed.cs:186-366 other than the four modelled ones assign the properties directly, without `SetDescription`'s or `AddFields`' checks, as `OfDescription` and `OfFields` do; they are not modelled separately.
- Embeds: `IList<EmbedField>` aliasing is not modelled. The field list is a value, so a caller that keeps the list it passed in sees no later changes.
- EmbedFooter.cs and EmbedMedia.cs are not part of this model. Their constructors' own checks are not modelled: a footer or media object is taken as given.
- A C# string may hold an unpaired surrogate, which counts one code unit; a Dafny string cannot hold one, so such texts are not modelled.
- An `object?` argument's `ToString()` is modelled as `Option<string>`, `None` standing for a null object or a null `ToString()` result.
- Client: REST calls, DTOs, the WebSocket connection, the error relay, `ConnectAsync`, `DisconnectAsync`, `DisposeAsync` and `GetResponseProperty` are I/O or plumbing and are not modelled. The event table is modelled as the map of keys to payload types, not the observables behind it.
- Client.AbstractGuildedClient: the `history` field is a ghost log of the events seen, which the contracts use to tie the fields to `PreparedAfter`, `PreparedEmissions` and `MeAfter`.
