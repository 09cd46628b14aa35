/** The events a dispatch attempt produces: the command event handed to a
    handler, and the failure events with their failure taxonomy. */
module FailedEvents {
  import opened CommandInfo

  /** The four ways a dispatch can fail. */
  datatype FallbackType =
    | Unspecified       // a parent command was given no sub-command name
    | NoCommandFound    // no command or sub-command has the given name
    | BadArgumentCount  // the command was found, the token count was wrong, nothing was parsed
    | BadArguments      // the command was found, but a token could not be converted

  /** The root-level facts of one triggered command: the matched prefix, the
      root command name and the argument tokens after it. */
  datatype RootContext = RootContext(prefix: string, commandName: string, arguments: seq<string>)

  /** The event a handler receives: the root context, the name of the
      (sub-)command that was used and the tokens given to it. */
  datatype CommandEvent = CommandEvent(context: RootContext, commandName: string, arguments: seq<string>)

  /** `FailedCommandEvent` and its specialisation `BadCommandArgumentEvent`. */
  datatype FailedCommandEvent =
    | Failed(event: CommandEvent, failType: FallbackType)
    | BadArgument(event: CommandEvent, badArguments: seq<ArgumentInfo>)
  {
    function FailType(): FallbackType {
      match this
      case Failed(_, t) => t
      case BadArgument(_, _) => BadArguments
    }
  }

  /** The `FailedCommandEvent` constructor: it keeps the failure type it is given. */
  function NewFailedCommandEvent(context: RootContext, commandName: string, arguments: seq<string>, failType: FallbackType): (e: FailedCommandEvent)
    ensures e.FailType() == failType
    ensures e.event == CommandEvent(context, commandName, arguments)
  {
    Failed(CommandEvent(context, commandName, arguments), failType)
  }

  /** The `BadCommandArgumentEvent` constructor: always of type `BadArguments`,
      holding the bad arguments as given. */
  function NewBadCommandArgumentEvent(context: RootContext, commandName: string, arguments: seq<string>, badArguments: seq<ArgumentInfo>): (e: FailedCommandEvent)
    ensures e.FailType() == BadArguments
    ensures e.BadArgument? && e.badArguments == badArguments
    ensures e.event == CommandEvent(context, commandName, arguments)
  {
    BadArgument(CommandEvent(context, commandName, arguments), badArguments)
  }
}
