/**
 * The bot's answers. The fixed texts live in the `common` package, which is not part of this
 * model, so each fixed answer is a constructor; listings and conversation replies carry their text.
 */
module Replies {
  datatype Reply =
    | Start
    | About
    | SystemNeedArgs
    | SystemFailed
    | SystemSet
    | ResetFailed
    | ResetDone
    | ModelsFailed
    | ModelsArgsNotInt
    | ModelsUpdateFailed
    | ModelSet
    | AgentArgsNotInt
    | AgentNotFound
    | NotFound(command: string)
    | Listing(text: string)
    | Said(text: string)
    | Silent
    | Panicked    // not an answer: the handler panicked, and nothing is sent

  /** What a command handler returns: whether the text was a command, and the answer. */
  datatype Handled = Handled(isCommand: bool, reply: Reply)
}
