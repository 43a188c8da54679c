/** Small helper types shared by the whole model. */
module Wrappers {
  datatype Option<+T> = None | Some(value: T)
}

/**
 The shapes of the chat-platform events the bot listens to, reduced to the
 fields its handlers read. Identifiers are the platform's opaque snowflake
 strings.
 */
module Platform {
  type UserId = string
  type ChannelId = string

  /** What an `interactionCreate` event is: a button press carrying its custom
      id, a slash (chat-input) command carrying its name, or any other kind of
      interaction (select menus, modals, autocomplete, ...). */
  datatype Interaction =
    | Button(customId: string)
    | ChatInputCommand(commandName: string)
    | OtherInteraction

  /** The channel type number the platform gives a direct-message channel. */
  const DMChannelType: int := 1

  /** A `messageCreate` event: who wrote it, whether the author is a bot, and
      the numeric type of the channel it arrived in. The text itself is never
      read by the handler. */
  datatype Message = Message(author: UserId, authorIsBot: bool, channelType: int)
}
