/** The slice of the chat platform that the bot's handlers see: identifiers,
    channel kinds, messages, attachments, and the replies and outcomes a
    handler can produce. Everything here is a value; the engine's own state
    lives in the `Engine` module. */
module Discord {

  datatype Option<+T> = None | Some(value: T)

  /** Platform identifiers (snowflakes) are strings. */
  type Id = string

  /** Identifier of a copy the bot delivered; copies get fresh identifiers
      from a counter kept by the engine. */
  type CopyId = nat

  /** Channel kinds of the platform's channel-type enumeration. */
  datatype ChannelType =
    | GuildText | DM | GuildVoice | GroupDM | GuildCategory | GuildAnnouncement
    | AnnouncementThread | PublicThread | PrivateThread | GuildStageVoice
    | GuildDirectory | GuildForum | GuildMedia

  /** The channels that carry a message list, that is, the ones a message can
      be fetched from and sent to. */
  predicate IsTextBased(t: ChannelType)
  {
    t in {GuildText, DM, GuildVoice, GroupDM, GuildAnnouncement,
          AnnouncementThread, PublicThread, PrivateThread, GuildStageVoice}
  }

  /** An origin message: what a fetch returns and what is stored in a sync record. */
  datatype Message = Message(id: Id, content: string, channelId: Id)

  /** A cached channel, with the messages a fetch by identifier can find in it. */
  datatype Channel = Channel(id: Id, kind: ChannelType, messages: map<Id, Message>)

  /** The channel value carried by a channel-typed command option. */
  datatype ChannelRef = ChannelRef(id: Id, kind: ChannelType)

  /** A file attached to an inbound message, and the file descriptor the bot
      sends when it relays it (the file is passed on by its URL). */
  datatype Attachment = Attachment(name: string, url: string)
  datatype FileRef = FileRef(name: string, attachment: string)

  /** The replies the handlers send back to whoever invoked them. */
  datatype Reply =
    | NoUsersFound                                 // "Couldn't find any users!"
    | MessageNotFound                              // "Couldn't find that message!"
    | SentTo(userCount: nat, content: string)      // "Sent message to N users: ..."
    | ChannelNotFound                              // "Couldn't find that channel!"
    | NotATextChannel                              // "That channel isn't a text channel!"
    | ForwardingTo(channel: Id)                    // "Forwarding messages to ..."
    | UpdatedCopies(userCount: nat, content: string) // "Updated synced message to N users: ..."

  /** How one event handler ends: it returns without replying, it replies,
      or a platform call it awaited threw and the handler stopped there. */
  datatype Outcome = Quiet | Replied(reply: Reply) | Aborted

  /** The number of iterations a loop of `calls` awaited platform calls
      completes when the calls at the positions in `throws` (counted from 0
      within that loop) throw: the first throwing call ends the loop, and
      the calls before it have all returned. */
  function Completed(calls: nat, throws: set<nat>): (done: nat)
    ensures done <= calls
    ensures forall k :: 0 <= k < done ==> k !in throws
    ensures done < calls ==> done in throws
  {
    if calls == 0 then 0
    else
      var before := Completed(calls - 1, throws);
      if before < calls - 1 || calls - 1 in throws then before else calls
  }
}
