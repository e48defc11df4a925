/** The bot's event handlers and the state they share: the list of sync
    records, the configured forward channel, and the store of delivered
    copies in which edits become visible. */
module Engine {
  import opened Discord
  import opened Mentions
  import opened SourceLookup

  /** A sync record: the origin message and the copy delivered for it. */
  datatype SyncedMessage = SyncedMessage(source: Message, sent: CopyId)

  /** A delivered copy as the store holds it: its DM recipient and its current content. */
  datatype Copy = Copy(recipient: Id, content: string)

  /** A message as an update event carries it; when `partial` is set the
      platform could not supply its full content. */
  datatype Update = Update(partial: bool, id: Id, content: string)

  /** A newly created message, as the relay handler sees it. */
  datatype Inbound = Inbound(authorIsBot: bool, channelType: ChannelType, content: string,
                             attachments: seq<Attachment>)

  /** The one message the relay handler sends. */
  datatype Outbound = Outbound(channel: Id, content: string, files: seq<FileRef>)

  /** What fetching a channel by identifier gives: it throws, it yields
      nothing, or it yields a channel of some kind. */
  datatype FetchResult = FetchThrows | FetchNull | Fetched(kind: ChannelType)

  /** The platform as the handlers consult it: the user cache (by identifier),
      the channel cache in its iteration order, the positions (counted from 0
      in the delivery loop of one sync command) of the DM sends that throw,
      and channel fetching by identifier. */
  datatype Platform = Platform(userCache: set<Id>, channelCache: seq<Channel>,
                               failingSends: set<nat>, fetchChannel: Id -> FetchResult)

  /** An interaction and, for a command, its name and options. */
  datatype Interaction =
    | NotACommand
    | Command(name: string, message: Id, users: Option<string>, channel: Option<ChannelRef>)

  /** The records whose origin has identifier `id`, in registry order. */
  function Matching(synced: seq<SyncedMessage>, id: Id): (matches: seq<SyncedMessage>)
    ensures |matches| <= |synced|
    ensures forall r :: r in matches <==> r in synced && r.source.id == id
  {
    if synced == [] then []
    else (if synced[0].source.id == id then [synced[0]] else []) + Matching(synced[1..], id)
  }

  /** A lookup of the registry over a concatenation is the concatenation of the lookups. */
  lemma {:induction false} MatchingAppend(a: seq<SyncedMessage>, b: seq<SyncedMessage>, id: Id)
    ensures Matching(a + b, id) == Matching(a, id) + Matching(b, id)
  {
    if a != [] {
      assert (a + b)[0] == a[0] && (a + b)[1..] == a[1..] + b;
      MatchingAppend(a[1..], b, id);
    } else {
      assert a + b == b;
    }
  }

  /** A lookup finds every record when all of them are of the origin looked for. */
  lemma {:induction false} MatchingAll(synced: seq<SyncedMessage>, id: Id)
    requires forall k :: 0 <= k < |synced| ==> synced[k].source.id == id
    ensures Matching(synced, id) == synced
  {
    if synced != [] {
      MatchingAll(synced[1..], id);
    }
  }

  /** A lookup finds nothing when none of the records is of the origin looked for. */
  lemma {:induction false} MatchingNone(synced: seq<SyncedMessage>, id: Id)
    requires forall k :: 0 <= k < |synced| ==> synced[k].source.id != id
    ensures Matching(synced, id) == []
  {
    if synced != [] {
      MatchingNone(synced[1..], id);
    }
  }

  /** The copy identifiers of some records. */
  function SentIds(records: seq<SyncedMessage>): set<CopyId>
  {
    set k | 0 <= k < |records| :: records[k].sent
  }

  /** The store after the copies named by `ids` have been given `content`. */
  function Retext(copies: map<CopyId, Copy>, ids: set<CopyId>, content: string): map<CopyId, Copy>
  {
    map c | c in copies :: if c in ids then copies[c].(content := content) else copies[c]
  }

  /** Editing one more copy extends an earlier retexting by that copy. */
  lemma RetextOneMore(copies: map<CopyId, Copy>, ids: set<CopyId>, c: CopyId, content: string)
    requires c in copies
    ensures Retext(copies, ids + {c}, content)
            == Retext(copies, ids, content)[c := copies[c].(content := content)]
  {
  }

  /** One more record adds its copy to the copies named by a prefix. */
  lemma SentIdsOneMore(records: seq<SyncedMessage>, i: nat)
    requires i < |records|
    ensures SentIds(records[..i + 1]) == SentIds(records[..i]) + {records[i].sent}
  {
  }

  /** No two records share a delivered copy. */
  ghost predicate DistinctCopies(synced: seq<SyncedMessage>)
  {
    forall j, k :: 0 <= j < k < |synced| ==> synced[j].sent != synced[k].sent
  }

  /** An edit applied to every copy of origin `id` reaches every record of
      that origin, leaves the copies of every other origin alone, and leaves
      the copies with no record alone. */
  lemma PropagationReachesExactlyMatches(synced: seq<SyncedMessage>, copies: map<CopyId, Copy>,
                                         id: Id, content: string)
    requires DistinctCopies(synced)
    requires forall k :: 0 <= k < |synced| ==> synced[k].sent in copies
    ensures var after := Retext(copies, SentIds(Matching(synced, id)), content);
            && after.Keys == copies.Keys
            && (forall k :: 0 <= k < |synced| && synced[k].source.id == id ==>
                  after[synced[k].sent] == copies[synced[k].sent].(content := content))
            && (forall k :: 0 <= k < |synced| && synced[k].source.id != id ==>
                  after[synced[k].sent] == copies[synced[k].sent])
            && (forall c :: c in copies && c !in SentIds(synced) ==> after[c] == copies[c])
  {
    var matches := Matching(synced, id);
    forall k | 0 <= k < |synced| && synced[k].source.id == id
      ensures synced[k].sent in SentIds(matches)
    {
      assert synced[k] in matches;
    }
    forall k, j | 0 <= k < |synced| && synced[k].source.id != id && 0 <= j < |matches|
      ensures matches[j].sent != synced[k].sent
    {
      assert matches[j] in synced;
      var i :| 0 <= i < |synced| && synced[i] == matches[j];
      assert i != k;
    }
    forall c | c in SentIds(matches) ensures c in SentIds(synced) {
      var j :| 0 <= j < |matches| && matches[j].sent == c;
      assert matches[j] in synced;
    }
  }

  /** The records and copies after copies of `source` have been delivered to
      `users`, in order, with copy identifiers counted up from `next0`:
      the earlier records and copies are kept as they were. */
  ghost predicate Appended(synced0: seq<SyncedMessage>, copies0: map<CopyId, Copy>, next0: nat,
                           synced1: seq<SyncedMessage>, copies1: map<CopyId, Copy>, next1: nat,
                           source: Message, users: seq<Id>)
  {
    && next1 == next0 + |users|
    && |synced1| == |synced0| + |users|
    && synced1[..|synced0|] == synced0
    && (forall j :: |synced0| <= j < |synced1| ==>
          synced1[j] == SyncedMessage(source, next0 + (j - |synced0|)))
    && (forall c :: c in copies1 <==> c in copies0 || next0 <= c < next1)
    && (forall c :: c in copies0 ==> copies1[c] == copies0[c])
    && (forall c :: next0 <= c < next1 ==> copies1[c] == Copy(users[c - next0], source.content))
  }

  /** Syncing again never merges with earlier syncs: a lookup of the synced
      origin finds the earlier records followed by all the new ones, and a
      lookup of any other origin finds what it found before. */
  lemma SyncAccumulates(synced0: seq<SyncedMessage>, copies0: map<CopyId, Copy>, next0: nat,
                        synced1: seq<SyncedMessage>, copies1: map<CopyId, Copy>, next1: nat,
                        source: Message, users: seq<Id>, other: Id)
    requires Appended(synced0, copies0, next0, synced1, copies1, next1, source, users)
    requires other != source.id
    ensures Matching(synced1, source.id) == Matching(synced0, source.id) + synced1[|synced0|..]
    ensures |Matching(synced1, source.id)| == |Matching(synced0, source.id)| + |users|
    ensures Matching(synced1, other) == Matching(synced0, other)
  {
    var added := synced1[|synced0|..];
    assert synced1 == synced0 + added;
    assert forall k :: 0 <= k < |added| ==> added[k] == synced1[|synced0| + k];
    MatchingAppend(synced0, added, source.id);
    MatchingAppend(synced0, added, other);
    MatchingAll(added, source.id);
    MatchingNone(added, other);
  }

  /** One relay file per attachment, in attachment order, passed on by name and URL. */
  function Files(attachments: seq<Attachment>): (files: seq<FileRef>)
    ensures |files| == |attachments|
    ensures forall k :: 0 <= k < |files| ==>
              files[k] == FileRef(attachments[k].name, attachments[k].url)
  {
    if attachments == [] then []
    else [FileRef(attachments[0].name, attachments[0].url)] + Files(attachments[1..])
  }

  class Bot {
    /** The sync records, in the order the copies were delivered. */
    var synced: seq<SyncedMessage>
    /** The channel that direct messages are relayed to, once configured. */
    var forwardChannel: Option<Id>
    /** The delivered copies, by identifier, with their current content. */
    var copies: map<CopyId, Copy>
    /** The identifier the next delivered copy receives. */
    var nextCopy: nat

    ghost predicate Valid()
      reads this
    {
      && (forall c :: c in copies ==> c < nextCopy)
      && (forall k :: 0 <= k < |synced| ==> synced[k].sent in copies)
      && DistinctCopies(synced)
    }

    /** At start-up nothing is synced and no forward channel is set. */
    constructor ()
      ensures Valid()
      ensures synced == [] && forwardChannel == None && copies == map[] && nextCopy == 0
    {
      synced := [];
      forwardChannel := None;
      copies := map[];
      nextCopy := 0;
    }

    /** Delivers `source` to each user in turn, recording each delivery right
        after its send; the first send that throws (its position is in
        `failingSends`) ends the loop, with the earlier deliveries kept. A
        user named twice is sent to twice, and each send can fail on its own. */
    method FanOut(source: Message, users: seq<Id>, failingSends: set<nat>) returns (delivered: nat)
      requires Valid()
      modifies this`synced, this`copies, this`nextCopy
      ensures Valid()
      ensures delivered == Completed(|users|, failingSends)
      ensures Appended(old(synced), old(copies), old(nextCopy), synced, copies, nextCopy,
                       source, users[..delivered])
    {
      var i := 0;
      while i < |users|
        invariant 0 <= i <= |users|
        invariant forall k :: 0 <= k < i ==> k !in failingSends
        invariant Valid()
        invariant Appended(old(synced), old(copies), old(nextCopy), synced, copies, nextCopy,
                           source, users[..i])
      {
        if i in failingSends {
          break;
        }
        var sent := nextCopy;
        copies := copies[sent := Copy(users[i], source.content)];
        nextCopy := nextCopy + 1;
        synced := synced + [SyncedMessage(source, sent)];
        i := i + 1;
      }
      delivered := i;
    }

    /** The `sync` command: resolve the mentioned users, give up with a reply
        if none is cached; look the message up in the channel cache, give up
        with a reply if no channel yields it; deliver it to every user in
        order and report how many users were addressed. */
    method Sync(messageId: Id, usersValue: Option<string>, platform: Platform) returns (out: Outcome)
      requires Valid()
      modifies this`synced, this`copies, this`nextCopy
      ensures Valid()
      ensures var users := ResolveUsers(usersValue, platform.userCache);
              var source := FindSource(platform.channelCache, messageId);
              var n := Completed(|users|, platform.failingSends);
              if users == [] then
                out == Replied(NoUsersFound) && unchanged(this)
              else if source.None? then
                out == Replied(MessageNotFound) && unchanged(this)
              else
                && Appended(old(synced), old(copies), old(nextCopy), synced, copies, nextCopy,
                            source.value, users[..n])
                && out == if n == |users| then Replied(SentTo(|users|, source.value.content))
                          else Aborted
    {
      var users := ResolveUsers(usersValue, platform.userCache);
      if users == [] {
        return Replied(NoUsersFound);
      }
      var source := FindSource(platform.channelCache, messageId);
      if source.None? {
        return Replied(MessageNotFound);
      }
      var delivered := FanOut(source.value, users, platform.failingSends);
      if delivered < |users| {
        return Aborted;
      }
      out := Replied(SentTo(|users|, source.value.content));
    }

    /** The `forward` command: a present guild text channel becomes the
        forward channel, replacing any earlier one; anything else is refused
        with a reply and changes nothing. */
    method Forward(channel: Option<ChannelRef>) returns (out: Outcome)
      requires Valid()
      modifies this`forwardChannel
      ensures Valid()
      ensures channel.None? ==>
                out == Replied(ChannelNotFound) && forwardChannel == old(forwardChannel)
      ensures channel.Some? && channel.value.kind != GuildText ==>
                out == Replied(NotATextChannel) && forwardChannel == old(forwardChannel)
      ensures channel.Some? && channel.value.kind == GuildText ==>
                out == Replied(ForwardingTo(channel.value.id)) && forwardChannel == Some(channel.value.id)
    {
      if channel.None? {
        return Replied(ChannelNotFound);
      }
      if channel.value.kind != GuildText {
        return Replied(NotATextChannel);
      }
      forwardChannel := Some(channel.value.id);
      out := Replied(ForwardingTo(channel.value.id));
    }

    /** Sets the content of each record's copy in turn; the first edit that
        throws (its position is in `failing`) ends the loop, with the earlier
        edits kept. */
    method EditCopies(matches: seq<SyncedMessage>, content: string, failing: set<nat>)
      returns (edited: nat)
      requires Valid()
      requires forall k :: 0 <= k < |matches| ==> matches[k].sent in copies
      modifies this`copies
      ensures Valid()
      ensures edited == Completed(|matches|, failing)
      ensures copies == Retext(old(copies), SentIds(matches[..edited]), content)
    {
      var i := 0;
      while i < |matches|
        invariant 0 <= i <= |matches|
        invariant forall k :: 0 <= k < i ==> k !in failing
        invariant copies == Retext(old(copies), SentIds(matches[..i]), content)
        invariant Valid()
      {
        var c := matches[i].sent;
        if i in failing {
          break;
        }
        SentIdsOneMore(matches, i);
        RetextOneMore(old(copies), SentIds(matches[..i]), c, content);
        copies := copies[c := copies[c].(content := content)];
        i := i + 1;
      }
      edited := i;
    }

    /** The update handler: unless either side is partial or the content is
        unchanged, every copy recorded for the edited message gets the new
        content, in registry order; an edit that throws ends the handler
        there. A confirmation with the number of records found is sent only
        when there was at least one. */
    method OnMessageUpdate(before: Update, after: Update, failing: set<nat>) returns (out: Outcome)
      requires Valid()
      modifies this`copies
      ensures Valid()
      ensures before.partial || after.partial || before.content == after.content ==>
                out == Quiet && copies == old(copies)
      ensures !(before.partial || after.partial || before.content == after.content) ==>
                var matches := Matching(synced, before.id);
                var n := Completed(|matches|, failing);
                && copies == Retext(old(copies), SentIds(matches[..n]), after.content)
                && out == if n < |matches| then Aborted
                          else if matches == [] then Quiet
                          else Replied(UpdatedCopies(|matches|, after.content))
    {
      if before.partial || after.partial {
        return Quiet;
      }
      if before.content == after.content {
        return Quiet;
      }
      var matches := Matching(synced, before.id);
      var edited := EditCopies(matches, after.content, failing);
      if edited < |matches| {
        return Aborted;
      }
      if |matches| == 0 {
        return Quiet;
      }
      out := Replied(UpdatedCopies(|matches|, after.content));
    }

    /** The create handler: a direct message from a person is relayed, with
        its content and its attachments, to the forward channel when one is
        set and fetching it gives a text-based channel. Exactly one message
        is sent then, and none otherwise. */
    method OnMessageCreate(message: Inbound, platform: Platform) returns (sent: Option<Outbound>)
      ensures sent.Some? <==>
                && !message.authorIsBot
                && message.channelType == DM
                && forwardChannel.Some? && forwardChannel.value != ""
                && platform.fetchChannel(forwardChannel.value).Fetched?
                && IsTextBased(platform.fetchChannel(forwardChannel.value).kind)
      ensures sent.Some? ==>
                sent.value == Outbound(forwardChannel.value, message.content, Files(message.attachments))
    {
      if message.authorIsBot {
        return None;
      }
      if message.channelType != DM {
        return None;
      }
      if forwardChannel.None? || forwardChannel.value == "" {
        return None;
      }
      var target := forwardChannel.value;
      var channel := platform.fetchChannel(target);
      if channel.FetchThrows? || channel.FetchNull? {
        return None;
      }
      if !IsTextBased(channel.kind) {
        return None;
      }
      sent := Some(Outbound(target, message.content, Files(message.attachments)));
    }

    /** The interaction handler: anything but a command is ignored; the
        `sync` and `forward` commands go to their handlers and any other
        command name is ignored. */
    method OnInteraction(interaction: Interaction, platform: Platform) returns (out: Outcome)
      requires Valid()
      modifies this
      ensures Valid()
      ensures interaction.NotACommand? ==> out == Quiet && unchanged(this)
      ensures interaction.Command? && interaction.name != "sync" && interaction.name != "forward" ==>
                out == Quiet && unchanged(this)
      ensures interaction.Command? && interaction.name == "sync" ==> forwardChannel == old(forwardChannel)
      ensures interaction.Command? && interaction.name == "forward" ==>
                synced == old(synced) && copies == old(copies) && nextCopy == old(nextCopy)
    {
      if interaction.NotACommand? {
        return Quiet;
      }
      if interaction.name == "sync" {
        out := Sync(interaction.message, interaction.users, platform);
      } else if interaction.name == "forward" {
        out := Forward(interaction.channel);
      } else {
        out := Quiet;
      }
    }
  }
}
