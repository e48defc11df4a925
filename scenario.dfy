/** Clients of the engine that follow its contracts through two
    walk-throughs: a message synced to two users and then edited, and a
    forward channel configured and a direct message relayed to it. */
module Scenario {
  import opened Discord
  import opened Mentions
  import opened SourceLookup
  import opened Engine

  /** "U1 U2" names the two users, in order. */
  lemma TwoMentions()
    ensures MentionIds(Some("U1 U2")) == ["U1", "U2"]
  {
    assert Join(["U1", "U2"], ' ') == "U1 U2";
    SplitJoin(["U1", "U2"], ' ');
    StripKeepsPlain("U1");
    StripKeepsPlain("U2");
  }

  method SyncThenEdit()
  {
    var bot := new Bot();
    var m1 := Message("M1", "hello", "C1");
    var platform := Platform({"U1", "U2"}, [Channel("C1", GuildText, map["M1" := m1])], {},
                             _ => FetchThrows);
    TwoMentions();
    assert ResolveUsers(Some("U1 U2"), platform.userCache) == ["U1", "U2"];
    FindSourceFirst(platform.channelCache, "M1", 0);
    var out := bot.Sync("M1", Some("U1 U2"), platform);
    assert out == Replied(SentTo(2, "hello"));
    assert bot.synced == [SyncedMessage(m1, 0), SyncedMessage(m1, 1)];
    assert bot.copies[0] == Copy("U1", "hello") && bot.copies[1] == Copy("U2", "hello");

    EditBothCopies(bot, m1);
  }

  /** The edit of "M1" from "hello" to "hello there" reaches both copies;
      an update that leaves the content as it is does nothing. */
  method EditBothCopies(bot: Bot, m1: Message)
    requires bot.Valid() && m1.id == "M1"
    requires bot.synced == [SyncedMessage(m1, 0), SyncedMessage(m1, 1)]
    modifies bot
  {
    MatchingAll(bot.synced, "M1");
    ghost var copiesBefore := bot.copies;
    PropagationReachesExactlyMatches(bot.synced, copiesBefore, "M1", "hello there");
    var edit := bot.OnMessageUpdate(Update(false, "M1", "hello"), Update(false, "M1", "hello there"), {});
    assert edit == Replied(UpdatedCopies(2, "hello there"));
    assert bot.synced[..2] == bot.synced;
    assert bot.copies[0].content == "hello there" && bot.copies[1].content == "hello there";

    var again := bot.OnMessageUpdate(Update(false, "M1", "hello there"), Update(false, "M1", "hello there"), {});
    assert again == Quiet;
  }

  /** "U V U" names `U`, `V` and `U` again: the repeated user is kept. */
  lemma RepeatedMention()
    ensures MentionIds(Some("U V U")) == ["U", "V", "U"]
  {
    assert Join(["U", "V", "U"], ' ') == "U V U";
    SplitJoin(["U", "V", "U"], ' ');
    StripKeepsPlain("U");
    StripKeepsPlain("V");
  }

  /** A user named twice is sent to twice; when the second send to that user
      throws, the two earlier deliveries stay recorded and no reply is sent. */
  method RepeatedUserSecondSendThrows()
  {
    var bot := new Bot();
    var m1 := Message("M1", "hello", "C1");
    var platform := Platform({"U", "V"}, [Channel("C1", GuildText, map["M1" := m1])], {2},
                             _ => FetchThrows);
    RepeatedMention();
    assert ResolveUsers(Some("U V U"), platform.userCache) == ["U", "V", "U"];
    FindSourceFirst(platform.channelCache, "M1", 0);
    var out := bot.Sync("M1", Some("U V U"), platform);
    assert out == Aborted;
    assert bot.synced == [SyncedMessage(m1, 0), SyncedMessage(m1, 1)];
    assert bot.copies[0] == Copy("U", "hello") && bot.copies[1] == Copy("V", "hello");
  }

  method ForwardThenRelay()
  {
    var bot := new Bot();
    var dm := Inbound(false, DM, "hi", [Attachment("a.png", "https://cdn/a.png")]);
    var fetch := (id: Id) => if id == "F1" then Fetched(GuildText) else FetchThrows;
    var platform := Platform({}, [], {}, fetch);
    var before := bot.OnMessageCreate(dm, platform);
    assert before == None;
    var configured := bot.Forward(Some(ChannelRef("F1", GuildText)));
    assert configured == Replied(ForwardingTo("F1"));
    var refused := bot.Forward(Some(ChannelRef("V1", GuildVoice)));
    assert refused == Replied(NotATextChannel);
    assert fetch("F1") == Fetched(GuildText);
    var files := Files(dm.attachments);
    assert files == [FileRef("a.png", "https://cdn/a.png")];
    var relayed := bot.OnMessageCreate(dm, platform);
    assert relayed == Some(Outbound("F1", "hi", [FileRef("a.png", "https://cdn/a.png")]));
  }
}
