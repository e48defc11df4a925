/** Finding the message to sync: a fold over the client's channel cache, in
    cache order, that keeps the first successful fetch. */
module SourceLookup {
  import opened Discord

  /** Whether fetching `messageId` in channel `ch` succeeds: the channel must
      be text-based (otherwise it is skipped), and a fetch of a message the
      channel does not hold throws, which the fold also treats as a skip. */
  predicate Fetchable(ch: Channel, messageId: Id)
  {
    IsTextBased(ch.kind) && messageId in ch.messages
  }

  /** One step of the fold: an earlier result wins, a channel that is not
      text-based or whose fetch throws leaves the accumulator as it was. */
  function Step(prev: Option<Message>, ch: Channel, messageId: Id): Option<Message>
  {
    if prev.Some? then prev
    else if !IsTextBased(ch.kind) then prev
    else if messageId in ch.messages then Some(ch.messages[messageId])
    else prev
  }

  /** The fold itself, left to right, starting from accumulator `acc`. */
  function Fold(channels: seq<Channel>, messageId: Id, acc: Option<Message>): Option<Message>
  {
    if channels == [] then acc
    else Fold(channels[1..], messageId, Step(acc, channels[0], messageId))
  }

  /** The lookup the sync command performs: the fold from "nothing found". */
  function FindSource(channels: seq<Channel>, messageId: Id): Option<Message>
  {
    Fold(channels, messageId, None)
  }

  /** Once the accumulator holds a message, the rest of the channels are not consulted. */
  lemma {:induction false} FoldKeepsFound(channels: seq<Channel>, messageId: Id, m: Message)
    ensures Fold(channels, messageId, Some(m)) == Some(m)
  {
    if channels != [] {
      FoldKeepsFound(channels[1..], messageId, m);
    }
  }

  /** The lookup finds nothing exactly when no channel can yield the message. */
  lemma {:induction false} FindSourceNone(channels: seq<Channel>, messageId: Id)
    ensures FindSource(channels, messageId).None? <==>
            forall k :: 0 <= k < |channels| ==> !Fetchable(channels[k], messageId)
  {
    if channels != [] {
      FindSourceNone(channels[1..], messageId);
      assert forall k :: 1 <= k < |channels| ==> channels[k] == channels[1..][k - 1];
      if Fetchable(channels[0], messageId) {
        FoldKeepsFound(channels[1..], messageId, channels[0].messages[messageId]);
      }
    }
  }

  /** When the lookup finds a message, it is the fetch result of the first
      channel, in cache order, whose fetch succeeds. */
  lemma {:induction false} FindSourceFirst(channels: seq<Channel>, messageId: Id, k: nat)
    requires k < |channels| && Fetchable(channels[k], messageId)
    requires forall j :: 0 <= j < k ==> !Fetchable(channels[j], messageId)
    ensures FindSource(channels, messageId) == Some(channels[k].messages[messageId])
  {
    if k == 0 {
      FoldKeepsFound(channels[1..], messageId, channels[0].messages[messageId]);
    } else {
      assert forall j :: 0 <= j < k - 1 ==> channels[1..][j] == channels[j + 1];
      FindSourceFirst(channels[1..], messageId, k - 1);
    }
  }

  /** Channels after the first one that yields the message make no difference. */
  lemma {:induction false} FindSourceIgnoresLater(front: seq<Channel>, back: seq<Channel>, messageId: Id)
    requires FindSource(front, messageId).Some?
    ensures FindSource(front + back, messageId) == FindSource(front, messageId)
  {
    var whole := front + back;
    assert whole[0] == front[0] && whole[1..] == front[1..] + back;
    if Fetchable(front[0], messageId) {
      FoldKeepsFound(front[1..], messageId, front[0].messages[messageId]);
      FoldKeepsFound(whole[1..], messageId, front[0].messages[messageId]);
    } else {
      FindSourceIgnoresLater(front[1..], back, messageId);
    }
  }
}
