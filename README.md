# Message sync and relay engine of brandons-bot, in Dafny

This project models the engine of a chat bot that does three things.

- **Sync.** The `sync` command takes a message identifier and a list of user mentions. It resolves the mentions against the client's user cache and looks the message up across the cached channels. It then sends the message's content to each user's direct-message channel and records each delivered copy next to its origin.
- **Edit.** When an origin message is edited, every copy recorded for it gets the new content. A confirmation is then posted as a reply to the edited message, in its own channel. This happens only when at least one copy was found and no edit threw.
- **Relay.** The `forward` command configures one guild text channel. From then on, direct messages that people send to the bot are relayed there, with their attachments.

The state is the handlers' shared state in `src/main.ts`:

- the list of sync records (`synced`);
- the optional forward channel (`forwardChannel`);
- a store of delivered copies with their current content, so that edits can be observed;
- a counter that gives each delivered copy a fresh identifier.

The state is a class, `Engine.Bot`, and each event handler is one of its methods.

The message platform is a parameter of the handlers (`Engine.Platform`). It supplies the user cache, the channel cache in iteration order, the positions of the direct-message sends that throw, and channel fetching by identifier. Send positions are counted from 0 within one sync command's delivery loop. The edit handler is likewise given the positions of the copy edits that throw (`failing`). Because failure is keyed by position, a user named twice gets two sends, and either one can fail on its own.

Files:

- `discord.dfy` (module `Discord`): platform values (identifiers, channel kinds, messages, attachments), replies and handler outcomes, and `Completed`, the number of iterations a loop completes when it stops at the first awaited call that throws.
- `mentions.dfy` (module `Mentions`): the `users` option pipeline. It splits on single spaces, strips `<`, `@`, `!` and `>`, and keeps the cached identifiers.
- `lookup.dfy` (module `SourceLookup`): the first-success fold over the channel cache.
- `engine.dfy` (module `Engine`): the sync record type, the `Bot` class and its handlers, and the lemmas about registry lookups and propagation.
- `scenario.dfy` (module `Scenario`): client methods that follow the contracts through three walk-throughs. In the first, message `M1` with content `hello` is synced to `U1 U2`, giving two copies, and is then edited to `hello there`. In the second, `M1` is synced to `U V U` and the second send to `U` throws, so the two earlier deliveries stay recorded and no reply is sent. In the third, a forward channel is set and then a direct message is relayed to it.

Three behaviours of the code that the model keeps:

- **Sends and edits are not isolated per item.** In `src/main.ts:125-133` and `src/main.ts:207-209`, the awaited send and edit have no `try`. So the first one that throws ends the handler. The deliveries and edits made before it remain, and no reply or confirmation is sent. The model has this behaviour (`Outcome.Aborted`, `Completed`).
- **Unresolved users are dropped, not failed.** Users missing from the cache are dropped before any send (`src/main.ts:80-88`). Only a send to a cached user can throw.
- **The reported count is the number of resolved users.** The sync reply reports `users.length` (`src/main.ts:137`). A sync that completes has delivered to all of them.

## Model

| member | source | states |
|---|---|---|
| Discord.Completed | src/main.ts:125-133 | the number of completed iterations of a loop of awaited calls: every call before it returned, and the call at it (if any) threw; no more iterations than calls |
| Mentions.Split | src/main.ts:76 | splitting on one character gives at least one piece, and no piece contains the separator |
| Mentions.JoinSplit | src/main.ts:76 | gluing the pieces back with the separator gives the original string, so no character is lost or moved |
| Mentions.SplitJoin | src/main.ts:76 | splitting a join of separator-free pieces gives exactly those pieces back, empty pieces included |
| Mentions.Strip | src/main.ts:78 | a stripped token contains no `<`, `@`, `!` or `>`, only characters of the token, and is no longer than the token |
| Mentions.StripAppend | src/main.ts:78 | stripping works character by character: it distributes over concatenation |
| Mentions.StripKeepsPlain | src/main.ts:78 | a token without sigils is returned unchanged |
| Mentions.StripCounts | src/main.ts:78 | every non-sigil character is kept as many times as it occurs, and every sigil is removed |
| Mentions.StripAll | src/main.ts:78 | one stripped token per input token, in order |
| Mentions.MentionIds | src/main.ts:72-78 | one identifier per space-separated piece, in order, each the stripped piece; an absent option value gives no identifiers |
| Mentions.Resolve | src/main.ts:80-88 | every kept identifier is in the user cache, and no more are kept than were given |
| Mentions.ResolveAppend | src/main.ts:80-88 | resolution keeps input order: resolving a concatenation resolves each part and concatenates |
| Mentions.ResolveCounts | src/main.ts:80-88 | each cached identifier is kept exactly as often as it occurs (no deduplication), and uncached ones are dropped |
| Mentions.ResolveEmpty | src/main.ts:80-90 | no user resolves exactly when no identifier is in the cache |
| Mentions.ResolveAll | src/main.ts:80-88 | the result is the whole input exactly when every identifier is cached |
| Mentions.ResolveUsers | src/main.ts:72-88 | the users of a sync command are all cached users |
| SourceLookup.Step | src/main.ts:103-112 | one step of the fold: an earlier result wins, a channel that is not text-based or whose fetch throws keeps the accumulator, and a successful fetch replaces an empty one; specified through FoldKeepsFound, FindSourceNone and FindSourceFirst |
| SourceLookup.Fold | src/main.ts:102-114 | the fold, in cache order; specified through FoldKeepsFound, FindSourceNone, FindSourceFirst and FindSourceIgnoresLater |
| SourceLookup.FindSource | src/main.ts:102-114 | the lookup from an empty accumulator; FindSourceNone, FindSourceFirst and FindSourceIgnoresLater state what it returns |
| SourceLookup.FoldKeepsFound | src/main.ts:104 | once the accumulator holds a message, the remaining channels do not change it |
| SourceLookup.FindSourceNone | src/main.ts:102-114 | the lookup finds nothing exactly when no channel is text-based and holds the message |
| SourceLookup.FindSourceFirst | src/main.ts:102-114 | the lookup returns the fetch result of the first channel, in cache order, that is text-based and holds the message |
| SourceLookup.FindSourceIgnoresLater | src/main.ts:102-114 | appending channels after a prefix that already yields the message does not change the result |
| Engine.Matching | src/main.ts:203 | the records found for an identifier are exactly the registry's records whose origin has that identifier |
| Engine.MatchingAppend | src/main.ts:203 | the lookup keeps registry order: looking up a concatenation concatenates the lookups |
| Engine.MatchingAll | src/main.ts:203 | when every record has the identifier, all of them are found, in order |
| Engine.MatchingNone | src/main.ts:203 | when no record has the identifier, none is found |
| Engine.Retext | src/main.ts:207-209 | the copy store after the copies named by some identifiers have been given new content; PropagationReachesExactlyMatches states its effect on the copies of the edited origin, on other origins' copies and on unrecorded copies |
| Engine.PropagationReachesExactlyMatches | src/main.ts:203-209 | editing the copies of the found records changes, for every record of the edited origin (repeated syncs included), its copy to the new content; it leaves the copies of every other origin and the copies without a record unchanged, and keeps the set of copies |
| Engine.Appended | src/main.ts:125-133 | the records and copies after a delivery to some users: one record per user, in order, each pairing the origin with a fresh copy of its content for that user; earlier records and copies are kept; SyncAccumulates states what later lookups find |
| Engine.SyncAccumulates | src/main.ts:125-133 | a further sync of an origin is not merged with earlier ones: a lookup of that origin finds the earlier records followed by all the new ones, and a lookup of any other origin finds what it found before |
| Engine.Files | src/main.ts:243-246 | one relayed file per attachment, in attachment order, carrying its name and URL |
| Engine.Bot.constructor | src/main.ts:29-30 | at start-up there are no records and no copies, and no forward channel is set |
| Engine.Bot.FanOut | src/main.ts:125-133 | one record and one copy per user, in user order, until the first send that throws (a repeated user is sent to once per occurrence, and each send can fail on its own); each record pairs the origin with a fresh copy of its content addressed to that user; earlier records and copies are unchanged; the number of deliveries is returned |
| Engine.Bot.Sync | src/main.ts:70-138 | no cached user: only the "Couldn't find any users!" reply, and nothing changes; no message found: only the "Couldn't find that message!" reply, and nothing changes; otherwise the fan-out's records are appended, and the reply reports the number of users and the content, unless a send threw, in which case there is no reply |
| Engine.Bot.Forward | src/main.ts:145-167 | a missing channel or a channel that is not a guild text channel is refused with its reply and leaves the forward channel unchanged; a guild text channel becomes the forward channel, overwriting the previous one |
| Engine.Bot.EditCopies | src/main.ts:207-209 | the copies of the found records, in order, get the new content until the first edit that throws; nothing else in the store changes |
| Engine.Bot.OnMessageUpdate | src/main.ts:196-214 | a partial message or unchanged content does nothing; otherwise every found record's copy is edited and the registry is untouched; a confirmation with the number of found records is sent only when that number is positive and no edit threw |
| Engine.Bot.OnMessageCreate | src/main.ts:224-247 | exactly one message is relayed when the author is not a bot, the message is a DM, a non-empty forward channel is set, and fetching it gives a text-based channel; none is relayed otherwise; the relayed message goes to that channel with the original content and the attachment files; the handler changes no state |
| Engine.Bot.OnInteraction | src/main.ts:67-171 | a non-command interaction or an unknown command name changes nothing and gets no reply; `sync` never touches the forward channel, and `forward` never touches the registry |
| Scenario.TwoMentions | src/main.ts:72-78 | the option value `U1 U2` names `U1` then `U2` |
| Scenario.RepeatedMention | src/main.ts:72-78 | the option value `U V U` names `U`, `V` and `U` again, the repetition kept |

## Left out

- Process bootstrap is not modelled: environment loading, the token, client and guild identifier checks, client construction with intents and partials, and login (`src/main.ts:16-27`, `src/main.ts:174-179`, `src/main.ts:252`). These are environment input/output.
- Command registration is not modelled: the slash-command definitions and the fire-and-forget REST deploy (`src/main.ts:37-64`, `src/main.ts:181-193`). These are network calls to the platform.
- The ready handler and all console logging are not modelled. Only the kind of each reply and the count and content it carries are modelled, not the exact reply text or the ephemeral flag.
- The guards `if (!synced)` and `if (!syncedMessages)` are not modelled. An array is always truthy, so these guards never return.
- Asynchronous scheduling is not modelled. Each handler is one sequential step, so interleavings of handlers in flight are not captured.
- The platform library is abstract. Its caches, direct-message creation, sending, editing and fetching are given as values and oracles, not modelled from the inside. Whether a channel counts as text-based (`Discord.IsTextBased`) follows the library's channel kinds as listed there.
- The user-cache lookup is modelled as never throwing. Its `try` around a map get (`src/main.ts:81-85`) therefore has no error path.
- Copy identifiers come from the engine's own counter. They are kept apart from the identifiers of origin messages.
- Engine.Bot.Sync: the stored origin is a snapshot of the fetched message. The platform library updates cached message objects in place on later edits, and that update is not modelled. It does not affect which records an edit finds, because lookup is by identifier.
- Engine.Bot.Sync: a throwing reply call is not modelled. The same holds for confirmation replies in the other handlers.
- Engine.Bot.OnInteraction: its contract states only which part of the state each command may change. What each command does is stated by the contracts of `Engine.Bot.Sync` and `Engine.Bot.Forward`, which it calls.
- Engine.Bot.OnMessageCreate: a relay send that throws is not distinguished from one that succeeds. No state depends on the send, and the result is the one message the handler sends.
