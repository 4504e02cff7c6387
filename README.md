# Telegram ↔ Discord bridge: the event handler

A Dafny model of the event handler of DiscordToTelegramBot
(`DiscordToTelegramBot/Handler.cs`). The bot mirrors each post of a Telegram
channel into a Discord channel and opens a discussion thread on the mirror. It
propagates caption edits to the mirror. It relays replies in the channel's
linked discussion chat into the thread. It sends human messages from the
thread back to the discussion chat. A `messages` table
(`DatabaseMessages`, `DiscordToTelegramBot/Database/Tables/Messages.cs`) ties
each post to its mirror, its thread and its copy in the discussion chat.

Modules:

- `Wrappers`: Option and Result.
- `Strings`: how C# renders integers inside interpolated strings under a
  culture whose negative sign is `-` (such as the invariant culture), plus
  `String.Join` and `String.Split` on one character. Each rendering has a
  parser, with a round-trip lemma.
- `Telegram`, `Discord`: the fields of the SDK objects that the handler reads,
  as plain data. Nullable fields are `Option`s. A downloaded file is reduced to
  the file name the download reports.
- `Messages`: the table as a sequence of rows in insertion order. It has the
  first-match query (`FirstOrDefaultAsync`), the effect of a reply on the
  table, and the lemmas that MessageIdInChat is written at most once and that
  an insert never changes an existing lookup.
- `Translate`: the pure part, i.e. the URL lines, poll body, signature line,
  links and buttons, embeds and reply text. It also holds the
  specification functions for a channel post (stage by stage, as the code
  overwrites and appends to the builder's content), an edited post and a
  reply.
- `Bridge`: the class `Handler`. Its `messages` field is the table. It has
  one method per event kind and the `HandleUpdateAsync` dispatch.
  `BuildChannelPost` keeps a local content variable as the C# code does. The
  foreach over the text entities is the loop in `AppendLinkLines`.

The handler makes platform calls and waits for their results. Those results
are parameters: the id of the sent message, the id of the created thread, the
ids in the guild's thread cache, the linked chat of each channel, and
`POST_CHANNEL_ID`. The calls that change something come back as a list of
`Action` values: send, create thread, modify, Telegram reply and thread
message. The C# code can throw on its way to those calls. Each such case ends
the handler with a `Fault` named after the .NET exception. What the platform
client does with the exception is not modelled. The faults are:

- `FirstOrDefault()` of an empty entity list is null, and its `Type` is read.
- `Entities` is null where the photo path calls `FirstOrDefault()` and the
  video path runs `foreach`. Both paths are gated on `CaptionEntities` but
  read `Entities`. Telegram sends a caption's entities in `CaptionEntities`
  and leaves `Entities` null. So under this code a photo or video post whose
  caption has formatting is never mirrored (`MediaDraft`'s ensures).
- `First()` or `Last()` of an empty list.
- A reply from a message with no sender.
- A thread that is not in the guild's cache. In the Discord handler the null
  thread's `Id` is read while EF Core evaluates the query's parameters, which
  surfaces as an `InvalidOperationException`. In the discussion-chat handler
  `SendMessageAsync` is called on the null thread, a
  `NullReferenceException`.
- An unknown linked chat.

Quirks of the code that the model keeps:

- Text and photo posts append only the first entity's URL, and only when that
  entity is a text link. They do not look for any text link.
- The poll body is `Poll:\nOptions: ` followed by the options joined with
  newlines.
- The signature line is `\n\nПост от **…**`.
- No "Forwarded from" prefix is added.
- There is no video size ceiling.
- A row is inserted without a duplicate check. `FirstMatchAppend` shows that a
  second row for the same post stays hidden behind the first.
- An edit reaches Discord only when it has a caption. The URL line built for
  its text is overwritten. The signature line is appended even when the
  signature is null.
- A reply stores its own message id as MessageIdInChat, not the id of the
  message it replies to. That write happens before the relay, so it persists
  even when the relay then fails.

## Model

| member | source | states |
|---|---|---|
| `Strings.IntToStringRoundTrip` | DiscordToTelegramBot/Handler.cs:149 | an id rendered into a link by C# interpolation parses back to the same id, negative ids included |
| `Strings.IntToStringInjective` | DiscordToTelegramBot/Handler.cs:161-165 | two different ids never render to the same text |
| `Strings.NatToString` | DiscordToTelegramBot/Handler.cs:149 | the decimal rendering is a non-empty string of digits with no leading zero |
| `Strings.SplitJoin` | DiscordToTelegramBot/Handler.cs:148 | joining newline-free option texts with a newline can be undone by splitting on newlines |
| `Translate.AllLinkLinesAppend` | DiscordToTelegramBot/Handler.cs:134-139 | the URL lines of a concatenation of entity lists are those of the first list followed by those of the second |
| `Translate.AllLinkLinesSkipsOthers` | DiscordToTelegramBot/Handler.cs:135 | an entity that is not a text link adds nothing to the video body, wherever it stands |
| `Translate.AllLinkLinesPerLink` | DiscordToTelegramBot/Handler.cs:134-139 | each text link adds exactly one `\nURL: <url>` line, after those of the entities before it and before those after it |
| `Translate.AllLinkLinesEmpty` | DiscordToTelegramBot/Handler.cs:134-139 | the video path appends nothing exactly when no entity is a text link |
| `Translate.PollBodyOptions` | DiscordToTelegramBot/Handler.cs:148 | a poll body is `Poll:\nOptions: ` and the option texts, which can be read back from it when none contains a newline |
| `Translate.PrivateLinkRoundTrip` | DiscordToTelegramBot/Handler.cs:149 | a `https://t.me/c/<chat>/<message>` link names exactly the chat and message it was built from |
| `Translate.PrivateLinkInjective` | DiscordToTelegramBot/Handler.cs:149 | two different posts never get the same vote link |
| `Translate.VoteButton` | DiscordToTelegramBot/Handler.cs:149 | the vote button is labelled "Проголосовать" and its link parses back to the post's chat id and message id |
| `Translate.SourceButton` | DiscordToTelegramBot/Handler.cs:156-167 | a forwarded post's button is "Источник" with `https://t.me/<username>/<fwd id>` when the source chat has a username, else "Источник (приватный)" with a private link that parses back to the source chat id and forwarded message id |
| `Translate.MediaDraft` | DiscordToTelegramBot/Handler.cs:81-142 | the text, photo and video steps throw exactly when the text has an empty entity list, the photo has no sizes, or a photo or video has caption entities while `Entities` is null (or, for a photo, empty); they never add a button |
| `Translate.TextPostBody` | DiscordToTelegramBot/Handler.cs:81-93 | a text post's body is its text plus exactly one `\nURL: <url>` when the first entity is a text link, and nothing more otherwise, with no file and no button |
| `Translate.VideoPostBody` | DiscordToTelegramBot/Handler.cs:122-142 | a video post attaches only the video, and its body is the text body followed by one URL line per text link when caption entities are present; this covers the usual post with no caption entities and null `Entities`, which is mirrored without error |
| `Translate.PhotoPostBody` | DiscordToTelegramBot/Handler.cs:94-117 | a photo post attaches only the largest size; a non-empty caption replaces the text body, and when caption entities are present the first text entity's URL line follows |
| `Translate.SignatureAppended` | DiscordToTelegramBot/Handler.cs:152-153 | outside polls, the mirrored body is the text, photo and video body followed by `\n\nПост от **<signature>**` exactly when the signature is non-empty, with the same attachments |
| `Translate.CaptionOnlyViaPhoto` | DiscordToTelegramBot/Handler.cs:109-110 | without a photo the caption never affects the mirrored message; in particular a video's caption never becomes the body |
| `Translate.PollPostBody` | DiscordToTelegramBot/Handler.cs:144-153 | a poll post's body is the poll body plus the signature line, and its buttons are the vote button, then the source button if forwarded |
| `Translate.PostButtons` | DiscordToTelegramBot/Handler.cs:144-167 | a mirrored post has one vote button per poll and one source button per forward and no other, the source button last |
| `Translate.AuthorUrlIdentifiesSender` | DiscordToTelegramBot/Handler.cs:268-269 | two senders who get the same embed author link have the same username (the link is present exactly when there is a username) |
| `Translate.ReplyRelay` | DiscordToTelegramBot/Handler.cs:267-309 | the embed author is the sender's first name with the sender's link; a text reply is relayed with its text and no file; otherwise the caption is the description and the files are the largest photo size, the video, the voice and the audio, in that order, each when present; the embed has an image exactly for a non-text reply with a photo, and it names the first attached file; it fails exactly when the sender is missing or a non-text reply has an empty photo |
| `Translate.ReplyText` | DiscordToTelegramBot/Handler.cs:68 | the text sent to Telegram is `[Discord]`, then the username, then `\n\n`, then the Discord message's content, each at its own position |
| `Translate.EditIgnoresText` | DiscordToTelegramBot/Handler.cs:206-230 | the text and its entities do not change the edited content, except through the exception an empty entity list raises |
| `Messages.FirstMatch` | DiscordToTelegramBot/Handler.cs:196 | a lookup returns the first row that matches the key, and none only when no row matches |
| `Messages.FirstMatchAppend` | DiscordToTelegramBot/Handler.cs:178-185 | inserting a row never changes a lookup that already had an answer; it only answers lookups that had none and that the new row matches |
| `Messages.FirstMatchTelegramIdOnly` | DiscordToTelegramBot/Handler.cs:249 | a lookup by TelegramId depends on the TelegramId column alone |
| `Messages.ReplyTarget` | DiscordToTelegramBot/Handler.cs:249-252 | a reply is routed to the first row whose TelegramId is the replied-to message's ForwardFromMessageId; it finds none exactly when that id is null or no row has it |
| `Messages.IdsAreKeys` | DiscordToTelegramBot/Handler.cs:178-185 | with autoincrement ids no two rows share an id, and the id the next insert gets is free |
| `Messages.RecordReply` | DiscordToTelegramBot/Handler.cs:254-258 | a reply sets the target row's MessageIdInChat to the reply's own id only if it was 0, and changes no other row and no other column |
| `Messages.RecordRepliesSetsOnce` | DiscordToTelegramBot/Handler.cs:254-258 | over any series of replies with non-zero ids, each row keeps a non-zero MessageIdInChat and otherwise ends with the id of the first reply routed to it; shadowed rows and other columns never change |
| `Bridge.AppendLinkLines` | DiscordToTelegramBot/Handler.cs:134-139 | the foreach appends exactly the URL lines of the text links, in order |
| `Bridge.BuildMedia` | DiscordToTelegramBot/Handler.cs:79-142 | the content and attachments built by successive overwrites and appends are the ones `MediaDraft` specifies, fault included |
| `Bridge.BuildChannelPost` | DiscordToTelegramBot/Handler.cs:79-167 | the imperatively built message, with the poll, signature and source button added, is the one `ChannelPostDraft` specifies, fault included |
| `Bridge.Handler.HandleChannelPost` | DiscordToTelegramBot/Handler.cs:170-188 | on success it sends the mirror to the post channel, opens the thread "Обсуждение" on it, and appends exactly one row (next id, post id, chat id, sent message id, post channel id, thread id, MessageIdInChat 0), with earlier rows unchanged and the new row's id used by none of them; on a fault it does nothing |
| `Bridge.Handler.HandleEditedChannelPost` | DiscordToTelegramBot/Handler.cs:191-236 | with no row for the post no action is taken; otherwise only an edit with a non-empty caption modifies the first matching row's Discord message, with the content `EditedContent` gives; the table is never written |
| `Bridge.Handler.HandleMessage` | DiscordToTelegramBot/Handler.cs:239-312 | a message with no reply-to, or whose replied-to forward id matches no row, changes nothing; otherwise the table becomes `RecordReply` of it, and the relay goes to the row's thread unless building it fails or the thread is not cached |
| `Bridge.Handler.HandleDiscordMessage` | DiscordToTelegramBot/Handler.cs:45-70 | a message is sent to Telegram if and only if the channel is a public, private or news thread, the author is not a bot, the thread is cached, a row has that ThreadId and its channel's linked chat is known; it is then `[Discord]<username>\n\n<content>` replying to that row's MessageIdInChat; a channel that is not a thread, a bot author or a thread with no row returns silently, an uncached thread faults with `InvalidOperationException` and an unknown linked chat with `ApiRequestException`; the table is never written |
| `Bridge.Handler.HandleUpdate` | DiscordToTelegramBot/Handler.cs:71-313 | a channel post is sent, threaded and recorded as in `HandleChannelPost`, an edit modifies the first matching row's message as in `HandleEditedChannelPost` without writing the table, a discussion-chat message records and relays the reply as in `HandleMessage`, and any other update does nothing; whatever the update, the table only grows by one row at its end with MessageIdInChat 0, an existing row only changes by getting a MessageIdInChat where it had 0, and only a channel post adds a row |

## Left out

- Process startup, tokens from the environment, client construction and the
  run-forever loop (`Program.cs`) are not part of this model.
- The EF Core / SQLite configuration (`ApplicationContext.cs`) and the schema
  migration are not modelled. The table is an in-memory sequence. Ids follow
  SQLite's autoincrement with no deletes, so row i has id i + 1. A failing
  `SaveChangesAsync` is not modelled.
- `IHandler.cs` declares an interface and has no behaviour.
- File transfer (`GetFileAsync`, `DownloadFileAsync`,
  `GetInfoAndDownloadFileAsync`, `GetFileStream`, stream seeking) is foreign
  byte I/O. Each file is represented by the name its download reports, and a
  failed download is not modelled.
- The read-only platform calls are not modelled: `GetChannelAsync`,
  `GetMessageAsync`, the unused `GetChatAsync` at line 247, and the two
  `GetChatAsync` calls at lines 65-66. Their results are parameters (the post
  channel id and the linked chat of a channel), and their own failures are
  not modelled.
- The thread's one-hour auto-archive and its audit-log reason are not
  modelled. The thread name is modelled.
- The embed colour (Aquamarine) is a constant and is not modelled.
- Concurrency between the Telegram and Discord event streams, cancellation
  tokens, logging (line 187), `HandleError`, `Dispose` and the unused
  `MessageCache` are not modelled. Each handler runs to completion on its own.
- The C# widths of the ids (`int`, `long`, `ulong`) are not modelled. The
  handler copies and compares them but never computes with them.
- Strings.IntToString: ids are rendered with `-` as the negative sign. C#
  interpolation formats a `long` with the current culture's negative sign,
  which some cultures write differently (U+2212, or with a direction mark).
  The links built from Telegram's negative chat ids are modelled only for a
  culture that uses `-`.
- Bridge.Handler.HandleChannelPost: the outbound calls are taken to succeed.
  Discord refuses a message with no content, file or button, and content over
  2000 characters; the send then throws, leaving no thread and no row. That
  refusal is not modelled, so the model records a row for such posts.
- Bridge.Handler.HandleDiscordMessage: an unknown linked chat is modelled as a
  request fault. The model does not say what the SDK does with the null
  `LinkedChatId` it is then handed.
