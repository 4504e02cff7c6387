/** The event handler: one method per kind of inbound event, each running to
    completion on its own. The messages table is a field that the methods
    append to or update in place; the results of the platform calls the
    handler waits on (the id of the sent message, of the created thread, the
    guild's thread cache, the linked discussion chats) are parameters, and the
    calls it makes are returned as a list of actions. An exception ends a
    handler with a fault after the actions made so far. */
module Bridge {
  import opened Wrappers
  import opened Strings
  import opened Telegram
  import opened Discord
  import opened Messages
  import opened Translate

  /** The outbound platform calls that change something, in order. */
  datatype Action =
    | SendMessage(channelId: nat, message: Draft)
    | CreateThread(messageId: nat, name: string)
    | ModifyMessage(channelId: nat, messageId: nat, content: string)
    | SendTextMessage(chatId: int, text: string, replyToMessageId: int)
    | SendThreadMessage(threadId: nat, relay: Relay)

  /** The foreach of lines 134-139: one URL line per text link, in order. */
  method AppendLinkLines(content: string, es: seq<MessageEntity>) returns (r: string)
    ensures r == content + AllLinkLines(es)
  {
    r := content;
    var i := 0;
    while i < |es|
      invariant 0 <= i <= |es|
      invariant r + AllLinkLines(es[i..]) == content + AllLinkLines(es)
    {
      AllLinkLinesStep(r, es, i);
      if es[i].kind == TextLink {
        r := r + UrlLine(es[i]);
      }
      i := i + 1;
    }
    AllLinkLinesStep(r, es, i);
  }

  /** Lines 79-142: the content variable and the attachments after the
      text, photo and video steps, each overwriting or appending in turn. */
  method BuildMedia(post: Message) returns (r: Result<Draft, Fault>)
    ensures r == MediaDraft(post)
  {
    var content := "";
    var files: seq<string> := [];
    if !IsNullOrEmpty(post.text) {
      content := post.text.value;
      if post.entities.Some? {
        if post.entities.value == [] {
          return Failure(NullReferenceException);
        }
        var first := post.entities.value[0];
        if first.kind == TextLink {
          content := content + UrlLine(first);
        }
      }
    }
    assert TextStage(post) == Success(Draft(content, files, []));
    ghost var afterText := Draft(content, files, []);
    if post.photo.Some? {
      var sizes := post.photo.value;
      if sizes == [] {
        return Failure(InvalidOperationException);
      }
      files := files + [sizes[|sizes| - 1].fileName];
      if !IsNullOrEmpty(post.caption) {
        content := post.caption.value;
      }
      if post.captionEntities.Some? {
        if post.entities.None? {
          return Failure(ArgumentNullException);
        }
        if post.entities.value == [] {
          return Failure(NullReferenceException);
        }
        var first := post.entities.value[0];
        if first.kind == TextLink {
          content := content + UrlLine(first);
        }
      }
    }
    assert PhotoStage(post, afterText) == Success(Draft(content, files, []));
    if post.video.Some? {
      files := files + [post.video.value.fileName];
      if post.captionEntities.Some? {
        if post.entities.None? {
          return Failure(NullReferenceException);
        }
        content := AppendLinkLines(content, post.entities.value);
      }
    }
    r := Success(Draft(content, files, []));
  }

  /** Builds the Discord message for a channel post (lines 79-167): the media
      steps, then the poll, the signature and the source button. */
  method BuildChannelPost(post: Message) returns (r: Result<Draft, Fault>)
    ensures r == ChannelPostDraft(post)
  {
    var media := BuildMedia(post);
    if media.Failure? {
      return media;
    }
    var content, files, buttons := media.value.content, media.value.files, media.value.buttons;
    if post.poll.Some? {
      content := PollBody(post.poll.value);
      buttons := buttons + [VoteButton(post)];
    }
    if !IsNullOrEmpty(post.authorSignature) {
      content := content + SignatureLine(post.authorSignature.value);
    }
    if post.forwardFromChat.Some? {
      buttons := buttons + [SourceButton(post.forwardFromChat.value, post.forwardFromMessageId)];
    }
    r := Success(Draft(content, files, buttons));
  }

  class Handler {
    /** The messages table, in insertion order. */
    var messages: seq<DatabaseMessages>

    ghost predicate Valid()
      reads this
    {
      IdsSequential(messages)
    }

    constructor ()
      ensures Valid() && messages == []
    {
      messages := [];
    }

    /** A new channel post (lines 75-189): send the mirror to the post channel,
        open its discussion thread, and insert one row tying the two together.
        The row is inserted without looking for an existing one. */
    method HandleChannelPost(post: Message, postChannelId: nat, sentMessageId: nat, threadId: nat)
      returns (actions: seq<Action>, fault: Option<Fault>)
      requires Valid()
      modifies this
      ensures Valid()
      ensures ChannelPostDraft(post).Failure? ==>
        actions == [] && fault == Some(ChannelPostDraft(post).error) && messages == old(messages)
      ensures ChannelPostDraft(post).Success? ==>
        && fault == None
        && actions == [SendMessage(postChannelId, ChannelPostDraft(post).value), CreateThread(sentMessageId, ThreadName)]
        && messages == old(messages) + [DatabaseMessages(|old(messages)| + 1, post.messageId, post.chat.id,
                                                         sentMessageId, postChannelId, threadId, 0)]
      ensures ChannelPostDraft(post).Success? ==>
        forall i :: 0 <= i < |old(messages)| ==> old(messages)[i].id != messages[|messages| - 1].id
    {
      IdsAreKeys(messages);
      var draft := BuildChannelPost(post);
      if draft.Failure? {
        return [], Some(draft.error);
      }
      actions := [SendMessage(postChannelId, draft.value), CreateThread(sentMessageId, ThreadName)];
      messages := messages + [DatabaseMessages(|messages| + 1, post.messageId, post.chat.id,
                                               sentMessageId, postChannelId, threadId, 0)];
      fault := None;
    }

    /** An edited channel post (lines 191-236). It reads the table and never
        writes it; the mirrored message is modified only when the edit has a
        caption. */
    method HandleEditedChannelPost(post: Message) returns (actions: seq<Action>, fault: Option<Fault>)
      ensures FirstMatch(messages, ByTelegramId(post.messageId)).None? ==> actions == [] && fault == None
      ensures actions != [] ==> !IsNullOrEmpty(post.caption) && fault == None
      ensures FirstMatch(messages, ByTelegramId(post.messageId)).Some? ==>
        var row := messages[FirstMatch(messages, ByTelegramId(post.messageId)).value];
        match EditedContent(post)
        case Failure(f) => actions == [] && fault == Some(f)
        case Success(None) => actions == [] && fault == None
        case Success(Some(c)) => actions == [ModifyMessage(row.discordChannelId, row.discordId, c)] && fault == None
    {
      actions, fault := [], None;
      var found := FirstMatch(messages, ByTelegramId(post.messageId));
      if found.None? {
        return;
      }
      var row := messages[found.value];
      var content := "";
      if !IsNullOrEmpty(post.text) {
        if post.entities.Some? {
          if post.entities.value == [] {
            fault := Some(InvalidOperationException);
            return;
          }
          var first := post.entities.value[0];
          if first.kind == TextLink {
            content := content + UrlLine(first);
          }
        }
        content := post.text.value + SignatureLine(OrEmpty(post.authorSignature));
      }
      if !IsNullOrEmpty(post.caption) {
        content := post.caption.value + SignatureLine(OrEmpty(post.authorSignature));
        if post.captionEntities.Some? {
          if post.captionEntities.value == [] {
            fault := Some(InvalidOperationException);
            return;
          }
          var first := post.captionEntities.value[0];
          if first.kind == TextLink {
            content := content + UrlLine(first);
          }
        }
        actions := [ModifyMessage(row.discordChannelId, row.discordId, content)];
      }
    }

    /** A message in the discussion chat (lines 239-312). A reply whose
        replied-to message is the forwarded copy of a mirrored post records its
        own id as the row's MessageIdInChat if none is recorded yet, and is
        relayed as an embed into the post's thread. The table is written
        before the relay is built, so it keeps the new id even when the relay
        fails. */
    method HandleMessage(message: Message, guildThreadIds: set<nat>) returns (actions: seq<Action>, fault: Option<Fault>)
      requires Valid()
      modifies this
      ensures Valid()
      ensures message.replyToMessage.None? ==> messages == old(messages) && actions == [] && fault == None
      ensures message.replyToMessage.Some? ==>
        var event := ReplyEvent(message.replyToMessage.value.forwardFromMessageId, message.messageId);
        && messages == RecordReply(old(messages), event)
        && match ReplyTarget(old(messages), event)
           case None => actions == [] && fault == None
           case Some(k) =>
             match ReplyRelay(message)
             case Failure(f) => actions == [] && fault == Some(f)
             case Success(relay) =>
               if messages[k].threadId in guildThreadIds then
                 actions == [SendThreadMessage(messages[k].threadId, relay)] && fault == None
               else
                 actions == [] && fault == Some(NullReferenceException)
    {
      actions, fault := [], None;
      if message.replyToMessage.None? {
        return;
      }
      var event := ReplyEvent(message.replyToMessage.value.forwardFromMessageId, message.messageId);
      var found := ReplyTarget(messages, event);
      if found.None? {
        return;
      }
      var k := found.value;
      if messages[k].messageIdInChat == 0 {
        messages := messages[k := messages[k].(messageIdInChat := message.messageId)];
      }
      var row := messages[k];
      var relay := ReplyRelay(message);
      if relay.Failure? {
        fault := Some(relay.error);
        return;
      }
      if row.threadId !in guildThreadIds {
        fault := Some(NullReferenceException);
        return;
      }
      actions := [SendThreadMessage(row.threadId, relay.value)];
    }

    /** A message created on Discord (lines 45-70): a human's message in a
        thread that mirrors a post goes to the post's linked discussion chat,
        as a reply to the copy recorded in MessageIdInChat. The table is only
        read. */
    method HandleDiscordMessage(m: DiscordMessage, guildThreadIds: set<nat>, linkedChats: map<int, int>)
      returns (actions: seq<Action>, fault: Option<Fault>)
      ensures !IsThread(m.channelType) || m.authorIsBot ==> actions == [] && fault == None
      ensures IsThread(m.channelType) && !m.authorIsBot && m.channelId !in guildThreadIds ==>
        actions == [] && fault == Some(InvalidOperationException)
      ensures IsThread(m.channelType) && !m.authorIsBot && m.channelId in guildThreadIds
              && FirstMatch(messages, ByThreadId(m.channelId)).None? ==>
        actions == [] && fault == None
      ensures IsThread(m.channelType) && !m.authorIsBot && m.channelId in guildThreadIds
              && FirstMatch(messages, ByThreadId(m.channelId)).Some?
              && messages[FirstMatch(messages, ByThreadId(m.channelId)).value].telegramChannelId !in linkedChats ==>
        actions == [] && fault == Some(ApiRequestException)
      ensures actions != [] <==>
        && IsThread(m.channelType) && !m.authorIsBot && m.channelId in guildThreadIds
        && FirstMatch(messages, ByThreadId(m.channelId)).Some?
        && messages[FirstMatch(messages, ByThreadId(m.channelId)).value].telegramChannelId in linkedChats
      ensures actions != [] ==>
        var row := messages[FirstMatch(messages, ByThreadId(m.channelId)).value];
        && fault == None
        && actions == [SendTextMessage(linkedChats[row.telegramChannelId], ReplyText(m.authorUsername, m.content),
                                       row.messageIdInChat)]
    {
      actions, fault := [], None;
      if m.channelType != PublicThread && m.channelType != PrivateThread && m.channelType != NewsThread {
        return;
      }
      if m.authorIsBot {
        return;
      }
      if m.channelId !in guildThreadIds {
        // the null thread's Id is read while EF Core evaluates the query's
        // parameters, which rethrows it as an InvalidOperationException
        fault := Some(InvalidOperationException);
        return;
      }
      var found := FirstMatch(messages, ByThreadId(m.channelId));
      if found.None? {
        return;
      }
      var row := messages[found.value];
      if row.telegramChannelId !in linkedChats {
        fault := Some(ApiRequestException);
        return;
      }
      actions := [SendTextMessage(linkedChats[row.telegramChannelId], ReplyText(m.authorUsername, m.content),
                                  row.messageIdInChat)];
    }

    /** HandleUpdateAsync: dispatch on the update's type. Whatever the update,
        the table only grows by one row at its end, and an existing row only
        changes by getting a MessageIdInChat it did not have. */
    method HandleUpdate(update: Update, postChannelId: nat, sentMessageId: nat, threadId: nat, guildThreadIds: set<nat>)
      returns (actions: seq<Action>, fault: Option<Fault>)
      requires Valid()
      modifies this
      ensures Valid()
      ensures Evolves(old(messages), messages)
      ensures !update.ChannelPost? ==> |messages| == |old(messages)|
      ensures update.OtherUpdate? ==> messages == old(messages) && actions == [] && fault == None
      ensures update.ChannelPost? ==>
        match ChannelPostDraft(update.post)
        case Failure(f) => actions == [] && fault == Some(f) && messages == old(messages)
        case Success(draft) =>
          && fault == None
          && actions == [SendMessage(postChannelId, draft), CreateThread(sentMessageId, ThreadName)]
          && messages == old(messages) + [DatabaseMessages(|old(messages)| + 1, update.post.messageId, update.post.chat.id,
                                                           sentMessageId, postChannelId, threadId, 0)]
      ensures update.EditedChannelPost? ==>
        && messages == old(messages)
        && match FirstMatch(messages, ByTelegramId(update.post.messageId))
           case None => actions == [] && fault == None
           case Some(k) =>
             match EditedContent(update.post)
             case Failure(f) => actions == [] && fault == Some(f)
             case Success(None) => actions == [] && fault == None
             case Success(Some(c)) => actions == [ModifyMessage(messages[k].discordChannelId, messages[k].discordId, c)] && fault == None
      ensures update.NewMessage? && update.message.replyToMessage.None? ==>
        messages == old(messages) && actions == [] && fault == None
      ensures update.NewMessage? && update.message.replyToMessage.Some? ==>
        var event := ReplyEvent(update.message.replyToMessage.value.forwardFromMessageId, update.message.messageId);
        && messages == RecordReply(old(messages), event)
        && match ReplyTarget(old(messages), event)
           case None => actions == [] && fault == None
           case Some(k) =>
             match ReplyRelay(update.message)
             case Failure(f) => actions == [] && fault == Some(f)
             case Success(relay) =>
               if messages[k].threadId in guildThreadIds then
                 actions == [SendThreadMessage(messages[k].threadId, relay)] && fault == None
               else
                 actions == [] && fault == Some(NullReferenceException)
    {
      match update
      case ChannelPost(post) =>
        actions, fault := HandleChannelPost(post, postChannelId, sentMessageId, threadId);
      case EditedChannelPost(post) =>
        actions, fault := HandleEditedChannelPost(post);
      case NewMessage(message) =>
        actions, fault := HandleMessage(message, guildThreadIds);
      case OtherUpdate =>
        actions, fault := [], None;
    }
  }
}
