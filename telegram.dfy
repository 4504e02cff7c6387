/** The parts of Telegram.Bot's Update and Message objects that the handler
    reads, reduced to plain data. Every nullable field of the SDK object is an
    Option here; file downloads are reduced to the file name the download
    resolves. */
module Telegram {
  import opened Wrappers

  datatype MessageEntityType =
    | Mention | Hashtag | Cashtag | BotCommand | Url | Email | PhoneNumber
    | Bold | Italic | Underline | Strikethrough | Spoiler | Code | Pre
    | TextLink | TextMention | CustomEmoji

  /** A formatting span of a text or caption; `url` is set for text links. */
  datatype MessageEntity = MessageEntity(kind: MessageEntityType, url: Option<string>)

  datatype Chat = Chat(id: int, username: Option<string>)

  datatype User = User(firstName: string, username: Option<string>)

  /** A downloadable file: its id, and the file name of the path the download
      reports (what `Path.GetFileName(file.FilePath)` yields). */
  datatype FileRef = FileRef(fileId: string, fileName: string)

  datatype Message = Message(
    messageId: int,
    chat: Chat,
    from: Option<User>,
    text: Option<string>,
    entities: Option<seq<MessageEntity>>,
    caption: Option<string>,
    captionEntities: Option<seq<MessageEntity>>,
    photo: Option<seq<FileRef>>,        // the sizes of a photo, smallest first
    video: Option<FileRef>,
    audio: Option<FileRef>,
    voice: Option<FileRef>,
    poll: Option<seq<string>>,          // the texts of the poll's options
    authorSignature: Option<string>,
    forwardFromChat: Option<Chat>,
    forwardFromMessageId: Option<int>,
    replyToMessage: Option<Message>)

  /** An update, tagged by its `Type`; the handler ignores every other kind. */
  datatype Update =
    | ChannelPost(post: Message)
    | EditedChannelPost(post: Message)
    | NewMessage(message: Message)
    | OtherUpdate

  /** string.IsNullOrEmpty */
  predicate IsNullOrEmpty(s: Option<string>) {
    s.None? || s.value == ""
  }
}
