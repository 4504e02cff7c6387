/** The Discord side: the message builder the handler fills, the embed it
    sends into threads, and the incoming thread message it routes back. */
module Discord {
  import opened Wrappers

  datatype ChannelType =
    | Text | Private | Voice | Group | Category | News | NewsThread
    | PublicThread | PrivateThread | Stage | Directory | Forum | Unknown

  /** The channel types that HandleDiscordMessage accepts. */
  predicate IsThread(t: ChannelType) {
    t == PublicThread || t == PrivateThread || t == NewsThread
  }

  /** DiscordLinkButtonComponent: target, text and emoji (never disabled). */
  datatype Button = LinkButton(url: string, text: string, emoji: string)

  /** DiscordMessageBuilder as the handler uses it: content (null and "" are
      not told apart), attached file names, link buttons in order. */
  datatype Draft = Draft(content: string, files: seq<string>, buttons: seq<Button>)

  const EmptyDraft := Draft("", [], [])

  /** DiscordEmbedBuilder as the reply handler fills it. */
  datatype Embed = Embed(
    authorName: string,
    authorUrl: Option<string>,
    description: Option<string>,
    imageUrl: Option<string>)

  /** A message-created event: its channel, author and text. */
  datatype DiscordMessage = DiscordMessage(
    channelId: nat,
    channelType: ChannelType,
    authorIsBot: bool,
    authorUsername: string,
    content: string)
}
