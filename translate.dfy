/** How the handler turns Telegram messages into Discord content and back:
    the text pieces, the links and buttons, and, stage by stage, the content a
    channel post, an edited post and a reply produce. These functions are the
    specifications the handler's methods are proved against. */
module Translate {
  import opened Wrappers
  import opened Strings
  import opened Telegram
  import opened Discord

  /** The .NET exceptions the handler can raise on the way to its outbound
      calls. Each ends the handler; what the platform client then does with
      the exception is not modelled. */
  datatype Fault =
    | NullReferenceException      // a member read through a null reference
    | ArgumentNullException       // a LINQ operator applied to a null sequence
    | InvalidOperationException   // First() or Last() of an empty sequence
    | ApiRequestException         // a platform request that cannot be served

  const VoteText := "Проголосовать"
  const SourceText := "Источник"
  const PrivateSourceText := "Источник (приватный)"
  const ButtonEmoji := "\U{2708}\U{FE0F}"
  const ThreadName := "Обсуждение"

  // ---- text pieces ---------------------------------------------------------

  /** `\nURL: {entity.Url}` */
  function UrlLine(e: MessageEntity): string {
    "\nURL: " + OrEmpty(e.url)
  }

  /** What one entity contributes: a URL line if it is a text link. */
  function LinkLine(e: MessageEntity): string {
    if e.kind == TextLink then UrlLine(e) else ""
  }

  /** The URL lines of every text link, in order (the video path). */
  function AllLinkLines(es: seq<MessageEntity>): string
    decreases |es|
  {
    if es == [] then "" else LinkLine(es[0]) + AllLinkLines(es[1..])
  }

  lemma {:induction false} AllLinkLinesAppend(a: seq<MessageEntity>, b: seq<MessageEntity>)
    ensures AllLinkLines(a + b) == AllLinkLines(a) + AllLinkLines(b)
    decreases |a|
  {
    if a != [] {
      assert (a + b)[0] == a[0] && (a + b)[1..] == a[1..] + b;
      AllLinkLinesAppend(a[1..], b);
    } else {
      assert a + b == b;
    }
  }

  /** One step of a left-to-right walk over the entities, accumulating in `r`. */
  lemma AllLinkLinesStep(r: string, es: seq<MessageEntity>, i: nat)
    requires i <= |es|
    ensures i == |es| ==> r + AllLinkLines(es[i..]) == r
    ensures i < |es| && es[i].kind == TextLink ==>
      (r + UrlLine(es[i])) + AllLinkLines(es[i + 1..]) == r + AllLinkLines(es[i..])
    ensures i < |es| && es[i].kind != TextLink ==>
      r + AllLinkLines(es[i + 1..]) == r + AllLinkLines(es[i..])
  {
    if i < |es| {
      assert es[i..][0] == es[i] && es[i..][1..] == es[i + 1..];
      var rest := AllLinkLines(es[i + 1..]);
      assert (r + UrlLine(es[i])) + rest == r + (UrlLine(es[i]) + rest);
    } else {
      assert r + "" == r;
    }
  }

  /** An entity that is not a text link adds nothing, wherever it stands. */
  lemma {:induction false} AllLinkLinesSkipsOthers(a: seq<MessageEntity>, e: MessageEntity, b: seq<MessageEntity>)
    requires e.kind != TextLink
    ensures AllLinkLines(a + [e] + b) == AllLinkLines(a + b)
  {
    AllLinkLinesAppend(a + [e], b);
    AllLinkLinesAppend(a, [e]);
    AllLinkLinesAppend(a, b);
  }

  /** A text link adds exactly its own URL line, between those of the
      entities before it and those after it. */
  lemma {:induction false} AllLinkLinesPerLink(a: seq<MessageEntity>, e: MessageEntity, b: seq<MessageEntity>)
    requires e.kind == TextLink
    ensures AllLinkLines(a + [e] + b) == AllLinkLines(a) + "\nURL: " + OrEmpty(e.url) + AllLinkLines(b)
  {
    AllLinkLinesAppend(a + [e], b);
    AllLinkLinesAppend(a, [e]);
  }

  /** Nothing is appended exactly when there is no text link. */
  lemma {:induction false} AllLinkLinesEmpty(es: seq<MessageEntity>)
    ensures AllLinkLines(es) == "" <==> forall i :: 0 <= i < |es| ==> es[i].kind != TextLink
    decreases |es|
  {
    if es != [] {
      AllLinkLinesEmpty(es[1..]);
      if es[0].kind == TextLink {
        assert |UrlLine(es[0])| > 0;
      } else {
        forall i | 1 <= i < |es| ensures es[i] == es[1..][i - 1] { }
      }
    }
  }

  /** `\n\nПост от **{signature}**` */
  function SignatureLine(signature: string): string {
    "\n\nПост от **" + signature + "**"
  }

  /** `Poll:\nOptions: ` and the option texts joined by newlines. */
  const PollPrefix := "Poll:\nOptions: "

  function PollBody(options: seq<string>): string {
    PollPrefix + Join("\n", options)
  }

  /** The option texts can be read back from a poll body when none of them
      contains a newline. */
  lemma PollBodyOptions(options: seq<string>)
    requires 1 <= |options|
    requires forall i :: 0 <= i < |options| ==> '\n' !in options[i]
    ensures |PollPrefix| <= |PollBody(options)| && PollBody(options)[..|PollPrefix|] == PollPrefix
    ensures Split(PollBody(options)[|PollPrefix|..], '\n') == options
  {
    var body := PollBody(options);
    assert body[|PollPrefix|..] == Join("\n", options);
    SplitJoin(options, '\n');
  }

  // ---- links and buttons ---------------------------------------------------

  const PrivatePrefix := "https://t.me/c/"

  /** `https://t.me/c/{chatId}/{messageId}` */
  function PrivateLink(chatId: int, messageId: string): string {
    PrivatePrefix + IntToString(chatId) + "/" + messageId
  }

  /** `https://t.me/{username}/{messageId}` */
  function PublicLink(username: string, messageId: string): string {
    "https://t.me/" + username + "/" + messageId
  }

  /** Reads chat id and message id back out of a private link. */
  function ParsePrivateLink(s: string): Option<(int, int)> {
    if |s| < |PrivatePrefix| || s[..|PrivatePrefix|] != PrivatePrefix then None
    else
      var rest := s[|PrivatePrefix|..];
      match IndexOf(rest, '/')
      case None => None
      case Some(i) =>
        match (ParseInt(rest[..i]), ParseInt(rest[i + 1..]))
        case (Some(c), Some(m)) => Some((c, m))
        case _ => None
  }

  /** A private link names exactly the chat and the message it was built
      from, negative chat ids included. */
  lemma PrivateLinkRoundTrip(chatId: int, messageId: int)
    ensures ParsePrivateLink(PrivateLink(chatId, IntToString(messageId))) == Some((chatId, messageId))
  {
    var c := IntToString(chatId);
    var m := IntToString(messageId);
    var rest := c + "/" + m;
    var s := PrivateLink(chatId, m);
    assert s == PrivatePrefix + rest;
    assert s[..|PrivatePrefix|] == PrivatePrefix && s[|PrivatePrefix|..] == rest;
    NoSlashInInt(chatId);
    IndexOfSeparator(c, '/', m);
    assert rest[..|c|] == c && rest[|c| + 1..] == m;
    IntToStringRoundTrip(chatId);
    IntToStringRoundTrip(messageId);
  }

  lemma NoSlashInInt(n: int)
    ensures '/' !in IntToString(n)
  {
    var c := IntToString(n);
    if n >= 0 {
      assert AllDigits(c);
    } else {
      var d := NatToString(-n);
      assert c == "-" + d;
      assert forall i :: 1 <= i < |c| ==> c[i] == d[i - 1];
    }
  }

  /** Different posts never share a vote link. */
  lemma PrivateLinkInjective(c1: int, m1: int, c2: int, m2: int)
    requires PrivateLink(c1, IntToString(m1)) == PrivateLink(c2, IntToString(m2))
    ensures c1 == c2 && m1 == m2
  {
    PrivateLinkRoundTrip(c1, m1);
    PrivateLinkRoundTrip(c2, m2);
  }

  /** The "vote" button of a poll post, linking to the post itself. */
  function VoteButton(post: Message): (b: Button)
    ensures ParsePrivateLink(b.url) == Some((post.chat.id, post.messageId))
    ensures b.text == VoteText
  {
    PrivateLinkRoundTrip(post.chat.id, post.messageId);
    LinkButton(PrivateLink(post.chat.id, IntToString(post.messageId)), VoteText, ButtonEmoji)
  }

  /** The "source" button of a forwarded post: a public link when the source
      chat has a username, otherwise a private link, labelled as such. */
  function SourceButton(source: Chat, forwardFromMessageId: Option<int>): (b: Button)
    ensures b.text == (if source.username.Some? then SourceText else PrivateSourceText)
    ensures source.username.Some? ==>
      b.url == "https://t.me/" + source.username.value + "/" + OptIntToString(forwardFromMessageId)
    ensures source.username.None? && forwardFromMessageId.Some? ==>
      ParsePrivateLink(b.url) == Some((source.id, forwardFromMessageId.value))
  {
    match source.username
    case Some(name) =>
      LinkButton(PublicLink(name, OptIntToString(forwardFromMessageId)), SourceText, ButtonEmoji)
    case None =>
      var b := LinkButton(PrivateLink(source.id, OptIntToString(forwardFromMessageId)), PrivateSourceText, ButtonEmoji);
      assert forwardFromMessageId.Some? ==> ParsePrivateLink(b.url) == Some((source.id, forwardFromMessageId.value)) by {
        if forwardFromMessageId.Some? {
          PrivateLinkRoundTrip(source.id, forwardFromMessageId.value);
        }
      }
      b
  }

  // ---- channel posts ---------------------------------------------------------

  /** Lines 81-93: the text, and a URL line if the first entity is a text
      link. FirstOrDefault() of an empty entity list is null, and reading
      its Type throws. */
  function TextStage(post: Message): Result<Draft, Fault> {
    if IsNullOrEmpty(post.text) then Success(EmptyDraft)
    else match post.entities
      case None => Success(EmptyDraft.(content := post.text.value))
      case Some(es) =>
        if es == [] then Failure(NullReferenceException)
        else if es[0].kind == TextLink then Success(EmptyDraft.(content := post.text.value + UrlLine(es[0])))
        else Success(EmptyDraft.(content := post.text.value))
  }

  /** Lines 95-120: attach the largest size; a non-empty caption replaces the
      body; when caption entities are present the first of the TEXT entities
      decides the URL line. */
  function PhotoStage(post: Message, d: Draft): Result<Draft, Fault> {
    match post.photo
    case None => Success(d)
    case Some(sizes) =>
      if sizes == [] then Failure(InvalidOperationException)
      else
        var body := if IsNullOrEmpty(post.caption) then d.content else post.caption.value;
        var withFile := d.(content := body, files := d.files + [sizes[|sizes| - 1].fileName]);
        if post.captionEntities.None? then Success(withFile)
        else match post.entities
          case None => Failure(ArgumentNullException)
          case Some(es) =>
            if es == [] then Failure(NullReferenceException)
            else if es[0].kind == TextLink then Success(withFile.(content := body + UrlLine(es[0])))
            else Success(withFile)
  }

  /** Lines 122-142: attach the video; when caption entities are present,
      one URL line per text link of the TEXT entities. The caption is not
      read. */
  function VideoStage(post: Message, d: Draft): Result<Draft, Fault> {
    match post.video
    case None => Success(d)
    case Some(v) =>
      var withFile := d.(files := d.files + [v.fileName]);
      if post.captionEntities.None? then Success(withFile)
      else match post.entities
        case None => Failure(NullReferenceException)
        case Some(es) => Success(withFile.(content := d.content + AllLinkLines(es)))
  }

  /** Lines 144-150: the poll body replaces the content; a vote button is added. */
  function PollStage(post: Message, d: Draft): Draft {
    match post.poll
    case None => d
    case Some(options) => d.(content := PollBody(options), buttons := d.buttons + [VoteButton(post)])
  }

  /** Lines 152-153 */
  function SignatureStage(post: Message, d: Draft): Draft {
    if IsNullOrEmpty(post.authorSignature) then d
    else d.(content := d.content + SignatureLine(post.authorSignature.value))
  }

  /** Lines 156-167 */
  function ForwardStage(post: Message, d: Draft): Draft {
    match post.forwardFromChat
    case None => d
    case Some(source) => d.(buttons := d.buttons + [SourceButton(source, post.forwardFromMessageId)])
  }

  /** Lines 81-142: text, photo and video, the stages that can throw. They
      throw exactly when the text has an empty entity list, the photo has no
      sizes, or a photo or video has caption entities while the text entities
      it reads instead are null (or, for a photo, empty). None of them adds a
      button. */
  function MediaDraft(post: Message): (r: Result<Draft, Fault>)
    ensures r.Failure? <==>
      || (!IsNullOrEmpty(post.text) && post.entities == Some([]))
      || post.photo == Some([])
      || (post.photo.Some? && post.captionEntities.Some? && (post.entities.None? || post.entities == Some([])))
      || (post.video.Some? && post.captionEntities.Some? && post.entities.None?)
    ensures r.Success? ==> r.value.buttons == []
  {
    var d0 :- TextStage(post);
    var d1 :- PhotoStage(post, d0);
    VideoStage(post, d1)
  }

  /** The message a channel post is mirrored as, or the exception that stops it. */
  function ChannelPostDraft(post: Message): Result<Draft, Fault> {
    var d :- MediaDraft(post);
    Success(ForwardStage(post, SignatureStage(post, PollStage(post, d))))
  }

  /** A text post: the body is the text, followed by one URL line when the
      first entity is a text link and by nothing otherwise. */
  lemma TextPostBody(post: Message)
    requires !IsNullOrEmpty(post.text) && post.entities != Some([])
    requires post.photo.None? && post.video.None? && post.poll.None?
    requires IsNullOrEmpty(post.authorSignature) && post.forwardFromChat.None?
    ensures ChannelPostDraft(post) == Success(Draft(
      if post.entities.Some? && post.entities.value[0].kind == TextLink
      then post.text.value + "\nURL: " + OrEmpty(post.entities.value[0].url)
      else post.text.value, [], []))
  {
    var d := TextStage(post).value;
    assert PhotoStage(post, d) == Success(d) && VideoStage(post, d) == Success(d);
    if post.entities.Some? && post.entities.value[0].kind == TextLink {
      var t, u := post.text.value, OrEmpty(post.entities.value[0].url);
      assert d.content == t + ("\nURL: " + u) == t + "\nURL: " + u;
    }
  }

  /** A video post: the video is attached, and when caption entities are
      present every text link of the text entities adds its URL line to the
      text body (AllLinkLinesPerLink, AllLinkLinesSkipsOthers). */
  lemma VideoPostBody(post: Message)
    requires post.video.Some? && post.photo.None? && post.poll.None?
    requires IsNullOrEmpty(post.authorSignature)
    requires TextStage(post).Success? && (post.captionEntities.Some? ==> post.entities.Some?)
    ensures ChannelPostDraft(post).Success?
    ensures ChannelPostDraft(post).value.files == [post.video.value.fileName]
    ensures ChannelPostDraft(post).value.content ==
      TextStage(post).value.content + (if post.captionEntities.Some? then AllLinkLines(post.entities.value) else "")
  {
  }

  /** A photo post: the largest size is attached, a non-empty caption
      replaces the text body, and when caption entities are present the
      first TEXT entity decides whether a URL line follows. */
  lemma PhotoPostBody(post: Message)
    requires post.photo.Some? && post.photo.value != []
    requires post.video.None? && post.poll.None? && IsNullOrEmpty(post.authorSignature)
    requires ChannelPostDraft(post).Success?
    ensures ChannelPostDraft(post).value.files == [post.photo.value[|post.photo.value| - 1].fileName]
    ensures ChannelPostDraft(post).value.content ==
      (if IsNullOrEmpty(post.caption) then TextStage(post).value.content else post.caption.value)
      + (if post.captionEntities.Some? then LinkLine(post.entities.value[0]) else "")
  {
    var body := if IsNullOrEmpty(post.caption) then TextStage(post).value.content else post.caption.value;
    assert body + "" == body;
  }

  /** Outside polls, the body of a mirrored post is the body the text, photo
      and video steps built, followed by the signature line exactly when the
      signature is non-empty; the attachments are theirs unchanged. */
  lemma SignatureAppended(post: Message)
    requires post.poll.None? && ChannelPostDraft(post).Success?
    ensures ChannelPostDraft(post).value.files == MediaDraft(post).value.files
    ensures ChannelPostDraft(post).value.content == MediaDraft(post).value.content +
      (if IsNullOrEmpty(post.authorSignature) then "" else SignatureLine(post.authorSignature.value))
  {
    var c := MediaDraft(post).value.content;
    assert c + "" == c;
  }

  /** Only the photo path reads the caption: without a photo, the caption
      never reaches the mirrored message. */
  lemma CaptionOnlyViaPhoto(post: Message, caption: Option<string>)
    requires post.photo.None?
    ensures ChannelPostDraft(post.(caption := caption)) == ChannelPostDraft(post)
  {
    var other := post.(caption := caption);
    assert TextStage(other) == TextStage(post);
    assert MediaDraft(other) == MediaDraft(post);
  }

  /** A poll post: the body is the poll body (then the signature line) and the
      first button is the vote button for the post; a forwarded poll gets the
      source button after it. */
  lemma PollPostBody(post: Message)
    requires post.poll.Some? && ChannelPostDraft(post).Success?
    ensures ChannelPostDraft(post).value.content ==
      PollBody(post.poll.value) + (if IsNullOrEmpty(post.authorSignature) then "" else SignatureLine(post.authorSignature.value))
    ensures ChannelPostDraft(post).value.buttons ==
      [VoteButton(post)] + (if post.forwardFromChat.Some? then [SourceButton(post.forwardFromChat.value, post.forwardFromMessageId)] else [])
  {
    var d := MediaDraft(post).value;
    assert PollStage(post, d) == d.(content := PollBody(post.poll.value), buttons := [VoteButton(post)]);
  }

  /** Buttons: one vote button for a poll, then one source button for a
      forward, and nothing else. */
  lemma PostButtons(post: Message)
    requires ChannelPostDraft(post).Success?
    ensures |ChannelPostDraft(post).value.buttons| == (if post.poll.Some? then 1 else 0) + (if post.forwardFromChat.Some? then 1 else 0)
    ensures post.forwardFromChat.Some? ==>
      var bs := ChannelPostDraft(post).value.buttons;
      bs[|bs| - 1] == SourceButton(post.forwardFromChat.value, post.forwardFromMessageId)
  {
  }

  // ---- edited posts ----------------------------------------------------------

  /** Lines 207-235: the content the edit puts on the mirrored message, None
      when it modifies nothing. Only a non-empty caption leads to a modify;
      the URL line the text path appends is overwritten right after, so the
      text contributes nothing but its exception on an empty entity list. */
  function EditedContent(post: Message): Result<Option<string>, Fault> {
    if !IsNullOrEmpty(post.text) && post.entities == Some([]) then Failure(InvalidOperationException)
    else if IsNullOrEmpty(post.caption) then Success(None)
    else match post.captionEntities
      case None => Success(Some(post.caption.value + SignatureLine(OrEmpty(post.authorSignature))))
      case Some(es) =>
        if es == [] then Failure(InvalidOperationException)
        else if es[0].kind == TextLink then
          Success(Some(post.caption.value + SignatureLine(OrEmpty(post.authorSignature)) + UrlLine(es[0])))
        else Success(Some(post.caption.value + SignatureLine(OrEmpty(post.authorSignature))))
  }

  /** The URL line the text path of an edit appends is overwritten: the
      text and its entities decide nothing about the edit beyond the
      exception an empty entity list raises. */
  lemma EditIgnoresText(post: Message, text: Option<string>, entities: Option<seq<MessageEntity>>)
    requires !(!IsNullOrEmpty(post.text) && post.entities == Some([]))
    requires !(!IsNullOrEmpty(text) && entities == Some([]))
    ensures EditedContent(post.(text := text, entities := entities)) == EditedContent(post)
  {
  }

  // ---- replies in the discussion chat ---------------------------------------

  /** The embed and attachments a reply is relayed with (lines 267-309). */
  datatype Relay = Relay(embed: Embed, files: seq<string>)

  /** `https://t.me/{username}` when the sender has a username. */
  function AuthorUrl(user: User): (r: Option<string>)
    ensures r.Some? <==> user.username.Some?
    ensures r.Some? ==> r.value == "https://t.me/" + user.username.value
  {
    match user.username
    case Some(name) => Some("https://t.me/" + name)
    case None => None
  }

  /** The sender's link names the sender: two senders with the same link
      have the same username. */
  lemma AuthorUrlIdentifiesSender(u1: User, u2: User)
    requires AuthorUrl(u1) == AuthorUrl(u2)
    ensures u1.username == u2.username
  {
    if u1.username.Some? {
      var prefix := "https://t.me/";
      assert AuthorUrl(u1).value[|prefix|..] == u1.username.value;
      assert AuthorUrl(u2).value[|prefix|..] == u2.username.value;
    }
  }

  /** The file name of an optional attachment, as a list of zero or one. */
  function Attached(f: Option<FileRef>): seq<string> {
    match f
    case Some(file) => [file.fileName]
    case None => []
  }

  /** The file name of a photo's largest size (the last one), if any. */
  function LargestPhoto(photo: Option<seq<FileRef>>): seq<string> {
    match photo
    case Some(sizes) => if sizes == [] then [] else [sizes[|sizes| - 1].fileName]
    case None => []
  }

  /** Lines 267-309: the sender as author; the text as description, or else
      the caption with the photo (largest size, also shown as the image),
      video, voice and audio attached in that order. */
  function ReplyRelay(m: Message): (r: Result<Relay, Fault>)
    ensures r.Success? ==>
      && m.from.Some?
      && r.value.embed.authorName == m.from.value.firstName
      && r.value.embed.authorUrl == AuthorUrl(m.from.value)
    ensures r.Success? && m.text.Some? ==> r.value.files == [] && r.value.embed.description == m.text
    ensures r.Success? && m.text.None? ==> r.value.embed.description == m.caption
    ensures r.Success? && m.text.None? ==>
      r.value.files == LargestPhoto(m.photo) + Attached(m.video) + Attached(m.voice) + Attached(m.audio)
    ensures r.Success? ==> (r.value.embed.imageUrl.Some? <==> m.text.None? && m.photo.Some?)
    ensures r.Success? ==> |r.value.files| <= 4
    ensures r.Success? && r.value.embed.imageUrl.Some? ==>
      r.value.files != [] && r.value.embed.imageUrl.value == "attachment://" + r.value.files[0]
    ensures r.Failure? <==> m.from.None? || (m.text.None? && m.photo == Some([]))
  {
    match m.from
    case None => Failure(NullReferenceException)
    case Some(user) =>
      var embed := Embed(user.firstName, AuthorUrl(user), None, None);
      if m.text.Some? then Success(Relay(embed.(description := m.text), []))
      else if m.caption.None? && m.photo.None? && m.audio.None? && m.video.None? && m.voice.None? then
        Success(Relay(embed, []))
      else if m.photo == Some([]) then Failure(InvalidOperationException)
      else
        var photo := if m.photo.Some? then [m.photo.value[|m.photo.value| - 1].fileName] else [];
        var image := if m.photo.Some? then Some("attachment://" + photo[0]) else None;
        var video := if m.video.Some? then [m.video.value.fileName] else [];
        var voice := if m.voice.Some? then [m.voice.value.fileName] else [];
        var audio := if m.audio.Some? then [m.audio.value.fileName] else [];
        Success(Relay(embed.(description := m.caption, imageUrl := image), photo + video + voice + audio))
  }

  // ---- Discord thread messages ----------------------------------------------

  /** `[Discord]{username}\n\n{content}` (line 68). */
  function ReplyText(username: string, content: string): (s: string)
    ensures |s| == 9 + |username| + 2 + |content|
    ensures s[..9] == "[Discord]" && s[|s| - |content|..] == content
    ensures s[9..9 + |username|] == username && s[9 + |username|..11 + |username|] == "\n\n"
  {
    "[Discord]" + username + "\n\n" + content
  }
}
