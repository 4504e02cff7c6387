/** The `messages` table (DatabaseMessages) as an in-memory sequence of rows in
    insertion order, with the first-match queries the handler runs on it and
    the one in-place field update it makes. */
module Messages {
  import opened Wrappers

  /** One row. The C# column widths (int, long, ulong) are not modelled: the
      values are copied from platform ids and never computed with. */
  datatype DatabaseMessages = DatabaseMessages(
    id: nat,
    telegramId: int,
    telegramChannelId: int,
    discordId: nat,
    discordChannelId: nat,
    threadId: nat,
    messageIdInChat: int)

  /** The column a query filters on. */
  datatype Key = ByTelegramId(telegramId: int) | ByThreadId(threadId: nat)

  predicate Matches(row: DatabaseMessages, key: Key) {
    match key
    case ByTelegramId(t) => row.telegramId == t
    case ByThreadId(t) => row.threadId == t
  }

  /** FirstOrDefaultAsync(m => ...): the index of the first matching row. */
  function FirstMatch(rows: seq<DatabaseMessages>, key: Key): (r: Option<nat>)
    ensures r.Some? ==> r.value < |rows| && Matches(rows[r.value], key)
    ensures r.Some? ==> forall j :: 0 <= j < r.value ==> !Matches(rows[j], key)
    ensures r.None? ==> forall j :: 0 <= j < |rows| ==> !Matches(rows[j], key)
  {
    if rows == [] then None
    else if Matches(rows[0], key) then Some(0)
    else match FirstMatch(rows[1..], key)
      case None => None
      case Some(i) => Some(i + 1)
  }

  /** Inserting a row never changes the answer of a query that already had
      one: with no duplicate check on insert, a second row for the same post
      stays hidden behind the first. */
  lemma {:induction false} FirstMatchAppend(rows: seq<DatabaseMessages>, row: DatabaseMessages, key: Key)
    ensures FirstMatch(rows + [row], key) ==
      if FirstMatch(rows, key).Some? then FirstMatch(rows, key)
      else if Matches(row, key) then Some(|rows|)
      else None
    decreases |rows|
  {
    if rows != [] {
      assert (rows + [row])[1..] == rows[1..] + [row];
      FirstMatchAppend(rows[1..], row, key);
    }
  }

  /** The autoincrement key: rows are never deleted, so row i has id i + 1. */
  ghost predicate IdsSequential(rows: seq<DatabaseMessages>) {
    forall i :: 0 <= i < |rows| ==> rows[i].id == i + 1
  }

  /** Under the autoincrement key the ids are a key of the table, and the id
      the next insert gets is used by no row. */
  lemma IdsAreKeys(rows: seq<DatabaseMessages>)
    requires IdsSequential(rows)
    ensures forall i, j :: 0 <= i < |rows| && 0 <= j < |rows| && rows[i].id == rows[j].id ==> i == j
    ensures forall i :: 0 <= i < |rows| ==> rows[i].id != |rows| + 1
  {
  }

  /** How the table may change in one event: at most one row appended, with no
      MessageIdInChat yet, and an existing row changed only by getting a
      MessageIdInChat where it had none. */
  ghost predicate Evolves(before: seq<DatabaseMessages>, after: seq<DatabaseMessages>) {
    && |before| <= |after| <= |before| + 1
    && (forall j :: |before| <= j < |after| ==> after[j].messageIdInChat == 0)
    && (forall j :: 0 <= j < |before| ==>
          after[j] == before[j] || (before[j].messageIdInChat == 0 && after[j] == before[j].(messageIdInChat := after[j].messageIdInChat)))
  }

  /** A Telegram reply, as far as the table is concerned: the
      ForwardFromMessageId of the message it replies to, and its own id. */
  datatype ReplyEvent = ReplyEvent(forwardFromMessageId: Option<int>, messageId: int)

  /** The row a reply is routed to: `m.TelegramId == ForwardFromMessageId`,
      which no row satisfies when the forward id is null. */
  function ReplyTarget(rows: seq<DatabaseMessages>, e: ReplyEvent): (r: Option<nat>)
    ensures r.Some? ==> r.value < |rows| && Some(rows[r.value].telegramId) == e.forwardFromMessageId
    ensures r.Some? ==> forall j :: 0 <= j < r.value ==> Some(rows[j].telegramId) != e.forwardFromMessageId
    ensures r.None? ==> forall j :: 0 <= j < |rows| ==> Some(rows[j].telegramId) != e.forwardFromMessageId
  {
    match e.forwardFromMessageId
    case None => None
    case Some(t) => FirstMatch(rows, ByTelegramId(t))
  }

  /** The table after a reply: the target row's MessageIdInChat takes the
      reply's own id if it was still 0; nothing else changes. */
  function RecordReply(rows: seq<DatabaseMessages>, e: ReplyEvent): (r: seq<DatabaseMessages>)
    ensures |r| == |rows|
    ensures forall j :: 0 <= j < |rows| && Some(j) != ReplyTarget(rows, e) ==> r[j] == rows[j]
    ensures forall j :: 0 <= j < |rows| ==> r[j] == rows[j].(messageIdInChat := r[j].messageIdInChat)
    ensures forall j :: 0 <= j < |rows| && rows[j].messageIdInChat != 0 ==> r[j] == rows[j]
    ensures forall j :: 0 <= j < |rows| && Some(j) == ReplyTarget(rows, e) && rows[j].messageIdInChat == 0 ==>
      r[j].messageIdInChat == e.messageId
  {
    match ReplyTarget(rows, e)
    case None => rows
    case Some(k) =>
      if rows[k].messageIdInChat == 0 then rows[k := rows[k].(messageIdInChat := e.messageId)] else rows
  }

  /** The table after a series of replies, in arrival order. */
  function RecordReplies(rows: seq<DatabaseMessages>, events: seq<ReplyEvent>): seq<DatabaseMessages>
    decreases |events|
  {
    if events == [] then rows else RecordReplies(RecordReply(rows, events[0]), events[1..])
  }

  /** The id of the first reply in `events` routed to a row with this
      TelegramId, or 0 when none is. */
  function FirstReplyId(telegramId: int, events: seq<ReplyEvent>): int
    decreases |events|
  {
    if events == [] then 0
    else if events[0].forwardFromMessageId == Some(telegramId) then events[0].messageId
    else FirstReplyId(telegramId, events[1..])
  }

  /** Only the TelegramId column decides where a reply goes. */
  lemma {:induction false} FirstMatchTelegramIdOnly(rows: seq<DatabaseMessages>, rows': seq<DatabaseMessages>, t: int)
    requires |rows| == |rows'|
    requires forall j :: 0 <= j < |rows| ==> rows[j].telegramId == rows'[j].telegramId
    ensures FirstMatch(rows, ByTelegramId(t)) == FirstMatch(rows', ByTelegramId(t))
    decreases |rows|
  {
    if rows != [] {
      FirstMatchTelegramIdOnly(rows[1..], rows'[1..], t);
    }
  }

  /** MessageIdInChat is written at most once: after any series of replies
      (whose ids, like all Telegram message ids, are not 0) a row that is the
      first with its TelegramId keeps a non-zero MessageIdInChat and otherwise
      holds the id of the first reply routed to it; every other column, and
      every row shadowed by an earlier one with the same TelegramId, is
      untouched. */
  lemma {:induction false} RecordRepliesSetsOnce(rows: seq<DatabaseMessages>, events: seq<ReplyEvent>, k: nat)
    requires k < |rows|
    requires forall i :: 0 <= i < |events| ==> events[i].messageId != 0
    ensures |RecordReplies(rows, events)| == |rows|
    ensures RecordReplies(rows, events)[k] ==
      if rows[k].messageIdInChat != 0 || FirstMatch(rows, ByTelegramId(rows[k].telegramId)) != Some(k) then rows[k]
      else rows[k].(messageIdInChat := FirstReplyId(rows[k].telegramId, events))
    decreases |events|
  {
    if events != [] {
      var next := RecordReply(rows, events[0]);
      FirstMatchTelegramIdOnly(rows, next, rows[k].telegramId);
      RecordRepliesSetsOnce(next, events[1..], k);
    }
  }
}
