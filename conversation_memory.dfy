/** The local conversation memory: a message record that serialises its
    timestamp in ISO 8601 form, and a bounded message list with user
    preferences and context variables beside it. The clock is a parameter:
    the time a message is created is passed in. */
module ConversationMemoryModel {
  import opened Text

  /** A naive `datetime`. */
  datatype DateTime = DateTime(year: int, month: int, day: int,
                               hour: int, minute: int, second: int, microsecond: int)

  predicate IsLeap(y: int) {
    y % 4 == 0 && (y % 100 != 0 || y % 400 == 0)
  }

  function DaysInMonth(y: int, m: int): int
    requires 1 <= m <= 12
  {
    if m == 2 then (if IsLeap(y) then 29 else 28)
    else if m == 4 || m == 6 || m == 9 || m == 11 then 30
    else 31
  }

  /** The values a `datetime` can hold. */
  predicate ValidDateTime(d: DateTime) {
    1 <= d.year <= 9999 && 1 <= d.month <= 12 && 1 <= d.day <= DaysInMonth(d.year, d.month)
    && 0 <= d.hour < 24 && 0 <= d.minute < 60 && 0 <= d.second < 60
    && 0 <= d.microsecond < 1000000
  }


  function Pow10(w: nat): (p: nat)
    ensures p > 0
  {
    if w == 0 then 1 else 10 * Pow10(w - 1)
  }

  /** `n` in `w` digits with leading zeros (`%0wd` for `n < 10^w`). */
  function Pad(n: nat, w: nat): (r: string)
    ensures |r| == w && AllDigits(r)
  {
    if w == 0 then "" else Pad(n / 10, w - 1) + [DigitChar(n % 10)]
  }


  /** Reading padded digits back gives the number, when it fits. */
  lemma {:induction false} PadValue(n: nat, w: nat)
    requires n < Pow10(w)
    ensures DigitsValue(Pad(n, w)) == n
  {
    if w > 0 {
      var s := Pad(n, w);
      assert s[..|s| - 1] == Pad(n / 10, w - 1);
      PadValue(n / 10, w - 1);
      assert s[|s| - 1] as int - '0' as int == n % 10;
    }
  }

  /** `datetime.isoformat()`: `YYYY-MM-DD`, `T`, `HH:MM:SS`, and `.ffffff`
      only when the microseconds are not zero. */
  function DatePart(d: DateTime): string
    requires ValidDateTime(d)
  {
    Pad(d.year, 4) + "-" + Pad(d.month, 2) + "-" + Pad(d.day, 2)
  }

  function TimePart(d: DateTime): string
    requires ValidDateTime(d)
  {
    Pad(d.hour, 2) + ":" + Pad(d.minute, 2) + ":" + Pad(d.second, 2)
  }

  function IsoFormat(d: DateTime): (r: string)
    requires ValidDateTime(d)
    ensures |r| == if d.microsecond == 0 then 19 else 26
  {
    DatePart(d) + "T" + TimePart(d) + (if d.microsecond == 0 then "" else "." + Pad(d.microsecond, 6))
  }

  /** A field of fixed width: its digits' value, when they are all digits. */
  function Field(s: string, lo: nat, hi: nat): Option<nat>
    requires lo <= hi <= |s|
  {
    if AllDigits(s[lo..hi]) then Some(DigitsValue(s[lo..hi])) else None
  }

  /** `datetime.fromisoformat` on the forms `YYYY-MM-DD`,
      `YYYY-MM-DD?HH:MM:SS` and `YYYY-MM-DD?HH:MM:SS.ffffff` (any one
      separator character); `None` stands for the `ValueError` it raises
      on malformed text or out-of-range fields. */
  function FromIsoFormat(s: string): (r: Option<DateTime>)
    ensures r.Some? ==> ValidDateTime(r.value)
  {
    if !(|s| == 10 || |s| == 19 || |s| == 26) then None
    else if s[4] != '-' || s[7] != '-' then None
    else if |s| > 10 && (s[13] != ':' || s[16] != ':') then None
    else if |s| == 26 && s[19] != '.' then None
    else
      var year := Field(s, 0, 4);
      var month := Field(s, 5, 7);
      var day := Field(s, 8, 10);
      var hour := if |s| == 10 then Some(0) else Field(s, 11, 13);
      var minute := if |s| == 10 then Some(0) else Field(s, 14, 16);
      var second := if |s| == 10 then Some(0) else Field(s, 17, 19);
      var micro := if |s| == 26 then Field(s, 20, 26) else Some(0);
      if year.None? || month.None? || day.None? || hour.None? || minute.None? || second.None? || micro.None? then None
      else
        var d := DateTime(year.value, month.value, day.value, hour.value, minute.value, second.value, micro.value);
        if ValidDateTime(d) then Some(d) else None
  }

  lemma PadField(s: string, lo: nat, n: nat, w: nat)
    requires lo + w <= |s| && s[lo..lo + w] == Pad(n, w) && n < Pow10(w)
    ensures Field(s, lo, lo + w) == Some(n)
  {
    PadValue(n, w);
  }

  /** The date fields read back from text that starts with the date part. */
  lemma DateFields(d: DateTime, s: string)
    requires ValidDateTime(d) && 10 <= |s| && s[..10] == DatePart(d)
    ensures s[4] == '-' && s[7] == '-'
    ensures Field(s, 0, 4) == Some(d.year) && Field(s, 5, 7) == Some(d.month) && Field(s, 8, 10) == Some(d.day)
  {
    var date := DatePart(d);
    assert date[..4] == Pad(d.year, 4) && date[4] == '-';
    assert date[5..7] == Pad(d.month, 2) && date[7] == '-' && date[8..10] == Pad(d.day, 2);
    assert s[0..4] == date[..4] && s[5..7] == date[5..7] && s[8..10] == date[8..10];
    assert Pow10(4) == 10000 && Pow10(2) == 100;
    PadField(s, 0, d.year, 4);
    PadField(s, 5, d.month, 2);
    PadField(s, 8, d.day, 2);
  }

  /** The time fields read back from text holding the time part at 11..19. */
  lemma TimeFields(d: DateTime, s: string)
    requires ValidDateTime(d) && 19 <= |s| && s[11..19] == TimePart(d)
    ensures s[13] == ':' && s[16] == ':'
    ensures Field(s, 11, 13) == Some(d.hour) && Field(s, 14, 16) == Some(d.minute) && Field(s, 17, 19) == Some(d.second)
  {
    var time := TimePart(d);
    assert time[..2] == Pad(d.hour, 2) && time[2] == ':';
    assert time[3..5] == Pad(d.minute, 2) && time[5] == ':' && time[6..8] == Pad(d.second, 2);
    SliceOfSlice(s, 11, 19, 0, 2);
    SliceOfSlice(s, 11, 19, 3, 5);
    SliceOfSlice(s, 11, 19, 6, 8);
    assert Pow10(2) == 100;
    PadField(s, 11, d.hour, 2);
    PadField(s, 14, d.minute, 2);
    PadField(s, 17, d.second, 2);
  }

  /** Parsing what `isoformat` writes gives the same `datetime` back. */
  lemma IsoRoundTrip(d: DateTime)
    requires ValidDateTime(d)
    ensures FromIsoFormat(IsoFormat(d)) == Some(d)
  {
    var s := IsoFormat(d);
    var date := DatePart(d);
    var time := TimePart(d);
    var frac := if d.microsecond == 0 then "" else "." + Pad(d.microsecond, 6);
    assert s == date + "T" + time + frac;
    assert s[..10] == date;
    assert s[11..19] == time;
    assert s[19..] == frac;
    DateFields(d, s);
    TimeFields(d, s);
    if d.microsecond != 0 {
      assert s[20..26] == frac[1..] == Pad(d.microsecond, 6);
      assert Pow10(6) == 1000000;
      PadField(s, 20, d.microsecond, 6);
    }
  }

  /** A message of the memory; metadata values are kept as text. */
  datatype Message = Message(role: string, content: string, timestamp: DateTime, metadata: map<string, string>)

  /** The dictionary form: the same fields with the timestamp as text. */
  datatype MessageDict = MessageDict(role: string, content: string, timestamp: string, metadata: map<string, string>)

  /** `Message.to_dict`. */
  function ToDict(m: Message): (r: MessageDict)
    requires ValidDateTime(m.timestamp)
    ensures r.role == m.role && r.content == m.content && r.metadata == m.metadata
  {
    MessageDict(m.role, m.content, IsoFormat(m.timestamp), m.metadata)
  }

  /** `Message.from_dict`; `None` when the timestamp does not parse. */
  function FromDict(data: MessageDict): (r: Option<Message>)
    ensures r.None? <==> FromIsoFormat(data.timestamp).None?
    ensures r.Some? ==> r.value.role == data.role && r.value.content == data.content
                        && r.value.metadata == data.metadata
  {
    match FromIsoFormat(data.timestamp)
    case None => None
    case Some(t) => Some(Message(data.role, data.content, t, data.metadata))
  }

  /** `from_dict(to_dict(m))` reproduces `m`. */
  lemma MessageRoundTrip(m: Message)
    requires ValidDateTime(m.timestamp)
    ensures FromDict(ToDict(m)) == Some(m)
  {
    IsoRoundTrip(m.timestamp);
  }

  /** The trimming of `add_message` as written: the list is cut to
      `messages[-max:]` when it is longer than `max`. */
  function Kept(msgs: seq<Message>, max: int): (r: seq<Message>)
    ensures |r| <= |msgs| && r == msgs[|msgs| - |r|..]
    ensures max > 0 ==> |r| == if |msgs| <= max then |msgs| else max
    ensures max >= 0 && |msgs| <= max ==> r == msgs
    ensures max < 0 ==> |r| == if -max < |msgs| then |msgs| + max else 0
  {
    if |msgs| > max then PyTail(msgs, max) else msgs
  }

  /** A negative cap drops that many of the oldest messages instead:
      with a cap of -1, adding `b` to `[a]` leaves `[b]`, and adding it to
      `[]` leaves `[]`. */
  lemma NegativeCapDropsOldest(a: Message, b: Message)
    ensures Kept([a] + [b], -1) == [b]
    ensures Kept([] + [b], -1) == []
    ensures KeptIntended([a] + [b], -1) == []
  {
  }

  /** A cap of zero never trims: `[-0:]` is the whole list, so every append
      makes the history one longer. */
  lemma ZeroCapNeverTrims(msgs: seq<Message>, m: Message)
    ensures |Kept(msgs + [m], 0)| == |msgs| + 1
  {
  }

  /** The trimming `max_messages` is meant to give: at most `max` newest
      messages, none at all for a cap of zero or below. */
  function KeptIntended(msgs: seq<Message>, max: int): (r: seq<Message>)
    ensures |r| <= |msgs| && r == msgs[|msgs| - |r|..]
    ensures |r| == if max <= 0 then 0 else if |msgs| <= max then |msgs| else max
  {
    if max <= 0 then [] else if |msgs| > max then msgs[|msgs| - max..] else msgs
  }

  /** The two trimmings agree whenever the cap is positive. */
  lemma KeptAgreesAboveZero(msgs: seq<Message>, max: int)
    requires max > 0
    ensures Kept(msgs, max) == KeptIntended(msgs, max)
  {
  }

  /** A role and content pair, as the formatted history lists them. */
  datatype RoleText = RoleText(role: string, content: string)

  class ConversationMemory {
    const maxMessages: int
    const userId: Option<string>
    var messages: seq<Message>
    var userPreferences: map<string, string>
    var contextVariables: map<string, string>

    constructor (maxMessages: int, userId: Option<string>)
      ensures this.maxMessages == maxMessages && this.userId == userId
      ensures messages == [] && userPreferences == map[] && contextVariables == map[]
    {
      this.maxMessages := maxMessages;
      this.userId := userId;
      messages := [];
      userPreferences := map[];
      contextVariables := map[];
    }

    /** `add_message`: the message, stamped `now` and with empty metadata
        for a missing one, is appended and the list trimmed to the cap, with
        the intended trimming for a cap of zero or below (see `Kept`). */
    method AddMessage(role: string, content: string, metadata: Option<map<string, string>>, now: DateTime)
      modifies this
      ensures var m := Message(role, content, now, if metadata.Some? then metadata.value else map[]);
        messages == KeptIntended(old(messages) + [m], maxMessages)
        && (maxMessages > 0 ==> |messages| <= maxMessages && messages[|messages| - 1] == m)
        && (maxMessages <= 0 ==> messages == [])
      ensures userPreferences == old(userPreferences) && contextVariables == old(contextVariables)
    {
      var message := Message(role, content, now, if metadata.Some? then metadata.value else map[]);
      messages := messages + [message];
      if |messages| > maxMessages {
        messages := if maxMessages <= 0 then [] else messages[|messages| - maxMessages..];
      }
    }

    /** `get_recent_messages`: everything for `None`, else `messages[-n:]`
        (again everything for `n == 0`). */
    function GetRecentMessages(n: Option<int>): (r: seq<Message>)
      reads this
      ensures n.None? || n == Some(0) ==> r == messages
      ensures n.Some? && n.value > 0 ==>
        |r| == (if n.value < |messages| then n.value else |messages|) && r == messages[|messages| - |r|..]
    {
      if n.None? then messages else PyTail(messages, n.value)
    }

    /** `get_formatted_history`: role and content of every message, in order. */
    function GetFormattedHistory(): (r: seq<RoleText>)
      reads this
      ensures |r| == |messages|
      ensures forall i :: 0 <= i < |r| ==> r[i] == RoleText(messages[i].role, messages[i].content)
    {
      var msgs := messages;
      seq(|msgs|, i requires 0 <= i < |msgs| => RoleText(msgs[i].role, msgs[i].content))
    }

    /** `update_user_preferences`: `dict.update`, the new values winning. */
    method UpdateUserPreferences(preferences: map<string, string>)
      modifies this
      ensures userPreferences == old(userPreferences) + preferences
      ensures messages == old(messages) && contextVariables == old(contextVariables)
    {
      userPreferences := userPreferences + preferences;
    }

    /** `add_context_variable`. */
    method AddContextVariable(key: string, value: string)
      modifies this
      ensures contextVariables == old(contextVariables)[key := value]
      ensures messages == old(messages) && userPreferences == old(userPreferences)
    {
      contextVariables := contextVariables[key := value];
    }

    /** `clear_history`: the messages go, preferences and variables stay. */
    method ClearHistory()
      modifies this
      ensures messages == []
      ensures userPreferences == old(userPreferences) && contextVariables == old(contextVariables)
    {
      messages := [];
    }
  }
}
