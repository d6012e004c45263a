/**
 * The chat screen: a message list and an input field. Sending appends one
 * message with the untrimmed input and clears the input, unless the input
 * is blank after trimming; the send button is disabled in exactly that
 * case. Messages are grouped under day separators labelled "오늘", "어제"
 * or the month and day.
 *
 * Timestamps are taken as local calendar days plus a minute of the day, and
 * the current day is a parameter: the clock is not part of the model.
 */
module ChatSystem {

  import opened Text
  import opened Calendar

  datatype MessageKind = TextMessage | ImageMessage | LocationMessage | SystemMessage

  /** A point in local time: the calendar day and the minute within it. */
  datatype Timestamp = Timestamp(date: Date, minute: int)

  datatype Message = Message(
    id: string,
    senderId: string,
    senderName: string,
    content: string,
    timestamp: Timestamp,
    kind: MessageKind)

  /** The canned replies the simulated contact picks from. */
  const Responses: seq<string> := [
    "네, 알겠습니다!",
    "언제 시작 가능하신가요?",
    "더 궁금한 점이 있으시면 언제든 말씀해주세요.",
    "감사합니다. 곧 연락드리겠습니다."]

  /**
   * The characters `String.prototype.trim` removes: the ECMAScript
   * WhiteSpace set (tab, vertical tab, form feed, the Unicode space
   * separators, no-break space, byte order mark) and the line terminators.
   */
  predicate IsJsWhitespace(c: char)
  {
    || c == '\t' || c == '\n' || c == '\r' || c == '\U{000B}' || c == '\U{000C}'
    || c == ' ' || c == '\U{00A0}' || c == '\U{1680}' || ('\U{2000}' <= c <= '\U{200A}')
    || c == '\U{2028}' || c == '\U{2029}' || c == '\U{202F}' || c == '\U{205F}'
    || c == '\U{3000}' || c == '\U{FEFF}'
  }

  /** Every character is whitespace (the empty string included). */
  predicate IsBlank(s: string)
  {
    forall i :: 0 <= i < |s| ==> IsJsWhitespace(s[i])
  }

  /** `s` without its leading whitespace. */
  function TrimStart(s: string): (r: string)
    ensures |r| <= |s| && r == s[|s| - |r|..]
    ensures IsBlank(s[..|s| - |r|])
    ensures r == [] || !IsJsWhitespace(r[0])
    decreases |s|
  {
    if s != [] && IsJsWhitespace(s[0]) then
      var r := TrimStart(s[1..]);
      assert s[..|s| - |r|] == [s[0]] + s[1..][..|s| - 1 - |r|];
      r
    else s
  }

  /** `s` without its trailing whitespace. */
  function TrimEnd(s: string): (r: string)
    ensures |r| <= |s| && r == s[..|r|]
    ensures IsBlank(s[|r|..])
    ensures r == [] || !IsJsWhitespace(r[|r| - 1])
    decreases |s|
  {
    if s != [] && IsJsWhitespace(s[|s| - 1]) then
      var r := TrimEnd(s[..|s| - 1]);
      assert s[|r|..] == s[..|s| - 1][|r|..] + [s[|s| - 1]];
      r
    else s
  }

  /** `s.trim()`. */
  function Trim(s: string): (r: string)
    ensures r == [] || (!IsJsWhitespace(r[0]) && !IsJsWhitespace(r[|r| - 1]))
  {
    TrimEnd(TrimStart(s))
  }

  /** Trimming leaves nothing exactly when the text is all whitespace. */
  lemma TrimEmptyIffBlank(s: string)
    ensures Trim(s) == "" <==> IsBlank(s)
  {
    var t := TrimStart(s);
    if Trim(s) == "" {
      assert IsBlank(t);
      assert s == s[..|s| - |t|] + t;
    }
  }

  /** What follows the month in a label: "월 ", the day, "일". */
  function DayPart(day: nat): (s: string)
    ensures |s| >= 1 && !IsDigit(s[0])
  {
    "월 " + NatToString(day) + "일"
  }

  /** `toLocaleDateString("ko-KR", { month: "long", day: "numeric" })`, e.g. "1월 15일". */
  function MonthDayLabel(d: Date): (s: string)
    requires ValidDate(d)
    ensures |s| >= 1 && IsDigit(s[0])
  {
    NatToString(d.month) + DayPart(d.day)
  }

  /** A run of digits followed by a non-digit can be split off in only one way. */
  lemma DigitsSplitUniquely(m1: string, r1: string, m2: string, r2: string)
    requires forall i :: 0 <= i < |m1| ==> IsDigit(m1[i])
    requires forall i :: 0 <= i < |m2| ==> IsDigit(m2[i])
    requires |r1| > 0 && |r2| > 0 && !IsDigit(r1[0]) && !IsDigit(r2[0])
    requires m1 + r1 == m2 + r2
    ensures m1 == m2 && r1 == r2
  {
    assert (m1 + r1)[|m1|] == r1[0] && (m2 + r2)[|m2|] == r2[0];
    assert forall i :: 0 <= i < |m1| ==> (m1 + r1)[i] == m1[i];
    assert forall i :: 0 <= i < |m2| ==> (m2 + r2)[i] == m2[i];
    assert m1 == (m1 + r1)[..|m1|] && r1 == (m1 + r1)[|m1|..];
    assert m2 == (m2 + r2)[..|m2|] && r2 == (m2 + r2)[|m2|..];
  }

  /** The day part names its day. */
  lemma DayPartInjective(day1: nat, day2: nat)
    requires DayPart(day1) == DayPart(day2)
    ensures day1 == day2
  {
    var t1, t2 := NatToString(day1), NatToString(day2);
    assert t1 == DayPart(day1)[2..|t1| + 2];
    assert t2 == DayPart(day2)[2..|t2| + 2];
    NatToStringInjective(day1, day2);
  }

  /** The label names its month and day, so two labels agree only for the same month and day. */
  lemma MonthDayLabelInjective(d1: Date, d2: Date)
    requires ValidDate(d1) && ValidDate(d2) && MonthDayLabel(d1) == MonthDayLabel(d2)
    ensures d1.month == d2.month && d1.day == d2.day
  {
    DigitsSplitUniquely(NatToString(d1.month), DayPart(d1.day), NatToString(d2.month), DayPart(d2.day));
    NatToStringInjective(d1.month, d2.month);
    DayPartInjective(d1.day, d2.day);
  }

  /** `formatDate(date)` on the day `today`. */
  function FormatDate(d: Date, today: Date): (s: string)
    requires ValidDate(d) && ValidDate(today)
    ensures s == "오늘" <==> d == today
    ensures s == "어제" <==> d == PrevDay(today)
    ensures d != today && d != PrevDay(today) ==> s == MonthDayLabel(d)
  {
    if d == today then "오늘"
    else if d == PrevDay(today) then "어제"
    else
      var s := MonthDayLabel(d);
      assert s[0] != "오늘"[0] && s[0] != "어제"[0];
      s
  }

  predicate AllDatesValid(messages: seq<Message>)
  {
    forall i :: 0 <= i < |messages| ==> ValidDate(messages[i].timestamp.date)
  }

  /** `showDate`: the first message, and any message whose day label differs from its predecessor's. */
  predicate ShowDate(messages: seq<Message>, index: int, today: Date)
    requires 0 <= index < |messages| && AllDatesValid(messages) && ValidDate(today)
  {
    index == 0
    || FormatDate(messages[index].timestamp.date, today) != FormatDate(messages[index - 1].timestamp.date, today)
  }

  /** Two messages of the same day are never separated. */
  lemma SameDayNoSeparator(messages: seq<Message>, index: int, today: Date)
    requires 0 < index < |messages| && AllDatesValid(messages) && ValidDate(today)
    requires messages[index].timestamp.date == messages[index - 1].timestamp.date
    ensures !ShowDate(messages, index, today)
  {
  }

  /**
   * A separator appears between two messages whose days differ in month or
   * day; so every change of day within one year is marked.
   */
  lemma NewDaySeparated(messages: seq<Message>, index: int, today: Date)
    requires 0 < index < |messages| && AllDatesValid(messages) && ValidDate(today)
    requires var d1, d2 := messages[index - 1].timestamp.date, messages[index].timestamp.date;
             d1.month != d2.month || d1.day != d2.day
    ensures ShowDate(messages, index, today)
  {
    var d1, d2 := messages[index - 1].timestamp.date, messages[index].timestamp.date;
    if FormatDate(d1, today) == FormatDate(d2, today) {
      if d1 != today && d1 != PrevDay(today) {
        MonthDayLabelInjective(d1, d2);
      }
    }
  }

  /**
   * The label leaves out the year, so two messages on the same month and
   * day of different years, both older than yesterday, share a separator.
   */
  lemma YearApartNotSeparated(messages: seq<Message>, index: int, today: Date)
    requires 0 < index < |messages| && AllDatesValid(messages) && ValidDate(today)
    requires var d1, d2 := messages[index - 1].timestamp.date, messages[index].timestamp.date;
             d1.month == d2.month && d1.day == d2.day
             && d1 != today && d2 != today && d1 != PrevDay(today) && d2 != PrevDay(today)
    ensures !ShowDate(messages, index, today)
  {
  }

  /** The chat screen's state. */
  class Chat {
    const contactName: string
    var messages: seq<Message>
    var newMessage: string
    var isTyping: bool

    constructor (contactName: string, initial: seq<Message>)
      ensures this.contactName == contactName && messages == initial
      ensures newMessage == "" && !isTyping
    {
      this.contactName := contactName;
      messages := initial;
      newMessage := "";
      isTyping := false;
    }

    /** The input's `onChange`. */
    method SetNewMessage(text: string)
      modifies this
      ensures newMessage == text && messages == old(messages) && isTyping == old(isTyping)
    {
      newMessage := text;
    }

    /** The send button is disabled: `!newMessage.trim()`. */
    predicate SendDisabled()
      reads this
    {
      Trim(newMessage) == ""
    }

    /**
     * `handleSendMessage`, with `id` and `now` standing for `Date.now()` and
     * `new Date()`: a blank input changes nothing; otherwise one message
     * from "me" with the untrimmed text is appended and the input cleared.
     */
    method HandleSendMessage(id: string, now: Timestamp)
      modifies this
      ensures Trim(old(newMessage)) == "" ==> messages == old(messages) && newMessage == old(newMessage)
      ensures Trim(old(newMessage)) != "" ==>
        && messages == old(messages) + [Message(id, "me", "나", old(newMessage), now, TextMessage)]
        && newMessage == "" && SendDisabled()
      ensures isTyping == old(isTyping)
    {
      if Trim(newMessage) == "" {
        return;
      }
      var message := Message(id, "me", "나", newMessage, now, TextMessage);
      messages := messages + [message];
      newMessage := "";
    }

    /** Enter in the input sends; any other key does nothing. */
    method HandleKeyPress(key: string, id: string, now: Timestamp)
      modifies this
      ensures key != "Enter" ==> messages == old(messages) && newMessage == old(newMessage)
      ensures key == "Enter" && Trim(old(newMessage)) == "" ==> messages == old(messages) && newMessage == old(newMessage)
      ensures key == "Enter" && Trim(old(newMessage)) != "" ==>
        messages == old(messages) + [Message(id, "me", "나", old(newMessage), now, TextMessage)] && newMessage == ""
      ensures isTyping == old(isTyping)
    {
      if key == "Enter" {
        HandleSendMessage(id, now);
      }
    }

    /** The first timer of a send: the contact starts typing. */
    method StartTyping()
      modifies this
      ensures isTyping && messages == old(messages) && newMessage == old(newMessage)
    {
      isTyping := true;
    }

    /** The second timer: the contact's reply, one of the canned responses, arrives. */
    method DeliverReply(choice: int, id: string, now: Timestamp)
      requires 0 <= choice < |Responses|
      modifies this
      ensures messages == old(messages) + [Message(id, "other", contactName, Responses[choice], now, TextMessage)]
      ensures !isTyping && newMessage == old(newMessage)
    {
      messages := messages + [Message(id, "other", contactName, Responses[choice], now, TextMessage)];
      isTyping := false;
    }
  }

  /** The button is enabled exactly when a send would append a message. */
  lemma SendButtonMatchesGuard(c: Chat)
    ensures c.SendDisabled() <==> IsBlank(c.newMessage)
  {
    TrimEmptyIffBlank(c.newMessage);
  }
}
