/**
 * The chat session of the travel platform: the message log, the typing
 * indicator, the input box and the active section, changed by `handleSend`,
 * by the reply that `handleSend` schedules, and by `handleQuickAction`.
 */
module Chat {
  import opened Wrappers
  import opened Text
  import opened Booking
  import opened Responder

  /**
   * One log entry: the user's text, or the table entry the assistant answered
   * with (`None` when the answer was `undefined`).
   */
  datatype Message = User(text: string) | Bot(reply: Option<Reply>)

  /** The `text` the page shows for an entry. */
  function MessageText(m: Message): Option<string> {
    match m
    case User(text) => Some(text)
    case Bot(None) => None
    case Bot(Some(r)) => Some(ReplyText(r))
  }

  /** A bot entry shows exactly what `getContextualResponse` returned for its input. */
  lemma BotTextIsResponse(input: string, section: string, b: BookingDetails)
    ensures MessageText(Bot(Respond(input, section, b))) == Resolve(input, section, b)
  {
  }

  /**
   * A reply the timer has not delivered yet, with what its callback closed
   * over when `handleSend` ran: the submitted text, the section and the booking.
   */
  datatype PendingReply = PendingReply(input: string, section: string, booking: BookingDetails)

  function Answer(p: PendingReply): Option<Reply> {
    Respond(p.input, p.section, p.booking)
  }

  /** The texts of the user entries of a log, oldest first. */
  function UserTexts(log: seq<Message>): seq<string> {
    if log == [] then []
    else
      var last := log[|log| - 1];
      UserTexts(log[..|log| - 1]) + (if last.User? then [last.text] else [])
  }

  /** The replies of the assistant entries of a log, oldest first. */
  function BotReplies(log: seq<Message>): seq<Option<Reply>> {
    if log == [] then []
    else
      var last := log[|log| - 1];
      BotReplies(log[..|log| - 1]) + (if last.Bot? then [last.reply] else [])
  }

  function Inputs(ps: seq<PendingReply>): seq<string> {
    seq(|ps|, i requires 0 <= i < |ps| => ps[i].input)
  }

  function Answers(ps: seq<PendingReply>): seq<Option<Reply>> {
    seq(|ps|, i requires 0 <= i < |ps| => Answer(ps[i]))
  }

  lemma UserTextsAppend(log: seq<Message>, m: Message)
    ensures UserTexts(log + [m]) == UserTexts(log) + (if m.User? then [m.text] else [])
  {
    assert (log + [m])[..|log|] == log;
  }

  lemma BotRepliesAppend(log: seq<Message>, m: Message)
    ensures BotReplies(log + [m]) == BotReplies(log) + (if m.Bot? then [m.reply] else [])
  {
    assert (log + [m])[..|log|] == log;
  }

  lemma InputsAppend(ps: seq<PendingReply>, p: PendingReply)
    ensures Inputs(ps + [p]) == Inputs(ps) + [p.input]
  {
  }

  lemma AnswersAppend(ps: seq<PendingReply>, p: PendingReply)
    ensures Answers(ps + [p]) == Answers(ps) + [Answer(p)]
  {
  }

  /** Moving the oldest pending reply to the answered ones keeps their concatenation. */
  lemma ShiftFirst(done: seq<PendingReply>, ps: seq<PendingReply>)
    requires ps != []
    ensures done + [ps[0]] + ps[1..] == done + ps
  {
    assert ps == [ps[0]] + ps[1..];
  }

  predicate IsBlank(s: string) {
    Trim(s) == ""
  }

  /** Some casing of "help" is not blank: it would be sent. */
  lemma HelpIsNotBlank(text: string)
    requires ToLower(text) == "help"
    ensures !IsBlank(text)
  {
    assert |text| == 4 && ToLower(text)[0] == LowerChar(text[0]) == 'h';
    TrimEmptyIffBlank(text);
  }

  /** The section buttons of the chat window; any other action is ignored. */
  predicate IsQuickAction(action: string) {
    action == "transport" || action == "accommodation" || action == "tourism"
  }

  class ChatSession {
    var activeSection: string
    var booking: BookingDetails
    var messages: seq<Message>
    var inputText: string
    var isLoading: bool
    /** Scheduled replies, in the order their timers fire. */
    var pending: seq<PendingReply>
    /** The scheduled replies whose timers have fired, oldest first. */
    ghost var answered: seq<PendingReply>

    /**
     * The log opens with the greeting; its user entries are the submitted
     * texts, answered ones first; its assistant entries after the greeting are
     * the answers to the fired replies, in order; and the typing indicator is
     * on only while a reply is pending.
     */
    ghost predicate Valid()
      reads this
    {
      && |messages| >= 1 && messages[0] == Bot(Some(Greeting))
      && UserTexts(messages) == Inputs(answered + pending)
      && BotReplies(messages) == [Some(Greeting)] + Answers(answered)
      && (isLoading ==> pending != [])
    }

    /** The state of a freshly rendered page. */
    constructor ()
      ensures Valid()
      ensures activeSection == "transport" && booking == EmptyBooking
      ensures messages == [Bot(Some(Greeting))] && inputText == "" && !isLoading
      ensures pending == [] && answered == []
    {
      var log := [Bot(Some(Greeting))];
      assert UserTexts(log) == UserTexts([]);
      assert BotReplies(log) == BotReplies([]) + [Some(Greeting)];
      activeSection := "transport";
      booking := EmptyBooking;
      messages := log;
      inputText := "";
      isLoading := false;
      pending := [];
      answered := [];
    }

    /** Typing into the chat input box. */
    method SetInput(text: string)
      requires Valid()
      modifies this
      ensures Valid()
      ensures inputText == text
      ensures messages == old(messages) && pending == old(pending) && answered == old(answered)
      ensures isLoading == old(isLoading) && activeSection == old(activeSection) && booking == old(booking)
    {
      inputText := text;
    }

    /** Choosing a tab: any tab value, including "guide" and "manual", becomes the section. */
    method SelectTab(name: string)
      requires Valid()
      modifies this
      ensures Valid()
      ensures activeSection == name
      ensures messages == old(messages) && pending == old(pending) && answered == old(answered)
      ensures isLoading == old(isLoading) && inputText == old(inputText) && booking == old(booking)
    {
      activeSection := name;
    }

    /** Editing one transport input of the booking form. */
    method EditTransport(f: TransportInput, v: string)
      requires Valid()
      modifies this
      ensures Valid()
      ensures booking == SetTransportField(old(booking), f, v)
      ensures messages == old(messages) && pending == old(pending) && answered == old(answered)
      ensures isLoading == old(isLoading) && inputText == old(inputText) && activeSection == old(activeSection)
    {
      booking := SetTransportField(booking, f, v);
    }

    /**
     * `handleSend`: blank input changes nothing. Otherwise the input is logged
     * untrimmed as a user entry, the typing indicator goes on, the input box is
     * cleared and a reply is scheduled over the current text, section and
     * booking. A reply already pending does not prevent this.
     */
    method Send()
      requires Valid()
      modifies this
      ensures Valid()
      ensures IsBlank(old(inputText)) ==> unchanged(this)
      ensures !IsBlank(old(inputText)) ==>
        && messages == old(messages) + [User(old(inputText))]
        && pending == old(pending) + [PendingReply(old(inputText), old(activeSection), old(booking))]
        && isLoading && inputText == ""
        && answered == old(answered)
      ensures activeSection == old(activeSection) && booking == old(booking)
    {
      if IsBlank(inputText) {
        return;
      }
      var p := PendingReply(inputText, activeSection, booking);
      UserTextsAppend(messages, User(inputText));
      BotRepliesAppend(messages, User(inputText));
      InputsAppend(answered + pending, p);
      assert answered + (pending + [p]) == answered + pending + [p];
      messages := messages + [User(inputText)];
      isLoading := true;
      pending := pending + [p];
      inputText := "";
    }

    /**
     * The timer of the oldest pending reply fires: its answer, computed from
     * what it captured, is logged as an assistant entry and the typing
     * indicator goes off, whether or not other replies are still pending.
     */
    method FireReply()
      requires Valid()
      requires pending != []
      modifies this
      ensures Valid()
      ensures messages == old(messages) + [Bot(Answer(old(pending[0])))]
      ensures pending == old(pending[1..]) && answered == old(answered) + [old(pending[0])]
      ensures !isLoading
      ensures inputText == old(inputText) && activeSection == old(activeSection) && booking == old(booking)
    {
      var p := pending[0];
      var entry := Bot(Answer(p));
      UserTextsAppend(messages, entry);
      BotRepliesAppend(messages, entry);
      AnswersAppend(answered, p);
      ShiftFirst(answered, pending);
      messages := messages + [entry];
      isLoading := false;
      answered := answered + [p];
      pending := pending[1..];
    }

    /** `handleQuickAction`: only the transport, accommodation and tourism buttons switch the section. */
    method QuickAction(action: string)
      requires Valid()
      modifies this
      ensures Valid()
      ensures activeSection == if IsQuickAction(action) then action else old(activeSection)
      ensures messages == old(messages) && pending == old(pending) && answered == old(answered)
      ensures isLoading == old(isLoading) && inputText == old(inputText) && booking == old(booking)
    {
      match action
      case "transport" => activeSection := "transport";
      case "accommodation" => activeSection := "accommodation";
      case "tourism" => activeSection := "tourism";
      case _ =>
    }
  }

  // ------------------------------------------------------------ scenarios

  /**
   * Some casing of "help" sent in transport, then the tourism button pressed before the timer
   * fires: the reply still uses the transport rules, because the callback
   * answers with the section it captured at submission.
   */
  method ReplyUsesSubmissionSection(text: string) returns (log: seq<Message>, section: string)
    requires ToLower(text) == "help"
    ensures |log| == 3 && log[0] == Bot(Some(Greeting)) && log[1] == User(text)
    ensures log[2] == Bot(Some(HelpFor(Transport)))
    ensures section == "tourism"
  {
    HelpIsNotBlank(text);
    assert Answer(PendingReply(text, "transport", EmptyBooking)) == Some(HelpFor(Transport)) by {
      HelpEntry("", text, "", Transport, EmptyBooking);
      assert "" + text + "" == text;
    }
    var chat := new ChatSession();
    chat.SetInput(text);
    chat.Send();
    chat.QuickAction("tourism");
    chat.FireReply();
    log, section := chat.messages, chat.activeSection;
  }

  /**
   * Two messages sent before the first reply arrives: both are logged, in
   * order, and both replies are scheduled; when the first fires its answer
   * follows them and the typing indicator goes off although the second reply
   * is still pending.
   */
  method SecondSendWhileWaiting(first: string, second: string) returns (log: seq<Message>, waiting: nat, typing: bool)
    requires !IsBlank(first) && !IsBlank(second)
    ensures log == [Bot(Some(Greeting))] + [User(first)] + [User(second)] + [Bot(Answer(PendingReply(first, "transport", EmptyBooking)))]
    ensures waiting == 1 && !typing
  {
    var p := PendingReply(first, "transport", EmptyBooking);
    var chat := new ChatSession();
    chat.SetInput(first);
    chat.Send();
    assert chat.pending == [p];
    chat.SetInput(second);
    chat.Send();
    assert chat.pending[0] == p;
    chat.FireReply();
    log := chat.messages;
    waiting := |chat.pending|;
    typing := chat.isLoading;
  }

  /** A log only grows: a sent message and its fired reply add exactly a user entry and then an assistant entry. */
  method SendThenReply(text: string) returns (before: seq<Message>, after: seq<Message>)
    requires !IsBlank(text)
    ensures after == before + [User(text)] + [Bot(Respond(text, "transport", EmptyBooking))]
  {
    var chat := new ChatSession();
    before := chat.messages;
    chat.SetInput(text);
    chat.Send();
    chat.FireReply();
    after := chat.messages;
  }
}
