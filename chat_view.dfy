/** The public chat page: the scripted bot messages revealed one by one, the
    visitor's own messages (optionally quoting an earlier message), the name
    prompt, and the quotes that can be expanded and collapsed. */
module Chat {
  import opened Common

  /** Length of the excerpt stored when a visitor quotes a message. */
  const SnapshotLength: nat := 50
  /** Length beyond which a collapsed quote is cut for display. */
  const DisplayLength: nat := 100

  /** The quote carried by a scripted bot message. */
  datatype BotQuote = BotQuote(botName: string, messageShort: string)

  datatype BotMessage = BotMessage(
    id: string,
    botName: string,
    text: string,
    time: string,
    replyTo: Option<BotQuote>,
    avatarColor: string)

  /** The quote carried by a visitor's message. */
  datatype UserQuote = UserQuote(author: string, messageShort: string, messageId: string)

  datatype UserMessage = UserMessage(
    id: string,
    userName: string,
    text: string,
    time: string,
    replyTo: Option<UserQuote>)

  /** The message the visitor chose to reply to (`quotedMessage`). */
  datatype QuoteData = QuoteData(author: string, text: string, messageId: string)

  /** What a press of the send button did. */
  datatype SendOutcome = Ignored | AskedForName | Sent

  // ---------------------------------------------------------------------------
  // Values
  // ---------------------------------------------------------------------------

  /** The `reply_to` of a visitor's message: author and id of the quoted
      message, its text cut to 50 characters plus an ellipsis. */
  function QuoteSnapshot(quote: QuoteData): (r: UserQuote)
    ensures r.author == quote.author && r.messageId == quote.messageId
    ensures |quote.text| <= SnapshotLength ==> r.messageShort == quote.text
    ensures |quote.text| > SnapshotLength ==>
              r.messageShort == quote.text[..SnapshotLength] + Ellipsis
    ensures |r.messageShort| <= SnapshotLength + |Ellipsis|
  {
    UserQuote(quote.author, Shorten(quote.text, SnapshotLength), quote.messageId)
  }

  /** The message `handleSendMessage` appends. */
  function ComposeUserMessage(userName: string, input: string, quote: Option<QuoteData>,
                              stamp: string, clock: string): (m: UserMessage)
    ensures m.id == "user_" + stamp && m.userName == userName && m.text == input && m.time == clock
    ensures m.replyTo.None? <==> quote.None?
    ensures quote.Some? ==> m.replyTo.value == QuoteSnapshot(quote.value)
  {
    UserMessage("user_" + stamp, userName, input, clock,
                if quote.Some? then Some(QuoteSnapshot(quote.value)) else None)
  }

  /** What a press of the send button does with this input and name: a blank
      input is ignored, a missing name opens the prompt, anything else is sent. */
  function SendDecision(input: string, userName: string): (o: SendOutcome)
    ensures o == Ignored <==> IsBlank(input)
    ensures o == AskedForName <==> !IsBlank(input) && userName == ""
    ensures o == Sent <==> !IsBlank(input) && userName != ""
    ensures !IsBlank(userName) ==> o != AskedForName
  {
    EmptyIsBlank();
    if IsBlank(input) then Ignored else if userName == "" then AskedForName else Sent
  }

  /** The part of the page's state the send and name handlers touch. */
  datatype Composer = Composer(
    userName: string,
    showNameModal: bool,
    userInput: string,
    userMessages: seq<UserMessage>,
    quotedMessage: Option<QuoteData>)

  datatype SendResult = SendResult(outcome: SendOutcome, after: Composer)

  /** `handleSendMessage` on the composer state. */
  function Send(c: Composer, stamp: string, clock: string): (r: SendResult)
    ensures r.outcome == SendDecision(c.userInput, c.userName)
    ensures r.after.userName == c.userName
    ensures r.outcome == Ignored ==> r.after == c
    ensures r.outcome == AskedForName ==> r.after == c.(showNameModal := true)
    ensures r.outcome == Sent ==>
              r.after == c.(userMessages := c.userMessages + [ComposeUserMessage(c.userName, c.userInput,
                                                                                c.quotedMessage, stamp, clock)],
                            userInput := "", quotedMessage := None)
  {
    match SendDecision(c.userInput, c.userName)
    case Ignored => SendResult(Ignored, c)
    case AskedForName => SendResult(AskedForName, c.(showNameModal := true))
    case Sent =>
      var message := ComposeUserMessage(c.userName, c.userInput, c.quotedMessage, stamp, clock);
      SendResult(Sent, c.(userMessages := c.userMessages + [message], userInput := "", quotedMessage := None))
  }

  datatype SaveResult = SaveResult(saved: bool, outcome: SendOutcome, after: Composer)

  /** `handleSaveUserName` on the composer state: a blank name changes
      nothing; otherwise the prompt closes and the pending input goes through
      `Send`. */
  function SaveName(c: Composer, stamp: string, clock: string): (r: SaveResult)
    ensures r.saved <==> !IsBlank(c.userName)
    ensures r.after.userName == c.userName
    ensures !r.saved ==> r.outcome == Ignored && r.after == c
    ensures r.saved ==> r.outcome != AskedForName && !r.after.showNameModal
    ensures r.saved ==> (r.outcome == Sent <==> !IsBlank(c.userInput))
    ensures r.saved && r.outcome == Sent ==>
              r.after.userMessages == c.userMessages + [ComposeUserMessage(c.userName, c.userInput,
                                                                            c.quotedMessage, stamp, clock)]
              && r.after.userInput == "" && r.after.quotedMessage == None
    ensures r.saved && r.outcome == Ignored ==> r.after == c.(showNameModal := false)
  {
    if IsBlank(c.userName) then SaveResult(false, Ignored, c)
    else
      var sent := Send(c.(showNameModal := false), stamp, clock);
      SaveResult(true, sent.outcome, sent.after)
  }

  /** `toggleQuoteExpansion` on the set: add the id if absent, remove it if present. */
  function Toggle(expanded: set<string>, id: string): (r: set<string>)
    ensures id in r <==> id !in expanded
    ensures forall x :: x != id ==> (x in r <==> x in expanded)
  {
    if id in expanded then expanded - {id} else expanded + {id}
  }

  /** `renderQuote`'s text: a collapsed quote over 100 characters shows its
      first 100 characters and an ellipsis, an expanded one shows in full. */
  function QuoteDisplay(messageShort: string, isExpanded: bool): (r: string)
    ensures isExpanded || |messageShort| <= DisplayLength ==> r == messageShort
    ensures !isExpanded && |messageShort| > DisplayLength ==>
              |r| == DisplayLength + |Ellipsis| && r[..DisplayLength] == messageShort[..DisplayLength]
              && r[DisplayLength..] == Ellipsis
  {
    if isExpanded then messageShort else Shorten(messageShort, DisplayLength)
  }

  /** `renderQuote` offers the "show more" button only for quotes it would cut. */
  predicate OffersShowMore(messageShort: string) {
    |messageShort| > DisplayLength
  }

  // ---------------------------------------------------------------------------
  // Properties
  // ---------------------------------------------------------------------------

  /** Toggling the same quote twice gives back the set. */
  lemma ToggleTwice(expanded: set<string>, id: string)
    ensures Toggle(Toggle(expanded, id), id) == expanded
  {
  }

  /** A quote taken by the visitor is short enough that it is always shown in
      full and never offers "show more", expanded or not. */
  lemma VisitorQuoteShownInFull(quote: QuoteData, isExpanded: bool)
    ensures !OffersShowMore(QuoteSnapshot(quote).messageShort)
    ensures QuoteDisplay(QuoteSnapshot(quote).messageShort, isExpanded) == QuoteSnapshot(quote).messageShort
  {
  }

  // ---------------------------------------------------------------------------
  // The component
  // ---------------------------------------------------------------------------

  /** The chat page's state. Timer delays, scrolling and saving the name to
      local storage are not part of the model. */
  class ChatPage {
    /** The scripted bot messages, revealed in this order. */
    const botMessages: seq<BotMessage>
    var displayedBotMessages: seq<BotMessage>
    var messageIndex: nat
    var userName: string
    var showNameModal: bool
    var userInput: string
    var userMessages: seq<UserMessage>
    var quotedMessage: Option<QuoteData>
    var expandedQuotes: set<string>

    /** The revealed messages are exactly the first `messageIndex` scripted
        ones. It reads only the playback fields, so the handlers that leave
        those alone keep it without saying so. */
    ghost predicate Valid()
      reads this`displayedBotMessages, this`messageIndex
    {
      messageIndex <= |botMessages| && displayedBotMessages == botMessages[..messageIndex]
    }

    /** The page as mounted; `savedName` is the name kept in local storage,
        empty when there is none. */
    constructor (script: seq<BotMessage>, savedName: string)
      ensures Valid()
      ensures botMessages == script && displayedBotMessages == [] && messageIndex == 0
      ensures userName == savedName && !showNameModal && userInput == ""
      ensures userMessages == [] && quotedMessage == None && expandedQuotes == {}
    {
      botMessages := script;
      displayedBotMessages := [];
      messageIndex := 0;
      userName := savedName;
      showNameModal := false;
      userInput := "";
      userMessages := [];
      quotedMessage := None;
      expandedQuotes := {};
    }

    /** One firing of the reveal timer: append the next scripted message and
        advance the index; once every message is shown no timer is set. */
    method PlaybackStep() returns (revealed: bool)
      requires Valid()
      modifies this`displayedBotMessages, this`messageIndex
      ensures Valid()
      ensures revealed <==> old(messageIndex) < |botMessages|
      ensures revealed ==> displayedBotMessages == old(displayedBotMessages) + [botMessages[old(messageIndex)]]
                           && messageIndex == old(messageIndex) + 1
      ensures !revealed ==> displayedBotMessages == old(displayedBotMessages) && messageIndex == old(messageIndex)
    {
      if messageIndex >= |botMessages| {
        return false;
      }
      displayedBotMessages := displayedBotMessages + [botMessages[messageIndex]];
      messageIndex := messageIndex + 1;
      revealed := true;
    }

    /** The chain of timer firings, each re-arming the next, run to the end:
        every remaining scripted message is revealed once, in script order. */
    method Playback() returns (steps: nat)
      requires Valid()
      modifies this`displayedBotMessages, this`messageIndex
      ensures Valid()
      ensures steps == |botMessages| - old(messageIndex)
      ensures messageIndex == |botMessages| && displayedBotMessages == botMessages
    {
      steps := 0;
      while messageIndex < |botMessages|
        invariant Valid()
        invariant messageIndex == old(messageIndex) + steps
        decreases |botMessages| - messageIndex
      {
        var revealed := PlaybackStep();
        steps := steps + 1;
      }
    }

    /** The fields `Composer` describes. */
    function ComposerState(): (c: Composer)
      reads this`userName, this`showNameModal, this`userInput, this`userMessages, this`quotedMessage
      ensures c.userName == userName && c.userInput == userInput && c.userMessages == userMessages
      ensures c.showNameModal == showNameModal && c.quotedMessage == quotedMessage
    {
      Composer(userName, showNameModal, userInput, userMessages, quotedMessage)
    }

    /** `handleSendMessage`; `stamp` is `Date.now()` and `clock` the local time. */
    method HandleSendMessage(stamp: string, clock: string) returns (outcome: SendOutcome)
      modifies this`showNameModal, this`userMessages, this`userInput, this`quotedMessage
      ensures SendResult(outcome, ComposerState()) == Send(old(ComposerState()), stamp, clock)
    {
      var r := Send(ComposerState(), stamp, clock);
      showNameModal := r.after.showNameModal;
      userInput := r.after.userInput;
      userMessages := r.after.userMessages;
      quotedMessage := r.after.quotedMessage;
      outcome := r.outcome;
    }

    /** `handleSaveUserName`, which calls `handleSendMessage` once the name is
        accepted. */
    method HandleSaveUserName(stamp: string, clock: string) returns (saved: bool, outcome: SendOutcome)
      modifies this`showNameModal, this`userMessages, this`userInput, this`quotedMessage
      ensures SaveResult(saved, outcome, ComposerState()) == SaveName(old(ComposerState()), stamp, clock)
    {
      saved := !IsBlank(userName);
      if saved {
        showNameModal := false;
        outcome := HandleSendMessage(stamp, clock);
      } else {
        outcome := Ignored;
      }
    }

    /** `handleQuoteMessage`. */
    method HandleQuoteMessage(author: string, message: string, messageId: string)
      modifies this`quotedMessage
      ensures quotedMessage == Some(QuoteData(author, message, messageId))
    {
      quotedMessage := Some(QuoteData(author, message, messageId));
    }

    /** `cancelQuote`. */
    method CancelQuote()
      modifies this`quotedMessage
      ensures quotedMessage == None
    {
      quotedMessage := None;
    }

    /** `toggleQuoteExpansion`. */
    method ToggleQuoteExpansion(messageId: string)
      modifies this`expandedQuotes
      ensures expandedQuotes == Toggle(old(expandedQuotes), messageId)
    {
      var newSet := expandedQuotes;
      if messageId in newSet {
        newSet := newSet - {messageId};
      } else {
        newSet := newSet + {messageId};
      }
      expandedQuotes := newSet;
    }

    /** The text `renderQuote` shows for the quote inside message `messageId`. */
    function QuoteText(messageShort: string, messageId: string): (r: string)
      reads this
      ensures r == QuoteDisplay(messageShort, messageId in expandedQuotes)
      ensures messageId in expandedQuotes || |messageShort| <= DisplayLength ==> r == messageShort
      ensures messageId !in expandedQuotes && |messageShort| > DisplayLength ==>
                r == messageShort[..DisplayLength] + Ellipsis
      ensures |r| <= DisplayLength + |Ellipsis| || messageId in expandedQuotes
    {
      QuoteDisplay(messageShort, messageId in expandedQuotes)
    }
  }
}
