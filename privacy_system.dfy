/** The privacy console: visitor sessions, the private messages they sent,
    the log of Telegram notifications and admin replies, and the counters
    shown above them. */
module Privacy {
  import opened Common

  datatype UserSession = UserSession(
    sessionId: string,
    userName: string,
    ip: string,
    firstVisit: string,
    lastActivity: string,
    messageCount: int,
    isActive: bool,
    userAgent: string)

  datatype PrivateMessage = PrivateMessage(
    id: string,
    sessionId: string,
    userName: string,
    message: string,
    timestamp: string,
    replied: bool,
    repliedBy: Option<string>,
    repliedAt: Option<string>,
    isVisible: bool)

  /** An entry of the Telegram log: a notification about a visitor's message
      (`fromAdmin` false) or an admin's reply to it. */
  datatype TelegramMessage = TelegramMessage(
    id: string,
    messageId: string,
    fromAdmin: bool,
    botName: Option<string>,
    text: string,
    timestamp: string,
    targetSessionId: string)

  datatype Stats = Stats(
    totalSessions: nat,
    activeSessions: nat,
    totalMessages: nat,
    privateMessages: nat,
    repliedMessages: nat)

  datatype Device = Mobile | Tablet | Desktop

  /** The user agent given to every simulated session. */
  const SimulatedAgent: string := "Mozilla/5.0 (Windows NT 10.0; Win64; x64) AppleWebKit/537.36"

  // ---------------------------------------------------------------------------
  // Derived values
  // ---------------------------------------------------------------------------

  /** The counters the stats effect computes. */
  function ComputeStats(sessions: seq<UserSession>, messages: seq<PrivateMessage>): (s: Stats)
    ensures s.totalSessions == |sessions| && s.totalMessages == |messages|
    ensures s.activeSessions <= s.totalSessions
    ensures s.privateMessages <= s.totalMessages && s.repliedMessages <= s.totalMessages
  {
    Stats(|sessions|,
          CountIf(sessions, (x: UserSession) => x.isActive),
          |messages|,
          CountIf(messages, (m: PrivateMessage) => m.isVisible),
          CountIf(messages, (m: PrivateMessage) => m.replied))
  }

  /** `getSessionMessages`: the messages of one session, in list order. */
  function SessionMessages(messages: seq<PrivateMessage>, sessionId: string): (r: seq<PrivateMessage>)
    ensures forall i :: 0 <= i < |r| ==> r[i].sessionId == sessionId && r[i] in messages
    ensures forall i :: 0 <= i < |messages| && messages[i].sessionId == sessionId ==> messages[i] in r
    ensures forall m :: multiset(r)[m] == if m.sessionId == sessionId then multiset(messages)[m] else 0
    ensures IsSubsequence(r, messages)
  {
    FilterIsSubsequence(messages, (m: PrivateMessage) => m.sessionId == sessionId);
    FilterMultiplicity(messages, (m: PrivateMessage) => m.sessionId == sessionId);
    Filter(messages, (m: PrivateMessage) => m.sessionId == sessionId)
  }

  /** `getDeviceType`: the mobile markers are checked first, then the tablet ones. */
  function DeviceType(userAgent: string): (d: Device)
    ensures d == Mobile <==> Contains(userAgent, "iPhone") || Contains(userAgent, "Android")
    ensures d == Tablet <==> !Contains(userAgent, "iPhone") && !Contains(userAgent, "Android")
                             && (Contains(userAgent, "iPad") || Contains(userAgent, "tablet"))
  {
    if Contains(userAgent, "iPhone") || Contains(userAgent, "Android") then Mobile
    else if Contains(userAgent, "iPad") || Contains(userAgent, "tablet") then Tablet
    else Desktop
  }

  // ---------------------------------------------------------------------------
  // The new values the handlers compute
  // ---------------------------------------------------------------------------

  /** `privateMessages.find(m => m.id === id)`. */
  function FindMessage(messages: seq<PrivateMessage>, id: string): (r: Option<PrivateMessage>)
    ensures r.None? <==> forall i :: 0 <= i < |messages| ==> messages[i].id != id
    ensures r.Some? ==> r.value.id == id
    ensures r.Some? ==> exists i :: 0 <= i < |messages| && messages[i] == r.value
                           && forall j :: 0 <= j < i ==> messages[j].id != id
  {
    match FirstIndex(messages, (m: PrivateMessage) => m.id == id)
    case None => None
    case Some(i) => Some(messages[i])
  }

  /** The messages with that id marked as replied by `botName` at `at`;
      everything else unchanged. */
  function MarkAnswered(messages: seq<PrivateMessage>, id: string, botName: string, at: string): (r: seq<PrivateMessage>)
    ensures |r| == |messages|
    ensures forall i :: 0 <= i < |messages| && messages[i].id != id ==> r[i] == messages[i]
    ensures forall i :: 0 <= i < |messages| && messages[i].id == id ==>
              r[i] == messages[i].(replied := true, repliedBy := Some(botName), repliedAt := Some(at))
  {
    MapIf(messages, (m: PrivateMessage) => m.id == id,
          (m: PrivateMessage) => m.(replied := true, repliedBy := Some(botName), repliedAt := Some(at)))
  }

  /** Messages and log after `simulateAdminReply`. */
  datatype Inbox = Inbox(messages: seq<PrivateMessage>, log: seq<TelegramMessage>)

  /** `simulateAdminReply`: an unknown or already replied message is left
      alone; otherwise it is marked replied and the reply is put at the head of
      the Telegram log, addressed to the message's session. */
  function AdminReply(inbox: Inbox, messageId: string, botName: string, replyText: string,
                      now: string, stamp: string): (r: Inbox)
    ensures (FindMessage(inbox.messages, messageId).None? || FindMessage(inbox.messages, messageId).value.replied)
              ==> r == inbox
    ensures (FindMessage(inbox.messages, messageId).Some? && !FindMessage(inbox.messages, messageId).value.replied)
              ==> r.messages == MarkAnswered(inbox.messages, messageId, botName, now)
                  && |r.log| == |inbox.log| + 1 && r.log[1..] == inbox.log
                  && r.log[0].id == "tg_" + stamp && r.log[0].timestamp == now
                  && r.log[0].fromAdmin && r.log[0].messageId == messageId
                  && r.log[0].botName == Some(botName) && r.log[0].text == replyText
                  && r.log[0].targetSessionId == FindMessage(inbox.messages, messageId).value.sessionId
  {
    match FindMessage(inbox.messages, messageId)
    case None => inbox
    case Some(message) =>
      if message.replied then inbox
      else
        var entry := TelegramMessage("tg_" + stamp, messageId, true, Some(botName), replyText, now, message.sessionId);
        Inbox(MarkAnswered(inbox.messages, messageId, botName, now), [entry] + inbox.log)
  }

  /** `toggleMessageVisibility` on the list. */
  function ToggleVisibility(messages: seq<PrivateMessage>, id: string): (r: seq<PrivateMessage>)
    ensures |r| == |messages|
    ensures forall i :: 0 <= i < |messages| ==> r[i] == messages[i].(isVisible := r[i].isVisible)
    ensures forall i :: 0 <= i < |messages| ==> (r[i].isVisible <==> (messages[i].isVisible != (messages[i].id == id)))
  {
    MapIf(messages, (m: PrivateMessage) => m.id == id, (m: PrivateMessage) => m.(isVisible := !m.isVisible))
  }

  /** `deactivateSession` on the list. */
  function Deactivate(sessions: seq<UserSession>, sessionId: string): (r: seq<UserSession>)
    ensures |r| == |sessions|
    ensures forall i :: 0 <= i < |sessions| ==> r[i] == sessions[i].(isActive := r[i].isActive)
    ensures forall i :: 0 <= i < |sessions| ==> (r[i].isActive <==> sessions[i].isActive && sessions[i].sessionId != sessionId)
  {
    MapIf(sessions, (s: UserSession) => s.sessionId == sessionId, (s: UserSession) => s.(isActive := false))
  }

  /** The notification text sent to Telegram for a new visitor message. */
  function NotificationText(userName: string, text: string, clock: string): string {
    "\U{1F514} Новое сообщение от " + userName + ":\n\n" + text + "\n\nВремя: " + clock
  }

  // ---------------------------------------------------------------------------
  // Properties
  // ---------------------------------------------------------------------------

  /** A message is answered at most once: replying again, by any bot with any
      text, changes nothing. */
  lemma AnsweredAtMostOnce(inbox: Inbox, messageId: string, botName: string, replyText: string,
                           now: string, stamp: string,
                           botName2: string, replyText2: string, now2: string, stamp2: string)
    ensures var once := AdminReply(inbox, messageId, botName, replyText, now, stamp);
            AdminReply(once, messageId, botName2, replyText2, now2, stamp2) == once
  {
    var once := AdminReply(inbox, messageId, botName, replyText, now, stamp);
    var found := FindMessage(inbox.messages, messageId);
    if found.Some? && !found.value.replied {
      var again := FindMessage(once.messages, messageId);
      assert again.Some?;
      var i :| 0 <= i < |once.messages| && once.messages[i] == again.value;
      assert again.value.replied;
    }
  }

  /** Showing and hiding a message twice gives back the list. */
  lemma ToggleVisibilityTwice(messages: seq<PrivateMessage>, id: string)
    ensures ToggleVisibility(ToggleVisibility(messages, id), id) == messages
  {
    var r := ToggleVisibility(ToggleVisibility(messages, id), id);
    assert forall i :: 0 <= i < |messages| ==> r[i] == messages[i];
  }

  /** Deactivating a session twice is the same as once. */
  lemma DeactivateIdempotent(sessions: seq<UserSession>, sessionId: string)
    ensures Deactivate(Deactivate(sessions, sessionId), sessionId) == Deactivate(sessions, sessionId)
  {
    var once := Deactivate(sessions, sessionId);
    var twice := Deactivate(once, sessionId);
    assert forall i :: 0 <= i < |sessions| ==> twice[i] == once[i];
  }

  /** Deactivating never raises the number of active sessions. */
  lemma {:induction false} DeactivateLowersActive(sessions: seq<UserSession>, sessionId: string)
    ensures ComputeStats(Deactivate(sessions, sessionId), []).activeSessions
            <= ComputeStats(sessions, []).activeSessions
  {
    if sessions != [] {
      DeactivateLowersActive(sessions[1..], sessionId);
      assert Deactivate(sessions, sessionId)[1..] == Deactivate(sessions[1..], sessionId);
    }
  }

  /** The replied counter of the stats effect. */
  function RepliedCount(messages: seq<PrivateMessage>): (n: nat)
    ensures n <= |messages|
    ensures n == |Filter(messages, (m: PrivateMessage) => m.replied)|
  {
    CountIf(messages, (m: PrivateMessage) => m.replied)
  }

  /** Marking messages answered never lowers the replied counter. */
  lemma {:induction false} MarkAnsweredKeepsReplied(messages: seq<PrivateMessage>, id: string, botName: string, at: string)
    ensures RepliedCount(MarkAnswered(messages, id, botName, at)) >= RepliedCount(messages)
  {
    if messages != [] {
      var r := MarkAnswered(messages, id, botName, at);
      assert r[1..] == MarkAnswered(messages[1..], id, botName, at);
      assert messages[0].replied ==> r[0].replied;
      MarkAnsweredKeepsReplied(messages[1..], id, botName, at);
    }
  }

  /** Marking answered a message that was still open raises the replied
      counter. */
  lemma {:induction false} MarkAnsweredRaisesReplied(messages: seq<PrivateMessage>, id: string, botName: string, at: string, k: nat)
    requires k < |messages| && messages[k].id == id && !messages[k].replied
    ensures RepliedCount(MarkAnswered(messages, id, botName, at)) > RepliedCount(messages)
    decreases k
  {
    var r := MarkAnswered(messages, id, botName, at);
    assert r[1..] == MarkAnswered(messages[1..], id, botName, at);
    assert messages[0].replied ==> r[0].replied;
    if k == 0 {
      assert r[0].replied;
      MarkAnsweredKeepsReplied(messages[1..], id, botName, at);
    } else {
      assert messages[1..][k - 1] == messages[k];
      MarkAnsweredRaisesReplied(messages[1..], id, botName, at, k - 1);
    }
  }

  /** After `simulateNewMessage` every counter but the replied one goes up by
      one: the new session is active and the new message is visible and open. */
  lemma NewMessageStats(sessions: seq<UserSession>, messages: seq<PrivateMessage>,
                        session: UserSession, message: PrivateMessage)
    requires session.isActive && message.isVisible && !message.replied
    ensures var before, after := ComputeStats(sessions, messages), ComputeStats([session] + sessions, [message] + messages);
            after == Stats(before.totalSessions + 1, before.activeSessions + 1, before.totalMessages + 1,
                           before.privateMessages + 1, before.repliedMessages)
  {
    assert ([session] + sessions)[1..] == sessions;
    assert ([message] + messages)[1..] == messages;
  }

  /** A reply that goes through raises the replied counter; one that does not
      leaves it. */
  lemma AdminReplyStats(inbox: Inbox, messageId: string, botName: string, replyText: string,
                        now: string, stamp: string)
    ensures var r := AdminReply(inbox, messageId, botName, replyText, now, stamp);
            RepliedCount(r.messages) >= RepliedCount(inbox.messages)
            && (r != inbox ==> RepliedCount(r.messages) > RepliedCount(inbox.messages))
  {
    var found := FindMessage(inbox.messages, messageId);
    if found.Some? && !found.value.replied {
      var i :| 0 <= i < |inbox.messages| && inbox.messages[i] == found.value
               && forall j :: 0 <= j < i ==> inbox.messages[j].id != messageId;
      MarkAnsweredRaisesReplied(inbox.messages, messageId, botName, now, i);
    }
  }

  /** The messages listed for a session that had none yet, after a new message
      of it was put at the head, are that message alone. */
  lemma NewSessionListsOnlyItsMessage(messages: seq<PrivateMessage>, m: PrivateMessage)
    requires forall i :: 0 <= i < |messages| ==> messages[i].sessionId != m.sessionId
    ensures SessionMessages([m] + messages, m.sessionId) == [m]
  {
    var keep := (x: PrivateMessage) => x.sessionId == m.sessionId;
    FilterConcat([m], messages, keep);
    FilterKeepsNone(messages, keep);
  }

  /** An agent that names an iPhone anywhere, such as the seeded
      "Mozilla/5.0 (iPhone; CPU iPhone OS 17_0 ...)", is classified as mobile,
      whatever else it names. */
  lemma {:induction false} IPhoneAgentIsMobile(before: string, after: string)
    ensures DeviceType(before + "iPhone" + after) == Mobile
  {
    var ua := before + "iPhone" + after;
    assert ua[|before|..|before| + 6] == "iPhone";
    ContainsOfOccurrence(ua, "iPhone", |before|);
  }

  // ---------------------------------------------------------------------------
  // The component
  // ---------------------------------------------------------------------------

  /** The privacy console's state. The counters are recomputed by an effect
      whenever sessions or messages change, so they are current after every
      handler. */
  class Console {
    var userSessions: seq<UserSession>
    var privateMessages: seq<PrivateMessage>
    var telegramMessages: seq<TelegramMessage>
    var selectedSession: string
    var privacyStats: Stats

    ghost predicate Valid()
      reads this
    {
      privacyStats == ComputeStats(userSessions, privateMessages)
    }

    /** The console as mounted, after its first stats effect has run. */
    constructor (sessions: seq<UserSession>, messages: seq<PrivateMessage>, log: seq<TelegramMessage>)
      ensures Valid()
      ensures userSessions == sessions && privateMessages == messages && telegramMessages == log
      ensures selectedSession == ""
    {
      userSessions := sessions;
      privateMessages := messages;
      telegramMessages := log;
      selectedSession := "";
      privacyStats := ComputeStats(sessions, messages);
    }

    /** `simulateNewMessage`: a new session, its message and the Telegram
        notification about it are each put at the head of their list. The
        random parts (session suffix, name, address, text) and the clock
        readings are parameters. */
    method SimulateNewMessage(sessionSuffix: string, userName: string, ip: string, text: string,
                              now: string, stamp: string, clock: string)
      requires Valid()
      modifies this`userSessions, this`privateMessages, this`telegramMessages, this`privacyStats
      ensures Valid()
      ensures var sessionId := "sess_" + sessionSuffix;
              && userSessions == [UserSession(sessionId, userName, ip, now, now, 1, true, SimulatedAgent)]
                                 + old(userSessions)
              && privateMessages == [PrivateMessage("msg_" + stamp, sessionId, userName, text, now,
                                                    false, None, None, true)] + old(privateMessages)
              && telegramMessages == [TelegramMessage("tg_" + stamp, "msg_" + stamp, false, None,
                                                      NotificationText(userName, text, clock), now, sessionId)]
                                     + old(telegramMessages)
    {
      var sessionId := "sess_" + sessionSuffix;
      var newSession := UserSession(sessionId, userName, ip, now, now, 1, true, SimulatedAgent);
      userSessions := [newSession] + userSessions;
      var newMessage := PrivateMessage("msg_" + stamp, sessionId, userName, text, now, false, None, None, true);
      privateMessages := [newMessage] + privateMessages;
      var notification := TelegramMessage("tg_" + stamp, newMessage.id, false, None,
                                          NotificationText(userName, text, clock), now, sessionId);
      telegramMessages := [notification] + telegramMessages;
      privacyStats := ComputeStats(userSessions, privateMessages);
    }

    /** `simulateAdminReply`; the bot and the reply text, picked at random in
        the console, and the clock readings are parameters. */
    method SimulateAdminReply(messageId: string, botName: string, replyText: string, now: string, stamp: string)
      returns (replied: bool)
      requires Valid()
      modifies this`privateMessages, this`telegramMessages, this`privacyStats
      ensures Valid()
      ensures replied <==> FindMessage(old(privateMessages), messageId).Some?
                           && !FindMessage(old(privateMessages), messageId).value.replied
      ensures Inbox(privateMessages, telegramMessages)
              == AdminReply(Inbox(old(privateMessages), old(telegramMessages)), messageId, botName, replyText, now, stamp)
    {
      var message := FindMessage(privateMessages, messageId);
      if message.None? || message.value.replied {
        return false;
      }
      privateMessages := MarkAnswered(privateMessages, messageId, botName, now);
      var adminReply := TelegramMessage("tg_" + stamp, messageId, true, Some(botName), replyText, now,
                                        message.value.sessionId);
      telegramMessages := [adminReply] + telegramMessages;
      privacyStats := ComputeStats(userSessions, privateMessages);
      replied := true;
    }

    /** `toggleMessageVisibility`. */
    method ToggleMessageVisibility(messageId: string)
      requires Valid()
      modifies this`privateMessages, this`privacyStats
      ensures Valid()
      ensures privateMessages == ToggleVisibility(old(privateMessages), messageId)
    {
      privateMessages := ToggleVisibility(privateMessages, messageId);
      privacyStats := ComputeStats(userSessions, privateMessages);
    }

    /** `deactivateSession`. */
    method DeactivateSession(sessionId: string)
      requires Valid()
      modifies this`userSessions, this`privacyStats
      ensures Valid()
      ensures userSessions == Deactivate(old(userSessions), sessionId)
    {
      userSessions := Deactivate(userSessions, sessionId);
      privacyStats := ComputeStats(userSessions, privateMessages);
    }

    /** `getSessionMessages`. */
    function GetSessionMessages(sessionId: string): (r: seq<PrivateMessage>)
      reads this
      ensures r == SessionMessages(privateMessages, sessionId)
      ensures forall i :: 0 <= i < |r| ==> r[i].sessionId == sessionId
      ensures forall i :: 0 <= i < |privateMessages| && privateMessages[i].sessionId == sessionId
                ==> privateMessages[i] in r
      ensures forall m :: multiset(r)[m] == if m.sessionId == sessionId then multiset(privateMessages)[m] else 0
      ensures IsSubsequence(r, privateMessages)
    {
      SessionMessages(privateMessages, sessionId)
    }
  }
}
