/** The admin console: the bot registry, the inbox of user messages awaiting
    a reply, the Telegram connection settings, the design settings with their
    colour presets, and the dashboard counters. */
module Admin {
  import opened Common

  datatype Bot = Bot(
    id: string,
    name: string,
    displayName: string,
    avatarColor: string,
    personality: string,
    isActive: bool,
    messageCount: int,
    lastActive: string)

  datatype TelegramSettings = TelegramSettings(botToken: string, chatId: string, isConnected: bool, webhookUrl: string)

  datatype DesignSettings = DesignSettings(
    primaryColor: string,
    secondaryColor: string,
    accentColor: string,
    backgroundColor: string,
    fontFamily: string,
    borderRadius: string,
    animationSpeed: string,
    gradientType: string)

  /** A user message in the inbox. */
  datatype ChatMessage = ChatMessage(id: string, userName: string, text: string, time: string, replied: bool)

  /** The add-bot form (`newBot`). */
  datatype BotForm = BotForm(displayName: string, avatarColor: string, personality: string)

  datatype Preset = Preset(name: string, primary: string, secondary: string, accent: string)

  const DefaultAvatarColor: string := "#6C5CE7"
  const EmptyBotForm: BotForm := BotForm("", DefaultAvatarColor, "")
  /** The `lastActive` label of a bot just created ("just created"). */
  const JustCreated: string := "Только что создан"

  /** The five colour themes offered on the design tab. */
  const Presets: seq<Preset> := [
    Preset("Purple Dream", "#6C5CE7", "#74B9FF", "#00B894"),
    Preset("Ocean Breeze", "#0984e3", "#74b9ff", "#00cec9"),
    Preset("Sunset Glow", "#e17055", "#fdcb6e", "#e84393"),
    Preset("Forest Fresh", "#00b894", "#55a3ff", "#fd79a8"),
    Preset("Dark Mode", "#2d3436", "#636e72", "#6c5ce7")
  ]

  // ---------------------------------------------------------------------------
  // The new values the handlers compute
  // ---------------------------------------------------------------------------

  /** The bot `handleAddBot` appends: its internal name is the slug of the
      display name, it starts active with no messages. */
  function CreateBot(form: BotForm, stamp: string): (b: Bot)
    ensures b.id == "bot_" + stamp && b.displayName == form.displayName
    ensures b.name == Slug(form.displayName)
    ensures forall i :: 0 <= i < |b.name| ==> !IsSpace(b.name[i])
    ensures b.avatarColor == form.avatarColor && b.personality == form.personality
    ensures b.isActive && b.messageCount == 0 && b.lastActive == JustCreated
  {
    Bot("bot_" + stamp, Slug(form.displayName), form.displayName, form.avatarColor, form.personality,
        true, 0, JustCreated)
  }

  /** `bots.filter(bot => bot.id !== id)`. */
  function WithoutBot(bots: seq<Bot>, id: string): (r: seq<Bot>)
    ensures forall i :: 0 <= i < |r| ==> r[i].id != id && r[i] in bots
    ensures forall i :: 0 <= i < |bots| && bots[i].id != id ==> bots[i] in r
    ensures forall b :: multiset(r)[b] == if b.id != id then multiset(bots)[b] else 0
    ensures IsSubsequence(r, bots)
  {
    FilterIsSubsequence(bots, (b: Bot) => b.id != id);
    FilterMultiplicity(bots, (b: Bot) => b.id != id);
    Filter(bots, (b: Bot) => b.id != id)
  }

  /** The bots with `isActive` flipped on those with that id, nothing else changed. */
  function ToggleActive(bots: seq<Bot>, id: string): (r: seq<Bot>)
    ensures |r| == |bots|
    ensures forall i :: 0 <= i < |bots| ==> r[i] == bots[i].(isActive := r[i].isActive)
    ensures forall i :: 0 <= i < |bots| ==> (r[i].isActive <==> (bots[i].isActive != (bots[i].id == id)))
  {
    MapIf(bots, (b: Bot) => b.id == id, (b: Bot) => b.(isActive := !b.isActive))
  }

  /** The inbox with the messages of that id marked replied, nothing else changed. */
  function MarkReplied(messages: seq<ChatMessage>, id: string): (r: seq<ChatMessage>)
    ensures |r| == |messages|
    ensures forall i :: 0 <= i < |messages| ==> r[i] == messages[i].(replied := r[i].replied)
    ensures forall i :: 0 <= i < |messages| ==> (r[i].replied <==> messages[i].replied || messages[i].id == id)
  {
    MapIf(messages, (m: ChatMessage) => m.id == id, (m: ChatMessage) => m.(replied := true))
  }

  /** The design settings with a preset's three colours. */
  function WithPreset(design: DesignSettings, preset: Preset): (r: DesignSettings)
    ensures r.primaryColor == preset.primary && r.secondaryColor == preset.secondary
    ensures r.accentColor == preset.accent
    ensures r.(primaryColor := design.primaryColor, secondaryColor := design.secondaryColor,
               accentColor := design.accentColor) == design
  {
    design.(primaryColor := preset.primary, secondaryColor := preset.secondary, accentColor := preset.accent)
  }

  /** `bots.filter(bot => bot.isActive).length`. */
  function ActiveCount(bots: seq<Bot>): (n: nat)
    ensures n <= |bots|
    ensures n == |Filter(bots, (b: Bot) => b.isActive)|
  {
    CountIf(bots, (b: Bot) => b.isActive)
  }

  /** `bots.reduce((sum, bot) => sum + bot.messageCount, 0)`. */
  function MessageTotal(bots: seq<Bot>): int {
    if bots == [] then 0 else bots[0].messageCount + MessageTotal(bots[1..])
  }

  // ---------------------------------------------------------------------------
  // Properties
  // ---------------------------------------------------------------------------

  /** Toggling the same bot twice gives back the registry. */
  lemma ToggleActiveTwice(bots: seq<Bot>, id: string)
    ensures ToggleActive(ToggleActive(bots, id), id) == bots
  {
    var r := ToggleActive(ToggleActive(bots, id), id);
    assert forall i :: 0 <= i < |bots| ==> r[i] == bots[i];
  }

  /** Marking a message replied a second time changes nothing. */
  lemma MarkRepliedIdempotent(messages: seq<ChatMessage>, id: string)
    ensures MarkReplied(MarkReplied(messages, id), id) == MarkReplied(messages, id)
  {
    var once := MarkReplied(messages, id);
    var twice := MarkReplied(once, id);
    assert forall i :: 0 <= i < |messages| ==> twice[i] == once[i];
  }

  /** Only the last preset applied matters. */
  lemma LastPresetWins(design: DesignSettings, p: Preset, q: Preset)
    ensures WithPreset(WithPreset(design, p), q) == WithPreset(design, q)
  {
  }

  lemma {:induction false} CountConcat(a: seq<Bot>, b: seq<Bot>)
    ensures ActiveCount(a + b) == ActiveCount(a) + ActiveCount(b)
    ensures MessageTotal(a + b) == MessageTotal(a) + MessageTotal(b)
  {
    if a == [] {
      assert a + b == b;
    } else {
      assert (a + b)[1..] == a[1..] + b;
      CountConcat(a[1..], b);
    }
  }

  /** A newly added bot raises the active count by one and leaves the message
      total as it was. */
  lemma AddBotCounters(bots: seq<Bot>, form: BotForm, stamp: string)
    ensures ActiveCount(bots + [CreateBot(form, stamp)]) == ActiveCount(bots) + 1
    ensures MessageTotal(bots + [CreateBot(form, stamp)]) == MessageTotal(bots)
  {
    CountConcat(bots, [CreateBot(form, stamp)]);
  }

  /** Toggling a bot whose id is unique moves the active count by exactly one. */
  lemma {:induction false} ToggleMovesActiveCountByOne(bots: seq<Bot>, k: nat)
    requires k < |bots|
    requires forall j :: 0 <= j < |bots| && j != k ==> bots[j].id != bots[k].id
    ensures ActiveCount(ToggleActive(bots, bots[k].id))
            == if bots[k].isActive then ActiveCount(bots) - 1 else ActiveCount(bots) + 1
  {
    var id := bots[k].id;
    var r := ToggleActive(bots, id);
    assert bots == bots[..k] + [bots[k]] + bots[k + 1..];
    assert r == r[..k] + [r[k]] + r[k + 1..];
    assert r[..k] == bots[..k];
    assert r[k + 1..] == bots[k + 1..];
    CountConcat(bots[..k] + [bots[k]], bots[k + 1..]);
    CountConcat(bots[..k], [bots[k]]);
    CountConcat(r[..k] + [r[k]], r[k + 1..]);
    CountConcat(r[..k], [r[k]]);
  }

  // ---------------------------------------------------------------------------
  // The component
  // ---------------------------------------------------------------------------

  /** The admin panel's state. Saving the settings to local storage, the
      Telegram API probe and styling the page are not part of the model. */
  class Panel {
    var bots: seq<Bot>
    var userMessages: seq<ChatMessage>
    var telegramSettings: TelegramSettings
    var designSettings: DesignSettings
    var newBot: BotForm
    var showAddBot: bool
    var selectedBot: string
    var replyMessage: string
    var showReplyDialog: bool
    var currentMessage: Option<ChatMessage>

    /** The panel as mounted, with the state it starts from (the demo data or
        what was read back from local storage). */
    constructor (initialBots: seq<Bot>, initialMessages: seq<ChatMessage>,
                 telegram: TelegramSettings, design: DesignSettings)
      ensures bots == initialBots && userMessages == initialMessages
      ensures telegramSettings == telegram && designSettings == design
      ensures newBot == EmptyBotForm && !showAddBot
      ensures selectedBot == "" && replyMessage == "" && !showReplyDialog && currentMessage == None
    {
      bots := initialBots;
      userMessages := initialMessages;
      telegramSettings := telegram;
      designSettings := design;
      newBot := EmptyBotForm;
      showAddBot := false;
      selectedBot := "";
      replyMessage := "";
      showReplyDialog := false;
      currentMessage := None;
    }

    /** `handleAddBot`; `stamp` is `Date.now()`. */
    method HandleAddBot(stamp: string) returns (added: bool)
      modifies this`bots, this`newBot, this`showAddBot
      ensures added <==> !IsBlank(old(newBot).displayName)
      ensures added ==> bots == old(bots) + [CreateBot(old(newBot), stamp)]
                        && newBot == EmptyBotForm && !showAddBot
      ensures !added ==> bots == old(bots) && newBot == old(newBot) && showAddBot == old(showAddBot)
    {
      added := !IsBlank(newBot.displayName);
      if added {
        AppendBot(stamp);
      }
    }

    /** The part of `handleAddBot` past its guard: append the bot built from
        the form, then reset and close the form. */
    method AppendBot(stamp: string)
      modifies this`bots, this`newBot, this`showAddBot
      ensures bots == old(bots) + [CreateBot(old(newBot), stamp)]
      ensures newBot == EmptyBotForm && !showAddBot
    {
      bots := bots + [CreateBot(newBot, stamp)];
      newBot := EmptyBotForm;
      showAddBot := false;
    }

    /** `handleDeleteBot`. */
    method HandleDeleteBot(botId: string)
      modifies this`bots
      ensures bots == WithoutBot(old(bots), botId)
    {
      bots := WithoutBot(bots, botId);
    }

    /** `toggleBotActive`. */
    method ToggleBotActive(botId: string)
      modifies this`bots
      ensures bots == ToggleActive(old(bots), botId)
    {
      bots := ToggleActive(bots, botId);
    }

    /** `testTelegramConnection`: with a token the connection is marked up.
        The probe is a stub; the catch branch is reached only when
        `saveSettings` throws, and persistence is not part of this model. */
    method TestTelegramConnection() returns (tested: bool)
      modifies this`telegramSettings
      ensures tested <==> old(telegramSettings).botToken != ""
      ensures telegramSettings == if tested then old(telegramSettings).(isConnected := true)
                                  else old(telegramSettings)
    {
      if telegramSettings.botToken == "" {
        return false;
      }
      telegramSettings := telegramSettings.(isConnected := true);
      tested := true;
    }

    /** `openReplyDialog`. */
    method OpenReplyDialog(message: ChatMessage)
      modifies this`currentMessage, this`showReplyDialog
      ensures currentMessage == Some(message) && showReplyDialog
    {
      currentMessage := Some(message);
      showReplyDialog := true;
    }

    /** `sendReply`: needs a message, a chosen bot and a non-blank reply; marks
        that message replied and closes the dialog, so a second call does
        nothing. */
    method SendReply() returns (sent: bool)
      modifies this`userMessages, this`showReplyDialog, this`replyMessage, this`selectedBot, this`currentMessage
      ensures sent <==> old(currentMessage).Some? && old(selectedBot) != "" && !IsBlank(old(replyMessage))
      ensures sent ==> userMessages == MarkReplied(old(userMessages), old(currentMessage).value.id)
                       && !showReplyDialog && replyMessage == "" && selectedBot == "" && currentMessage == None
      ensures !sent ==> userMessages == old(userMessages) && showReplyDialog == old(showReplyDialog)
                        && replyMessage == old(replyMessage) && selectedBot == old(selectedBot)
                        && currentMessage == old(currentMessage)
    {
      if currentMessage.None? || selectedBot == "" || IsBlank(replyMessage) {
        return false;
      }
      userMessages := MarkReplied(userMessages, currentMessage.value.id);
      showReplyDialog := false;
      replyMessage := "";
      selectedBot := "";
      currentMessage := None;
      sent := true;
    }

    /** Clicking one of the preset themes. */
    method ApplyPreset(index: nat)
      requires index < |Presets|
      modifies this`designSettings
      ensures designSettings == WithPreset(old(designSettings), Presets[index])
    {
      designSettings := WithPreset(designSettings, Presets[index]);
    }

    /** The "active bots" card. */
    function ActiveBots(): (n: nat)
      reads this
      ensures n == ActiveCount(bots) && n == |Filter(bots, (b: Bot) => b.isActive)|
      ensures n <= |bots|
      ensures n == |bots| <==> forall i :: 0 <= i < |bots| ==> bots[i].isActive
    {
      AllActiveIffFullCount(bots);
      ActiveCount(bots)
    }

    /** The "messages today" card. */
    function MessagesToday(): (total: int)
      reads this
      ensures total == MessageTotal(bots)
      ensures (forall i :: 0 <= i < |bots| ==> bots[i].messageCount >= 0) ==> total >= 0
    {
      MessageTotalNonNegative(bots);
      MessageTotal(bots)
    }
  }

  lemma {:induction false} AllActiveIffFullCount(bots: seq<Bot>)
    ensures ActiveCount(bots) == |bots| <==> forall i :: 0 <= i < |bots| ==> bots[i].isActive
  {
    if bots != [] {
      AllActiveIffFullCount(bots[1..]);
      assert forall i :: 1 <= i < |bots| ==> bots[i] == bots[1..][i - 1];
    }
  }

  lemma {:induction false} MessageTotalNonNegative(bots: seq<Bot>)
    ensures (forall i :: 0 <= i < |bots| ==> bots[i].messageCount >= 0) ==> MessageTotal(bots) >= 0
  {
    if bots != [] {
      MessageTotalNonNegative(bots[1..]);
    }
  }
}
