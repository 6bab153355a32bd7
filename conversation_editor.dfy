/** The scripted-conversation editor: an ordered list of bot messages that the
    operator adds to, edits, deletes, reorders, imports and clears, each
    message optionally carrying a snapshot of the message it replies to. */
module Conversation {
  import opened Common

  /** Length of the quoted excerpt stored in a reply snapshot. */
  const SnapshotLength: nat := 50
  /** Delay put back into the form after every add or save. */
  const DefaultDelay: int := 3

  /** Denormalised copy of the message replied to, taken when the reply is saved. */
  datatype ReplyRef = ReplyRef(botName: string, messageShort: string, messageId: string)

  datatype Message = Message(
    id: string,
    botName: string,
    text: string,
    time: string,
    replyTo: Option<ReplyRef>,
    avatarColor: string,
    delaySeconds: int)

  datatype Bot = Bot(
    id: string,
    name: string,
    displayName: string,
    avatarColor: string,
    personality: string,
    isActive: bool)

  /** The add/edit form (`newMessage`). */
  datatype Draft = Draft(botName: string, text: string, time: string, replyToId: string, delaySeconds: int)

  const EmptyDraft: Draft := Draft("", "", "", "", DefaultDelay)

  datatype Direction = Up | Down

  /** What `JSON.parse(jsonInput)` yields, as far as the import inspects it. */
  datatype ImportValue =
    | Unparsable                        // JSON.parse threw, or the value is null
    | NoConversationArray               // `conversation` is missing, falsy or not an array
    | ConversationArray(items: seq<Message>)

  datatype ImportOutcome = Imported | FormatAlert | ParseAlert

  // ---------------------------------------------------------------------------
  // Lookups
  // ---------------------------------------------------------------------------

  /** `conversation.findIndex(msg => msg.id === id)`. */
  function IndexOfId(conv: seq<Message>, id: string): (r: Option<nat>)
    ensures r.None? <==> forall i :: 0 <= i < |conv| ==> conv[i].id != id
    ensures r.Some? ==> r.value < |conv| && conv[r.value].id == id
    ensures r.Some? ==> forall j :: 0 <= j < r.value ==> conv[j].id != id
  {
    FirstIndex(conv, (m: Message) => m.id == id)
  }

  /** `bots.find(bot => bot.displayName === name)`. */
  function FindBot(bots: seq<Bot>, displayName: string): (r: Option<Bot>)
    ensures r.None? <==> forall i :: 0 <= i < |bots| ==> bots[i].displayName != displayName
    ensures r.Some? ==> r.value.displayName == displayName
    ensures r.Some? ==> exists i :: 0 <= i < |bots| && bots[i] == r.value
                           && forall j :: 0 <= j < i ==> bots[j].displayName != displayName
  {
    match FirstIndex(bots, (b: Bot) => b.displayName == displayName)
    case None => None
    case Some(i) => Some(bots[i])
  }

  /** The `reply_to` snapshot of the message with id `replyToId`: its author,
      its text cut to 50 characters plus an ellipsis, and its id; absent when no
      id was chosen or no message has it. */
  function ReplySnapshot(conv: seq<Message>, replyToId: string): (r: Option<ReplyRef>)
    ensures r.None? <==> replyToId == "" || forall i :: 0 <= i < |conv| ==> conv[i].id != replyToId
    ensures r.Some? ==> r.value.messageId == replyToId
    ensures r.Some? ==> exists i :: 0 <= i < |conv| && conv[i].id == replyToId
                           && r.value.botName == conv[i].botName
                           && r.value.messageShort == Shorten(conv[i].text, SnapshotLength)
    ensures r.Some? ==> var i := IndexOfId(conv, replyToId).value;
                          r.value.botName == conv[i].botName
                          && r.value.messageShort == Shorten(conv[i].text, SnapshotLength)
    ensures r.Some? ==> |r.value.messageShort| <= SnapshotLength + |Ellipsis|
  {
    if replyToId == "" then None
    else match IndexOfId(conv, replyToId)
      case None => None
      case Some(i) => Some(ReplyRef(conv[i].botName, Shorten(conv[i].text, SnapshotLength), conv[i].id))
  }

  // ---------------------------------------------------------------------------
  // The new values the handlers compute
  // ---------------------------------------------------------------------------

  /** The message `addMessage` builds from the form: `None` when the author or
      the text is empty or no bot has that display name. The id comes from the
      clock stamp, the colour from the bot, an empty time from the clock. */
  function NewMessage(draft: Draft, bots: seq<Bot>, conv: seq<Message>, stamp: string, clock: string): (r: Option<Message>)
    ensures r.None? <==> draft.botName == "" || draft.text == ""
                         || forall i :: 0 <= i < |bots| ==> bots[i].displayName != draft.botName
    ensures r.Some? ==> r.value.id == "msg_" + stamp
    ensures r.Some? ==> r.value.botName == draft.botName && r.value.text == draft.text
                        && r.value.delaySeconds == draft.delaySeconds
    ensures r.Some? ==> exists i :: 0 <= i < |bots| && bots[i].displayName == draft.botName
                           && r.value.avatarColor == bots[i].avatarColor
    ensures r.Some? ==> r.value.avatarColor == FindBot(bots, draft.botName).value.avatarColor
    ensures r.Some? ==> r.value.time == if draft.time == "" then clock else draft.time
    ensures r.Some? ==> r.value.replyTo == ReplySnapshot(conv, draft.replyToId)
  {
    if draft.botName == "" || draft.text == "" then None
    else match FindBot(bots, draft.botName)
      case None => None
      case Some(bot) =>
        Some(Message("msg_" + stamp, draft.botName, draft.text,
                     if draft.time != "" then draft.time else clock,
                     ReplySnapshot(conv, draft.replyToId), bot.avatarColor, draft.delaySeconds))
  }

  /** `conversation.filter(msg => msg.id !== id)`. */
  function WithoutId(conv: seq<Message>, id: string): (r: seq<Message>)
    ensures forall i :: 0 <= i < |r| ==> r[i].id != id && r[i] in conv
    ensures forall i :: 0 <= i < |conv| && conv[i].id != id ==> conv[i] in r
    ensures forall m :: multiset(r)[m] == if m.id != id then multiset(conv)[m] else 0
    ensures IsSubsequence(r, conv)
  {
    FilterIsSubsequence(conv, (m: Message) => m.id != id);
    FilterMultiplicity(conv, (m: Message) => m.id != id);
    Filter(conv, (m: Message) => m.id != id)
  }

  /** The form loaded by `editMessage`. */
  function DraftOf(m: Message): (d: Draft)
    ensures d.botName == m.botName && d.text == m.text && d.time == m.time
    ensures d.delaySeconds == m.delaySeconds
    ensures d.replyToId == if m.replyTo.Some? then m.replyTo.value.messageId else ""
  {
    Draft(m.botName, m.text, m.time, if m.replyTo.Some? then m.replyTo.value.messageId else "", m.delaySeconds)
  }

  /** The list `saveEdit` stores: every message with id `id` takes the form's
      fields, the bot's colour and a fresh reply snapshot; its id and every
      other message stay as they were. */
  function ApplyEdit(conv: seq<Message>, id: string, draft: Draft, color: string): (r: seq<Message>)
    ensures |r| == |conv|
    ensures forall i :: 0 <= i < |conv| ==> r[i].id == conv[i].id
    ensures forall i :: 0 <= i < |conv| && conv[i].id != id ==> r[i] == conv[i]
    ensures forall i :: 0 <= i < |conv| && conv[i].id == id ==>
              r[i] == Message(id, draft.botName, draft.text, draft.time,
                              ReplySnapshot(conv, draft.replyToId), color, draft.delaySeconds)
  {
    var snapshot := ReplySnapshot(conv, draft.replyToId);
    MapIf(conv, (m: Message) => m.id == id,
          (m: Message) => m.(botName := draft.botName, text := draft.text, time := draft.time,
                             avatarColor := color, delaySeconds := draft.delaySeconds,
                             replyTo := snapshot))
  }

  /** Index `i` moved one place in `direction`. */
  function Neighbour(i: nat, direction: Direction): int {
    if direction == Up then i - 1 else i + 1
  }

  /** The list `moveMessage` stores: the first message with id `id` trades
      places with its neighbour in `direction`, unless it is missing or already
      at that end of the list. `Editor.MoveMessage` computes it by the splices
      of the component. */
  function Move(conv: seq<Message>, id: string, direction: Direction): (r: seq<Message>)
    ensures |r| == |conv| && multiset(r) == multiset(conv)
    ensures IndexOfId(conv, id).None? ==> r == conv
    ensures IndexOfId(conv, id).Some? && !(0 <= Neighbour(IndexOfId(conv, id).value, direction) < |conv|) ==> r == conv
    ensures forall k :: 0 <= k < |conv| && r[k] != conv[k] ==>
              IndexOfId(conv, id).Some? && (k == IndexOfId(conv, id).value || k == Neighbour(IndexOfId(conv, id).value, direction))
    ensures IndexOfId(conv, id).Some? && 0 <= Neighbour(IndexOfId(conv, id).value, direction) < |conv| ==>
              var i, j := IndexOfId(conv, id).value, Neighbour(IndexOfId(conv, id).value, direction);
              r[i] == conv[j] && r[j] == conv[i]
  {
    match IndexOfId(conv, id)
    case None => conv
    case Some(i) =>
      var j := Neighbour(i, direction);
      if 0 <= j < |conv| then conv[i := conv[j]][j := conv[i]] else conv
  }

  /** `conversation.reduce((sum, msg) => sum + msg.delay_seconds, 0)`. */
  function TotalDuration(conv: seq<Message>): int {
    if conv == [] then 0 else conv[0].delaySeconds + TotalDuration(conv[1..])
  }

  // ---------------------------------------------------------------------------
  // Properties
  // ---------------------------------------------------------------------------

  lemma {:induction false} DurationConcat(a: seq<Message>, b: seq<Message>)
    ensures TotalDuration(a + b) == TotalDuration(a) + TotalDuration(b)
  {
    if a == [] {
      assert a + b == b;
    } else {
      assert (a + b)[1..] == a[1..] + b;
      DurationConcat(a[1..], b);
    }
  }

  /** Adding a message lengthens the playback by exactly its delay. */
  lemma DurationOfAppend(conv: seq<Message>, m: Message)
    ensures TotalDuration(conv + [m]) == TotalDuration(conv) + m.delaySeconds
  {
    DurationConcat(conv, [m]);
  }

  /** Swapping two neighbours keeps the sum of the delays. */
  lemma {:induction false} DurationSwapNeighbours(conv: seq<Message>, lo: nat)
    requires lo + 1 < |conv|
    ensures TotalDuration(conv[lo := conv[lo + 1]][lo + 1 := conv[lo]]) == TotalDuration(conv)
  {
    var w := conv[lo := conv[lo + 1]][lo + 1 := conv[lo]];
    if lo == 0 {
      assert w[1..][1..] == conv[1..][1..];
    } else {
      assert w[1..] == conv[1..][lo - 1 := conv[1..][lo]][lo := conv[1..][lo - 1]];
      DurationSwapNeighbours(conv[1..], lo - 1);
    }
  }

  /** Reordering never changes the total duration. */
  lemma MovePreservesDuration(conv: seq<Message>, id: string, direction: Direction)
    ensures TotalDuration(Move(conv, id, direction)) == TotalDuration(conv)
  {
    var r := Move(conv, id, direction);
    if IndexOfId(conv, id).Some? {
      var i := IndexOfId(conv, id).value;
      var j := Neighbour(i, direction);
      if 0 <= j < |conv| {
        var lo := if i < j then i else j;
        assert r == conv[lo := conv[lo + 1]][lo + 1 := conv[lo]];
        DurationSwapNeighbours(conv, lo);
      }
    }
  }

  /** Appending a message whose id is new and then deleting that id gives back
      the list as it was. */
  lemma AddThenDeleteRestores(conv: seq<Message>, m: Message)
    requires forall i :: 0 <= i < |conv| ==> conv[i].id != m.id
    ensures WithoutId(conv + [m], m.id) == conv
  {
    var keep := (x: Message) => x.id != m.id;
    FilterConcat(conv, [m], keep);
    FilterKeepsAll(conv, keep);
    assert Filter([m], keep) == [];
  }

  /** Moving a message up and then down again restores the list. */
  lemma MoveUpThenDown(conv: seq<Message>, id: string)
    requires IndexOfId(conv, id).Some? && IndexOfId(conv, id).value > 0
    ensures Move(Move(conv, id, Up), id, Down) == conv
  {
    var i := IndexOfId(conv, id).value;
    var up := conv[i := conv[i - 1]][i - 1 := conv[i]];
    MoveAt(conv, id, Up, i, i - 1);
    assert forall j :: 0 <= j < i - 1 ==> up[j] == conv[j];
    FirstIdAt(up, id, i - 1);
    MoveAt(up, id, Down, i - 1, i);
    SwapBack(conv, i, i - 1);
  }

  /** Moving a message down and then up again restores the list, provided the
      neighbour it passes does not carry the same id. */
  lemma MoveDownThenUp(conv: seq<Message>, id: string)
    requires IndexOfId(conv, id).Some?
    requires IndexOfId(conv, id).value + 1 < |conv|
    requires conv[IndexOfId(conv, id).value + 1].id != id
    ensures Move(Move(conv, id, Down), id, Up) == conv
  {
    var i := IndexOfId(conv, id).value;
    var down := conv[i := conv[i + 1]][i + 1 := conv[i]];
    MoveAt(conv, id, Down, i, i + 1);
    assert forall j :: 0 <= j < i + 1 ==> down[j].id != id;
    FirstIdAt(down, id, i + 1);
    MoveAt(down, id, Up, i + 1, i);
    SwapBack(conv, i, i + 1);
  }

  /** Where the message is found at `i` and its neighbour `j` exists, `Move`
      swaps the two. */
  lemma MoveAt(conv: seq<Message>, id: string, direction: Direction, i: nat, j: nat)
    requires IndexOfId(conv, id) == Some(i)
    requires j == Neighbour(i, direction) && j < |conv|
    ensures Move(conv, id, direction) == conv[i := conv[j]][j := conv[i]]
  {
  }

  /** The first message with `id` is at `p` when it is there and not before. */
  lemma FirstIdAt(conv: seq<Message>, id: string, p: nat)
    requires p < |conv| && conv[p].id == id
    requires forall j :: 0 <= j < p ==> conv[j].id != id
    ensures IndexOfId(conv, id) == Some(p)
  {
  }

  /** Opening a message in the form and saving it unchanged leaves the list as
      it was, when that id is unique, its colour is the bot's and its snapshot
      is current. */
  lemma EditUnchangedIsIdentity(conv: seq<Message>, k: nat, color: string)
    requires k < |conv|
    requires forall j :: 0 <= j < |conv| && j != k ==> conv[j].id != conv[k].id
    requires conv[k].avatarColor == color
    requires conv[k].replyTo == ReplySnapshot(conv, DraftOf(conv[k]).replyToId)
    ensures ApplyEdit(conv, conv[k].id, DraftOf(conv[k]), color) == conv
  {
    var r := ApplyEdit(conv, conv[k].id, DraftOf(conv[k]), color);
    assert r[k] == conv[k];
  }

  // ---------------------------------------------------------------------------
  // The component
  // ---------------------------------------------------------------------------

  /** The editor's state. Persisting to local storage after each change is not
      part of the model. */
  class Editor {
    var conversation: seq<Message>
    var bots: seq<Bot>
    var newMessage: Draft
    var showAddMessage: bool
    var editingMessageId: Option<string>
    var jsonInput: string
    var showJsonImport: bool

    /** The editor as mounted, with the lists it starts from (the demo data or
        what was read back from local storage). */
    constructor (initialConversation: seq<Message>, initialBots: seq<Bot>)
      ensures conversation == initialConversation && bots == initialBots
      ensures newMessage == EmptyDraft && editingMessageId == None
      ensures !showAddMessage && jsonInput == "" && !showJsonImport
    {
      conversation := initialConversation;
      bots := initialBots;
      newMessage := EmptyDraft;
      showAddMessage := false;
      editingMessageId := None;
      jsonInput := "";
      showJsonImport := false;
    }

    /** `addMessage`; `stamp` is `Date.now()` and `clock` the current local time. */
    method AddMessage(stamp: string, clock: string) returns (added: bool)
      modifies this
      ensures var m := NewMessage(old(newMessage), old(bots), old(conversation), stamp, clock);
              added == m.Some?
              && conversation == if added then old(conversation) + [m.value] else old(conversation)
      ensures added ==> newMessage == EmptyDraft && !showAddMessage
      ensures !added ==> newMessage == old(newMessage) && showAddMessage == old(showAddMessage)
      ensures bots == old(bots) && editingMessageId == old(editingMessageId)
      ensures jsonInput == old(jsonInput) && showJsonImport == old(showJsonImport)
    {
      var message := NewMessage(newMessage, bots, conversation, stamp, clock);
      added := message.Some?;
      if added {
        conversation := conversation + [message.value];
        newMessage := EmptyDraft;
        showAddMessage := false;
      }
    }

    /** `deleteMessage`. */
    method DeleteMessage(messageId: string)
      modifies this`conversation
      ensures conversation == WithoutId(old(conversation), messageId)
    {
      conversation := WithoutId(conversation, messageId);
    }

    /** `editMessage`: load the first message with that id into the form. */
    method EditMessage(messageId: string) returns (found: bool)
      modifies this`newMessage, this`editingMessageId, this`showAddMessage
      ensures found == IndexOfId(conversation, messageId).Some?
      ensures found ==> newMessage == DraftOf(conversation[IndexOfId(conversation, messageId).value])
                        && editingMessageId == Some(messageId) && showAddMessage
      ensures !found ==> newMessage == old(newMessage) && editingMessageId == old(editingMessageId)
                         && showAddMessage == old(showAddMessage)
    {
      var index := IndexOfId(conversation, messageId);
      if index.None? {
        return false;
      }
      newMessage := DraftOf(conversation[index.value]);
      editingMessageId := Some(messageId);
      showAddMessage := true;
      found := true;
    }

    /** `saveEdit`: a no-op without an editing id or with an unknown bot. */
    method SaveEdit() returns (saved: bool)
      modifies this
      ensures saved <==> old(editingMessageId).Some? && old(editingMessageId).value != ""
                         && FindBot(old(bots), old(newMessage).botName).Some?
      ensures saved ==> conversation == ApplyEdit(old(conversation), old(editingMessageId).value, old(newMessage),
                                                  FindBot(old(bots), old(newMessage).botName).value.avatarColor)
                        && editingMessageId == None && newMessage == EmptyDraft && !showAddMessage
      ensures !saved ==> conversation == old(conversation) && editingMessageId == old(editingMessageId)
                         && newMessage == old(newMessage) && showAddMessage == old(showAddMessage)
      ensures bots == old(bots) && jsonInput == old(jsonInput) && showJsonImport == old(showJsonImport)
    {
      if editingMessageId.None? || editingMessageId.value == "" {
        return false;
      }
      var selectedBot := FindBot(bots, newMessage.botName);
      if selectedBot.None? {
        return false;
      }
      conversation := ApplyEdit(conversation, editingMessageId.value, newMessage, selectedBot.value.avatarColor);
      editingMessageId := None;
      newMessage := EmptyDraft;
      showAddMessage := false;
      saved := true;
    }

    /** `moveMessage`: splice the message out of a copy and back in next to
        its old place. */
    method MoveMessage(messageId: string, direction: Direction) returns (moved: bool)
      modifies this`conversation
      ensures conversation == Move(old(conversation), messageId, direction)
      ensures moved <==> IndexOfId(old(conversation), messageId).Some?
                         && 0 <= Neighbour(IndexOfId(old(conversation), messageId).value, direction) < |old(conversation)|
    {
      var currentIndex := IndexOfId(conversation, messageId);
      if currentIndex.None? {
        return false;
      }
      var newIndex := Neighbour(currentIndex.value, direction);
      if newIndex < 0 || newIndex >= |conversation| {
        return false;
      }
      var newConversation := conversation;
      var movedMessage := newConversation[currentIndex.value];
      newConversation := RemoveAt(newConversation, currentIndex.value);
      newConversation := InsertAt(newConversation, newIndex, movedMessage);
      SpliceNeighbourIsSwap(conversation, currentIndex.value, newIndex);
      conversation := newConversation;
      moved := true;
    }

    /** `importFromJson`, given what parsing `jsonInput` produced. */
    method ImportFromJson(parsed: ImportValue) returns (outcome: ImportOutcome)
      modifies this`conversation, this`jsonInput, this`showJsonImport
      ensures outcome == Imported <==> parsed.ConversationArray?
      ensures outcome == ParseAlert <==> parsed.Unparsable?
      ensures parsed.ConversationArray? ==> conversation == parsed.items && jsonInput == "" && !showJsonImport
      ensures !parsed.ConversationArray? ==> conversation == old(conversation) && jsonInput == old(jsonInput)
                                             && showJsonImport == old(showJsonImport)
    {
      match parsed
      case Unparsable =>
        outcome := ParseAlert;
      case NoConversationArray =>
        outcome := FormatAlert;
      case ConversationArray(items) =>
        conversation := items;
        jsonInput := "";
        showJsonImport := false;
        outcome := Imported;
    }

    /** `clearConversation`; `confirmed` is the answer to the confirmation dialog. */
    method ClearConversation(confirmed: bool)
      modifies this`conversation
      ensures conversation == if confirmed then [] else old(conversation)
    {
      if confirmed {
        conversation := [];
      }
    }

    /** The total duration shown above the list. */
    function Duration(): (total: int)
      reads this
      ensures total == TotalDuration(conversation)
      ensures conversation == [] ==> total == 0
      ensures (forall i :: 0 <= i < |conversation| ==> conversation[i].delaySeconds >= 0) ==> total >= 0
    {
      DurationNonNegative(conversation);
      TotalDuration(conversation)
    }
  }

  lemma {:induction false} DurationNonNegative(conv: seq<Message>)
    ensures (forall i :: 0 <= i < |conv| ==> conv[i].delaySeconds >= 0) ==> TotalDuration(conv) >= 0
  {
    if conv != [] {
      DurationNonNegative(conv[1..]);
    }
  }
}
