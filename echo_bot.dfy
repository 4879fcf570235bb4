/**
 * The two-state dialogue of bot/src/main.rs, kept in memory: `start` asks
 * for a full name, and `receive_full_name` echoes every text it is sent.
 * Unlike bot-client, each handler sends its reply before it updates the
 * state, so a failed send leaves the state as it was. The in-memory
 * update cannot fail; whether the send succeeds is a parameter.
 */
module EchoBot {
  import opened Wrappers

  datatype State = Start | ReceiveFullName

  datatype Message = Message(chatId: int, text: Option<string>)

  const Greeting := "Let's start! What's your full name?"
  const PlainTextOnly := "Send me plain text."

  function Report(text: string): string
  {
    "Your full name is " + text + "."
  }

  /** The in-memory dialogue records and the texts sent so far. */
  datatype Memory = Memory(dialogue: map<int, State>, outbox: seq<string>)

  /** A chat without a record is in the default state `Start`. */
  function StateOf(m: Memory, chat: int): State
  {
    if chat in m.dialogue then m.dialogue[chat] else Start
  }

  /** `start`: send the greeting, then move to `ReceiveFullName`; a failed send stops both. */
  function StartStep(m: Memory, msg: Message, delivered: bool): Memory
  {
    if !delivered then m
    else Memory(m.dialogue[msg.chatId := ReceiveFullName], m.outbox + [Greeting])
  }

  /** `receive_full_name`: echo the text and rewrite the state, or ask for text. */
  function ReceiveFullNameStep(m: Memory, msg: Message, delivered: bool): Memory
  {
    if !delivered then m
    else match msg.text
      case Some(text) => Memory(m.dialogue[msg.chatId := ReceiveFullName], m.outbox + [Report(text)])
      case None => m.(outbox := m.outbox + [PlainTextOnly])
  }

  /** The dispatch tree of lines 58-61. */
  function React(m: Memory, msg: Message, delivered: bool): Memory
  {
    match StateOf(m, msg.chatId)
    case Start => StartStep(m, msg, delivered)
    case ReceiveFullName => ReceiveFullNameStep(m, msg, delivered)
  }

  /** A sequence of messages, each with whether its reply was delivered. */
  function ProcessAll(m: Memory, msgs: seq<Message>, delivered: seq<bool>): Memory
    requires |msgs| == |delivered|
    decreases |msgs|
  {
    if msgs == [] then m else ProcessAll(React(m, msgs[0], delivered[0]), msgs[1..], delivered[1..])
  }

  /** A chat in `Start`, including one without a record, is greeted whatever it sent, text or not. */
  lemma NoRecordIsGreeted(m: Memory, msg: Message)
    requires StateOf(m, msg.chatId) == Start
    ensures React(m, msg, true) == Memory(m.dialogue[msg.chatId := ReceiveFullName], m.outbox + [Greeting])
  {
  }

  /** Send before update: a reply that is not delivered leaves the state as it was. */
  lemma UndeliveredReplyChangesNothing(m: Memory, msg: Message)
    ensures React(m, msg, false) == m
  {
  }

  /** In `ReceiveFullName` a text is echoed exactly once and the records stay the same. */
  lemma ReceiveFullNameEchoes(m: Memory, msg: Message)
    requires StateOf(m, msg.chatId) == ReceiveFullName
    ensures msg.text.Some? ==> React(m, msg, true) == m.(outbox := m.outbox + [Report(msg.text.value)])
    ensures msg.text.None? ==> React(m, msg, true) == m.(outbox := m.outbox + [PlainTextOnly])
  {
    if msg.text.Some? {
      assert m.dialogue[msg.chatId := ReceiveFullName] == m.dialogue;
    }
  }

  /** `ReceiveFullName` is absorbing: no message leads back to `Start`. */
  lemma {:induction false} ReceiveFullNameIsAbsorbing(m: Memory, msgs: seq<Message>, delivered: seq<bool>, chat: int)
    requires |msgs| == |delivered|
    requires StateOf(m, chat) == ReceiveFullName
    ensures StateOf(ProcessAll(m, msgs, delivered), chat) == ReceiveFullName
    decreases |msgs|
  {
    if msgs != [] {
      var m' := React(m, msgs[0], delivered[0]);
      assert StateOf(m', chat) == ReceiveFullName;
      ReceiveFullNameIsAbsorbing(m', msgs[1..], delivered[1..], chat);
    }
  }

  /** Once a chat has been greeted, every later state of it is `ReceiveFullName`. */
  lemma {:induction false} GreetedOnce(m: Memory, msgs: seq<Message>, delivered: seq<bool>, chat: int)
    requires |msgs| == |delivered| && msgs != []
    requires msgs[0].chatId == chat && delivered[0]
    ensures StateOf(ProcessAll(m, msgs, delivered), chat) == ReceiveFullName
  {
    var m' := React(m, msgs[0], delivered[0]);
    assert StateOf(m', chat) == ReceiveFullName;
    ReceiveFullNameIsAbsorbing(m', msgs[1..], delivered[1..], chat);
  }

  class Bot {
    var dialogue: map<int, State>
    var outbox: seq<string>

    function Current(): Memory
      reads this
    {
      Memory(dialogue, outbox)
    }

    constructor ()
      ensures Current() == Memory(map[], [])
    {
      dialogue, outbox := map[], [];
    }

    /** `bot.send_message`: appends to the outbox when the transport delivers. */
    method Send(text: string, delivered: bool) returns (ok: bool)
      modifies this
      ensures ok == delivered && dialogue == old(dialogue)
      ensures outbox == if delivered then old(outbox) + [text] else old(outbox)
    {
      if delivered {
        outbox := outbox + [text];
      }
      ok := delivered;
    }

    method StartHandler(msg: Message, delivered: bool) returns (ok: bool)
      modifies this
      ensures ok == delivered
      ensures Current() == StartStep(old(Current()), msg, delivered)
    {
      ok := Send(Greeting, delivered);
      if !ok {
        return;
      }
      dialogue := dialogue[msg.chatId := ReceiveFullName];
    }

    method ReceiveFullNameHandler(msg: Message, delivered: bool) returns (ok: bool)
      modifies this
      ensures ok == delivered
      ensures Current() == ReceiveFullNameStep(old(Current()), msg, delivered)
    {
      match msg.text {
        case Some(text) =>
          ok := Send(Report(text), delivered);
          if !ok {
            return;
          }
          dialogue := dialogue[msg.chatId := ReceiveFullName];
        case None =>
          ok := Send(PlainTextOnly, delivered);
      }
    }

    method HandleMessage(msg: Message, delivered: bool) returns (ok: bool)
      modifies this
      ensures ok == delivered
      ensures Current() == React(old(Current()), msg, delivered)
    {
      var state := if msg.chatId in dialogue then dialogue[msg.chatId] else Start;
      match state {
        case Start => ok := StartHandler(msg, delivered);
        case ReceiveFullName => ok := ReceiveFullNameHandler(msg, delivered);
      }
    }
  }
}
