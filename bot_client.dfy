/**
 * The identification dialogue of bot-client/src/main.rs. A chat moves
 * through Start, RequestLogin, RequestFullName and IdentifiedUser while
 * the bot records a login per chat and a full name per login.
 *
 * Each handler issues an ordered list of store and transport calls and stops
 * at the first one that fails (Rust's `?`). The list a message causes when
 * every call succeeds is a function of the message and the tables before it
 * (`Reaction`); the handlers are methods of `Bot` proved to issue exactly a
 * prefix of that list, as long as the calls that succeed allow.
 */
module BotClient {
  import opened Wrappers
  import opened User

  datatype State = Start | RequestLogin | RequestFullName | IdentifiedUser

  /** The commands `/get` and `/reset`, already parsed from the text by the transport. */
  datatype Command = Get | Reset

  /** The fields of a private chat that the bot reads. */
  datatype ChatPrivate = ChatPrivate(username: Option<string>, firstName: Option<string>, lastName: Option<string>)

  /** An inbound message; `privateChat` is `None` for groups and channels. */
  datatype Message = Message(
    chatId: int,
    text: Option<string>,
    privateChat: Option<ChatPrivate>,
    command: Option<Command>)

  const SayHello := "Say hello to start the dialogue."
  const AskUsername := "Please send me your username."
  const AskFullName := "Please send me your full name (first and last name)."
  const AskFullNameAgain := "Please send me your full name."
  const IdentifiedPrompt := "You are identified. Use /get to get your user information and /reset to flush it."
  const InvalidFullName := "Invalid full name."
  const ResetDone := "Your username was reset. Write any message to start the dialogue again."
  const AskCommand := "Please, send /get or /reset."

  function UsernameReply(login: string): string
  {
    "Here is your username: " + login + "."
  }

  /** One call to the profile repository, the dialogue store or the transport. */
  datatype Call =
    | ChatUpdate(chat: int, login: string)
    | LoginGet(chat: int)
    | NameUpdate(login: string, name: FullName)
    | NameGet(login: string)
    | DialogueUpdate(chat: int, state: State)
    | DialogueReset(chat: int)
    | SendMessage(chat: int, text: string)

  /** The chat→login table, the login→name table, the dialogue records and the sent texts. */
  datatype Tables = Tables(
    logins: map<int, string>,
    names: map<string, FullName>,
    dialogue: map<int, State>,
    outbox: seq<string>)

  /** A chat without a dialogue record is in the default state `Start`. */
  function StateOf(t: Tables, chat: int): State
  {
    if chat in t.dialogue then t.dialogue[chat] else Start
  }

  /** What a successful call does to the tables; the two reads change nothing. */
  function Apply(t: Tables, c: Call): Tables
  {
    match c
    case ChatUpdate(chat, login) => t.(logins := t.logins[chat := login])
    case LoginGet(_) => t
    case NameUpdate(login, name) => t.(names := t.names[login := name])
    case NameGet(_) => t
    case DialogueUpdate(chat, s) => t.(dialogue := t.dialogue[chat := s])
    case DialogueReset(chat) => t.(dialogue := t.dialogue - {chat})
    case SendMessage(_, text) => t.(outbox := t.outbox + [text])
  }

  /** The tables after the first `quota` calls of `plan` succeed and the next one, if any, fails. */
  function Run(t: Tables, plan: seq<Call>, quota: nat): Tables
    decreases |plan|
  {
    if plan == [] || quota == 0 then t else Run(Apply(t, plan[0]), plan[1..], quota - 1)
  }

  function Min(a: nat, b: nat): nat
  {
    if a <= b then a else b
  }

  /** The calls of `plan` that complete when `quota` calls succeed. */
  function Done(plan: seq<Call>, quota: nat): seq<Call>
  {
    plan[..Min(quota, |plan|)]
  }

  /** The tables once every call of `plan` has succeeded. */
  function Completed(t: Tables, plan: seq<Call>): Tables
  {
    Run(t, plan, |plan|)
  }

  // ---------------------------------------------------------------------
  // Reading the message

  /** `unpack_login`: the username of a private chat. */
  function UnpackLogin(msg: Message): Option<string>
  {
    match msg.privateChat
    case Some(p) => p.username
    case None => None
  }

  /** `unpack_name`: the first and last name of a private chat, when both are present. */
  function UnpackName(msg: Message): Option<FullName>
  {
    match msg.privateChat
    case Some(p) => TryNew(p.firstName, p.lastName)
    case None => None
  }

  // ---------------------------------------------------------------------
  // The calls each handler makes when every call succeeds

  function Prompt(s: State): string
  {
    match s
    case RequestLogin => AskUsername
    case RequestFullName => AskFullName
    case IdentifiedUser => IdentifiedPrompt
    case Start => ""
  }

  /** `goto_request_login`, `goto_request_full_name`, `goto_identified_user`: persist, then prompt. */
  function GotoCalls(chat: int, s: State): seq<Call>
    requires s != Start
  {
    [DialogueUpdate(chat, s), SendMessage(chat, Prompt(s))]
  }

  /** The second half of `start`, once `login` is secured. */
  function NameStepCalls(msg: Message, login: string, t: Tables): seq<Call>
  {
    match UnpackName(msg)
    case Some(n) => [NameUpdate(login, n)] + GotoCalls(msg.chatId, IdentifiedUser)
    case None =>
      [NameGet(login)] + (if login in t.names then [] else GotoCalls(msg.chatId, RequestFullName))
  }

  function StartCalls(msg: Message, t: Tables): seq<Call>
  {
    var chat := msg.chatId;
    if msg.text.None? then [SendMessage(chat, SayHello)]
    else match UnpackLogin(msg)
      case Some(login) => [ChatUpdate(chat, login)] + NameStepCalls(msg, login, t)
      case None =>
        [LoginGet(chat)] +
          (if chat in t.logins then NameStepCalls(msg, t.logins[chat], t)
           else GotoCalls(chat, RequestLogin))
  }

  function RequestLoginCalls(msg: Message): seq<Call>
  {
    match msg.text
    case Some(login) => [ChatUpdate(msg.chatId, login)] + GotoCalls(msg.chatId, RequestFullName)
    case None => [SendMessage(msg.chatId, AskUsername)]
  }

  function RequestFullNameCalls(msg: Message, t: Tables): seq<Call>
  {
    var chat := msg.chatId;
    match msg.text
    case None => [SendMessage(chat, AskFullNameAgain)]
    case Some(text) =>
      match TryFromStr(text)
      case None => [SendMessage(chat, InvalidFullName)]
      case Some(n) =>
        [LoginGet(chat)] +
          (if chat in t.logins then [NameUpdate(t.logins[chat], n)] + GotoCalls(chat, IdentifiedUser)
           else GotoCalls(chat, RequestLogin))
  }

  function IdentifiedUserCalls(msg: Message, cmd: Command, t: Tables): seq<Call>
  {
    var chat := msg.chatId;
    match cmd
    case Get =>
      [LoginGet(chat)] +
        (if chat in t.logins then [SendMessage(chat, UsernameReply(t.logins[chat]))]
         else GotoCalls(chat, RequestLogin))
    case Reset => [DialogueReset(chat), SendMessage(chat, ResetDone)]
  }

  function InvalidCommandCalls(msg: Message): seq<Call>
  {
    [SendMessage(msg.chatId, AskCommand)]
  }

  /** The dispatch tree: the handler is chosen by the chat's state, and by the command in `IdentifiedUser`. */
  function Reaction(msg: Message, t: Tables): seq<Call>
  {
    match StateOf(t, msg.chatId)
    case Start => StartCalls(msg, t)
    case RequestLogin => RequestLoginCalls(msg)
    case RequestFullName => RequestFullNameCalls(msg, t)
    case IdentifiedUser =>
      match msg.command
      case Some(cmd) => IdentifiedUserCalls(msg, cmd, t)
      case None => InvalidCommandCalls(msg)
  }

  /** The tables after a sequence of messages, each handled with every call succeeding. */
  function Process(t: Tables, msgs: seq<Message>): Tables
    decreases |msgs|
  {
    if msgs == [] then t else Process(Completed(t, Reaction(msgs[0], t)), msgs[1..])
  }

  /** A handler given `quota` successful calls ran `plan` as far as they allow. */
  ghost predicate Executed(t0: Tables, log0: seq<Call>, plan: seq<Call>, quota: nat, ok: bool, t1: Tables, log1: seq<Call>)
  {
    && ok == (quota >= |plan|)
    && t1 == Run(t0, plan, quota)
    && log1 == log0 + Done(plan, quota)
  }

  lemma ExecutedCons(t0: Tables, log0: seq<Call>, c: Call, plan: seq<Call>, quota: nat, ok: bool, t2: Tables, log2: seq<Call>)
    requires quota > 0
    requires Executed(Apply(t0, c), log0 + [c], plan, quota - 1, ok, t2, log2)
    ensures Executed(t0, log0, [c] + plan, quota, ok, t2, log2)
  {
    assert ([c] + plan)[1..] == plan;
    assert Done([c] + plan, quota) == [c] + Done(plan, quota - 1);
  }

  /** A quota beyond the plan's length changes nothing: every call has completed. */
  lemma {:induction false} RunPastEnd(t: Tables, p: seq<Call>, q: nat)
    requires q >= |p|
    ensures Run(t, p, q) == Completed(t, p)
    decreases |p|
  {
    if p != [] {
      RunPastEnd(Apply(t, p[0]), p[1..], q - 1);
    }
  }

  /** A handler that succeeded has run its whole plan, so the outcome lemmas about `Completed` apply. */
  lemma ExecutedCompletes(t0: Tables, log0: seq<Call>, plan: seq<Call>, quota: nat, ok: bool, t1: Tables, log1: seq<Call>)
    requires Executed(t0, log0, plan, quota, ok, t1, log1) && ok
    ensures t1 == Completed(t0, plan) && log1 == log0 + plan
  {
    RunPastEnd(t0, plan, quota);
    assert plan[..|plan|] == plan;
  }

  lemma ExecutedFail(t0: Tables, log0: seq<Call>, plan: seq<Call>)
    requires plan != []
    ensures Executed(t0, log0, plan, 0, false, t0, log0)
  {
  }

  lemma CompletedCons(t: Tables, c: Call, p: seq<Call>)
    ensures Completed(t, [c] + p) == Completed(Apply(t, c), p)
  {
    assert ([c] + p)[1..] == p;
  }

  lemma CompletedOne(t: Tables, c: Call)
    ensures Completed(t, [c]) == Apply(t, c)
  {
    CompletedCons(t, c, []);
    assert [c] + [] == [c];
  }

  lemma CompletedGoto(t: Tables, chat: int, s: State)
    requires s != Start
    ensures Completed(t, GotoCalls(chat, s)) ==
      t.(dialogue := t.dialogue[chat := s], outbox := t.outbox + [Prompt(s)])
  {
    CompletedCons(t, DialogueUpdate(chat, s), [SendMessage(chat, Prompt(s))]);
    CompletedOne(Apply(t, DialogueUpdate(chat, s)), SendMessage(chat, Prompt(s)));
  }

  /** A profile-touching call followed by a state change. */
  lemma CompletedThenGoto(t: Tables, c: Call, chat: int, s: State)
    requires s != Start
    requires !IsDialogueWrite(c) && !c.SendMessage?
    ensures Completed(t, [c] + GotoCalls(chat, s)) ==
      Apply(t, c).(dialogue := t.dialogue[chat := s], outbox := t.outbox + [Prompt(s)])
  {
    CompletedCons(t, c, GotoCalls(chat, s));
    CompletedGoto(Apply(t, c), chat, s);
  }

  // ---------------------------------------------------------------------
  // Reading the message

  lemma UnpackLoginIff(msg: Message)
    ensures UnpackLogin(msg).Some? <==> msg.privateChat.Some? && msg.privateChat.value.username.Some?
    ensures UnpackLogin(msg).Some? ==> UnpackLogin(msg).value == msg.privateChat.value.username.value
  {
  }

  lemma UnpackNameIff(msg: Message)
    ensures UnpackName(msg).Some? <==>
      msg.privateChat.Some? && msg.privateChat.value.firstName.Some? && msg.privateChat.value.lastName.Some?
    ensures UnpackName(msg).Some? ==>
      UnpackName(msg).value == FullName(msg.privateChat.value.firstName.value, msg.privateChat.value.lastName.value)
  {
    if msg.privateChat.Some? {
      TryNewSomeIff(msg.privateChat.value.firstName, msg.privateChat.value.lastName);
    }
  }

  // ---------------------------------------------------------------------
  // Dispatch

  /** A chat without a dialogue record is handled by `start`. */
  lemma NoRecordIsStart(msg: Message, t: Tables)
    requires msg.chatId !in t.dialogue
    ensures Reaction(msg, t) == StartCalls(msg, t)
  {
  }

  /** In `IdentifiedUser`, input that is not a command only gets the command hint. */
  lemma NonCommandInIdentifiedUser(msg: Message, t: Tables)
    requires StateOf(t, msg.chatId) == IdentifiedUser && msg.command.None?
    ensures Reaction(msg, t) == [SendMessage(msg.chatId, AskCommand)]
    ensures Completed(t, Reaction(msg, t)) == t.(outbox := t.outbox + [AskCommand])
  {
    CompletedOne(t, SendMessage(msg.chatId, AskCommand));
  }

  // ---------------------------------------------------------------------
  // start

  /** The login `start` settles on: the chat's public username, else the stored one. */
  function SecuredLogin(msg: Message, t: Tables): Option<string>
  {
    match UnpackLogin(msg)
    case Some(login) => Some(login)
    case None => if msg.chatId in t.logins then Some(t.logins[msg.chatId]) else None
  }

  lemma StartWithoutText(msg: Message, t: Tables)
    requires StateOf(t, msg.chatId) == Start && msg.text.None?
    ensures Completed(t, Reaction(msg, t)) == t.(outbox := t.outbox + [SayHello])
  {
    CompletedOne(t, SendMessage(msg.chatId, SayHello));
  }

  /** A public username is recorded as the chat's login before anything else is done. */
  lemma StartRecordsUsername(msg: Message, t: Tables)
    requires StateOf(t, msg.chatId) == Start && msg.text.Some? && UnpackLogin(msg).Some?
    ensures Reaction(msg, t)[0] == ChatUpdate(msg.chatId, UnpackLogin(msg).value)
    ensures Completed(t, Reaction(msg, t)).logins == t.logins[msg.chatId := UnpackLogin(msg).value]
  {
    var login := UnpackLogin(msg).value;
    var t1 := t.(logins := t.logins[msg.chatId := login]);
    assert NameStepCalls(msg, login, t) == NameStepCalls(msg, login, t1);
    CompletedCons(t, ChatUpdate(msg.chatId, login), NameStepCalls(msg, login, t));
    StartNameStepOutcome(msg, login, t1);
  }

  /** Neither a public nor a stored login: ask for one. */
  lemma StartWithoutLogin(msg: Message, t: Tables)
    requires StateOf(t, msg.chatId) == Start && msg.text.Some? && SecuredLogin(msg, t).None?
    ensures Completed(t, Reaction(msg, t)) ==
      t.(dialogue := t.dialogue[msg.chatId := RequestLogin], outbox := t.outbox + [AskUsername])
  {
    CompletedThenGoto(t, LoginGet(msg.chatId), msg.chatId, RequestLogin);
  }

  /** The tables after the name step of `start` for a secured `login`. */
  lemma StartNameStepOutcome(msg: Message, login: string, t: Tables)
    ensures var t' := Completed(t, NameStepCalls(msg, login, t));
      && t'.logins == t.logins
      && (UnpackName(msg).Some? ==>
            t' == t.(names := t.names[login := UnpackName(msg).value],
                     dialogue := t.dialogue[msg.chatId := IdentifiedUser],
                     outbox := t.outbox + [IdentifiedPrompt]))
      && (UnpackName(msg).None? && login !in t.names ==>
            t' == t.(dialogue := t.dialogue[msg.chatId := RequestFullName], outbox := t.outbox + [AskFullName]))
      && (UnpackName(msg).None? && login in t.names ==> t' == t)
  {
    match UnpackName(msg)
    case Some(n) => CompletedThenGoto(t, NameUpdate(login, n), msg.chatId, IdentifiedUser);
    case None =>
      if login in t.names {
        assert NameStepCalls(msg, login, t) == [NameGet(login)];
        CompletedOne(t, NameGet(login));
      } else {
        CompletedThenGoto(t, NameGet(login), msg.chatId, RequestFullName);
      }
  }

  /**
   * Once a login is secured: an inline name is stored and the user is
   * identified; without one, a stored name leaves the chat silently in
   * `Start`, and no name at all leads to `RequestFullName`.
   */
  lemma StartWithLogin(msg: Message, t: Tables)
    requires StateOf(t, msg.chatId) == Start && msg.text.Some? && SecuredLogin(msg, t).Some?
    ensures var login := SecuredLogin(msg, t).value;
      var t' := Completed(t, Reaction(msg, t));
      && t'.logins == t.logins[msg.chatId := login]
      && (UnpackName(msg).Some? ==>
            && t'.names == t.names[login := UnpackName(msg).value]
            && t'.dialogue == t.dialogue[msg.chatId := IdentifiedUser]
            && t'.outbox == t.outbox + [IdentifiedPrompt])
      && (UnpackName(msg).None? && login !in t.names ==>
            && t'.names == t.names
            && t'.dialogue == t.dialogue[msg.chatId := RequestFullName]
            && t'.outbox == t.outbox + [AskFullName])
      && (UnpackName(msg).None? && login in t.names ==>
            && t'.names == t.names
            && t'.dialogue == t.dialogue
            && StateOf(t', msg.chatId) == Start
            && t'.outbox == t.outbox)
  {
    var chat := msg.chatId;
    var login := SecuredLogin(msg, t).value;
    var p := Reaction(msg, t);
    assert p == [p[0]] + NameStepCalls(msg, login, t);
    CompletedCons(t, p[0], NameStepCalls(msg, login, t));
    if UnpackLogin(msg).Some? {
      var t1 := t.(logins := t.logins[chat := login]);
      assert NameStepCalls(msg, login, t) == NameStepCalls(msg, login, t1);
      StartNameStepOutcome(msg, login, t1);
    } else {
      assert t.logins[chat := login] == t.logins;
      StartNameStepOutcome(msg, login, t);
    }
  }

  // ---------------------------------------------------------------------
  // request_login

  /** Any text becomes the chat's login and the full name is asked for; no text re-asks. */
  lemma RequestLoginOutcome(msg: Message, t: Tables)
    requires StateOf(t, msg.chatId) == RequestLogin
    ensures msg.text.Some? ==> (Completed(t, Reaction(msg, t)) ==
      t.(logins := t.logins[msg.chatId := msg.text.value],
         dialogue := t.dialogue[msg.chatId := RequestFullName],
         outbox := t.outbox + [AskFullName]))
    ensures msg.text.None? ==> Completed(t, Reaction(msg, t)) == t.(outbox := t.outbox + [AskUsername])
  {
    match msg.text
    case Some(login) => CompletedThenGoto(t, ChatUpdate(msg.chatId, login), msg.chatId, RequestFullName);
    case None => CompletedOne(t, SendMessage(msg.chatId, AskUsername));
  }

  // ---------------------------------------------------------------------
  // request_full_name

  /** Unparsable text is answered before, and without, any login lookup or write. */
  lemma RequestFullNameInvalid(msg: Message, t: Tables)
    requires StateOf(t, msg.chatId) == RequestFullName && msg.text.Some? && TryFromStr(msg.text.value).None?
    ensures Reaction(msg, t) == [SendMessage(msg.chatId, InvalidFullName)]
    ensures Completed(t, Reaction(msg, t)) == t.(outbox := t.outbox + [InvalidFullName])
  {
    CompletedOne(t, SendMessage(msg.chatId, InvalidFullName));
  }

  lemma RequestFullNameOutcome(msg: Message, t: Tables)
    requires StateOf(t, msg.chatId) == RequestFullName
    ensures msg.text.None? ==> Completed(t, Reaction(msg, t)) == t.(outbox := t.outbox + [AskFullNameAgain])
    ensures msg.text.Some? && TryFromStr(msg.text.value).Some? && msg.chatId !in t.logins ==>
      Completed(t, Reaction(msg, t)) ==
        t.(dialogue := t.dialogue[msg.chatId := RequestLogin], outbox := t.outbox + [AskUsername])
    ensures msg.text.Some? && TryFromStr(msg.text.value).Some? && msg.chatId in t.logins ==>
      Completed(t, Reaction(msg, t)) ==
        t.(names := t.names[t.logins[msg.chatId] := TryFromStr(msg.text.value).value],
           dialogue := t.dialogue[msg.chatId := IdentifiedUser],
           outbox := t.outbox + [IdentifiedPrompt])
  {
    var chat := msg.chatId;
    match msg.text
    case None => CompletedOne(t, SendMessage(chat, AskFullNameAgain));
    case Some(text) =>
      match TryFromStr(text)
      case None =>
      case Some(n) =>
        if chat in t.logins {
          var rest := [NameUpdate(t.logins[chat], n)] + GotoCalls(chat, IdentifiedUser);
          CompletedCons(t, LoginGet(chat), rest);
          CompletedThenGoto(t, NameUpdate(t.logins[chat], n), chat, IdentifiedUser);
        } else {
          CompletedThenGoto(t, LoginGet(chat), chat, RequestLogin);
        }
  }

  // ---------------------------------------------------------------------
  // identified_user

  lemma IdentifiedUserGet(msg: Message, t: Tables)
    requires StateOf(t, msg.chatId) == IdentifiedUser && msg.command == Some(Get)
    ensures msg.chatId in t.logins ==>
      Completed(t, Reaction(msg, t)) == t.(outbox := t.outbox + [UsernameReply(t.logins[msg.chatId])])
    ensures msg.chatId !in t.logins ==>
      Completed(t, Reaction(msg, t)) ==
        t.(dialogue := t.dialogue[msg.chatId := RequestLogin], outbox := t.outbox + [AskUsername])
  {
    var chat := msg.chatId;
    if chat in t.logins {
      var reply := SendMessage(chat, UsernameReply(t.logins[chat]));
      CompletedCons(t, LoginGet(chat), [reply]);
      CompletedOne(t, reply);
    } else {
      CompletedThenGoto(t, LoginGet(chat), chat, RequestLogin);
    }
  }

  /** `/reset` drops the dialogue record only; the next message is handled by `start`. */
  lemma IdentifiedUserReset(msg: Message, t: Tables, next: Message)
    requires StateOf(t, msg.chatId) == IdentifiedUser && msg.command == Some(Reset)
    requires next.chatId == msg.chatId
    ensures var t' := Completed(t, Reaction(msg, t));
      && t' == t.(dialogue := t.dialogue - {msg.chatId}, outbox := t.outbox + [ResetDone])
      && StateOf(t', msg.chatId) == Start
      && Reaction(next, t') == StartCalls(next, t')
  {
    var chat := msg.chatId;
    CompletedCons(t, DialogueReset(chat), [SendMessage(chat, ResetDone)]);
    CompletedOne(Apply(t, DialogueReset(chat)), SendMessage(chat, ResetDone));
  }

  // ---------------------------------------------------------------------
  // Order of the calls

  predicate IsProfileWrite(c: Call)
  {
    c.ChatUpdate? || c.NameUpdate?
  }

  predicate IsDialogueWrite(c: Call)
  {
    c.DialogueUpdate? || c.DialogueReset?
  }

  /**
   * Only the last call of a plan sends; a dialogue write, if any, is the
   * call just before that send; no profile write follows a dialogue write.
   */
  ghost predicate WellOrdered(p: seq<Call>)
  {
    && (forall i :: 0 <= i < |p| - 1 ==> !p[i].SendMessage?)
    && (forall i :: 0 <= i < |p| && IsDialogueWrite(p[i]) ==> i == |p| - 2 && p[i + 1].SendMessage?)
    && (forall i, j :: 0 <= i < j < |p| && IsDialogueWrite(p[i]) ==> !IsProfileWrite(p[j]))
  }

  lemma GotoWellOrdered(prefix: seq<Call>, chat: int, s: State)
    requires s != Start
    requires forall i :: 0 <= i < |prefix| ==> !prefix[i].SendMessage? && !IsDialogueWrite(prefix[i])
    ensures WellOrdered(prefix + GotoCalls(chat, s))
  {
  }

  lemma NameStepWellOrdered(prefix: seq<Call>, msg: Message, login: string, t: Tables)
    requires forall i :: 0 <= i < |prefix| ==> !prefix[i].SendMessage? && !IsDialogueWrite(prefix[i])
    ensures WellOrdered(prefix + NameStepCalls(msg, login, t))
  {
    match UnpackName(msg)
    case Some(n) =>
      assert prefix + NameStepCalls(msg, login, t) == (prefix + [NameUpdate(login, n)]) + GotoCalls(msg.chatId, IdentifiedUser);
      GotoWellOrdered(prefix + [NameUpdate(login, n)], msg.chatId, IdentifiedUser);
    case None =>
      if login in t.names {
        assert prefix + NameStepCalls(msg, login, t) == prefix + [NameGet(login)];
      } else {
        assert prefix + NameStepCalls(msg, login, t) == (prefix + [NameGet(login)]) + GotoCalls(msg.chatId, RequestFullName);
        GotoWellOrdered(prefix + [NameGet(login)], msg.chatId, RequestFullName);
      }
  }

  /** Every message is handled in the order: reads and profile writes, then the state, then the one reply. */
  lemma ReactionWellOrdered(msg: Message, t: Tables)
    ensures WellOrdered(Reaction(msg, t))
  {
    var chat := msg.chatId;
    match StateOf(t, chat)
    case Start =>
      if msg.text.Some? {
        match UnpackLogin(msg)
        case Some(login) => NameStepWellOrdered([ChatUpdate(chat, login)], msg, login, t);
        case None =>
          if chat in t.logins {
            NameStepWellOrdered([LoginGet(chat)], msg, t.logins[chat], t);
          } else {
            GotoWellOrdered([LoginGet(chat)], chat, RequestLogin);
          }
      }
    case RequestLogin =>
      if msg.text.Some? {
        GotoWellOrdered([ChatUpdate(chat, msg.text.value)], chat, RequestFullName);
      }
    case RequestFullName =>
      if msg.text.Some? && TryFromStr(msg.text.value).Some? {
        if chat in t.logins {
          var n := TryFromStr(msg.text.value).value;
          assert Reaction(msg, t) == [LoginGet(chat), NameUpdate(t.logins[chat], n)] + GotoCalls(chat, IdentifiedUser);
          GotoWellOrdered([LoginGet(chat), NameUpdate(t.logins[chat], n)], chat, IdentifiedUser);
        } else {
          GotoWellOrdered([LoginGet(chat)], chat, RequestLogin);
        }
      }
    case IdentifiedUser =>
      if msg.command == Some(Get) && chat !in t.logins {
        GotoWellOrdered([LoginGet(chat)], chat, RequestLogin);
      }
  }

  // ---------------------------------------------------------------------
  // Failures

  lemma {:induction false} RunAppendsNoTextBeforeSend(t: Tables, p: seq<Call>, quota: nat)
    requires forall i :: 0 <= i < |p| - 1 ==> !p[i].SendMessage?
    requires quota < |p|
    ensures Run(t, p, quota).outbox == t.outbox
    decreases |p|
  {
    if quota > 0 {
      RunAppendsNoTextBeforeSend(Apply(t, p[0]), p[1..], quota - 1);
    }
  }

  lemma {:induction false} RunSnoc(t: Tables, p: seq<Call>, k: nat)
    requires k < |p|
    ensures Run(t, p, k + 1) == Apply(Run(t, p, k), p[k])
    decreases |p|
  {
    if k > 0 {
      RunSnoc(Apply(t, p[0]), p[1..], k - 1);
    }
  }

  /** A handler that fails at any call has sent nothing: the user sees no reply. */
  lemma FailedHandlerSendsNothing(msg: Message, t: Tables, quota: nat)
    requires quota < |Reaction(msg, t)|
    ensures Run(t, Reaction(msg, t), quota).outbox == t.outbox
  {
    ReactionWellOrdered(msg, t);
    RunAppendsNoTextBeforeSend(t, Reaction(msg, t), quota);
  }

  /** A plan that sends only at its end: losing that send loses nothing but the text. */
  lemma SendLastLosesOnlyText(t: Tables, p: seq<Call>)
    requires p != [] && p[|p| - 1].SendMessage?
    requires forall i :: 0 <= i < |p| - 1 ==> !p[i].SendMessage?
    ensures Run(t, p, |p| - 1) == Completed(t, p).(outbox := t.outbox)
  {
    RunAppendsNoTextBeforeSend(t, p, |p| - 1);
    RunSnoc(t, p, |p| - 1);
  }

  /**
   * When only the final send fails, every durable write of the message has
   * happened: the state advanced although no prompt went out.
   */
  lemma FailedPromptKeepsWrites(msg: Message, t: Tables)
    requires Reaction(msg, t) != [] && Reaction(msg, t)[|Reaction(msg, t)| - 1].SendMessage?
    ensures var p := Reaction(msg, t);
      Run(t, p, |p| - 1) == Completed(t, p).(outbox := t.outbox)
  {
    ReactionWellOrdered(msg, t);
    SendLastLosesOnlyText(t, Reaction(msg, t));
  }


  /** Does the call touch the dialogue record, the login or the outbox of `chat`? */
  predicate Touches(c: Call, chat: int)
  {
    match c
    case ChatUpdate(ch, _) => ch == chat
    case LoginGet(ch) => ch == chat
    case NameUpdate(_, _) => false
    case NameGet(_) => false
    case DialogueUpdate(ch, _) => ch == chat
    case DialogueReset(ch) => ch == chat
    case SendMessage(ch, _) => ch == chat
  }

  lemma ReactionTouchesOwnChatOnly(msg: Message, t: Tables, i: nat)
    requires i < |Reaction(msg, t)|
    ensures !Reaction(msg, t)[i].NameUpdate? && !Reaction(msg, t)[i].NameGet? ==> Touches(Reaction(msg, t)[i], msg.chatId)
  {
  }

  lemma {:induction false} RunKeepsUntouchedChat(t: Tables, p: seq<Call>, quota: nat, chat: int)
    requires forall i :: 0 <= i < |p| ==> !Touches(p[i], chat)
    ensures StateOf(Run(t, p, quota), chat) == StateOf(t, chat)
    ensures (chat in Run(t, p, quota).logins) == (chat in t.logins)
    ensures chat in t.logins ==> Run(t, p, quota).logins[chat] == t.logins[chat]
    decreases |p|
  {
    if p != [] && quota > 0 {
      RunKeepsUntouchedChat(Apply(t, p[0]), p[1..], quota - 1, chat);
    }
  }

  /** Messages from other chats never change this chat's state or login. */
  lemma {:induction false} OtherChatsUntouched(t: Tables, msgs: seq<Message>, chat: int)
    requires forall k :: 0 <= k < |msgs| ==> msgs[k].chatId != chat
    ensures StateOf(Process(t, msgs), chat) == StateOf(t, chat)
    ensures (chat in Process(t, msgs).logins) == (chat in t.logins)
    ensures chat in t.logins ==> Process(t, msgs).logins[chat] == t.logins[chat]
    decreases |msgs|
  {
    if msgs != [] {
      var p := Reaction(msgs[0], t);
      forall i | 0 <= i < |p| ensures !Touches(p[i], chat) {
        ReactionTouchesOwnChatOnly(msgs[0], t, i);
      }
      RunKeepsUntouchedChat(t, p, |p|, chat);
      OtherChatsUntouched(Completed(t, p), msgs[1..], chat);
    }
  }

  // ---------------------------------------------------------------------
  // A whole identification: chat 42, public username "ada", no names

  /** Hello with no login or name on file: the login is recorded and the full name asked for. */
  lemma ScenarioHello(hello: Message)
    requires hello == Message(42, Some("hello"), Some(ChatPrivate(Some("ada"), None, None)), None)
    ensures var t0 := Tables(map[], map[], map[], []);
      Completed(t0, Reaction(hello, t0)) == Tables(map[42 := "ada"], map[], map[42 := RequestFullName], [AskFullName])
  {
    var t0 := Tables(map[], map[], map[], []);
    StartWithLogin(hello, t0);
  }

  /**
   * Then a text that parses to Ada Lovelace, such as "Ada Lovelace" itself
   * (`User.TryFromStrTwoWords`): the name is recorded for "ada" and the user is identified.
   */
  lemma ScenarioFullName(name: Message)
    requires name.chatId == 42 && name.text.Some? && TryFromStr(name.text.value) == Some(FullName("Ada", "Lovelace"))
    ensures var t1 := Tables(map[42 := "ada"], map[], map[42 := RequestFullName], [AskFullName]);
      Completed(t1, Reaction(name, t1)) ==
        Tables(map[42 := "ada"], map["ada" := FullName("Ada", "Lovelace")], map[42 := IdentifiedUser],
               [AskFullName, IdentifiedPrompt])
  {
    var t1 := Tables(map[42 := "ada"], map[], map[42 := RequestFullName], [AskFullName]);
    assert StateOf(t1, 42) == RequestFullName && t1.logins[42] == "ada";
    RequestFullNameOutcome(name, t1);
  }

  /** Then `/get`: the reply quotes the stored login and the state stays `IdentifiedUser`. */
  lemma ScenarioGet(get: Message, t2: Tables)
    requires get.chatId == 42 && get.command == Some(Get)
    requires t2.logins == map[42 := "ada"] && t2.dialogue == map[42 := IdentifiedUser]
    ensures Completed(t2, Reaction(get, t2)) == t2.(outbox := t2.outbox + ["Here is your username: ada."])
  {
    IdentifiedUserGet(get, t2);
    assert UsernameReply("ada") == "Here is your username: ada.";
  }

  // ---------------------------------------------------------------------
  // The bot: durable tables, the transport's outbox, and the call log

  class Bot {
    var logins: map<int, string>
    var names: map<string, FullName>
    var dialogue: map<int, State>
    var outbox: seq<string>
    /** Every call that completed, in order. */
    var issued: seq<Call>

    function Current(): Tables
      reads this
    {
      Tables(logins, names, dialogue, outbox)
    }

    constructor ()
      ensures Current() == Tables(map[], map[], map[], []) && issued == []
    {
      logins, names, dialogue, outbox, issued := map[], map[], map[], [], [];
    }

    /** Issues one call; it succeeds when `quota` is positive. */
    method Issue(c: Call, quota: nat) returns (ok: bool, rest: nat)
      modifies this
      ensures ok == (quota > 0) && rest == (if ok then quota - 1 else 0)
      ensures Current() == (if ok then Apply(old(Current()), c) else old(Current()))
      ensures issued == old(issued) + (if ok then [c] else [])
    {
      if quota == 0 {
        return false, 0;
      }
      match c {
        case ChatUpdate(chat, login) => logins := logins[chat := login];
        case LoginGet(_) =>
        case NameUpdate(login, name) => names := names[login := name];
        case NameGet(_) =>
        case DialogueUpdate(chat, s) => dialogue := dialogue[chat := s];
        case DialogueReset(chat) => dialogue := dialogue - {chat};
        case SendMessage(_, text) => outbox := outbox + [text];
      }
      issued := issued + [c];
      ok, rest := true, quota - 1;
    }

    method Goto(chat: int, s: State, quota: nat) returns (ok: bool)
      requires s != Start
      modifies this
      ensures Executed(old(Current()), old(issued), GotoCalls(chat, s), quota, ok, Current(), issued)
    {
      ghost var t0, log0 := Current(), issued;
      var q;
      ok, q := Issue(DialogueUpdate(chat, s), quota);
      if !ok {
        ExecutedFail(t0, log0, GotoCalls(chat, s));
        return;
      }
      ghost var t1, log1 := Current(), issued;
      ok, q := Issue(SendMessage(chat, Prompt(s)), q);
      if !ok {
        ExecutedFail(t1, log1, [SendMessage(chat, Prompt(s))]);
      }
      ExecutedCons(t0, log0, DialogueUpdate(chat, s), [SendMessage(chat, Prompt(s))], quota, ok, Current(), issued);
    }

    /** Issues a plan of one call. */
    method IssueOnly(c: Call, quota: nat) returns (ok: bool)
      modifies this
      ensures Executed(old(Current()), old(issued), [c], quota, ok, Current(), issued)
    {
      var q;
      ok, q := Issue(c, quota);
    }

    /** Lines 182-197 of `start`: record an inline name, or look for a stored one. */
    method NameStep(msg: Message, login: string, quota: nat) returns (ok: bool)
      modifies this
      ensures Executed(old(Current()), old(issued), NameStepCalls(msg, login, old(Current())), quota, ok, Current(), issued)
    {
      ghost var t0, log0 := Current(), issued;
      var q;
      match UnpackName(msg) {
        case Some(n) =>
          ok, q := Issue(NameUpdate(login, n), quota);
          if !ok {
            ExecutedFail(t0, log0, NameStepCalls(msg, login, t0));
            return;
          }
          ok := Goto(msg.chatId, IdentifiedUser, q);
          ExecutedCons(t0, log0, NameUpdate(login, n), GotoCalls(msg.chatId, IdentifiedUser), quota, ok, Current(), issued);
        case None =>
          ok, q := Issue(NameGet(login), quota);
          if !ok {
            ExecutedFail(t0, log0, NameStepCalls(msg, login, t0));
            return;
          }
          if login !in names {
            ok := Goto(msg.chatId, RequestFullName, q);
            ExecutedCons(t0, log0, NameGet(login), GotoCalls(msg.chatId, RequestFullName), quota, ok, Current(), issued);
          } else {
            ExecutedCons(t0, log0, NameGet(login), [], quota, ok, Current(), issued);
          }
      }
    }

    /** `start`. */
    method StartHandler(msg: Message, quota: nat) returns (ok: bool)
      modifies this
      ensures Executed(old(Current()), old(issued), StartCalls(msg, old(Current())), quota, ok, Current(), issued)
    {
      ghost var t0, log0 := Current(), issued;
      var chat := msg.chatId;
      if msg.text.None? {
        ok := IssueOnly(SendMessage(chat, SayHello), quota);
        return;
      }
      var q;
      match UnpackLogin(msg) {
        case Some(login) =>
          ok, q := Issue(ChatUpdate(chat, login), quota);
          if !ok {
            ExecutedFail(t0, log0, StartCalls(msg, t0));
            return;
          }
          assert NameStepCalls(msg, login, Current()) == NameStepCalls(msg, login, t0);
          ok := NameStep(msg, login, q);
          ExecutedCons(t0, log0, ChatUpdate(chat, login), NameStepCalls(msg, login, t0), quota, ok, Current(), issued);
        case None =>
          ok, q := Issue(LoginGet(chat), quota);
          if !ok {
            ExecutedFail(t0, log0, StartCalls(msg, t0));
            return;
          }
          if chat in logins {
            var login := logins[chat];
            ok := NameStep(msg, login, q);
            ExecutedCons(t0, log0, LoginGet(chat), NameStepCalls(msg, login, t0), quota, ok, Current(), issued);
          } else {
            ok := Goto(chat, RequestLogin, q);
            ExecutedCons(t0, log0, LoginGet(chat), GotoCalls(chat, RequestLogin), quota, ok, Current(), issued);
          }
      }
    }

    /** `request_login`: any text, command-like or not, is taken as the login. */
    method RequestLoginHandler(msg: Message, quota: nat) returns (ok: bool)
      modifies this
      ensures Executed(old(Current()), old(issued), RequestLoginCalls(msg), quota, ok, Current(), issued)
    {
      ghost var t0, log0 := Current(), issued;
      match msg.text {
        case Some(login) =>
          var q;
          ok, q := Issue(ChatUpdate(msg.chatId, login), quota);
          if !ok {
            ExecutedFail(t0, log0, RequestLoginCalls(msg));
            return;
          }
          ok := Goto(msg.chatId, RequestFullName, q);
          ExecutedCons(t0, log0, ChatUpdate(msg.chatId, login), GotoCalls(msg.chatId, RequestFullName), quota, ok, Current(), issued);
        case None =>
          ok := IssueOnly(SendMessage(msg.chatId, AskUsername), quota);
      }
    }

    /** `request_full_name`: the text is parsed before the login is looked up. */
    method RequestFullNameHandler(msg: Message, quota: nat) returns (ok: bool)
      modifies this
      ensures Executed(old(Current()), old(issued), RequestFullNameCalls(msg, old(Current())), quota, ok, Current(), issued)
    {
      ghost var t0, log0 := Current(), issued;
      var chat := msg.chatId;
      match msg.text {
        case None =>
          ok := IssueOnly(SendMessage(chat, AskFullNameAgain), quota);
        case Some(text) =>
          var parsed := TryFromStr(text);
          if parsed.None? {
            ok := IssueOnly(SendMessage(chat, InvalidFullName), quota);
            return;
          }
          var fullName := parsed.value;
          var q;
          ok, q := Issue(LoginGet(chat), quota);
          if !ok {
            ExecutedFail(t0, log0, RequestFullNameCalls(msg, t0));
            return;
          }
          if chat !in logins {
            ok := Goto(chat, RequestLogin, q);
            ExecutedCons(t0, log0, LoginGet(chat), GotoCalls(chat, RequestLogin), quota, ok, Current(), issued);
            return;
          }
          var login := logins[chat];
          ghost var t1, log1 := Current(), issued;
          ok, q := Issue(NameUpdate(login, fullName), q);
          if !ok {
            ExecutedFail(t1, log1, [NameUpdate(login, fullName)] + GotoCalls(chat, IdentifiedUser));
          } else {
            ok := Goto(chat, IdentifiedUser, q);
            ExecutedCons(t1, log1, NameUpdate(login, fullName), GotoCalls(chat, IdentifiedUser), q + 1, ok, Current(), issued);
          }
          ExecutedCons(t0, log0, LoginGet(chat), [NameUpdate(login, fullName)] + GotoCalls(chat, IdentifiedUser), quota, ok, Current(), issued);
      }
    }

    /** `identified_user`, for a message that parsed as a command. */
    method IdentifiedUserHandler(msg: Message, cmd: Command, quota: nat) returns (ok: bool)
      modifies this
      ensures Executed(old(Current()), old(issued), IdentifiedUserCalls(msg, cmd, old(Current())), quota, ok, Current(), issued)
    {
      ghost var t0, log0 := Current(), issued;
      var chat := msg.chatId;
      var q;
      match cmd {
        case Get =>
          ok, q := Issue(LoginGet(chat), quota);
          if !ok {
            ExecutedFail(t0, log0, IdentifiedUserCalls(msg, cmd, t0));
            return;
          }
          if chat !in logins {
            ok := Goto(chat, RequestLogin, q);
            ExecutedCons(t0, log0, LoginGet(chat), GotoCalls(chat, RequestLogin), quota, ok, Current(), issued);
            return;
          }
          var login := logins[chat];
          ok := IssueOnly(SendMessage(chat, UsernameReply(login)), q);
          ExecutedCons(t0, log0, LoginGet(chat), [SendMessage(chat, UsernameReply(login))], quota, ok, Current(), issued);
        case Reset =>
          ok, q := Issue(DialogueReset(chat), quota);
          if !ok {
            ExecutedFail(t0, log0, IdentifiedUserCalls(msg, cmd, t0));
            return;
          }
          ok := IssueOnly(SendMessage(chat, ResetDone), q);
          ExecutedCons(t0, log0, DialogueReset(chat), [SendMessage(chat, ResetDone)], quota, ok, Current(), issued);
      }
    }

    /** `invalid_command`: the only reply to non-command input in `IdentifiedUser`. */
    method InvalidCommandHandler(msg: Message, quota: nat) returns (ok: bool)
      modifies this
      ensures Executed(old(Current()), old(issued), InvalidCommandCalls(msg), quota, ok, Current(), issued)
    {
      ok := IssueOnly(SendMessage(msg.chatId, AskCommand), quota);
    }

    /**
     * The dispatch tree: load the chat's state (absent means `Start`) and run
     * the handler for it. `quota` is how many of the handler's calls succeed.
     */
    method HandleMessage(msg: Message, quota: nat) returns (ok: bool)
      modifies this
      ensures Executed(old(Current()), old(issued), Reaction(msg, old(Current())), quota, ok, Current(), issued)
      ensures ok ==> Current() == Completed(old(Current()), Reaction(msg, old(Current())))
    {
      ghost var t0, log0 := Current(), issued;
      var state := if msg.chatId in dialogue then dialogue[msg.chatId] else Start;
      match state {
        case Start => ok := StartHandler(msg, quota);
        case RequestLogin => ok := RequestLoginHandler(msg, quota);
        case RequestFullName => ok := RequestFullNameHandler(msg, quota);
        case IdentifiedUser =>
          match msg.command {
            case Some(cmd) => ok := IdentifiedUserHandler(msg, cmd, quota);
            case None => ok := InvalidCommandHandler(msg, quota);
          }
      }
      if ok {
        ExecutedCompletes(t0, log0, Reaction(msg, t0), quota, ok, Current(), issued);
      }
    }
  }
}
