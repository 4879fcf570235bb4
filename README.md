# Telegram identification bot: a Dafny model

This project models the core of a two-binary Telegram bot written in Rust.
`bot-client` walks every chat through a small identification dialogue:
Start, then RequestLogin, then RequestFullName, then IdentifiedUser.
It records a login per chat and a full name per login, and keeps the
chat's dialogue state in PostgreSQL through a `Storage` adapter.
`bot` is a smaller two-state echo dialogue kept in memory.

The model has one module per core source file:

- `User` (`user.dfy`) holds the `FullName` value of `bot-core/src/user.rs`:
  `try_new`, `try_from_str` over a model of `str::split_whitespace`,
  `is_empty` and `name`. It is pure functions and lemmas.
- `Storage` (`storage.dfy`) holds the `PgStorage` dialogue adapter of
  `bot-core/src/storage.rs`. It is a class whose three methods run the
  source's steps in order: get a connection, serialise, make one procedure
  call. The class logs every stored-procedure call. The pool and the
  database are parameters of each call. The JSON codec is a pair of
  functions fixed at construction.
- `BotClient` (`bot_client.dfy`) holds the dialogue of
  `bot-client/src/main.rs`. `Reaction(msg, t)` is the ordered list of
  calls a message causes when every call succeeds. The calls are profile
  reads and writes, dialogue writes and sends. The class `Bot` holds the
  tables `logins`, `names` and `dialogue`, the `outbox` and a call log.
  Its handler methods are proved to perform exactly a prefix of that list.
  The prefix stops where the first call fails, like Rust's `?`. The
  parameter `quota` says how many calls succeed, so the model covers
  every failure point.
- `EchoBot` (`echo_bot.dfy`) holds the dialogue of `bot/src/main.rs`.
- `Wrappers` (`wrappers.dfy`) holds `Option` and `Result`.

Whitespace is the Unicode White_Space property, which is what Rust's
`char::is_whitespace` tests. The general lemmas about splitting and parsing
rely only on `' '` being whitespace. The lemmas about literal texts also use
the fact that `'\t'` is whitespace and that the letters of the literals
are not.

### Behaviour of the code worth knowing

- `get_dialogue` does not treat a stored dialogue that fails to decode as
  absent. It returns `SerdeError` (bot-core/src/storage.rs:102). It returns
  `Ok(None)` only when there are no rows or when column 0 is not text
  (bot-core/src/storage.rs:93-101).
- A pool failure surfaces as `PgStorageError::AnyError`, not `PoolError`.
  `PgPool::get` in bot-core/src/postgres.rs returns an `anyhow::Result`,
  so `?` converts through `From<anyhow::Error>`. Query failures become
  `PgError` and codec failures `SerdeError`. `PoolError` and
  `StorageError` are never produced by the three methods
  (bot-core/src/storage.rs:13-28, 59-104).
- `start` with a known login and a name already on file returns with the
  state still `Start` and sends nothing (bot-client/src/main.rs:190-197).
- `/reset` removes the dialogue record and also sends a confirmation. The
  next message is handled as `Start`, not as `RequestLogin`
  (bot-client/src/main.rs:283-290).
- A text with more than two tokens keeps only the second token as the last
  name. `"Ada King Lovelace"` parses as `("Ada", "King")`
  (bot-core/src/user.rs:22-24).
- `name()` prints `"Unknown user name"` for an empty name. A non-empty name
  `("Unknown", "user name")` prints the same text. So "placeholder exactly
  when empty" holds only for whitespace-free parts (`NamePlaceholderIff`,
  `NamePlaceholderCollision`).

## Model

| member | source | states |
|---|---|---|
| `User.WordLength` | bot-core/src/user.rs:22 | the leading run it measures is whitespace-free and maximal: it ends the text or is followed by whitespace |
| `User.SplitWhitespace` | bot-core/src/user.rs:22 | every token of `split_whitespace` is non-empty and contains no whitespace |
| `User.TryNew` | bot-core/src/user.rs:14-19 | definition: a name when both parts are present, otherwise none |
| `User.TryFromStr` | bot-core/src/user.rs:21-29 | definition: the first two tokens of `split_whitespace`, by the source's four-armed match on the two optional tokens |
| `User.IsEmpty` | bot-core/src/user.rs:31-33 | definition: both parts are the empty text |
| `User.Name` | bot-core/src/user.rs:35-40 | definition: `"Unknown user name"` for an empty name, otherwise first, a space, last |
| `User.SplitEmptyIff` | bot-core/src/user.rs:22-23 | a text has no token exactly when all its characters are whitespace, the empty text included |
| `User.SplitJoin` | bot-core/src/user.rs:22 | splitting tokens joined by single spaces gives back exactly those tokens |
| `User.TryNewSomeIff` | bot-core/src/user.rs:14-19 | `try_new` is `Some` exactly when both parts are `Some`, and then carries them unchanged |
| `User.TryFromStrNoneIff` | bot-core/src/user.rs:21-29 | `try_from_str` is `None` exactly when the text is empty or all whitespace |
| `User.TryFromStrOneToken` | bot-core/src/user.rs:25 | one token `t` gives first `t` and last `""` |
| `User.TryFromStrTwoOrMoreTokens` | bot-core/src/user.rs:22-24 | two or more tokens give the first two tokens; the rest are dropped |
| `User.TryFromStrTwoTokens` | bot-core/src/user.rs:21-24 | two tokens separated by any non-empty run of whitespace parse to exactly those two parts |
| `User.TryFromStrThreeTokens` | bot-core/src/user.rs:22-24 | three space-separated tokens parse to the first two; the third is dropped |
| `User.TryFromStrDropsThirdToken` | bot-core/src/user.rs:22-24 | `"Ada King Lovelace"` parses to `("Ada", "King")` |
| `User.TryFromStrFirstIsToken` | bot-core/src/user.rs:21-33 | every parsed name has a non-empty whitespace-free first part and a whitespace-free last part, so it is never `is_empty` and the `(None, Some)` arm is dead |
| `User.TryFromStrTwoWords` | bot-core/src/user.rs:24 | `"Ada Lovelace"` parses to `("Ada", "Lovelace")` |
| `User.TryFromStrOneWord` | bot-core/src/user.rs:25 | `"Ada"` parses to `("Ada", "")` |
| `User.TryFromStrBlank` | bot-core/src/user.rs:27 | the empty text and a blank text parse to no name |
| `User.NamePlaceholderIff` | bot-core/src/user.rs:31-40 | for whitespace-free parts, `name()` is `"Unknown user name"` exactly when both parts are empty, and otherwise `first + " " + last` |
| `User.NamePlaceholderCollision` | bot-core/src/user.rs:35-40 | the non-empty name `("Unknown", "user name")` prints as the placeholder |
| `User.NameRoundTrip` | bot-core/src/user.rs:21-40 | a non-empty whitespace-free first part and a whitespace-free last part survive `try_from_str(name())` unchanged |
| `Storage.LatestDialogue` | bot-core/src/storage.rs:93-104 | definition: no rows or a non-text last row give `Ok(None)`; an undecodable last row gives `SerdeError`; otherwise the decoded last row |
| `Storage.LatestDialogueReadsLastRow` | bot-core/src/storage.rs:89-96 | only the last row of the `dialogue_latest` result decides the outcome; rows before it are ignored |
| `Storage.LatestDialogueAfterAppend` | bot-core/src/storage.rs:73-104 | if the store's last row holds what `update_dialogue` appended and decoding inverts encoding, `get_dialogue` yields the value written |
| `Storage.PgStorage.constructor` | bot-core/src/storage.rs:37-40 | a new store has issued no procedure call |
| `Storage.PgStorage.RemoveDialogue` | bot-core/src/storage.rs:54-65 | no connection: `AnyError` and no call; otherwise exactly one `dialogue_delete(chat_id)`, then `Ok(())` or `PgError` |
| `Storage.PgStorage.UpdateDialogue` | bot-core/src/storage.rs:67-81 | no connection: `AnyError` and no call; a serialisation error: `SerdeError` and no call; otherwise exactly one `dialogue_append(chat_id, json)`, then `Ok(())` or `PgError` |
| `Storage.PgStorage.GetDialogue` | bot-core/src/storage.rs:83-106 | no connection: `AnyError` and no call; otherwise one `dialogue_latest(chat_id)`, then: a query error gives `PgError`; no rows give `Ok(None)`; a non-text last row gives `Ok(None)`; a decode failure gives `SerdeError`; success gives `Ok(Some(decoded))` |
| `BotClient.UnpackLogin` | bot-client/src/main.rs:101-106 | definition: the username of a private chat, otherwise none |
| `BotClient.UnpackName` | bot-client/src/main.rs:108-120 | definition: `try_new` of a private chat's first and last name, otherwise none |
| `BotClient.GotoCalls` | bot-client/src/main.rs:122-150 | definition: `dialogue.update(s)` then the prompt of `s` to the chat |
| `BotClient.NameStepCalls` | bot-client/src/main.rs:182-197 | definition: an inline name is stored then the chat goes to `IdentifiedUser`; otherwise the stored name is looked up and, when absent, the chat goes to `RequestFullName` |
| `BotClient.StartCalls` | bot-client/src/main.rs:152-198 | definition: no text gets the hello prompt; a public username is recorded, else the stored login is looked up and, when absent, the chat goes to `RequestLogin`; then the name step |
| `BotClient.RequestLoginCalls` | bot-client/src/main.rs:200-221 | definition: a text is recorded as the login then the chat goes to `RequestFullName`; no text re-sends the username prompt |
| `BotClient.RequestFullNameCalls` | bot-client/src/main.rs:223-260 | definition: no text re-asks; an unparsable text gets `"Invalid full name."`; otherwise the login is looked up, and the name is stored and the chat identified, or the chat goes to `RequestLogin` |
| `BotClient.IdentifiedUserCalls` | bot-client/src/main.rs:262-293 | definition: `/get` looks up the login and replies with it or goes to `RequestLogin`; `/reset` removes the record and confirms |
| `BotClient.InvalidCommandCalls` | bot-client/src/main.rs:295-299 | definition: the single command hint |
| `BotClient.Reaction` | bot-client/src/main.rs:79-92 | definition: the handler's calls chosen by the chat's state, absent meaning `Start`, and by the command in `IdentifiedUser` |
| `BotClient.UnpackLoginIff` | bot-client/src/main.rs:101-106 | a login is read exactly from a private chat that has a username, and it is that username |
| `BotClient.UnpackNameIff` | bot-client/src/main.rs:108-120 | a name is read exactly from a private chat with both first and last name, and it is those two |
| `BotClient.NoRecordIsStart` | bot-client/src/main.rs:23-30 | a chat without a dialogue record is handled by `start` |
| `BotClient.NonCommandInIdentifiedUser` | bot-client/src/main.rs:84-92 | in `IdentifiedUser`, input that is not a command causes only the reply `"Please, send /get or /reset."` |
| `BotClient.StartWithoutText` | bot-client/src/main.rs:159-163 | in `Start`, a message without text only sends `"Say hello to start the dialogue."` |
| `BotClient.StartRecordsUsername` | bot-client/src/main.rs:164-170 | in `Start`, a public username is recorded as the chat's login, by the first call |
| `BotClient.StartWithoutLogin` | bot-client/src/main.rs:171-180 | in `Start`, with neither a public nor a stored login, the state becomes `RequestLogin` with `"Please send me your username."` and nothing else changes |
| `BotClient.StartNameStepOutcome` | bot-client/src/main.rs:182-197 | once a login is secured: an inline name is stored and the chat is identified; no name anywhere leads to `RequestFullName`; a stored name changes nothing |
| `BotClient.StartWithLogin` | bot-client/src/main.rs:164-197 | all of `start` with a login: the login table, name table, dialogue and replies in each of the three name cases, including the silent stay in `Start` |
| `BotClient.RequestLoginOutcome` | bot-client/src/main.rs:200-221 | in `RequestLogin`, any text becomes the chat's login and the state becomes `RequestFullName`; no text re-sends the prompt and keeps the state |
| `BotClient.RequestFullNameInvalid` | bot-client/src/main.rs:230-241 | unparsable text sends `"Invalid full name."` as the only call, before any login lookup, and writes nothing |
| `BotClient.RequestFullNameOutcome` | bot-client/src/main.rs:223-260 | no text re-asks; a parsed name without a stored login goes to `RequestLogin`; otherwise the name is stored under the login and the state becomes `IdentifiedUser` |
| `BotClient.IdentifiedUserGet` | bot-client/src/main.rs:270-282 | `/get` replies `"Here is your username: {login}."` and keeps the state, or goes to `RequestLogin` when no login is stored |
| `BotClient.IdentifiedUserReset` | bot-client/src/main.rs:283-290 | `/reset` removes only the dialogue record, keeps both profile tables, and the next message is handled by `start` |
| `BotClient.GotoWellOrdered` | bot-client/src/main.rs:122-150 | each `goto_*` persists the new state, then sends its prompt, as the last two calls |
| `BotClient.NameStepWellOrdered` | bot-client/src/main.rs:182-197 | the name step keeps the order: profile write or read, then state, then prompt |
| `BotClient.ReactionWellOrdered` | bot-client/src/main.rs:152-299 | for every message and state: only the last call sends; a dialogue write is just before that send; no profile write follows a dialogue write |
| `BotClient.RunPastEnd` | bot-client/src/main.rs:152-299 | once every call of a handler has succeeded, further successes change nothing: the outcome is the completed plan |
| `BotClient.ExecutedCompletes` | bot-client/src/main.rs:152-299 | a handler that returns `Ok(())` has made every call of its plan, in order, and left the tables as the completed plan says |
| `BotClient.FailedHandlerSendsNothing` | bot-client/src/main.rs:152-299 | a handler that stops at a failing call has sent nothing |
| `BotClient.FailedPromptKeepsWrites` | bot-client/src/main.rs:122-150 | when only the final send fails, every durable write has happened: the state advanced without a prompt |
| `BotClient.ReactionTouchesOwnChatOnly` | bot-client/src/main.rs:152-299 | every call except the name-table calls concerns the message's own chat |
| `BotClient.OtherChatsUntouched` | bot-client/src/main.rs:79-92 | messages from other chats never change a chat's dialogue state or login |
| `BotClient.ScenarioHello` | bot-client/src/main.rs:152-198 | chat 42 with username "ada" and nothing on file: login recorded, state `RequestFullName`, full-name prompt sent |
| `BotClient.ScenarioFullName` | bot-client/src/main.rs:223-260 | then Ada Lovelace is recorded for "ada" and the chat is identified |
| `BotClient.ScenarioGet` | bot-client/src/main.rs:262-282 | then `/get` replies `"Here is your username: ada."` and changes nothing else |
| `BotClient.Bot.constructor` | bot-client/src/main.rs:94 | the bot starts with empty tables, outbox and call log |
| `BotClient.Bot.Issue` | bot-client/src/main.rs:122-127 | one store or transport call: it succeeds exactly when a call remains in the quota, and then changes the tables exactly as the call says |
| `BotClient.Bot.IssueOnly` | bot-client/src/main.rs:159-162 | a one-call reply runs as the plan `[call]` |
| `BotClient.Bot.Goto` | bot-client/src/main.rs:122-150 | runs `dialogue.update(s)` then the prompt, up to the first failure |
| `BotClient.Bot.NameStep` | bot-client/src/main.rs:182-197 | runs the name step of `start` as its plan, up to the first failure |
| `BotClient.Bot.StartHandler` | bot-client/src/main.rs:152-198 | performs exactly the prefix of `start`'s calls that the quota allows; succeeds exactly when all of them do |
| `BotClient.Bot.RequestLoginHandler` | bot-client/src/main.rs:200-221 | the same for `request_login` |
| `BotClient.Bot.RequestFullNameHandler` | bot-client/src/main.rs:223-260 | the same for `request_full_name` |
| `BotClient.Bot.IdentifiedUserHandler` | bot-client/src/main.rs:262-293 | the same for `identified_user` |
| `BotClient.Bot.InvalidCommandHandler` | bot-client/src/main.rs:295-299 | the same for `invalid_command` |
| `BotClient.Bot.HandleMessage` | bot-client/src/main.rs:79-92 | loads the state (absent means `Start`), picks the handler by state and command, and performs its calls as above; on success the tables are those of the completed `Reaction`, so every outcome lemma applies to the bot |
| `EchoBot.StartStep` | bot/src/main.rs:70-75 | definition: a delivered greeting, then the state `ReceiveFullName`; an undelivered one changes nothing |
| `EchoBot.ReceiveFullNameStep` | bot/src/main.rs:77-90 | definition: a delivered echo of the text then the state rewritten, or the plain-text hint; an undelivered reply changes nothing |
| `EchoBot.React` | bot/src/main.rs:58-61 | definition: the step chosen by the chat's state, absent meaning `Start` |
| `EchoBot.NoRecordIsGreeted` | bot/src/main.rs:17-22 | a chat in `Start`, which includes every chat without a record, gets, with or without text, `"Let's start! What's your full name?"` and moves to `ReceiveFullName` |
| `EchoBot.UndeliveredReplyChangesNothing` | bot/src/main.rs:70-86 | the reply is sent before the update, so an undelivered reply leaves the state unchanged |
| `EchoBot.ReceiveFullNameEchoes` | bot/src/main.rs:77-90 | in `ReceiveFullName`, text `t` gets exactly the reply `"Your full name is " + t + "."`; no text gets `"Send me plain text."`; the records are unchanged either way |
| `EchoBot.ReceiveFullNameIsAbsorbing` | bot/src/main.rs:58-61 | after any sequence of messages, a chat in `ReceiveFullName` is still there |
| `EchoBot.GreetedOnce` | bot/src/main.rs:70-75 | once a chat has been greeted, its state stays `ReceiveFullName` for ever |
| `EchoBot.Bot.constructor` | bot/src/main.rs:63 | the in-memory storage starts empty |
| `EchoBot.Bot.Send` | bot/src/main.rs:71-72 | a send appends its text exactly when it is delivered and never touches the records |
| `EchoBot.Bot.StartHandler` | bot/src/main.rs:70-75 | sends the greeting, then updates the state, stopping if the send fails |
| `EchoBot.Bot.ReceiveFullNameHandler` | bot/src/main.rs:77-90 | sends the echo or the hint; after an echo that was delivered, rewrites the state to `ReceiveFullName` |
| `EchoBot.Bot.HandleMessage` | bot/src/main.rs:58-61 | dispatch: absent means `Start`, and each of the two states has its handler |

## Left out

- The profile procedures `chat_update`, `login_get`, `name_update` and `name_get` are not part of this model's source files. They are modelled as an upsert into and a lookup in the two tables. Any tolerance inside `name_get` for stored names that do not parse is not modelled.
- SQL stored procedures `api.dialogue_*` and their history semantics: they are not visible. `Storage` claims no read-after-write behaviour except under the explicit assumption of `LatestDialogueAfterAppend`.
- serde_json is a foreign library, so it appears only as two arbitrary functions. `BotClient` keeps the dialogue as a map of states. The JSON round trip through `PgStorage` that would link the two modules is not modelled.
- The teloxide transport is outside the model. `send_message` appends to the outbox. `BotCommands` parsing is taken as the already-parsed `Message.command`.
- Loading the state before dispatch (`enter_dialogue`) is done by `get_dialogue`, which can fail with `AnyError`, `PgError` or `SerdeError` (see `Storage.PgStorage.GetDialogue`). The bot model treats the load as a map read. A failed load stands for a message on which no call succeeds, which is `Bot.HandleMessage` with quota 0. A chat whose stored dialogue does not decode fails this way on every message, since no handler runs to replace the record.
- `main()` in both binaries, `bot-core/src/postgres.rs`, the pool and environment configuration, and the `log::` calls are bootstrap, configuration or logging code, so they are out of scope.
- The dispatcher runs chats in parallel and serialises each chat. The model handles one message at a time.
- BotClient.Bot.Issue: a call that fails has no effect. A write that takes effect in the database and then reports an error is not modelled.
- EchoBot.Bot.StartHandler: only the send can fail. The in-memory `update_dialogue` of teloxide's `InMemStorage` always succeeds, so its failure is not modelled.
- BotClient: the outbox keeps only the texts. The chat each send goes to is recorded in the call log (`SendMessage(chat, text)`).
- EchoBot: the bot has no call log and its outbox keeps only the texts. The chat that each `send_message` of bot/src/main.rs:71, 81 and 85 goes to is not recorded.
