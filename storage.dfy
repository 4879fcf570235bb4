/**
 * `PgStorage`, the dialogue store of bot-core/src/storage.rs: a teloxide
 * `Storage` over PostgreSQL stored procedures. The procedures, the
 * connection pool and the JSON codec are outside the model: what the
 * database answers and whether the pool hands out a connection are
 * parameters of each operation, and the codec is a pair of functions
 * fixed when the store is built. What is modelled is the adapter's own
 * sequence of steps, its early returns and its error translation.
 */
module Storage {
  import opened Wrappers

  /** The `PgStorageError` kinds; only `AnyError`, `PgError` and `SerdeError` arise below. */
  datatype PgStorageError =
    | AnyError
    | PgError
    | PoolError
    | SerdeError
    | StorageError(message: string)

  /** A call of one of the stored procedures `api.dialogue_*`. */
  datatype Procedure =
    | DialogueDelete(chatId: int)
    | DialogueAppend(chatId: int, data: string)
    | DialogueLatest(chatId: int)

  /** Column 0 of a result row, when it can be read as text (`None` for SQL NULL or another type). */
  type Row = Option<string>

  /** What the database answers to a query. */
  datatype Reply = Rows(rows: seq<Row>) | QueryFailed

  /** The decision `get_dialogue` takes once the rows of `dialogue_latest` are in. */
  function LatestDialogue<D>(rows: seq<Row>, decode: string -> Option<D>): Result<Option<D>, PgStorageError>
  {
    if rows == [] then Success(None)
    else match rows[|rows| - 1]
      case None => Success(None)
      case Some(data) =>
        match decode(data)
        case None => Failure(SerdeError)
        case Some(d) => Success(Some(d))
  }

  /** Only the last row matters: rows before it are never looked at. */
  lemma LatestDialogueReadsLastRow<D>(earlier: seq<Row>, last: Row, decode: string -> Option<D>)
    ensures LatestDialogue(earlier + [last], decode) == LatestDialogue([last], decode)
  {
  }

  /**
   * Writing then reading, under an assumed store that answers `dialogue_latest`
   * with a last row holding what `dialogue_append` was given, and a codec whose
   * decoder inverts its encoder, gives back the stored value.
   */
  lemma LatestDialogueAfterAppend<D>(d: D, encode: D -> Option<string>, decode: string -> Option<D>, earlier: seq<Row>)
    requires encode(d).Some?
    requires decode(encode(d).value) == Some(d)
    ensures LatestDialogue(earlier + [Some(encode(d).value)], decode) == Success(Some(d))
  {
  }

  class PgStorage<D> {
    /** `serde_json::to_string`; `None` is a serialisation error. */
    const encode: D -> Option<string>
    /** `serde_json::from_str`; `None` is a deserialisation error. */
    const decode: string -> Option<D>
    /** The stored-procedure calls issued so far, in order. */
    var issued: seq<Procedure>

    constructor (encode: D -> Option<string>, decode: string -> Option<D>)
      ensures this.encode == encode && this.decode == decode
      ensures issued == []
    {
      this.encode := encode;
      this.decode := decode;
      issued := [];
    }

    /** `remove_dialogue`: acquire a connection, then delete the chat's history. */
    method RemoveDialogue(chatId: int, poolUp: bool, reply: Reply) returns (r: Result<(), PgStorageError>)
      modifies this
      ensures !poolUp ==> r == Failure(AnyError) && issued == old(issued)
      ensures poolUp ==> issued == old(issued) + [DialogueDelete(chatId)]
      ensures poolUp ==> r == if reply.QueryFailed? then Failure(PgError) else Success(())
    {
      if !poolUp {
        return Failure(AnyError);
      }
      issued := issued + [DialogueDelete(chatId)];
      if reply.QueryFailed? {
        return Failure(PgError);
      }
      r := Success(());
    }

    /** `update_dialogue`: acquire a connection, serialise, then append one snapshot. */
    method UpdateDialogue(chatId: int, dialogue: D, poolUp: bool, reply: Reply) returns (r: Result<(), PgStorageError>)
      modifies this
      ensures !poolUp ==> r == Failure(AnyError) && issued == old(issued)
      ensures poolUp && encode(dialogue).None? ==> r == Failure(SerdeError) && issued == old(issued)
      ensures poolUp && encode(dialogue).Some? ==>
        && issued == old(issued) + [DialogueAppend(chatId, encode(dialogue).value)]
        && r == if reply.QueryFailed? then Failure(PgError) else Success(())
    {
      if !poolUp {
        return Failure(AnyError);
      }
      var data := encode(dialogue);
      if data.None? {
        return Failure(SerdeError);
      }
      issued := issued + [DialogueAppend(chatId, data.value)];
      if reply.QueryFailed? {
        return Failure(PgError);
      }
      r := Success(());
    }

    /** `get_dialogue`: acquire a connection, fetch the latest snapshot, pop the last row and decode it. */
    method GetDialogue(chatId: int, poolUp: bool, reply: Reply) returns (r: Result<Option<D>, PgStorageError>)
      modifies this
      ensures !poolUp ==> r == Failure(AnyError) && issued == old(issued)
      ensures poolUp ==> issued == old(issued) + [DialogueLatest(chatId)]
      ensures poolUp && reply.QueryFailed? ==> r == Failure(PgError)
      ensures poolUp && reply.Rows? ==> r == LatestDialogue(reply.rows, decode)
      ensures poolUp && reply.Rows? && reply.rows == [] ==> r == Success(None)
      ensures poolUp && reply.Rows? && reply.rows != [] ==>
        match reply.rows[|reply.rows| - 1]
        case None => r == Success(None)
        case Some(data) => r == if decode(data).Some? then Success(Some(decode(data).value)) else Failure(SerdeError)
    {
      if !poolUp {
        return Failure(AnyError);
      }
      issued := issued + [DialogueLatest(chatId)];
      if reply.QueryFailed? {
        return Failure(PgError);
      }
      var rows := reply.rows;
      if rows == [] {
        return Success(None);
      }
      var row := rows[|rows| - 1];
      rows := rows[..|rows| - 1];
      if row.None? {
        return Success(None);
      }
      var dialogue := decode(row.value);
      if dialogue.None? {
        return Failure(SerdeError);
      }
      r := Success(Some(dialogue.value));
    }
  }
}
