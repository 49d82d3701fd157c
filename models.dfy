/** The record classes of src/hurag_webui/models/session.py and
    src/hurag_webui/models/user.py: `Message`, `Session` and `User`, their
    defaults, and `from_db_response`, which overwrites the fields in place,
    by position, from a database row and returns the object itself. */
module Models {
  import opened Wrappers
  import opened Sql

  /** `from_db_response` on a row `resp`: the first fields take the row's
      values in order. With a row shorter than the field list, Python
      assigns what it can and raises `IndexError` at the first missing
      position, so the later fields keep their old values. */
  function Overlay(fields: seq<SqlValue>, resp: seq<SqlValue>): (r: seq<SqlValue>)
    ensures |r| == |fields|
  {
    if |resp| >= |fields| then resp[..|fields|] else resp + fields[|resp|..]
  }

  /** A full row overwrites every field, so no earlier value survives; a
      short row overwrites exactly its own positions. */
  lemma OverlaySpec(fields: seq<SqlValue>, resp: seq<SqlValue>)
    ensures forall i :: 0 <= i < |fields| && i < |resp| ==> Overlay(fields, resp)[i] == resp[i]
    ensures forall i :: |resp| <= i < |fields| ==> Overlay(fields, resp)[i] == fields[i]
    ensures |resp| >= |fields| ==> forall other :: |other| == |fields| ==> Overlay(other, resp) == Overlay(fields, resp)
  {
  }

  /** The values of a `Message`'s fields. */
  datatype MessageData = MessageData(id: SqlValue, sessionId: SqlValue, seqNo: SqlValue, role: SqlValue,
                                     content: SqlValue, createdTs: SqlValue, likes: SqlValue,
                                     dislikes: SqlValue, pairId: SqlValue)
  {
    /** The fields in declaration order, the order `from_db_response` reads
        the row in. */
    function Fields(): (r: seq<SqlValue>)
      ensures |r| == 9
    {
      [id, sessionId, seqNo, role, content, createdTs, likes, dislikes, pairId]
    }
  }

  /** The message whose fields, in declaration order, are `f`. */
  function MessageOf(f: seq<SqlValue>): (d: MessageData)
    requires |f| == 9
    ensures d.Fields() == f
  {
    MessageData(f[0], f[1], f[2], f[3], f[4], f[5], f[6], f[7], f[8])
  }

  /** `Message()`: every field `None` except `likes` and `dislikes`, which
      are 0. */
  const MessageDefaults := MessageData(SNull, SNull, SNull, SNull, SNull, SNull, SInt(0), SInt(0), SNull)

  class Message {
    var id: SqlValue
    var sessionId: SqlValue
    var seqNo: SqlValue
    var role: SqlValue
    var content: SqlValue
    var createdTs: SqlValue
    var likes: SqlValue
    var dislikes: SqlValue
    var pairId: SqlValue

    function Data(): MessageData
      reads this
    {
      MessageData(id, sessionId, seqNo, role, content, createdTs, likes, dislikes, pairId)
    }

    /** `Message(**fields)`; `MessageDefaults` is `Message()`. */
    constructor (d: MessageData)
      ensures Data() == d
    {
      id, sessionId, seqNo, role, content := d.id, d.sessionId, d.seqNo, d.role, d.content;
      createdTs, likes, dislikes, pairId := d.createdTs, d.likes, d.dislikes, d.pairId;
    }

    method FromDbResponse(resp: seq<SqlValue>) returns (r: Result<Message>)
      modifies this
      ensures Data() == MessageOf(Overlay(old(Data()).Fields(), resp))
      ensures |resp| >= 9 ==> r == Ok(this)
      ensures |resp| < 9 ==> r == Err(IndexError)
    {
      if |resp| < 1 { return Err(IndexError); }
      id := resp[0];
      if |resp| < 2 { return Err(IndexError); }
      sessionId := resp[1];
      if |resp| < 3 { return Err(IndexError); }
      seqNo := resp[2];
      if |resp| < 4 { return Err(IndexError); }
      role := resp[3];
      if |resp| < 5 { return Err(IndexError); }
      content := resp[4];
      if |resp| < 6 { return Err(IndexError); }
      createdTs := resp[5];
      if |resp| < 7 { return Err(IndexError); }
      likes := resp[6];
      if |resp| < 8 { return Err(IndexError); }
      dislikes := resp[7];
      if |resp| < 9 { return Err(IndexError); }
      pairId := resp[8];
      r := Ok(this);
    }
  }

  /** A message loaded from a full row reads exactly that row, whatever it
      held before: id, session_id, seq_no, role, content, created_ts, likes,
      dislikes, pair_id. */
  lemma MessageLoadedFromRow(before: MessageData, resp: seq<SqlValue>)
    requires |resp| >= 9
    ensures Overlay(before.Fields(), resp) == MessageData(resp[0], resp[1], resp[2], resp[3], resp[4],
                                                          resp[5], resp[6], resp[7], resp[8]).Fields()
  {
  }

  datatype SessionData = SessionData(id: SqlValue, title: SqlValue, createdTs: SqlValue, userId: SqlValue)
  {
    function Fields(): (r: seq<SqlValue>)
      ensures |r| == 4
    {
      [id, title, createdTs, userId]
    }
  }

  /** `Session()`: every field `None`. */
  const SessionDefaults := SessionData(SNull, SNull, SNull, SNull)

  class Session {
    var id: SqlValue
    var title: SqlValue
    var createdTs: SqlValue
    var userId: SqlValue

    function Data(): SessionData
      reads this
    {
      SessionData(id, title, createdTs, userId)
    }

    constructor (d: SessionData)
      ensures Data() == d
    {
      id, title, createdTs, userId := d.id, d.title, d.createdTs, d.userId;
    }

    method FromDbResponse(resp: seq<SqlValue>) returns (r: Result<Session>)
      modifies this
      ensures Data().Fields() == Overlay(old(Data()).Fields(), resp)
      ensures |resp| >= 4 ==> r == Ok(this)
      ensures |resp| < 4 ==> r == Err(IndexError)
    {
      if |resp| < 1 { return Err(IndexError); }
      id := resp[0];
      if |resp| < 2 { return Err(IndexError); }
      title := resp[1];
      if |resp| < 3 { return Err(IndexError); }
      createdTs := resp[2];
      if |resp| < 4 { return Err(IndexError); }
      userId := resp[3];
      r := Ok(this);
    }
  }

  datatype UserData = UserData(id: SqlValue, account: SqlValue, username: SqlValue, userPath: SqlValue)
  {
    function Fields(): (r: seq<SqlValue>)
      ensures |r| == 4
    {
      [id, account, username, userPath]
    }
  }

  /** `User()`: the guest, with no id. */
  const UserDefaults := UserData(SNull, SStr("Guest"), SStr("访客"), SStr("访客"))

  class User {
    var id: SqlValue
    var account: SqlValue
    var username: SqlValue
    var userPath: SqlValue

    function Data(): UserData
      reads this
    {
      UserData(id, account, username, userPath)
    }

    constructor (d: UserData)
      ensures Data() == d
    {
      id, account, username, userPath := d.id, d.account, d.username, d.userPath;
    }

    method FromDbResponse(resp: seq<SqlValue>) returns (r: Result<User>)
      modifies this
      ensures Data().Fields() == Overlay(old(Data()).Fields(), resp)
      ensures |resp| >= 4 ==> r == Ok(this)
      ensures |resp| < 4 ==> r == Err(IndexError)
    {
      if |resp| < 1 { return Err(IndexError); }
      id := resp[0];
      if |resp| < 2 { return Err(IndexError); }
      account := resp[1];
      if |resp| < 3 { return Err(IndexError); }
      username := resp[2];
      if |resp| < 4 { return Err(IndexError); }
      userPath := resp[3];
      r := Ok(this);
    }
  }

  /** Loading a user from a full row replaces every default: a loaded user
      is the guest only if the row says so. */
  lemma UserLoadDropsDefaults(resp: seq<SqlValue>)
    requires |resp| >= 4
    ensures Overlay(UserDefaults.Fields(), resp) == resp[..4]
    ensures resp[0] != SNull ==> Overlay(UserDefaults.Fields(), resp) != UserDefaults.Fields()
  {
  }
}
