/**
 The durable admission record of Telegram updates: which content an update ID was
 first seen with, and the acknowledgement Orka gave for it, written once.
 */
module UpdateStore {
  import opened Prelude
  import opened Routing

  /** The SHA-256 of the decoded update, taken to be injective; any other stored value is `Unknown`. */
  datatype UpdateDigest = OfUpdate(update: TelegramUpdate) | Unknown(hex: string)

  datatype UpdateRow = UpdateRow(digest: UpdateDigest, response: Option<string>) {
    predicate HasResponse() {
      response.Some? && response.value != ""
    }
  }

  type Inbox = map<int, UpdateRow>

  datatype InboxError = BadArgument | NoSuchUpdate | OtherContent | AlreadyAnswered | CommitFailed

  datatype Admission = Entered(row: UpdateRow, isNew: bool) | NotEntered(error: InboxError)

  datatype Saving = Saved(row: UpdateRow) | NotSaved(error: InboxError)

  /** CreateUpdate */
  function Admit(I: Inbox, id: int, digest: UpdateDigest): (Inbox, Admission) {
    if id < 0 then (I, NotEntered(BadArgument))
    else if id !in I then (I[id := UpdateRow(digest, None)], Entered(UpdateRow(digest, None), true))
    else if I[id].digest != digest then (I, NotEntered(OtherContent))
    else (I, Entered(I[id], false))
  }

  /** normalizeOrkaResponse, given the compact form of a body that is JSON of an admissible size. */
  predicate Storable(response: Option<string>) {
    response.Some? && response.value != ""
  }

  /** SaveUpdateResponse */
  function Save(I: Inbox, id: int, digest: UpdateDigest, response: Option<string>): (Inbox, Saving) {
    if id < 0 || !Storable(response) then (I, NotSaved(BadArgument))
    else if id !in I then (I, NotSaved(NoSuchUpdate))
    else if I[id].digest != digest then (I, NotSaved(OtherContent))
    else if I[id].HasResponse() then
      (I, if I[id].response == response then Saved(I[id]) else NotSaved(AlreadyAnswered))
    else (I[id := I[id].(response := response)], Saved(I[id].(response := response)))
  }

  ghost predicate InboxOk(I: Inbox) {
    forall id :: id in I ==> 0 <= id && I[id].response != Some("")
  }

  /** Nothing is forgotten: neither the content of an update nor its acknowledgement. */
  ghost predicate InboxGrows(I: Inbox, J: Inbox) {
    forall id :: id in I ==>
      && id in J && J[id].digest == I[id].digest
      && (I[id].response.Some? ==> J[id].response == I[id].response)
  }

  lemma AdmitKeeps(I: Inbox, id: int, digest: UpdateDigest)
    requires InboxOk(I)
    ensures InboxOk(Admit(I, id, digest).0) && InboxGrows(I, Admit(I, id, digest).0)
  {
  }

  lemma SaveKeeps(I: Inbox, id: int, digest: UpdateDigest, response: Option<string>)
    requires InboxOk(I)
    ensures InboxOk(Save(I, id, digest, response).0) && InboxGrows(I, Save(I, id, digest, response).0)
  {
  }

  /** Once an ID is admitted, its content is settled: the same content is let in, any other refused, for ever. */
  lemma AdmissionIsPermanent(I: Inbox, J: Inbox, id: int, first: UpdateDigest, again: UpdateDigest)
    requires Admit(I, id, first).1.Entered? && InboxGrows(Admit(I, id, first).0, J)
    ensures Admit(J, id, again) ==
      (J, if again == first then Entered(J[id], false) else NotEntered(OtherContent))
  {
    assert id in Admit(I, id, first).0 && Admit(I, id, first).0[id].digest == first;
  }

  /** An acknowledgement is written once: later the same one is accepted as it stands, any other refused. */
  lemma AcknowledgementIsWrittenOnce(I: Inbox, J: Inbox, id: int, digest: UpdateDigest,
                                     first: Option<string>, again: Option<string>)
    requires InboxOk(I) && Save(I, id, digest, first).1.Saved? && InboxGrows(Save(I, id, digest, first).0, J)
    requires Storable(again)
    ensures id in J && J[id].response == first
    ensures Save(J, id, digest, again) == (J, if again == first then Saved(J[id]) else NotSaved(AlreadyAnswered))
  {
    var M := Save(I, id, digest, first).0;
    assert id in M && M[id].digest == digest && M[id].response == first;
  }

  /** The telegram_updates table. */
  class UpdateTable {
    var rows: Inbox

    ghost predicate Valid()
      reads this
    {
      InboxOk(rows)
    }

    constructor ()
      ensures Valid() && rows == map[]
    {
      rows := map[];
    }

    method GetUpdate(id: int) returns (found: Admission)
      ensures found == if id < 0 then NotEntered(BadArgument)
                       else if id in rows then Entered(rows[id], false) else NotEntered(NoSuchUpdate)
    {
      if id < 0 {
        return NotEntered(BadArgument);
      }
      if id in rows {
        return Entered(rows[id], false);
      }
      return NotEntered(NoSuchUpdate);
    }

    method CreateUpdate(id: int, digest: UpdateDigest, commits: bool) returns (reply: Admission)
      requires Valid()
      modifies this
      ensures Valid() && InboxGrows(old(rows), rows)
      ensures var (after, result) := Admit(old(rows), id, digest);
        && rows == (if commits then after else old(rows))
        && reply == if result.Entered? && !commits then NotEntered(CommitFailed) else result
    {
      AdmitKeeps(rows, id, digest);
      if id < 0 {
        return NotEntered(BadArgument);
      }
      var found := GetUpdate(id);
      if found.Entered? {
        if found.row.digest != digest {
          return NotEntered(OtherContent);
        }
        return if commits then Entered(found.row, false) else NotEntered(CommitFailed);
      }
      if !commits {
        return NotEntered(CommitFailed);
      }
      rows := rows[id := UpdateRow(digest, None)];
      return Entered(UpdateRow(digest, None), true);
    }

    /** UPDATE ... WHERE update_id = ? AND digest = ? AND orka_response IS NULL */
    method SetResponse(id: int, digest: UpdateDigest, response: string) returns (affected: nat)
      modifies this
      ensures id in old(rows) && old(rows)[id] == UpdateRow(digest, None) ==>
        affected == 1 && rows == old(rows)[id := UpdateRow(digest, Some(response))]
      ensures !(id in old(rows) && old(rows)[id] == UpdateRow(digest, None)) ==> affected == 0 && rows == old(rows)
    {
      affected := 0;
      if id in rows && rows[id].digest == digest && rows[id].response.None? {
        rows := rows[id := rows[id].(response := Some(response))];
        affected := 1;
      }
    }

    method SaveUpdateResponse(id: int, digest: UpdateDigest, response: Option<string>, commits: bool)
        returns (reply: Saving)
      requires Valid()
      modifies this
      ensures Valid() && InboxGrows(old(rows), rows)
      ensures var (after, result) := Save(old(rows), id, digest, response);
        && rows == (if commits then after else old(rows))
        && reply == if result.Saved? && !commits then NotSaved(CommitFailed) else result
    {
      SaveKeeps(rows, id, digest, response);
      if id < 0 || !Storable(response) {
        return NotSaved(BadArgument);
      }
      var found := GetUpdate(id);
      if found.NotEntered? {
        return NotSaved(found.error);
      }
      var row := found.row;
      if row.digest != digest {
        return NotSaved(OtherContent);
      }
      if row.HasResponse() {
        if row.response != response {
          return NotSaved(AlreadyAnswered);
        }
        return if commits then Saved(row) else NotSaved(CommitFailed);
      }
      if !commits {
        return NotSaved(CommitFailed);
      }
      var affected := SetResponse(id, digest, response.value);
      return Saved(row.(response := response));
    }
  }
}
