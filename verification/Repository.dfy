/** IntentsRepository: the database tables and the only operations that change them. */
module Repository {
  import opened Wrappers
  import opened IntentState
  import opened Intents
  import opened Queries

  class IntentsRepository {
    var rows: map<Id, Row>
    var audit: seq<AuditRow>

    ghost predicate Valid()
      reads this
    {
      Constraints(rows)
    }

    function Contents(): Db
      reads this
    {
      Db(rows, audit)
    }

    constructor ()
      ensures Valid() && Contents() == Db(map[], [])
    {
      rows, audit := map[], [];
    }

    /** Inserts the row with its first audit entry, unless its idempotency key is already stored. */
    method CreateIdempotent(row: Row) returns (reply: CreateReply)
      requires Valid()
      requires row.status == Created && row.transactionHash.None?
      modifies this
      ensures Valid()
      ensures (Contents(), reply) == CreatedIdempotent(old(Contents()), row)
      ensures reply.Existing? <==> exists id :: id in old(rows) && old(rows)[id].idempotencyKey == row.idempotencyKey
      ensures reply.Existing? ==>
        && reply.row.idempotencyKey == row.idempotencyKey && reply.row.id in old(rows) && old(rows)[reply.row.id] == reply.row
      ensures reply.PrimaryKeyTaken? <==> !reply.Existing? && row.id in old(rows)
      ensures if reply.Inserted? then
          reply.row == row && rows == old(rows)[row.id := row] && audit == old(audit) + [AuditRow(row.id, None, Created, IntentCreated)]
        else rows == old(rows) && audit == old(audit)
    {
      CreateKeepsConstraints(Contents(), row);
      if HasKey(rows, row.idempotencyKey) {
        return Existing(RowWithKey(rows, row.idempotencyKey));
      }
      if row.id in rows {
        return PrimaryKeyTaken;
      }
      rows := rows[row.id := row];
      audit := audit + [AuditRow(row.id, None, Created, IntentCreated)];
      return Inserted(row);
    }

    method FindById(id: Id) returns (row: Option<Row>)
      ensures row == if id in rows then Some(rows[id]) else None
    {
      if id in rows {
        return Some(rows[id]);
      }
      return None;
    }

    method FindByStatuses(statuses: set<Status>) returns (found: seq<Row>)
      requires Valid()
      ensures forall r | r in found :: r.id in rows && rows[r.id] == r && r.status in statuses
      ensures forall id | id in rows && rows[id].status in statuses :: rows[id] in found
      ensures forall i, j | 0 <= i < j < |found| ::
        found[i].createdAt < found[j].createdAt || (found[i].createdAt == found[j].createdAt && found[i].id < found[j].id)
    {
      OldestFirstIsExact(rows, statuses);
      found := OldestFirst(rows, statuses);
    }

    /** Newest first, keyset-paginated on (created_at, id). */
    method List(filter: ListFilter, limit: nat) returns (found: seq<Row>)
      requires Valid()
      ensures found == Listed(rows, filter, limit)
      ensures Answers(found, rows, filter, limit)
    {
      ListedAnswers(rows, filter, limit);
      found := Listed(rows, filter, limit);
    }

    /** Locks the row, checks its status, updates it and appends one audit row, or changes nothing. */
    method Transition(id: Id, request: TransitionRequest) returns (reply: TransitionReply)
      requires Valid()
      modifies this
      ensures Valid()
      ensures (Contents(), reply) == Transitioned(old(Contents()), id, request)
      ensures TransitionDoes(old(Contents()), Contents(), id, request, reply)
    {
      TransitionedDoes(Contents(), id, request);
      hide TransitionDoes;
      TransitionKeepsConstraints(Contents(), id, request);
      if id !in rows || rows[id].status !in request.from {
        return NotInState;
      }
      var current := rows[id].status;
      if !CanTransition(current, request.to) {
        return IllegalTransition;
      }
      var updated := Patched(rows[id], request.patch).(status := request.to);
      if SlotTaken(rows, updated) {
        return AccountIsBusy;
      }
      if HashTaken(rows, updated) {
        return HashIsTaken;
      }
      rows := rows[id := updated];
      audit := audit + [AuditRow(id, Some(current), request.to, request.reason)];
      return Updated(updated);
    }

    /** Updates columns other than the status while the intent is in one of `statuses`. */
    method UpdateInStatus(id: Id, statuses: set<Status>, patch: Patch) returns (row: Option<Row>)
      requires Valid() && IsColumnPatch(patch)
      modifies this
      ensures Valid()
      ensures (Contents(), row) == UpdatedInStatus(old(Contents()), id, statuses, patch)
      ensures row.Some? <==> id in old(rows) && old(rows)[id].status in statuses
      ensures audit == old(audit)
      ensures row.None? ==> rows == old(rows)
      ensures row.Some? ==>
        && rows == old(rows)[id := row.value] && row.value.status == old(rows)[id].status
        && Stored(row.value, patch) && KeepsOthers(old(rows)[id], row.value, patch)
    {
      if id in rows {
        PatchIsStored(rows[id], patch);
        PatchKeepsOthers(rows[id], patch);
      }
      hide Patched, Stored, KeepsOthers;
      UpdateKeepsConstraints(Contents(), id, statuses, patch);
      if id !in rows || rows[id].status !in statuses {
        return None;
      }
      var updated := Patched(rows[id], patch);
      rows := rows[id := updated];
      return Some(updated);
    }
  }
}
