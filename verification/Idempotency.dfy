// Idempotency records: one per actor, operation and key, never changed once written.
module Idempotency {
  import opened Sql

  datatype Operation = TaskCreate | TaskCancel | AdvisorReview | FamilyDecision | CandidateImport | CandidateVerify

  datatype RecordKey = RecordKey(org: nat, actor: nat, operation: Operation, key: string)

  datatype Record = Record(request: string, response: Key)

  type Records = map<RecordKey, Record>

  // What every recorded operation answers: the row it made, and whether it was made before.
  datatype Reply = Reply(id: Key, replayed: bool)

  datatype Prior = Fresh | Replayed(reply: Reply) | Mismatch

  function Lookup(records: Records, k: RecordKey, request: string): Prior {
    if k !in records then Fresh
    else if records[k].request != request then Mismatch
    else Replayed(Reply(records[k].response, true))
  }

  predicate Insertable(records: Records, k: RecordKey, request: string) {
    k !in records && |k.key| == 64 && |request| == 64
  }

  function Insert(records: Records, k: RecordKey, request: string, response: Key): Records {
    records[k := Record(request, response)]
  }

  // The rows that the records of one operation stand for.
  function Responses(records: Records, operation: Operation): set<Key> {
    set k | k in records && k.operation == operation :: records[k].response
  }

  // No two records of one operation stand for the same row.
  predicate OneRecordEach(records: Records, operation: Operation) {
    forall j, k | j in records && k in records && j.operation == operation && k.operation == operation ::
      records[j].response == records[k].response ==> j == k
  }

  // The records of an operation are in bijection with `rows`.
  predicate Bijective(records: Records, operation: Operation, rows: set<Key>) {
    Responses(records, operation) == rows && OneRecordEach(records, operation)
  }

  // Recording a new row extends the bijection of its own operation and leaves the others alone.
  lemma InsertBijective(records: Records, k: RecordKey, request: string, response: Key, operation: Operation, rows: set<Key>)
    requires k !in records && Bijective(records, operation, rows)
    requires k.operation == operation ==> response !in rows
    ensures Bijective(Insert(records, k, request, response), operation,
                      if k.operation == operation then rows + {response} else rows)
  {
    var after := Insert(records, k, request, response);
    var target := if k.operation == operation then rows + {response} else rows;
    forall x | x in target
      ensures x in Responses(after, operation)
    {
      if x in rows {
        var j :| j in records && j.operation == operation && records[j].response == x;
        assert j in after && after[j].response == x;
      } else {
        assert k in after && after[k].response == x;
      }
    }
    forall j | j in records && j.operation == operation
      ensures records[j].response in rows
    {
      assert records[j].response in Responses(records, operation);
    }
  }

  function KeysOf(records: Records, operation: Operation): set<RecordKey> {
    set k | k in records && k.operation == operation
  }

  function ResponsesTo(records: Records, keys: set<RecordKey>): set<Key>
    requires keys <= records.Keys
  {
    set k | k in keys :: records[k].response
  }

  lemma {:induction false} ResponseCount(records: Records, keys: set<RecordKey>)
    requires keys <= records.Keys
    requires forall j, k :: j in keys && k in keys && records[j].response == records[k].response ==> j == k
    ensures |ResponsesTo(records, keys)| == |keys|
    decreases |keys|
  {
    if keys == {} {
      assert ResponsesTo(records, keys) == {};
    } else {
      var k :| k in keys;
      var rest := keys - {k};
      ResponseCount(records, rest);
      assert ResponsesTo(records, keys) == ResponsesTo(records, rest) + {records[k].response};
      assert records[k].response !in ResponsesTo(records, rest);
    }
  }

  // As many records as rows.
  lemma RecordCount(records: Records, operation: Operation, rows: set<Key>)
    requires Bijective(records, operation, rows)
    ensures |KeysOf(records, operation)| == |rows|
  {
    ResponseCount(records, KeysOf(records, operation));
    assert ResponsesTo(records, KeysOf(records, operation)) == Responses(records, operation);
  }
}
