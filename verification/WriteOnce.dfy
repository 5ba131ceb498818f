/**
 What the two record statements guarantee together, whoever issues them and in whatever order
 (worker/repository.py): the first body stays, and so does the first link.
 */
module WriteOnce {
  import opened Wrappers
  import opened Records
  import opened World

  /** One statement of some worker. */
  datatype Write =
    | Create(turn: TurnId, golden: Golden, eligible: bool)
    | Link(turn: TurnId, shard: ShardNumber)

  function Apply(records: map<TurnId, Record>, write: Write): map<TurnId, Record> {
    match write
    case Create(turn, golden, eligible) => CreateRecord(records, turn, golden, eligible)
    case Link(turn, shard) => SetRecordShard(records, turn, shard)
  }

  function ApplyAll(records: map<TurnId, Record>, writes: seq<Write>): map<TurnId, Record>
    decreases |writes|
  {
    if writes == [] then records else ApplyAll(Apply(records, writes[0]), writes[1..])
  }

  /** The shard of the first link to this turn. */
  function FirstLink(writes: seq<Write>, turn: TurnId): Option<ShardNumber> {
    if writes == [] then None
    else if writes[0].Link? && writes[0].turn == turn then Some(writes[0].shard)
    else FirstLink(writes[1..], turn)
  }

  /** The record as history has it: body and verdict of the first create, shard of the first link after it. */
  function History(writes: seq<Write>, turn: TurnId): Option<Record> {
    if writes == [] then None
    else if writes[0].Create? && writes[0].turn == turn
    then Some(Record(writes[0].golden, writes[0].eligible, if writes[0].eligible then FirstLink(writes[1..], turn) else None))
    else History(writes[1..], turn)
  }

  /** Once there is a record, only a first link to an eligible one can still change it. */
  lemma {:induction false} ExistingRecord(records: map<TurnId, Record>, writes: seq<Write>, turn: TurnId)
    requires turn in records && (records[turn].shard.Some? ==> records[turn].eligible)
    ensures var record := records[turn];
            var after := ApplyAll(records, writes);
            && turn in after
            && after[turn] == record.(shard :=
                 if record.shard.Some? then record.shard else if record.eligible then FirstLink(writes, turn) else None)
    decreases |writes|
  {
    if writes != [] {
      ExistingRecord(Apply(records, writes[0]), writes[1..], turn);
    }
  }

  /** The table after any statements on an empty one is exactly their history. */
  lemma {:induction false} RecordsAreHistory(records: map<TurnId, Record>, writes: seq<Write>, turn: TurnId)
    requires turn !in records
    ensures var after := ApplyAll(records, writes);
            (if turn in after then Some(after[turn]) else None) == History(writes, turn)
    decreases |writes|
  {
    if writes != [] {
      var next := Apply(records, writes[0]);
      if turn in next {
        ExistingRecord(next, writes[1..], turn);
      } else {
        RecordsAreHistory(next, writes[1..], turn);
      }
    }
  }
}
