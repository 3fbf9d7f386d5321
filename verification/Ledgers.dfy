/** The persistent one-shot tables: one row per consumed id, and no two rows with one envelope hash. */
module Ledgers {
  import opened Records

  datatype Row = Row(envelopeHash: Digest, consumedAt: Time)

  type Table = map<string, Row>

  /** Both uniqueness constraints let the row in. */
  predicate Fresh(rows: Table, id: string, envelopeHash: Digest) {
    id !in rows && forall k :: k in rows ==> rows[k].envelopeHash != envelopeHash
  }

  function Consumed(rows: Table, id: string, envelopeHash: Digest, at: Time): Table {
    if Fresh(rows, id, envelopeHash) then rows[id := Row(envelopeHash, at)] else rows
  }

  /** The database behind `ReplayLedger` and `ExecutionPermitLedger`; an insert is one transaction. */
  class OneShotLedger {
    var rows: Table

    /** Opens a database that already holds `persisted`. */
    constructor (persisted: Table)
      ensures rows == persisted
    {
      rows := persisted;
    }

    method Consume(id: string, envelopeHash: Digest, at: Time) returns (inserted: bool)
      modifies this
      ensures inserted == old(Fresh(rows, id, envelopeHash))
      ensures rows == Consumed(old(rows), id, envelopeHash, at)
    {
      inserted := Fresh(rows, id, envelopeHash);
      if inserted {
        rows := rows[id := Row(envelopeHash, at)];
      }
    }
  }

  datatype Attempt = Attempt(id: string, envelopeHash: Digest, at: Time)

  function AfterAll(rows: Table, attempts: seq<Attempt>): Table {
    if |attempts| == 0 then rows
    else
      var last := attempts[|attempts| - 1];
      Consumed(AfterAll(rows, attempts[..|attempts| - 1]), last.id, last.envelopeHash, last.at)
  }

  ghost predicate Succeeds(rows: Table, attempts: seq<Attempt>, i: nat)
    requires i < |attempts|
  {
    Fresh(AfterAll(rows, attempts[..i]), attempts[i].id, attempts[i].envelopeHash)
  }

  lemma {:induction false} RowsStay(rows: Table, attempts: seq<Attempt>, i: nat)
    requires i <= |attempts|
    ensures forall id :: id in AfterAll(rows, attempts[..i]) ==>
      id in AfterAll(rows, attempts) && AfterAll(rows, attempts)[id] == AfterAll(rows, attempts[..i])[id]
  {
    if i < |attempts| {
      var n := |attempts| - 1;
      RowsStay(rows, attempts[..n], i);
      assert attempts[..n][..i] == attempts[..i];
    } else {
      assert attempts[..i] == attempts;
    }
  }

  /** Over any run of attempts, restarts included, at most one attempt per id and per envelope hash succeeds. */
  lemma OneShot(rows: Table, attempts: seq<Attempt>, i: nat, j: nat)
    requires i < j < |attempts| && Succeeds(rows, attempts, i) && Succeeds(rows, attempts, j)
    ensures attempts[i].id != attempts[j].id && attempts[i].envelopeHash != attempts[j].envelopeHash
  {
    var upToJ := attempts[..j];
    RowsStay(rows, upToJ, i + 1);
    assert upToJ[..i + 1] == attempts[..i + 1];
    assert attempts[..i + 1][..i] == attempts[..i];
    assert attempts[i].id in AfterAll(rows, attempts[..i + 1]);
  }
}
