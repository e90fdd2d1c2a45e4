/**
 * The SQLite table `transactions` of internal/repository/transaction.go, modelled as a
 * sequence of rows in insertion order. The schema's UNIQUE(trx_id) is the class invariant;
 * each SELECT is a function over the rows and each INSERT or DELETE a method that replaces them.
 * A driver failure is an input flag: the statement then fails and changes nothing.
 */
module Repository {
  import opened Wrappers

  /** One row (repository.TransactionRecord without the store-assigned id and created_at). */
  datatype TransactionRecord = TransactionRecord(
    trxId: string,
    messageId: string,
    destination: string,
    destinationType: string,
    sentAt: int,
    expiresAt: int)

  datatype DbError = UniqueViolation | DriverError

  /** The read filter `expires_at > now`. */
  predicate Live(r: TransactionRecord, now: int) {
    r.expiresAt > now
  }

  /** The schema's UNIQUE(trx_id) constraint. */
  predicate UniqueTrxIds(rows: seq<TransactionRecord>) {
    forall i, j | 0 <= i < j < |rows| :: rows[i].trxId != rows[j].trxId
  }

  /** Some row, live or expired, holds `trxId`. */
  predicate HasTrxId(rows: seq<TransactionRecord>, trxId: string) {
    exists i | 0 <= i < |rows| :: rows[i].trxId == trxId
  }

  predicate MatchesDestination(r: TransactionRecord, destination: string, now: int) {
    r.destination == destination && Live(r, now)
  }

  /** SELECT … WHERE trx_id = ? AND expires_at > ? LIMIT 1. */
  function GetByTrxID(rows: seq<TransactionRecord>, trxId: string, now: int): (r: Option<TransactionRecord>)
    ensures r.None? <==> forall i | 0 <= i < |rows| :: !(rows[i].trxId == trxId && Live(rows[i], now))
    ensures r.Some? ==> r.value in rows && r.value.trxId == trxId && Live(r.value, now)
  {
    if rows == [] then None
    else if rows[0].trxId == trxId && Live(rows[0], now) then Some(rows[0])
    else GetByTrxID(rows[1..], trxId, now)
  }

  /**
   * SELECT … WHERE destination = ? AND expires_at > ? ORDER BY sent_at DESC LIMIT 1.
   * Rows tied on sent_at are unordered in SQL; this model takes the earliest inserted.
   */
  function GetByDestination(rows: seq<TransactionRecord>, destination: string, now: int): (r: Option<TransactionRecord>)
    ensures r.None? <==> forall i | 0 <= i < |rows| :: !MatchesDestination(rows[i], destination, now)
    ensures r.Some? ==> r.value in rows && MatchesDestination(r.value, destination, now)
    ensures r.Some? ==> forall i | 0 <= i < |rows| && MatchesDestination(rows[i], destination, now) ::
                          rows[i].sentAt <= r.value.sentAt
  {
    if rows == [] then None
    else
      var rest := GetByDestination(rows[1..], destination, now);
      assert forall i | 1 <= i < |rows| :: rows[i] == rows[1..][i - 1];
      if MatchesDestination(rows[0], destination, now) && (rest.None? || rest.value.sentAt <= rows[0].sentAt)
      then Some(rows[0])
      else rest
  }

  /** SELECT COUNT(*) … WHERE expires_at > ?. */
  function Count(rows: seq<TransactionRecord>, now: int): (n: nat)
    ensures n <= |rows|
    ensures n == |rows| <==> forall i | 0 <= i < |rows| :: Live(rows[i], now)
  {
    if rows == [] then 0
    else (if Live(rows[0], now) then 1 else 0) + Count(rows[1..], now)
  }

  /** The rows left by DELETE … WHERE expires_at <= ?, in their original order. */
  function Retain(rows: seq<TransactionRecord>, now: int): (kept: seq<TransactionRecord>)
    ensures |kept| <= |rows|
    ensures forall r :: r in kept <==> r in rows && Live(r, now)
  {
    if rows == [] then []
    else (if Live(rows[0], now) then [rows[0]] else []) + Retain(rows[1..], now)
  }

  class TransactionRepository {
    var rows: seq<TransactionRecord>

    ghost predicate Valid()
      reads this
    {
      UniqueTrxIds(rows)
    }

    /** An empty table (CREATE TABLE IF NOT EXISTS on a fresh database). */
    constructor ()
      ensures Valid() && rows == []
    {
      rows := [];
    }

    /** INSERT INTO transactions …: refused by UNIQUE(trx_id) whenever the id is present, expired or not. */
    method Save(record: TransactionRecord, driverFails: bool) returns (err: Option<DbError>)
      requires Valid()
      modifies this
      ensures Valid()
      ensures err == if driverFails then Some(DriverError)
                     else if HasTrxId(old(rows), record.trxId) then Some(UniqueViolation)
                     else None
      ensures rows == if err.None? then old(rows) + [record] else old(rows)
    {
      if driverFails {
        return Some(DriverError);
      }
      var i := 0;
      while i < |rows|
        invariant 0 <= i <= |rows|
        invariant forall k | 0 <= k < i :: rows[k].trxId != record.trxId
      {
        if rows[i].trxId == record.trxId {
          return Some(UniqueViolation);
        }
        i := i + 1;
      }
      rows := rows + [record];
      err := None;
    }

    /** DELETE FROM transactions WHERE expires_at <= now; returns RowsAffected. */
    method CleanupExpired(now: int, driverFails: bool) returns (deleted: int, err: Option<DbError>)
      requires Valid()
      modifies this
      ensures Valid()
      ensures err == if driverFails then Some(DriverError) else None
      ensures err.None? ==> rows == Retain(old(rows), now) && deleted == |old(rows)| - |rows|
      ensures err.Some? ==> rows == old(rows) && deleted == 0
    {
      if driverFails {
        return 0, Some(DriverError);
      }
      RetainKeepsUnique(rows, now);
      var before := |rows|;
      rows := Retain(rows, now);
      deleted := before - |rows|;
      err := None;
    }
  }

  /** Deleting rows never breaks UNIQUE(trx_id). */
  lemma {:induction false} RetainKeepsUnique(rows: seq<TransactionRecord>, now: int)
    requires UniqueTrxIds(rows)
    ensures UniqueTrxIds(Retain(rows, now))
  {
    if rows != [] {
      assert UniqueTrxIds(rows[1..]) by {
        forall i, j | 0 <= i < j < |rows[1..]| ensures rows[1..][i].trxId != rows[1..][j].trxId {
          assert rows[1..][i] == rows[i + 1] && rows[1..][j] == rows[j + 1];
        }
      }
      RetainKeepsUnique(rows[1..], now);
      var rest := Retain(rows[1..], now);
      if Live(rows[0], now) {
        forall j | 0 <= j < |rest| ensures rows[0].trxId != rest[j].trxId {
          assert rest[j] in rows[1..];
        }
      }
    }
  }

  /** Cleanup at `now` leaves every lookup by trx_id at the same `now` unchanged. */
  lemma {:induction false} CleanupPreservesGetByTrxID(rows: seq<TransactionRecord>, trxId: string, now: int)
    ensures GetByTrxID(Retain(rows, now), trxId, now) == GetByTrxID(rows, trxId, now)
  {
    if rows != [] {
      var kept := Retain(rows, now);
      CleanupPreservesGetByTrxID(rows[1..], trxId, now);
      if Live(rows[0], now) {
        assert kept == [rows[0]] + Retain(rows[1..], now);
        assert kept[0] == rows[0] && kept[1..] == Retain(rows[1..], now);
      } else {
        assert kept == Retain(rows[1..], now);
      }
    }
  }

  /** Cleanup at `now` leaves every lookup by destination at the same `now` unchanged. */
  lemma {:induction false} CleanupPreservesGetByDestination(rows: seq<TransactionRecord>, destination: string, now: int)
    ensures GetByDestination(Retain(rows, now), destination, now) == GetByDestination(rows, destination, now)
  {
    if rows != [] {
      var kept := Retain(rows, now);
      CleanupPreservesGetByDestination(rows[1..], destination, now);
      if Live(rows[0], now) {
        assert kept == [rows[0]] + Retain(rows[1..], now);
        assert kept[0] == rows[0] && kept[1..] == Retain(rows[1..], now);
      } else {
        assert kept == Retain(rows[1..], now);
      }
    }
  }

  /** Cleanup at `now` leaves the active count at the same `now` unchanged. */
  lemma {:induction false} CleanupPreservesCount(rows: seq<TransactionRecord>, now: int)
    ensures Count(Retain(rows, now), now) == Count(rows, now)
  {
    if rows != [] {
      var kept := Retain(rows, now);
      CleanupPreservesCount(rows[1..], now);
      if Live(rows[0], now) {
        assert kept == [rows[0]] + Retain(rows[1..], now);
        assert kept[0] == rows[0] && kept[1..] == Retain(rows[1..], now);
      } else {
        assert kept == Retain(rows[1..], now);
      }
    }
  }

  /** The active count is the size of what a cleanup at the same `now` keeps. */
  lemma {:induction false} CountIsRetainedSize(rows: seq<TransactionRecord>, now: int)
    ensures Count(rows, now) == |Retain(rows, now)|
  {
    if rows != [] {
      CountIsRetainedSize(rows[1..], now);
    }
  }

  /** COUNT(*) is the number of rows with expires_at > now. */
  lemma CountIsLiveRows(rows: seq<TransactionRecord>, now: int)
    ensures Count(rows, now) == |set i | 0 <= i < |rows| && Live(rows[i], now)|
  {
    CountFrom(rows, 0, now);
    assert rows[0..] == rows;
    assert LiveFrom(rows, 0, now) == set i | 0 <= i < |rows| && Live(rows[i], now);
  }

  /** The positions from `lo` on of the rows with expires_at > now. */
  function LiveFrom(rows: seq<TransactionRecord>, lo: nat, now: int): set<int> {
    set i | lo <= i < |rows| && Live(rows[i], now)
  }

  lemma {:induction false} CountFrom(rows: seq<TransactionRecord>, lo: nat, now: int)
    requires lo <= |rows|
    ensures Count(rows[lo..], now) == |LiveFrom(rows, lo, now)|
    decreases |rows| - lo
  {
    if lo == |rows| {
      assert LiveFrom(rows, lo, now) == {};
    } else {
      CountFrom(rows, lo + 1, now);
      assert rows[lo..][1..] == rows[lo + 1..];
      var head: set<int> := if Live(rows[lo], now) then {lo} else {};
      assert LiveFrom(rows, lo, now) == head + LiveFrom(rows, lo + 1, now);
    }
  }

  /** Cleanup deletes exactly the rows with expires_at <= now; in particular a row expiring exactly at `now`. */
  lemma CleanupDeletesExactlyExpired(rows: seq<TransactionRecord>, r: TransactionRecord, now: int)
    requires r in rows
    ensures r in Retain(rows, now) <==> r.expiresAt > now
    ensures r.expiresAt == now ==> r !in Retain(rows, now) && GetByTrxID(rows, r.trxId, now) != Some(r)
  {
  }

  /**
   * A trx_id whose every row has expired is refused by Save until a cleanup removes them;
   * after a cleanup at a time past their expiry, the id is free again.
   */
  lemma {:induction false} ReuseAfterCleanup(rows: seq<TransactionRecord>, trxId: string, now: int)
    requires forall i | 0 <= i < |rows| && rows[i].trxId == trxId :: !Live(rows[i], now)
    ensures GetByTrxID(rows, trxId, now).None?
    ensures !HasTrxId(Retain(rows, now), trxId)
  {
    var kept := Retain(rows, now);
    forall k | 0 <= k < |kept| ensures kept[k].trxId != trxId {
      assert kept[k] in rows && Live(kept[k], now);
      var i :| 0 <= i < |rows| && rows[i] == kept[k];
    }
  }

  /** With UNIQUE(trx_id), the row GetByTrxID returns is the only row with that id. */
  lemma GetByTrxIDIsTheRow(rows: seq<TransactionRecord>, i: int, now: int)
    requires UniqueTrxIds(rows)
    requires 0 <= i < |rows| && Live(rows[i], now)
    ensures GetByTrxID(rows, rows[i].trxId, now) == Some(rows[i])
  {
    var r := GetByTrxID(rows, rows[i].trxId, now);
    var j :| 0 <= j < |rows| && rows[j] == r.value;
    assert j == i;
  }
}
