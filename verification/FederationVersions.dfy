/** The `federation_versions` table: one row per federation a wallet has had, with its migration status and the
    txid of the sweep that emptied it. */
module FederationVersions {
  import opened Wrappers
  import Sorting

  /** Exactly one of the two foreign keys of a row is set. */
  datatype WalletRef = Bitcoin(id: nat) | Elements(id: nat)

  datatype Status = NotApplicable | Pending | InProgress | Complete

  type Descriptor = nat

  datatype Version = Version(
    id: nat, wallet: WalletRef, index: nat, descriptor: Descriptor, blindingKey: Option<string>,
    status: Status, sweep: Option<string>)

  type Rows = seq<Version>

  datatype InsertError = Conflict

  // ---------------------------------------------------------------------------
  // Statements
  // ---------------------------------------------------------------------------

  /** `UPDATE ... SET status = 'pending' WHERE wallet, version_index < current AND status = 'not_applicable'`. */
  function PendingRow(v: Version, w: WalletRef, current: nat): Version {
    if v.wallet == w && v.index < current && v.status == NotApplicable then v.(status := Pending) else v
  }

  function CompleteRow(v: Version, id: nat, txid: string): Version {
    if v.id == id then v.(status := Complete, sweep := Some(txid)) else v
  }

  function StatusRow(v: Version, id: nat, status: Status): Version {
    if v.id == id then v.(status := status) else v
  }

  predicate Revertible(v: Version, id: nat, txid: string) {
    v.id == id && v.status == Complete && v.sweep == Some(txid)
  }

  function RevertRow(v: Version, id: nat, txid: string): Version {
    if Revertible(v, id, txid) then v.(status := Pending, sweep := None) else v
  }

  /** A table updated row by row. */
  ghost predicate Each(before: Rows, after: Rows, change: Version -> Version) {
    |after| == |before| && forall i :: 0 <= i < |before| ==> after[i] == change(before[i])
  }

  ghost predicate Occupied(rows: Rows, w: WalletRef, index: nat) {
    exists v :: v in rows && v.wallet == w && v.index == index
  }

  function Of(rows: Rows, w: WalletRef): seq<Version> {
    if rows == [] then []
    else Of(rows[..|rows| - 1], w) + (if rows[|rows| - 1].wallet == w then [rows[|rows| - 1]] else [])
  }

  lemma {:induction false} OfMembers(rows: Rows, w: WalletRef)
    ensures forall v :: v in Of(rows, w) <==> v in rows && v.wallet == w
  {
    if rows != [] {
      OfMembers(rows[..|rows| - 1], w);
      assert rows == rows[..|rows| - 1] + [rows[|rows| - 1]];
    }
  }

  ghost predicate SortedByIndex(s: seq<Version>) {
    Sorting.SortedBy(s, (v: Version) => v.index)
  }

  lemma NoneOf(w: WalletRef)
    ensures Of([], w) == [] && SortedByIndex([])
  {
  }

  lemma OfSnoc(rows: Rows, w: WalletRef, i: nat)
    requires i < |rows|
    ensures Of(rows[..i + 1], w) == Of(rows[..i], w) + (if rows[i].wallet == w then [rows[i]] else [])
  {
    assert rows[..i + 1][..i] == rows[..i];
  }

  method InsertByIndex(s: seq<Version>, v: Version) returns (r: seq<Version>)
    requires SortedByIndex(s)
    ensures SortedByIndex(r) && multiset(r) == multiset(s) + multiset{v}
  {
    r := Sorting.Insert(s, v, (u: Version) => u.index);
  }

  class Table {
    var rows: Rows
    var nextId: nat

    constructor ()
      ensures rows == [] && nextId == 0
    {
      rows, nextId := [], 0;
    }

    /** Append a version with the default status; a second row for the same wallet and index is refused. */
    method Insert(w: WalletRef, index: nat, descriptor: Descriptor, blindingKey: Option<string>)
      returns (r: Result<Version, InsertError>)
      modifies this
      ensures r.Err? <==> Occupied(old(rows), w, index)
      ensures r.Err? ==> rows == old(rows) && nextId == old(nextId)
      ensures r.Ok? ==> r.value == Version(old(nextId), w, index, descriptor, blindingKey, NotApplicable, None)
                        && rows == old(rows) + [r.value] && nextId == old(nextId) + 1
    {
      if exists i :: 0 <= i < |rows| && rows[i].wallet == w && rows[i].index == index {
        return Err(Conflict);
      }
      assert forall v :: v in rows ==> exists i :: 0 <= i < |rows| && rows[i] == v;
      var v := Version(nextId, w, index, descriptor, blindingKey, NotApplicable, None);
      rows, nextId := rows + [v], nextId + 1;
      return Ok(v);
    }

    /** A wallet's versions, oldest first. */
    method List(w: WalletRef) returns (r: seq<Version>)
      ensures multiset(r) == multiset(Of(rows, w))
      ensures SortedByIndex(r)
      ensures forall v :: v in r <==> v in rows && v.wallet == w
      ensures |r| == |Of(rows, w)|
    {
      hide Of;
      hide SortedByIndex;
      r := [];
      NoneOf(w);
      for i := 0 to |rows|
        invariant multiset(r) == multiset(Of(rows[..i], w))
        invariant SortedByIndex(r)
      {
        OfSnoc(rows, w, i);
        if rows[i].wallet == w {
          r := InsertByIndex(r, rows[i]);
        }
      }
      assert rows[..|rows|] == rows;
      OfMembers(rows, w);
      assert forall v :: v in r <==> v in multiset(r);
      assert forall v :: v in Of(rows, w) <==> v in multiset(Of(rows, w));
      assert |r| == |multiset(r)| && |Of(rows, w)| == |multiset(Of(rows, w))|;
    }

    method SetPendingForOlder(w: WalletRef, current: nat)
      modifies this`rows
      ensures Each(old(rows), rows, v => PendingRow(v, w, current))
      ensures forall i :: 0 <= i < |rows| ==>
        var v := old(rows)[i];
        rows[i] == if v.wallet == w && v.index < current && v.status == NotApplicable then v.(status := Pending) else v
    {
      var before := rows;
      rows := seq(|before|, i requires 0 <= i < |before| => PendingRow(before[i], w, current));
    }

    method SetMigrationComplete(id: nat, txid: string)
      modifies this`rows
      ensures Each(old(rows), rows, v => CompleteRow(v, id, txid))
      ensures forall i :: 0 <= i < |rows| ==>
        var v := old(rows)[i]; rows[i] == if v.id == id then v.(status := Complete, sweep := Some(txid)) else v
    {
      var before := rows;
      rows := seq(|before|, i requires 0 <= i < |before| => CompleteRow(before[i], id, txid));
    }

    method UpdateMigrationStatus(id: nat, status: Status)
      modifies this`rows
      ensures Each(old(rows), rows, v => StatusRow(v, id, status))
      ensures forall i :: 0 <= i < |rows| ==>
        var v := old(rows)[i]; rows[i] == if v.id == id then v.(status := status) else v
    {
      var before := rows;
      rows := seq(|before|, i requires 0 <= i < |before| => StatusRow(before[i], id, status));
    }

    /** Revert a completed migration if its recorded sweep is the given one; `id` is the primary key. */
    method ReconcileMigration(id: nat, txid: string) returns (reverted: bool)
      requires forall i, j :: 0 <= i < j < |rows| ==> rows[i].id != rows[j].id
      modifies this`rows
      ensures Each(old(rows), rows, v => RevertRow(v, id, txid))
      ensures forall i :: 0 <= i < |rows| ==>
        var v := old(rows)[i];
        rows[i] == if v.id == id && v.status == Complete && v.sweep == Some(txid) then v.(status := Pending, sweep := None) else v
      ensures reverted <==> exists v :: v in old(rows) && Revertible(v, id, txid)
    {
      var before := rows;
      var affected := set i | 0 <= i < |before| && Revertible(before[i], id, txid);
      reverted := |affected| == 1;
      if i :| 0 <= i < |before| && Revertible(before[i], id, txid) {
        assert affected == {i};
        assert before[i] in before;
      } else {
        assert affected == {};
      }
      rows := seq(|before|, i requires 0 <= i < |before| => RevertRow(before[i], id, txid));
    }
  }
}
