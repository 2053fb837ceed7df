/** The migration-status machine: what every statement of bootstrap, federation change, completion stamp and
    revert keeps, in any order and with a crash between any two of them. */
module MigrationStatus {
  import opened Wrappers
  import opened FederationVersions
  import Sorting

  ghost predicate IsLatest(rows: Rows, v: Version) {
    forall u :: u in rows && u.wallet == v.wallet ==> u.index <= v.index
  }

  ghost predicate UniqueKeys(rows: Rows) {
    forall i, j :: 0 <= i < j < |rows| ==>
      rows[i].id != rows[j].id && !(rows[i].wallet == rows[j].wallet && rows[i].index == rows[j].index)
  }

  /** Indices of a wallet start at 0 and leave no gap. */
  ghost predicate Dense(rows: Rows) {
    forall v, n: nat :: v in rows && n < v.index ==> Occupied(rows, v.wallet, n)
  }

  ghost predicate RowOk(rows: Rows, v: Version) {
    && (IsLatest(rows, v) ==> v.status == NotApplicable && v.sweep == None)
    && (v.sweep.Some? ==> v.status == Complete)
    && v.status != InProgress
  }

  /** What holds of the table in every reachable state. */
  ghost predicate Inv(rows: Rows, nextId: nat) {
    && UniqueKeys(rows)
    && Dense(rows)
    && (forall v :: v in rows ==> v.id < nextId)
    && (forall v :: v in rows ==> RowOk(rows, v))
  }

  // ---------------------------------------------------------------------------
  // Version lists
  // ---------------------------------------------------------------------------

  lemma {:induction false} OfWithin(rows: Rows, w: WalletRef)
    ensures multiset(Of(rows, w)) <= multiset(rows)
  {
    if rows != [] {
      OfWithin(rows[..|rows| - 1], w);
      assert rows == rows[..|rows| - 1] + [rows[|rows| - 1]];
    }
  }

  lemma NoRepeats(vs: seq<Version>, i: nat, j: nat)
    requires i < j < |vs| && vs[i] == vs[j]
    ensures multiset(vs)[vs[i]] >= 2
  {
    assert vs == vs[..j] + vs[j..];
    assert vs[i] in vs[..j] && vs[j] in vs[j..];
    assert multiset(vs)[vs[i]] == multiset(vs[..j])[vs[i]] + multiset(vs[j..])[vs[i]];
  }

  lemma {:induction false} OnceOnly(rows: Rows, v: Version)
    requires UniqueKeys(rows)
    ensures multiset(rows)[v] <= 1
  {
    if rows != [] {
      var init := rows[..|rows| - 1];
      OnceOnly(init, v);
      assert rows == init + [rows[|rows| - 1]];
      assert multiset(rows)[v] == multiset(init)[v] + multiset([rows[|rows| - 1]])[v];
      if v in init {
        var i :| 0 <= i < |init| && init[i] == v;
        assert rows[i].id != rows[|rows| - 1].id;
      }
    }
  }

  /** `vs` is what listing a wallet's versions returns. */
  ghost predicate Listed(rows: Rows, w: WalletRef, vs: seq<Version>) {
    SortedByIndex(vs) && multiset(vs) == multiset(Of(rows, w)) && forall v :: v in vs <==> v in rows && v.wallet == w
  }

  /** The listed versions have indices 0, 1, 2 and so on: their number is a fresh index and the last is the
      latest version. */
  lemma {:induction false} ListedIndices(rows: Rows, nextId: nat, w: WalletRef, vs: seq<Version>, i: nat)
    requires Inv(rows, nextId) && Listed(rows, w, vs) && i < |vs|
    ensures forall j :: 0 <= j <= i ==> vs[j].index == j
  {
    hide Inv;
    hide Listed;
    if i > 0 {
      ListedIndices(rows, nextId, w, vs, i - 1);
      StrictlyAfter(rows, nextId, w, vs, i - 1);
    }
    NoGap(rows, nextId, w, vs, i);
  }

  lemma NoGap(rows: Rows, nextId: nat, w: WalletRef, vs: seq<Version>, i: nat)
    requires Inv(rows, nextId) && Listed(rows, w, vs) && i < |vs| && vs[i].index >= i
    requires forall j :: 0 <= j < i ==> vs[j].index == j
    ensures vs[i].index == i
  {
    assert vs[i] in rows;
    assert vs[i].index > i ==> Occupied(rows, w, i);
    if Occupied(rows, w, i) {
      var u :| u in rows && u.wallet == w && u.index == i;
      var k :| 0 <= k < |vs| && vs[k] == u;
      assert k < i ==> vs[k].index == k;
      assert i < k ==> vs[i].index <= vs[k].index;
    }
  }

  lemma StrictlyAfter(rows: Rows, nextId: nat, w: WalletRef, vs: seq<Version>, i: nat)
    requires Inv(rows, nextId) && Listed(rows, w, vs) && i + 1 < |vs|
    ensures vs[i].index < vs[i + 1].index
  {
    if vs[i].index == vs[i + 1].index {
      assert vs[i] in rows && vs[i + 1] in rows;
      var j :| 0 <= j < |rows| && rows[j] == vs[i];
      var k :| 0 <= k < |rows| && rows[k] == vs[i + 1];
      assert j == k;
      NoRepeats(vs, i, i + 1);
      OfWithin(rows, w);
      OnceOnly(rows, vs[i]);
      assert false;
    }
  }

  lemma CountIsFresh(rows: Rows, nextId: nat, w: WalletRef, vs: seq<Version>)
    requires Inv(rows, nextId) && Listed(rows, w, vs)
    ensures !Occupied(rows, w, |vs|)
    ensures forall n: nat :: n < |vs| <==> Occupied(rows, w, n)
    ensures vs != [] ==> IsLatest(rows, vs[|vs| - 1]) && vs[|vs| - 1].index == |vs| - 1
  {
    if vs != [] {
      ListedIndices(rows, nextId, w, vs, |vs| - 1);
    }
    forall n: nat ensures n < |vs| <==> Occupied(rows, w, n) {
      if n < |vs| {
        assert vs[n] in rows;
      }
      if Occupied(rows, w, n) {
        var v :| v in rows && v.wallet == w && v.index == n;
        var k :| 0 <= k < |vs| && vs[k] == v;
      }
    }
    forall u | u in rows && vs != [] && u.wallet == w ensures u.index <= |vs| - 1 {
      var k :| 0 <= k < |vs| && vs[k] == u;
    }
  }

  // ---------------------------------------------------------------------------
  // Statements keep the invariant
  // ---------------------------------------------------------------------------

  datatype Statement =
    | Insert(wallet: WalletRef, descriptor: Descriptor, blindingKey: Option<string>)
    | SetPending(wallet: WalletRef, current: nat)
    | SetComplete(id: nat, txid: string)
    | SetStatusComplete(id: nat)
    | Revert(id: nat, txid: string)

  function CountOf(rows: Rows, w: WalletRef): nat {
    |Of(rows, w)|
  }

  /** Any insertion may be asked for; the pending flip names an index up to the latest; completion is stamped on older
      versions only; a revert is guarded by its own condition. */
  ghost predicate Issued(rows: Rows, s: Statement) {
    match s
    case Insert(_, _, _) => true
    case SetPending(w, current) => forall v :: v in rows && v.wallet == w && IsLatest(rows, v) ==> current <= v.index
    case SetComplete(id, _) => forall v :: v in rows && v.id == id ==> !IsLatest(rows, v)
    case SetStatusComplete(id) => forall v :: v in rows && v.id == id ==> !IsLatest(rows, v)
    case Revert(_, _) => true
  }

  /** An insertion takes the number of listed versions as index and is refused when that index is taken. */
  ghost predicate After(rows: Rows, nextId: nat, s: Statement, rows': Rows, nextId': nat) {
    match s
    case Insert(w, d, key) =>
      if Occupied(rows, w, CountOf(rows, w)) then rows' == rows && nextId' == nextId
      else rows' == rows + [Version(nextId, w, CountOf(rows, w), d, key, NotApplicable, None)] && nextId' == nextId + 1
    case SetPending(w, current) => Each(rows, rows', v => PendingRow(v, w, current)) && nextId' == nextId
    case SetComplete(id, txid) => Each(rows, rows', v => CompleteRow(v, id, txid)) && nextId' == nextId
    case SetStatusComplete(id) => Each(rows, rows', v => StatusRow(v, id, Complete)) && nextId' == nextId
    case Revert(id, txid) => Each(rows, rows', v => RevertRow(v, id, txid)) && nextId' == nextId
  }

  /** An update that leaves keys alone: every row keeps its id, wallet and index. */
  ghost predicate SameKeys(rows: Rows, rows': Rows) {
    |rows'| == |rows|
    && forall i :: 0 <= i < |rows| ==>
      rows'[i].id == rows[i].id && rows'[i].wallet == rows[i].wallet && rows'[i].index == rows[i].index
  }

  lemma SameKeysKeep(rows: Rows, rows': Rows, nextId: nat)
    requires SameKeys(rows, rows') && Inv(rows, nextId)
    ensures UniqueKeys(rows') && Dense(rows') && (forall v :: v in rows' ==> v.id < nextId)
    ensures forall i :: 0 <= i < |rows| ==> (IsLatest(rows, rows[i]) <==> IsLatest(rows', rows'[i]))
  {
    forall v, n: nat | v in rows' && n < v.index ensures Occupied(rows', v.wallet, n) {
      var i :| 0 <= i < |rows'| && rows'[i] == v;
      assert rows[i] in rows;
      assert Occupied(rows, rows[i].wallet, n);
      var u :| u in rows && u.wallet == v.wallet && u.index == n;
      var j :| 0 <= j < |rows| && rows[j] == u;
      assert rows'[j] in rows';
    }
    forall v | v in rows' ensures v.id < nextId {
      var i :| 0 <= i < |rows'| && rows'[i] == v;
      assert rows[i] in rows;
    }
    forall i | 0 <= i < |rows| ensures IsLatest(rows, rows[i]) <==> IsLatest(rows', rows'[i]) {
      if IsLatest(rows, rows[i]) {
        LatestCarries(rows, rows', i);
      }
      if IsLatest(rows', rows'[i]) {
        LatestCarries(rows', rows, i);
      }
    }
  }

  lemma LatestCarries(rows: Rows, rows': Rows, i: nat)
    requires SameKeys(rows, rows') && i < |rows| && IsLatest(rows, rows[i])
    ensures IsLatest(rows', rows'[i])
  {
    forall u | u in rows' && u.wallet == rows'[i].wallet ensures u.index <= rows'[i].index {
      var j :| 0 <= j < |rows'| && rows'[j] == u;
      assert rows[j] in rows;
    }
  }

  lemma UpdateKeeps(rows: Rows, nextId: nat, s: Statement, rows': Rows)
    requires Inv(rows, nextId) && Issued(rows, s) && !s.Insert? && After(rows, nextId, s, rows', nextId)
    ensures Inv(rows', nextId)
  {
    assert SameKeys(rows, rows');
    SameKeysKeep(rows, rows', nextId);
    forall v | v in rows' ensures RowOk(rows', v) {
      var i :| 0 <= i < |rows'| && rows'[i] == v;
      UpdatedRowOk(rows, nextId, s, rows', i);
    }
  }

  lemma UpdatedRowOk(rows: Rows, nextId: nat, s: Statement, rows': Rows, i: nat)
    requires Inv(rows, nextId) && Issued(rows, s) && !s.Insert? && After(rows, nextId, s, rows', nextId)
    requires i < |rows| && (IsLatest(rows, rows[i]) <==> IsLatest(rows', rows'[i]))
    ensures RowOk(rows', rows'[i])
  {
    hide IsLatest;
    hide Dense;
    hide UniqueKeys;
    assert rows[i] in rows;
    assert RowOk(rows, rows[i]);
  }

  lemma Placed(s: seq<Version>, v: Version) returns (r: seq<Version>)
    requires SortedByIndex(s)
    ensures SortedByIndex(r) && multiset(r) == multiset(s) + multiset{v}
  {
    var i := |s|;
    while i > 0 && s[i - 1].index > v.index
      invariant 0 <= i <= |s| && (i < |s| ==> s[i].index > v.index)
    {
      i := i - 1;
    }
    r := s[..i] + [v] + s[i..];
    Sorting.Elements(s, v, i);
    Sorting.Ordered(s, v, i, r, (u: Version) => u.index);
  }

  /** Some listing of a wallet's versions. */
  lemma {:induction false} Listing(rows: Rows, w: WalletRef) returns (vs: seq<Version>)
    ensures SortedByIndex(vs) && multiset(vs) == multiset(Of(rows, w))
  {
    if rows == [] {
      return [];
    }
    vs := Listing(rows[..|rows| - 1], w);
    hide SortedByIndex;
    if rows[|rows| - 1].wallet == w {
      vs := Placed(vs, rows[|rows| - 1]);
    }
  }

  /** The number of a wallet's versions is the first index that is free. */
  lemma CountIsFirstFree(rows: Rows, nextId: nat, w: WalletRef)
    requires Inv(rows, nextId)
    ensures !Occupied(rows, w, CountOf(rows, w))
    ensures forall n: nat :: n < CountOf(rows, w) ==> Occupied(rows, w, n)
  {
    hide Inv;
    hide Occupied;
    hide SortedByIndex;
    var vs := Listing(rows, w);
    OfMembers(rows, w);
    assert forall v :: v in vs <==> v in multiset(vs);
    assert |multiset(vs)| == |multiset(Of(rows, w))|;
    CountIsFresh(rows, nextId, w, vs);
  }

  lemma InsertKeeps(rows: Rows, nextId: nat, s: Statement, rows': Rows)
    requires Inv(rows, nextId) && s.Insert? && After(rows, nextId, s, rows', nextId + 1)
    requires !Occupied(rows, s.wallet, CountOf(rows, s.wallet))
    requires forall n: nat :: n < CountOf(rows, s.wallet) ==> Occupied(rows, s.wallet, n)
    ensures Inv(rows', nextId + 1)
  {
    var w, n := s.wallet, CountOf(rows, s.wallet);
    var added := rows'[|rows|];
    assert forall v :: v in rows' <==> v in rows || v == added;
    forall v | v in rows && v.wallet == w ensures v.index < n {
      if v.index >= n {
        NoneAbove(rows, w, n, v);
      }
    }
    forall v, k: nat | v in rows' && k < v.index ensures Occupied(rows', v.wallet, k) {
      assert Occupied(rows, v.wallet, k);
      var u :| u in rows && u.wallet == v.wallet && u.index == k;
      assert u in rows';
    }
    forall v | v in rows' ensures RowOk(rows', v) {
      if v in rows {
        assert RowOk(rows, v);
        assert IsLatest(rows', v) ==> IsLatest(rows, v);
      }
    }
    forall i, j | 0 <= i < j < |rows'|
      ensures rows'[i].id != rows'[j].id && !(rows'[i].wallet == rows'[j].wallet && rows'[i].index == rows'[j].index)
    {
      assert rows[i] in rows;
    }
  }

  lemma NoneAbove(rows: Rows, w: WalletRef, n: nat, v: Version)
    requires Dense(rows) && !Occupied(rows, w, n) && v in rows && v.wallet == w
    ensures v.index < n
  {
    assert v.index != n;
    assert n < v.index ==> Occupied(rows, v.wallet, n);
  }

  /** Every statement the application issues keeps the invariant. */
  lemma StatementKeeps(rows: Rows, nextId: nat, s: Statement, rows': Rows, nextId': nat)
    requires Inv(rows, nextId) && Issued(rows, s) && After(rows, nextId, s, rows', nextId')
    ensures Inv(rows', nextId')
  {
    if s.Insert? {
      CountIsFirstFree(rows, nextId, s.wallet);
      InsertKeeps(rows, nextId, s, rows');
    } else {
      UpdateKeeps(rows, nextId, s, rows');
    }
  }

  datatype TableState = TableState(rows: Rows, nextId: nat)

  /** The table after a run of statements, crashes between operations leaving no trace of their own. */
  ghost predicate Run(statements: seq<Statement>, states: seq<TableState>) {
    && |states| == |statements| + 1
    && states[0] == TableState([], 0)
    && forall k :: 0 <= k < |statements| ==>
         Issued(states[k].rows, statements[k])
         && After(states[k].rows, states[k].nextId, statements[k], states[k + 1].rows, states[k + 1].nextId)
  }

  /** The version-history invariant over every run. */
  lemma {:induction false} EveryRun(statements: seq<Statement>, states: seq<TableState>, k: nat)
    requires Run(statements, states) && k < |states|
    ensures Inv(states[k].rows, states[k].nextId)
  {
    if k > 0 {
      EveryRun(statements, states, k - 1);
      StatementKeeps(states[k - 1].rows, states[k - 1].nextId, statements[k - 1], states[k].rows, states[k].nextId);
    }
  }

  // ---------------------------------------------------------------------------
  // The operations
  // ---------------------------------------------------------------------------

  lemma ListedCount(rows: Rows, nextId: nat, w: WalletRef, vs: seq<Version>)
    requires Inv(rows, nextId) && Listed(rows, w, vs) && |vs| == CountOf(rows, w)
    ensures !Occupied(rows, w, CountOf(rows, w))
  {
    CountIsFresh(rows, nextId, w, vs);
  }

  /** Loading a wallet that has no version yet records the current federation as version 0. */
  method Bootstrap(t: Table, w: WalletRef, descriptor: Descriptor, blindingKey: Option<string>)
    requires Inv(t.rows, t.nextId)
    modifies t
    ensures Inv(t.rows, t.nextId)
    ensures Of(old(t.rows), w) != [] ==> t.rows == old(t.rows)
    ensures Of(old(t.rows), w) == [] ==>
      t.rows == old(t.rows) + [Version(old(t.nextId), w, 0, descriptor, blindingKey, NotApplicable, None)]
  {
    var versions := t.List(w);
    if versions == [] {
      ListedCount(t.rows, t.nextId, w, versions);
      ghost var rows, nextId := t.rows, t.nextId;
      var r := t.Insert(w, 0, descriptor, blindingKey);
      StatementKeeps(rows, nextId, Insert(w, descriptor, blindingKey), t.rows, t.nextId);
    }
  }

  /** Step 1 for one wallet: append the next version, then mark the older ones pending.  `crash` stops it between
      the two statements. */
  method ApplyFederationChange(t: Table, w: WalletRef, descriptor: Descriptor, blindingKey: Option<string>, crash: bool)
    requires Inv(t.rows, t.nextId)
    modifies t
    ensures Inv(t.rows, t.nextId)
    ensures |t.rows| == |old(t.rows)| + 1
    ensures var added := t.rows[|old(t.rows)|];
            added == Version(old(t.nextId), w, CountOf(old(t.rows), w), descriptor, blindingKey, NotApplicable, None)
            && IsLatest(t.rows, added)
    ensures forall i :: 0 <= i < |old(t.rows)| ==>
      t.rows[i] == (if !crash && old(t.rows)[i].wallet == w && old(t.rows)[i].status == NotApplicable
                    then old(t.rows)[i].(status := Pending) else old(t.rows)[i])
  {
    hide Dense;
    hide UniqueKeys;
    hide RowOk;
    hide IsLatest;
    hide Inv;
    hide Issued;
    ghost var before, id := t.rows, t.nextId;
    var versions := t.List(w);
    ListedCount(t.rows, t.nextId, w, versions);
    var index := |versions|;
    var r := t.Insert(w, index, descriptor, blindingKey);
    ghost var rows := t.rows;
    StatementKeeps(before, id, Insert(w, descriptor, blindingKey), rows, t.nextId);
    InsertedIsLatest(before, id, w, versions, rows);
    if crash {
      return;
    }
    t.SetPendingForOlder(w, index);
    StatementKeeps(rows, t.nextId, SetPending(w, index), t.rows, t.nextId);
    LatestCarries(rows, t.rows, |before|);
  }

  lemma InsertedIsLatest(before: Rows, nextId: nat, w: WalletRef, vs: seq<Version>, rows: Rows)
    requires Inv(before, nextId) && Listed(before, w, vs)
    requires |rows| == |before| + 1 && rows[..|before|] == before
    requires rows[|before|].wallet == w && rows[|before|].index == |vs|
    ensures IsLatest(rows, rows[|before|])
    ensures forall i :: 0 <= i < |before| && before[i].wallet == w ==> before[i].index < |vs|
    ensures Issued(rows, SetPending(w, |vs|))
  {
    CountIsFresh(before, nextId, w, vs);
    assert rows == before + [rows[|before|]];
    forall v | v in before && v.wallet == w ensures v.index < |vs| {
      assert Occupied(before, w, v.index);
    }
    assert forall i :: 0 <= i < |before| ==> before[i] in before;
  }

  /** What a completion stamp leaves of one row. */
  function StampedRow(v: Version, txid: Option<string>): Version {
    if txid.Some? then v.(status := Complete, sweep := txid) else v.(status := Complete)
  }

  /** The update of one older version: with the sweep's txid when one was recorded, a bare status flip otherwise. */
  method StampOne(t: Table, id: nat, txid: Option<string>)
    requires Inv(t.rows, t.nextId)
    requires forall v :: v in t.rows && v.id == id ==> !IsLatest(t.rows, v)
    modifies t
    ensures Inv(t.rows, t.nextId) && t.nextId == old(t.nextId)
    ensures SameKeys(old(t.rows), t.rows)
    ensures forall i :: 0 <= i < |t.rows| ==>
      t.rows[i] == if old(t.rows)[i].id == id then StampedRow(old(t.rows)[i], txid) else old(t.rows)[i]
  {
    hide Inv;
    hide IsLatest;
    ghost var rows := t.rows;
    if txid.Some? {
      t.SetMigrationComplete(id, txid.value);
      StatementKeeps(rows, t.nextId, SetComplete(id, txid.value), t.rows, t.nextId);
    } else {
      t.UpdateMigrationStatus(id, Complete);
      StatementKeeps(rows, t.nextId, SetStatusComplete(id), t.rows, t.nextId);
    }
  }

  /** One row when the versions of a wallet below index `k` have been stamped. */
  function StampedTo(v: Version, w: WalletRef, k: nat, txid: Option<string>): Version {
    if v.wallet == w && v.index < k then StampedRow(v, txid) else v
  }

  /** How many versions of a wallet are older than its latest. */
  function OlderCount(rows: Rows, w: WalletRef): nat {
    if Of(rows, w) == [] then 0 else |Of(rows, w)| - 1
  }

  function Least(a: nat, b: nat): nat {
    if a <= b then a else b
  }

  /** Stamp one wallet's older versions complete.  `budget` is how many updates run before a crash: the stamp finishes
      exactly when that is enough for every older version, and cut short it has stamped the `budget` oldest. */
  method StampWallet(t: Table, w: WalletRef, txid: Option<string>, budget: nat) returns (left: nat, finished: bool)
    requires Inv(t.rows, t.nextId)
    modifies t
    ensures Inv(t.rows, t.nextId) && t.nextId == old(t.nextId)
    ensures SameKeys(old(t.rows), t.rows)
    ensures forall i :: 0 <= i < |t.rows| ==>
      t.rows[i] == old(t.rows)[i]
      || (old(t.rows)[i].wallet == w && !IsLatest(old(t.rows), old(t.rows)[i])
          && t.rows[i] == StampedRow(old(t.rows)[i], txid))
    ensures finished <==> budget >= OlderCount(old(t.rows), w)
    ensures left == if finished then budget - OlderCount(old(t.rows), w) else 0
    ensures forall i :: 0 <= i < |t.rows| ==>
      t.rows[i] == StampedTo(old(t.rows)[i], w, Least(budget, OlderCount(old(t.rows), w)), txid)
    ensures finished ==> forall i :: 0 <= i < |t.rows| && t.rows[i].wallet == w && !IsLatest(old(t.rows), old(t.rows)[i]) ==>
      t.rows[i] == StampedRow(old(t.rows)[i], txid)
  {
    hide IsLatest;
    hide Inv;
    hide Listed;
    hide StampedRows;
    ghost var before, nextId := t.rows, t.nextId;
    var versions := t.List(w);
    assert OlderCount(before, w) == if versions == [] then 0 else |versions| - 1;
    ListedNow(before, w, versions);
    if versions != [] {
      ListedIndices(before, nextId, w, versions, |versions| - 1);
    }
    left, finished := budget, true;
    ghost var upto := 0;
    NothingStamped(before, w, txid);
    for k := 0 to |versions|
      invariant Inv(t.rows, t.nextId) && t.nextId == nextId && SameKeys(before, t.rows) && finished
      invariant upto <= k && upto < |versions| + 1 && (k < |versions| ==> upto == k)
      invariant upto + left == budget
      invariant k == |versions| > 0 ==> upto == |versions| - 1
      invariant StampedRows(before, t.rows, w, upto, txid)
    {
      var v := versions[k];
      if v.index < |versions| - 1 {
        if left == 0 {
          StampedAreOlder(before, nextId, w, versions, t.rows, upto, txid);
          StampedRowsAre(before, t.rows, w, upto, txid);
          return 0, false;
        }
        left := left - 1;
        ghost var rows := t.rows;
        StampIsIssued(before, nextId, w, versions, k, rows);
        StampOne(t, v.id, txid);
        StampNext(before, rows, t.rows, w, k, v.id, txid);
        upto := k + 1;
      }
    }
    StampedAreOlder(before, nextId, w, versions, t.rows, upto, txid);
    StampedRowsAre(before, t.rows, w, upto, txid);
  }

  lemma StampedRowsAre(before: Rows, after: Rows, w: WalletRef, upto: nat, txid: Option<string>)
    requires StampedRows(before, after, w, upto, txid)
    ensures |after| == |before| && forall i :: 0 <= i < |before| ==> after[i] == StampedTo(before[i], w, upto, txid)
  {
  }

  /** The table when the versions of a wallet below index `upto` have been stamped. */
  ghost predicate StampedRows(before: Rows, after: Rows, w: WalletRef, upto: nat, txid: Option<string>) {
    |after| == |before| && forall i :: 0 <= i < |before| ==> after[i] == StampedTo(before[i], w, upto, txid)
  }

  lemma NothingStamped(rows: Rows, w: WalletRef, txid: Option<string>)
    ensures StampedRows(rows, rows, w, 0, txid)
  {
  }

  lemma StampNext(before: Rows, rows: Rows, after: Rows, w: WalletRef, k: nat, id: nat, txid: Option<string>)
    requires StampedRows(before, rows, w, k, txid) && |after| == |rows|
    requires forall i :: 0 <= i < |before| ==> (rows[i].id == id <==> before[i].wallet == w && before[i].index == k)
    requires forall i :: 0 <= i < |after| ==> after[i] == if rows[i].id == id then StampedRow(rows[i], txid) else rows[i]
    ensures StampedRows(before, after, w, k + 1, txid)
  {
  }

  /** What has been stamped is older than the latest version; when all below it are, nothing older is left. */
  lemma StampedAreOlder(before: Rows, nextId: nat, w: WalletRef, vs: seq<Version>, after: Rows, upto: nat, txid: Option<string>)
    requires Inv(before, nextId) && Listed(before, w, vs) && StampedRows(before, after, w, upto, txid)
    requires vs == [] || upto <= |vs| - 1
    ensures forall i :: 0 <= i < |after| ==>
      after[i] == before[i]
      || (before[i].wallet == w && !IsLatest(before, before[i]) && after[i] == StampedRow(before[i], txid))
    ensures vs == [] || upto == |vs| - 1 ==>
      forall i :: 0 <= i < |after| && after[i].wallet == w && !IsLatest(before, before[i]) ==>
        after[i] == StampedRow(before[i], txid)
  {
    hide Inv;
    hide Listed;
    hide IsLatest;
    StampedRowsAreOlder(before, nextId, w, vs);
  }

  lemma ListedNow(rows: Rows, w: WalletRef, vs: seq<Version>)
    requires SortedByIndex(vs) && multiset(vs) == multiset(Of(rows, w))
    requires forall v :: v in vs <==> v in rows && v.wallet == w
    ensures Listed(rows, w, vs)
  {
  }

  lemma StampedRowsAreOlder(rows: Rows, nextId: nat, w: WalletRef, vs: seq<Version>)
    requires Inv(rows, nextId) && Listed(rows, w, vs)
    ensures forall i :: 0 <= i < |rows| && rows[i].wallet == w ==>
      rows[i].index < |vs| && (IsLatest(rows, rows[i]) <==> rows[i].index == |vs| - 1)
  {
    CountIsFresh(rows, nextId, w, vs);
    forall i | 0 <= i < |rows| && rows[i].wallet == w
      ensures rows[i].index < |vs| && (IsLatest(rows, rows[i]) <==> rows[i].index == |vs| - 1)
    {
      assert rows[i] in rows;
      assert Occupied(rows, w, rows[i].index);
      assert vs[|vs| - 1] in rows;
    }
  }

  lemma StampIsIssued(before: Rows, nextId: nat, w: WalletRef, vs: seq<Version>, k: nat, rows: Rows)
    requires Inv(before, nextId) && Listed(before, w, vs) && k < |vs| - 1 && vs[k].index == k
    requires SameKeys(before, rows)
    ensures forall v :: v in rows && v.id == vs[k].id ==> !IsLatest(rows, v)
    ensures forall i :: 0 <= i < |before| ==>
      (rows[i].id == vs[k].id <==> before[i].wallet == w && before[i].index == k)
  {
    StampedRowsAreOlder(before, nextId, w, vs);
    assert vs[k] in before;
    var j :| 0 <= j < |before| && before[j] == vs[k];
    forall i | 0 <= i < |before|
      ensures rows[i].id == vs[k].id <==> before[i].wallet == w && before[i].index == k
    {
      assert i < j || j < i || i == j;
    }
    forall v | v in rows && v.id == vs[k].id ensures !IsLatest(rows, v) {
      var i :| 0 <= i < |rows| && rows[i] == v;
      OlderCarries(before, rows, i);
    }
  }

  lemma OlderCarries(rows: Rows, rows': Rows, i: nat)
    requires SameKeys(rows, rows') && i < |rows| && !IsLatest(rows, rows[i])
    ensures !IsLatest(rows', rows'[i])
  {
    var u :| u in rows && u.wallet == rows[i].wallet && u.index > rows[i].index;
    var j :| 0 <= j < |rows| && rows[j] == u;
    assert rows'[j] in rows';
  }

  function Lookup(sweeps: map<int, string>, account: int): Option<string> {
    if account in sweeps then Some(sweeps[account]) else None
  }

  /** What the completion stamp of the wallets `ws` leaves of one row. */
  ghost function EnactedRow(rows: Rows, v: Version, ws: seq<(WalletRef, int)>, sweeps: map<int, string>): Version {
    if ws == [] || IsLatest(rows, v) then v
    else if ws[|ws| - 1].0 == v.wallet then StampedRow(v, Lookup(sweeps, ws[|ws| - 1].1))
    else EnactedRow(rows, v, ws[..|ws| - 1], sweeps)
  }

  /** How many versions of the wallets `ws` are older than their wallet's latest. */
  function OlderIn(rows: Rows, ws: seq<(WalletRef, int)>): nat {
    if ws == [] then 0 else OlderIn(rows, ws[..|ws| - 1]) + OlderCount(rows, ws[|ws| - 1].0)
  }

  /** How many updates the last of the wallets `ws` gets when `budget` are made in all. */
  function Share(rows: Rows, ws: seq<(WalletRef, int)>, budget: nat): nat
    requires ws != []
  {
    var used := OlderIn(rows, ws[..|ws| - 1]);
    if budget <= used then 0 else Least(budget - used, OlderCount(rows, ws[|ws| - 1].0))
  }

  /** What the first `budget` updates of the completion stamp leave of one row. */
  function PartlyEnacted(rows: Rows, v: Version, ws: seq<(WalletRef, int)>, sweeps: map<int, string>, budget: nat): Version {
    if ws == [] then v
    else if ws[|ws| - 1].0 == v.wallet then StampedTo(v, v.wallet, Share(rows, ws, budget), Lookup(sweeps, ws[|ws| - 1].1))
    else PartlyEnacted(rows, v, ws[..|ws| - 1], sweeps, budget)
  }

  /** Stamp every wallet's older versions complete, each with the txid recorded for its account.  Stopped by a
      crash or not, the invariant holds and exactly the first `budget` updates have been made; it finishes exactly when
      `budget` is enough, and then every older version of every wallet is complete. */
  method StampAll(t: Table, wallets: seq<(WalletRef, int)>, sweeps: map<int, string>, budget: nat) returns (finished: bool)
    requires Inv(t.rows, t.nextId)
    requires forall i, j :: 0 <= i < j < |wallets| ==> wallets[i].0 != wallets[j].0
    modifies t
    ensures Inv(t.rows, t.nextId) && SameKeys(old(t.rows), t.rows)
    ensures finished <==> budget >= OlderIn(old(t.rows), wallets)
    ensures forall i :: 0 <= i < |t.rows| ==>
      t.rows[i] == PartlyEnacted(old(t.rows), old(t.rows)[i], wallets, sweeps, budget)
    ensures finished ==> forall i :: 0 <= i < |t.rows| ==>
      t.rows[i] == EnactedRow(old(t.rows), old(t.rows)[i], wallets, sweeps)
  {
    hide Inv;
    hide IsLatest;
    hide Of;
    hide Share;
    hide PartlyEnacted;
    hide EnactedRow;
    ghost var before := t.rows;
    var left := budget;
    NothingEnacted(before, sweeps, budget);
    for k := 0 to |wallets|
      invariant Inv(t.rows, t.nextId) && SameKeys(before, t.rows)
      invariant OlderIn(before, wallets[..k]) + left == budget
      invariant forall i :: 0 <= i < |before| ==> t.rows[i] == EnactedRow(before, before[i], wallets[..k], sweeps)
      invariant forall i :: 0 <= i < |before| ==> t.rows[i] == PartlyEnacted(before, before[i], wallets[..k], sweeps, budget)
    {
      assert wallets[..k + 1][..k] == wallets[..k];
      var w, txid := wallets[k].0, Lookup(sweeps, wallets[k].1);
      ghost var rows := t.rows;
      ghost var had := left;
      SameCount(before, rows, w);
      left, finished := StampWallet(t, w, txid, left);
      SameKeysTransitive(before, rows, t.rows);
      forall i | 0 <= i < |before| ensures t.rows[i] == PartlyEnacted(before, before[i], wallets[..k + 1], sweeps, budget) {
        PartlySnoc(before, rows[i], before[i], t.rows[i], wallets, k, sweeps, budget, had);
      }
      if !finished {
        NothingMore(before, wallets, k + 1, budget);
        forall i | 0 <= i < |before| ensures t.rows[i] == PartlyEnacted(before, before[i], wallets, sweeps, budget) {
          NothingMoreEnacted(before, before[i], wallets, k + 1, sweeps, budget);
        }
        return;
      }
      forall i | 0 <= i < |before| ensures t.rows[i] == EnactedRow(before, before[i], wallets[..k + 1], sweeps) {
        EnactSnoc(before, rows, t.rows, i, wallets, k, sweeps);
      }
    }
    assert wallets[..|wallets|] == wallets;
    finished := true;
  }

  lemma NothingEnacted(rows: Rows, sweeps: map<int, string>, budget: nat)
    ensures forall v :: EnactedRow(rows, v, [], sweeps) == v && PartlyEnacted(rows, v, [], sweeps, budget) == v
  {
  }

  lemma {:induction false} SameCount(a: Rows, b: Rows, w: WalletRef)
    requires SameKeys(a, b)
    ensures |Of(a, w)| == |Of(b, w)| && OlderCount(a, w) == OlderCount(b, w)
  {
    if a != [] {
      SameCount(a[..|a| - 1], b[..|b| - 1], w);
    }
  }

  lemma {:induction false} NotYetEnacted(rows: Rows, v: Version, ws: seq<(WalletRef, int)>, sweeps: map<int, string>, budget: nat)
    requires forall i :: 0 <= i < |ws| ==> ws[i].0 != v.wallet
    ensures PartlyEnacted(rows, v, ws, sweeps, budget) == v
  {
    if ws != [] {
      NotYetEnacted(rows, v, ws[..|ws| - 1], sweeps, budget);
    }
  }

  /** One more wallet stamped, with what is left of the budget. */
  lemma PartlySnoc(before: Rows, r: Version, v: Version, r': Version, ws: seq<(WalletRef, int)>, k: nat,
                   sweeps: map<int, string>, budget: nat, had: nat)
    requires k < |ws| && forall i, j :: 0 <= i < j < |ws| ==> ws[i].0 != ws[j].0
    requires r.wallet == v.wallet && r == PartlyEnacted(before, v, ws[..k], sweeps, budget)
    requires OlderIn(before, ws[..k]) + had == budget
    requires r' == StampedTo(r, ws[k].0, Least(had, OlderCount(before, ws[k].0)), Lookup(sweeps, ws[k].1))
    ensures r' == PartlyEnacted(before, v, ws[..k + 1], sweeps, budget)
  {
    hide OlderCount;
    assert ws[..k + 1][..k] == ws[..k];
    if v.wallet == ws[k].0 {
      NotYetEnacted(before, v, ws[..k], sweeps, budget);
    }
  }

  lemma {:induction false} NothingMore(rows: Rows, ws: seq<(WalletRef, int)>, k: nat, budget: nat)
    requires k <= |ws| && budget < OlderIn(rows, ws[..k])
    ensures budget < OlderIn(rows, ws)
    decreases |ws|
  {
    hide OlderCount;
    if k < |ws| {
      assert ws[..|ws| - 1][..k] == ws[..k];
      NothingMore(rows, ws[..|ws| - 1], k, budget);
    } else {
      assert ws[..k] == ws;
    }
  }

  /** Once the budget is used up, the wallets that follow are left alone. */
  lemma {:induction false} NothingMoreEnacted(rows: Rows, v: Version, ws: seq<(WalletRef, int)>, k: nat,
                                              sweeps: map<int, string>, budget: nat)
    requires k <= |ws| && budget < OlderIn(rows, ws[..k])
    requires forall i, j :: 0 <= i < j < |ws| ==> ws[i].0 != ws[j].0
    ensures PartlyEnacted(rows, v, ws, sweeps, budget) == PartlyEnacted(rows, v, ws[..k], sweeps, budget)
    decreases |ws|
  {
    hide OlderCount;
    if k < |ws| {
      var init := ws[..|ws| - 1];
      assert init[..k] == ws[..k];
      NothingMoreEnacted(rows, v, init, k, sweeps, budget);
      NothingMore(rows, init, k, budget);
      if ws[|ws| - 1].0 == v.wallet {
        NotYetEnacted(rows, v, init, sweeps, budget);
      }
    } else {
      assert ws[..k] == ws;
    }
  }

  /** The first `budget` updates of a wallet's stamp touch `budget` rows: the versions below that index. */
  lemma {:induction false} UpdatesMade(rows: Rows, nextId: nat, w: WalletRef, budget: nat)
    requires Inv(rows, nextId) && budget <= OlderCount(rows, w)
    ensures |set i: nat | i < |rows| && rows[i].wallet == w && rows[i].index < budget| == budget
  {
    hide Inv;
    var touched := set i: nat | i < |rows| && rows[i].wallet == w && rows[i].index < budget;
    if budget == 0 {
      assert touched == {};
    } else {
      UpdatesMade(rows, nextId, w, budget - 1);
      CountIsFirstFree(rows, nextId, w);
      assert Occupied(rows, w, budget - 1);
      var i := RowAt(rows, nextId, w, budget - 1);
      var fewer := set i: nat | i < |rows| && rows[i].wallet == w && rows[i].index < budget - 1;
      assert touched == fewer + {i};
    }
  }

  lemma RowAt(rows: Rows, nextId: nat, w: WalletRef, n: nat) returns (i: nat)
    requires Inv(rows, nextId) && Occupied(rows, w, n)
    ensures i < |rows| && forall j :: 0 <= j < |rows| ==> (rows[j].wallet == w && rows[j].index == n <==> j == i)
  {
    var v :| v in rows && v.wallet == w && v.index == n;
    i :| 0 <= i < |rows| && rows[i] == v;
  }

  lemma SameKeysTransitive(a: Rows, b: Rows, c: Rows)
    requires SameKeys(a, b) && SameKeys(b, c)
    ensures SameKeys(a, c)
  {
  }

  lemma {:induction false} UntouchedWallet(rows: Rows, v: Version, ws: seq<(WalletRef, int)>, sweeps: map<int, string>)
    requires forall i :: 0 <= i < |ws| ==> ws[i].0 != v.wallet
    ensures EnactedRow(rows, v, ws, sweeps) == v
  {
    if ws != [] {
      UntouchedWallet(rows, v, ws[..|ws| - 1], sweeps);
    }
  }

  lemma EnactSnoc(before: Rows, rows: Rows, after: Rows, i: nat, ws: seq<(WalletRef, int)>, k: nat, sweeps: map<int, string>)
    requires k < |ws| && forall i, j :: 0 <= i < j < |ws| ==> ws[i].0 != ws[j].0
    requires i < |before| && SameKeys(before, rows) && SameKeys(rows, after)
    requires rows[i] == EnactedRow(before, before[i], ws[..k], sweeps)
    requires after[i] == rows[i] || (rows[i].wallet == ws[k].0 && !IsLatest(rows, rows[i])
                                     && after[i] == StampedRow(rows[i], Lookup(sweeps, ws[k].1)))
    requires after[i].wallet == ws[k].0 && !IsLatest(rows, rows[i]) ==>
      after[i] == StampedRow(rows[i], Lookup(sweeps, ws[k].1))
    ensures after[i] == EnactedRow(before, before[i], ws[..k + 1], sweeps)
  {
    assert ws[..k + 1][..k] == ws[..k];
    if IsLatest(before, before[i]) {
      LatestCarries(before, rows, i);
    } else {
      OlderCarries(before, rows, i);
      if before[i].wallet == ws[k].0 {
        UntouchedWallet(before, before[i], ws[..k], sweeps);
      }
    }
  }

  /** Finished, every older version of a stamped wallet is complete, with the account's sweep when there is one. */
  lemma {:induction false} EnactedIsComplete(rows: Rows, v: Version, ws: seq<(WalletRef, int)>, k: nat, sweeps: map<int, string>)
    requires k < |ws| && ws[k].0 == v.wallet && !IsLatest(rows, v)
    requires forall i, j :: 0 <= i < j < |ws| ==> ws[i].0 != ws[j].0
    ensures EnactedRow(rows, v, ws, sweeps)
            == v.(status := Complete, sweep := if ws[k].1 in sweeps then Some(sweeps[ws[k].1]) else v.sweep)
  {
    if k < |ws| - 1 {
      EnactedIsComplete(rows, v, ws[..|ws| - 1], k, sweeps);
    }
  }
}
