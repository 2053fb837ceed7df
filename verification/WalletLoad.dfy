/** Loading a wallet: the self-heal that rebinds a stored row to the latest federation version after a migration,
    for Bitcoin and for Elements. */
module WalletLoad {
  import opened Wrappers
  import opened FederationVersions
  import opened MigrationStatus
  import W = WalletSync

  // ---------------------------------------------------------------------------
  // Bitcoin
  // ---------------------------------------------------------------------------

  datatype WalletRow = WalletRow(descriptor: Descriptor, changeset: W.ChangeSet, tip: nat)

  /** The configured federation's descriptor, the reconstruction of a stored version from the HSM's signers, and
      BDK's own load of a stored changeset; each may fail. */
  datatype Env = Env(
    configured: Option<Descriptor>,
    reconstruct: Version -> Option<Descriptor>,
    loads: (Descriptor, W.ChangeSet) -> bool)

  /** Reconstructing a version reproduces its descriptor. */
  ghost predicate Reproduces(env: Env) {
    forall v :: env.reconstruct(v).Some? ==> env.reconstruct(v).value == v.descriptor
  }

  /** What a wallet freshly created and revealed up to an old wallet's index stages. */
  function Fresh(revealed: Option<nat>): W.ChangeSet {
    W.ChangeSet({}, Some(if revealed.Some? then revealed.value else 0), map[])
  }

  /** BDK loads what it has itself just staged. */
  ghost predicate LoadsFresh(env: Env) {
    forall d, revealed :: env.loads(d, Fresh(revealed))
  }

  class Store {
    var row: WalletRow

    constructor (row: WalletRow)
      ensures this.row == row
    {
      this.row := row;
    }

    /** Rebuild the primary wallet on the current federation, revealed as far as the old one, and store it. */
    method Rebind(current: Descriptor, env: Env) returns (inner: Option<W.Graph>)
      modifies this
      ensures inner.Some? <==> env.loads(old(row).descriptor, old(row).changeset)
      ensures inner.None? ==> row == old(row)
      ensures inner.Some? ==>
        row == WalletRow(current, Fresh(old(row).changeset.revealed), 0) && inner.value == W.Load(row.changeset)
    {
      if !env.loads(row.descriptor, row.changeset) {
        return None;
      }
      var changeset := Fresh(W.Load(row.changeset).revealed);
      row := WalletRow(current, changeset, 0);
      return Some(W.Load(changeset));
    }
  }

  function Current(versions: seq<Version>, env: Env): Option<Descriptor> {
    if versions == [] then env.configured else env.reconstruct(versions[|versions| - 1])
  }

  /** Reconstruct every stored version, or record the current federation as version 0 when there is none. */
  method BuildFederated(t: Table, w: WalletRef, current: Descriptor, env: Env) returns (ok: bool)
    requires Inv(t.rows, t.nextId)
    modifies t
    ensures Inv(t.rows, t.nextId)
    ensures Of(old(t.rows), w) != [] ==> t.rows == old(t.rows)
    ensures Of(old(t.rows), w) == [] ==>
      t.rows == old(t.rows) + [Version(old(t.nextId), w, 0, current, None, NotApplicable, None)]
    ensures ok <==> forall v :: v in old(t.rows) && v.wallet == w ==> env.reconstruct(v).Some?
  {
    hide Inv;
    var versions := t.List(w);
    if versions == [] {
      assert forall v :: v in t.rows && v.wallet == w ==> v in versions;
      Bootstrap(t, w, current, None);
      return true;
    }
    for i := 0 to |versions|
      invariant t.rows == old(t.rows) && t.nextId == old(t.nextId)
      invariant forall j :: 0 <= j < i ==> env.reconstruct(versions[j]).Some?
    {
      if env.reconstruct(versions[i]).None? {
        assert versions[i] in t.rows;
        return false;
      }
    }
    return true;
  }

  /** What a load needs to succeed. */
  ghost predicate Loads(row: WalletRow, rows: Rows, w: WalletRef, env: Env) {
    && (Of(rows, w) == [] ==> env.configured.Some?)
    && env.loads(row.descriptor, row.changeset)
    && forall v :: v in rows && v.wallet == w ==> env.reconstruct(v).Some?
  }

  /** The descriptor the wallet is to be bound to. */
  ghost predicate IsTarget(rows: Rows, w: WalletRef, env: Env, d: Descriptor) {
    if Of(rows, w) == [] then env.configured == Some(d)
    else exists v :: v in rows && v.wallet == w && IsLatest(rows, v) && v.descriptor == d
  }

  /** Load a user's wallet.  Successful, the row's descriptor is that of the latest version; a drifted row has been
      replaced by a fresh one revealed at least as far; and the live wallet is what the row loads to.  A later
      failure leaves the heal in place. */
  method LoadWallet(s: Store, t: Table, w: WalletRef, env: Env) returns (inner: Option<W.Graph>)
    requires Inv(t.rows, t.nextId) && Reproduces(env)
    modifies s, t
    ensures Inv(t.rows, t.nextId)
    ensures inner.Some? <==> Loads(old(s.row), old(t.rows), w, env)
    ensures inner.Some? ==> env.loads(old(s.row).descriptor, old(s.row).changeset)
    ensures s.row == old(s.row)
            || (s.row.descriptor != old(s.row).descriptor && IsTarget(old(t.rows), w, env, s.row.descriptor)
                && s.row == WalletRow(s.row.descriptor, Fresh(old(s.row).changeset.revealed), 0))
    ensures inner.Some? ==>
      && IsTarget(old(t.rows), w, env, s.row.descriptor)
      && BoundToLatest(s.row, t.rows, w)
      && W.Below(old(s.row).changeset.revealed, s.row.changeset.revealed)
      && (s.row != old(s.row) ==>
            && s.row.changeset.txs == {} && s.row.changeset.blocks == map[] && s.row.tip == 0
            && s.row.changeset.revealed
               == if old(s.row).changeset.revealed.None? then Some(0) else old(s.row).changeset.revealed)
      && inner.value == W.Load(s.row.changeset)
      && t.rows == (if Of(old(t.rows), w) != [] then old(t.rows)
                    else old(t.rows) + [Version(old(t.nextId), w, 0, s.row.descriptor, None, NotApplicable, None)])
  {
    hide Inv;
    hide Dense;
    hide UniqueKeys;
    var versions := t.List(w);
    LatestListed(t.rows, t.nextId, w, versions);
    var current := Current(versions, env);
    if current.None? {
      return None;
    }
    assert IsTarget(t.rows, w, env, current.value);
    if current.value == s.row.descriptor {
      inner := if env.loads(s.row.descriptor, s.row.changeset) then Some(W.Load(s.row.changeset)) else None;
    } else {
      inner := s.Rebind(current.value, env);
    }
    if inner.None? {
      return;
    }
    ghost var before := t.rows;
    var ok := BuildFederated(t, w, current.value, env);
    if !ok {
      return None;
    }
    BootstrappedIsLatest(before, t.rows, w, versions, s.row.descriptor);
  }

  lemma LatestListed(rows: Rows, nextId: nat, w: WalletRef, versions: seq<Version>)
    requires Inv(rows, nextId) && Listed(rows, w, versions) && |versions| == |Of(rows, w)|
    ensures versions == [] <==> Of(rows, w) == []
    ensures versions != [] ==>
      var latest := versions[|versions| - 1];
      latest in rows && latest.wallet == w && IsLatest(rows, latest)
  {
    CountIsFresh(rows, nextId, w, versions);
    if versions != [] {
      assert versions[|versions| - 1] in versions;
    }
  }

  lemma BootstrappedIsLatest(before: Rows, after: Rows, w: WalletRef, versions: seq<Version>, d: Descriptor)
    requires Listed(before, w, versions)
    requires if versions != [] then
               after == before && exists v :: v in before && v.wallet == w && IsLatest(before, v) && v.descriptor == d
             else |after| == |before| + 1 && after[..|before|] == before
                  && after[|before|].wallet == w && after[|before|].descriptor == d
    ensures exists v :: v in after && v.wallet == w && IsLatest(after, v) && v.descriptor == d
  {
    if versions == [] {
      var v := after[|before|];
      assert after == before + [v];
      assert forall u :: u in before && u.wallet == w ==> u in versions;
      assert v in after && IsLatest(after, v);
    }
  }

  lemma TargetIsLatest(rows: Rows, nextId: nat, w: WalletRef, env: Env, d: Descriptor, v: Version)
    requires Inv(rows, nextId) && v in rows && v.wallet == w && IsLatest(rows, v) && v.descriptor == d
    ensures forall e :: IsTarget(rows, w, env, e) ==> e == d
  {
    OfMembers(rows, w);
    assert v in Of(rows, w);
    forall e | IsTarget(rows, w, env, e) ensures e == d {
      var u :| u in rows && u.wallet == w && IsLatest(rows, u) && u.descriptor == e;
      var i :| 0 <= i < |rows| && rows[i] == u;
      var j :| 0 <= j < |rows| && rows[j] == v;
      assert u.index == v.index;
    }
  }

  ghost predicate BoundToLatest(row: WalletRow, rows: Rows, w: WalletRef) {
    exists v :: v in rows && v.wallet == w && IsLatest(rows, v) && v.descriptor == row.descriptor
  }

  /** Loading a wallet whose row is bound to its latest version changes nothing. */
  method LoadHealed(s: Store, t: Table, w: WalletRef, env: Env) returns (inner: Option<W.Graph>)
    requires Inv(t.rows, t.nextId) && Reproduces(env)
    requires BoundToLatest(s.row, t.rows, w) && Loads(s.row, t.rows, w, env)
    modifies s, t
    ensures s.row == old(s.row) && t.rows == old(t.rows)
    ensures inner == Some(W.Load(s.row.changeset))
  {
    ghost var v :| v in t.rows && v.wallet == w && IsLatest(t.rows, v) && v.descriptor == s.row.descriptor;
    TargetIsLatest(t.rows, t.nextId, w, env, s.row.descriptor, v);
    OfMembers(t.rows, w);
    assert v in Of(t.rows, w);
    inner := LoadWallet(s, t, w, env);
  }

  /** A load after a successful load succeeds, with the same live wallet. */
  method LoadTwice(s: Store, t: Table, w: WalletRef, env: Env) returns (first: Option<W.Graph>, second: Option<W.Graph>)
    requires Inv(t.rows, t.nextId) && Reproduces(env) && LoadsFresh(env)
    requires forall v: Version :: env.configured == Some(v.descriptor) ==> env.reconstruct(v).Some?
    modifies s, t
    ensures first.Some? ==> second == first
  {
    first := LoadWallet(s, t, w, env);
    second := None;
    if first.Some? {
      ghost var v :| v in t.rows && v.wallet == w && IsLatest(t.rows, v) && v.descriptor == s.row.descriptor;
      OfMembers(t.rows, w);
      assert v in Of(t.rows, w);
      second := LoadHealed(s, t, w, env);
    }
  }

  // ---------------------------------------------------------------------------
  // Elements
  // ---------------------------------------------------------------------------

  type Key = nat

  datatype ElementsRow = ElementsRow(descriptor: Descriptor, masterBlindingKey: string)

  /** What an Elements load binds the wallet to. */
  datatype Bound = Bound(descriptor: Descriptor, key: Key)

  predicate Drifted(row: ElementsRow, versions: seq<Version>) {
    versions != [] && versions[|versions| - 1].descriptor != row.descriptor
  }

  /** The latest version's key when the row has drifted and that key parses; the derived base key otherwise. */
  function BoundTo(row: ElementsRow, versions: seq<Version>, baseKey: Key, parse: string -> Option<Key>): Bound {
    if Drifted(row, versions) then
      var latest := versions[|versions| - 1];
      Bound(latest.descriptor,
            if latest.blindingKey.Some? && parse(latest.blindingKey.value).Some?
            then parse(latest.blindingKey.value).value else baseKey)
    else Bound(row.descriptor, baseKey)
  }

  function HealedRow(row: ElementsRow, versions: seq<Version>): ElementsRow {
    if Drifted(row, versions) then
      var latest := versions[|versions| - 1];
      ElementsRow(latest.descriptor, if latest.blindingKey.Some? then latest.blindingKey.value else row.masterBlindingKey)
    else row
  }

  class ElementsStore {
    var row: ElementsRow

    constructor (row: ElementsRow)
      ensures this.row == row
    {
      this.row := row;
    }

    /** Load an Elements wallet: record version 0 if there is none, rebind to the latest version.  A write that fails
        only draws a warning. */
    method Load(t: Table, w: WalletRef, baseKey: Key, parse: string -> Option<Key>, writes: bool)
      returns (b: Bound, ghost versions: seq<Version>)
      requires Inv(t.rows, t.nextId)
      modifies this, t
      ensures Inv(t.rows, t.nextId) && Listed(old(t.rows), w, versions) && |versions| == |Of(old(t.rows), w)|
      ensures versions != [] ==> t.rows == old(t.rows)
      ensures versions == [] ==>
        t.rows == old(t.rows) + [Version(old(t.nextId), w, 0, old(row).descriptor, Some(old(row).masterBlindingKey), NotApplicable, None)]
      ensures b == BoundTo(old(row), versions, baseKey, parse)
      ensures row == if writes then HealedRow(old(row), versions) else old(row)
    {
      var listed := t.List(w);
      versions := listed;
      if listed == [] {
        Bootstrap(t, w, row.descriptor, Some(row.masterBlindingKey));
        return Bound(row.descriptor, baseKey), versions;
      }
      var latest := listed[|listed| - 1];
      if latest.descriptor == row.descriptor {
        return Bound(row.descriptor, baseKey), versions;
      }
      var key := baseKey;
      if latest.blindingKey.Some? {
        var parsed := parse(latest.blindingKey.value);
        if parsed.Some? {
          key := parsed.value;
        }
      }
      if writes {
        row := ElementsRow(latest.descriptor,
                           if latest.blindingKey.Some? then latest.blindingKey.value else row.masterBlindingKey);
      }
      return Bound(latest.descriptor, key), versions;
    }
  }

  /** The descriptor heals for good: it is the latest version's on every load, and a stored heal leaves nothing for
      the next load to do. */
  lemma DescriptorHeals(row: ElementsRow, versions: seq<Version>, baseKey: Key, parse: string -> Option<Key>)
    requires versions != []
    ensures var latest, healed := versions[|versions| - 1], HealedRow(row, versions);
            && healed.descriptor == latest.descriptor
            && (row.descriptor == latest.descriptor ==> healed == row)
            && (row.descriptor != latest.descriptor ==>
                  healed.masterBlindingKey == match latest.blindingKey case Some(text) => text case None => row.masterBlindingKey)
    ensures BoundTo(row, versions, baseKey, parse).descriptor == versions[|versions| - 1].descriptor
    ensures !Drifted(HealedRow(row, versions), versions)
    ensures HealedRow(HealedRow(row, versions), versions) == HealedRow(row, versions)
    ensures BoundTo(HealedRow(row, versions), versions, baseKey, parse).descriptor
            == BoundTo(row, versions, baseKey, parse).descriptor
  {
  }

  /** The blinding key does not: once the heal is stored, the next load falls back to the base key.  The two loads
      agree exactly when the row had not drifted or the latest version's key is the base key or unreadable. */
  lemma KeyStableIff(row: ElementsRow, versions: seq<Version>, baseKey: Key, parse: string -> Option<Key>)
    ensures BoundTo(HealedRow(row, versions), versions, baseKey, parse).key == BoundTo(row, versions, baseKey, parse).key
            <==> !Drifted(row, versions)
                 || var k := versions[|versions| - 1].blindingKey;
                    k.None? || parse(k.value).None? || parse(k.value).value == baseKey
  {
  }

  /** A wallet after step 1 of a migration: its first version pending, its second the latest. */
  function Migrated(w: WalletRef, first: Descriptor, second: Descriptor, firstKey: string, secondKey: string): (r: Rows)
    ensures |r| == 2
  {
    [Version(0, w, 0, first, Some(firstKey), Pending, None), Version(1, w, 1, second, Some(secondKey), NotApplicable, None)]
  }

  /** The statements that lead there, and the table after each: two insertions and the pending flip. */
  function MigratedStatements(w: WalletRef, first: Descriptor, second: Descriptor, firstKey: string, secondKey: string)
    : seq<Statement>
  {
    [Insert(w, first, Some(firstKey)), Insert(w, second, Some(secondKey)), SetPending(w, 1)]
  }

  function MigratedStates(w: WalletRef, first: Descriptor, second: Descriptor, firstKey: string, secondKey: string)
    : seq<TableState>
  {
    var u, v := Version(0, w, 0, first, Some(firstKey), NotApplicable, None), Version(1, w, 1, second, Some(secondKey), NotApplicable, None);
    [TableState([], 0), TableState([u], 1), TableState([u, v], 2), TableState(Migrated(w, first, second, firstKey, secondKey), 2)]
  }

  lemma MigratedIsReachable(w: WalletRef, first: Descriptor, second: Descriptor, firstKey: string, secondKey: string)
    ensures Run(MigratedStatements(w, first, second, firstKey, secondKey), MigratedStates(w, first, second, firstKey, secondKey))
    ensures var rows := Migrated(w, first, second, firstKey, secondKey); Inv(rows, 2) && Listed(rows, w, rows)
  {
    var statements := MigratedStatements(w, first, second, firstKey, secondKey);
    var states := MigratedStates(w, first, second, firstKey, secondKey);
    var u, v := states[2].rows[0], states[2].rows[1];
    FirstInsert(w, first, Some(firstKey));
    SecondInsert(w, u, second, Some(secondKey));
    PendingFlip(w, u, v);
    hide After;
    hide Issued;
    hide Inv;
    hide Listed;
    assert Run(statements, states);
    EveryRun(statements, states, 3);
    MigratedList(states[3].rows, w);
  }

  lemma FirstInsert(w: WalletRef, d: Descriptor, key: Option<string>)
    ensures Issued([], Insert(w, d, key)) && After([], 0, Insert(w, d, key), [Version(0, w, 0, d, key, NotApplicable, None)], 1)
  {
  }

  lemma SecondInsert(w: WalletRef, u: Version, d: Descriptor, key: Option<string>)
    requires u.wallet == w && u.index == 0
    ensures Issued([u], Insert(w, d, key))
    ensures After([u], 1, Insert(w, d, key), [u, Version(1, w, 1, d, key, NotApplicable, None)], 2)
  {
    assert [u][..0] == [];
    assert Of([u], w) == [u];
  }

  lemma PendingFlip(w: WalletRef, u: Version, v: Version)
    requires u.wallet == w && v.wallet == w && u.index == 0 && v.index == 1 && u.status == NotApplicable
    ensures Issued([u, v], SetPending(w, 1))
    ensures After([u, v], 2, SetPending(w, 1), [u.(status := Pending), v], 2)
  {
    var rows := [u, v];
    assert rows[0] == u && rows[1] == v;
    assert v in rows && !IsLatest(rows, u);
  }

  lemma MigratedList(rows: Rows, w: WalletRef)
    requires |rows| == 2 && rows[0].wallet == w && rows[1].wallet == w && rows[0].index < rows[1].index
    ensures Listed(rows, w, rows)
  {
    OfMembers(rows, w);
    var one := rows[..1];
    assert one == [rows[0]] && one[..0] == [];
    assert Of(one, w) == [rows[0]];
    assert Of(rows, w) == Of(one, w) + [rows[1]];
    assert Of(rows, w) == rows;
  }

  /** A rotated key that the second load loses: version 0 is the row's own federation, version 1 the migrated one with
      a key of its own.  Before the migration the load binds to the base key, after it to the rotated one, and once
      the heal is stored to the base key again. */
  lemma RotatedKeyIsLost(row: ElementsRow, second: Descriptor, rotatedHex: string, base: Key, rotated: Key, w: WalletRef,
                         parse: string -> Option<Key>)
    requires row.descriptor != second && parse(rotatedHex) == Some(rotated) && rotated != base
    ensures var rows := Migrated(w, row.descriptor, second, row.masterBlindingKey, rotatedHex);
            && Run(MigratedStatements(w, row.descriptor, second, row.masterBlindingKey, rotatedHex),
                   MigratedStates(w, row.descriptor, second, row.masterBlindingKey, rotatedHex))
            && Inv(rows, 2) && Listed(rows, w, rows)
            && BoundTo(row, rows[..1], base, parse) == Bound(row.descriptor, base)
            && BoundTo(row, rows, base, parse) == Bound(second, rotated)
            && BoundTo(HealedRow(row, rows), rows, base, parse) == Bound(second, base)
  {
    hide Run;
    hide Inv;
    hide Listed;
    MigratedIsReachable(w, row.descriptor, second, row.masterBlindingKey, rotatedHex);
  }
}
