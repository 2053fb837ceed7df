/** A whole sync of a user's wallet: scan, persist, reconcile; when a migration whose sweep is still on chain or in
    the mempool is safe from a false revert; and over which histories of syncs no vanished sweep is missed. */
module ReorgSync {
  import opened Wrappers
  import opened FederationVersions
  import opened MigrationStatus
  import opened Reconciliation
  import W = WalletSync

  type Chain = map<nat, W.BlockHash>

  // ---------------------------------------------------------------------------
  // What a backend promises
  // ---------------------------------------------------------------------------

  /** None of the blocks of `c` has been abandoned. */
  predicate OnChain(c: Chain, best: Chain) {
    forall h :: h in c ==> h in best && best[h] == c[h]
  }

  /** A scan rebuilds a wallet exactly when the wallet holds an abandoned block, leaves it on the best chain, and
      drops no transaction unless it rebuilds. */
  ghost predicate LawfulScan(best: Chain, before: W.Graph, after: W.Graph, rebuilt: bool) {
    && (rebuilt <==> !OnChain(before.chain, best))
    && OnChain(after.chain, best)
    && (!rebuilt ==> before.txs <= after.txs)
  }

  ghost predicate Lawful(best: Chain, backend: W.Backend, primary: W.Primary) {
    && (forall i, v :: backend(i, v).Some? ==>
          LawfulScan(best, v.graph, backend(i, v).value.graph, backend(i, v).value.rebuilt))
    && (forall g :: primary(g).Some? ==> LawfulScan(best, g, W.Scanned(g, primary(g).value), primary(g).value.rebuilt))
  }

  /** A transaction on chain or in the mempool that pays external address `index` of a descriptor or spends from it. */
  datatype Activity = Activity(txid: Txid, descriptor: W.Descriptor, index: nat)

  predicate Watched(v: W.VersionWallet, p: Activity) {
    p.descriptor == v.descriptor && W.Below(Some(p.index), v.graph.revealed)
  }

  /** What a backend that looks at revealed addresses only promises of one wallet: all activity on its revealed
      addresses is found. */
  ghost predicate RevealedOnly(world: set<Activity>, before: W.VersionWallet, after: W.Graph) {
    forall p :: p in world && Watched(before, p) ==> p.txid in after.txs
  }

  ghost predicate FindsActivity(world: set<Activity>, backend: W.Backend) {
    forall i, v :: backend(i, v).Some? ==> RevealedOnly(world, v, backend(i, v).value.graph)
  }

  /** All that a revealed-only backend promises, of the version wallets and of the primary one on descriptor `own`. */
  ghost predicate Promised(world: set<Activity>, best: Chain, own: W.Descriptor, backend: W.Backend, primary: W.Primary) {
    && Lawful(best, backend, primary)
    && FindsActivity(world, backend)
    && forall g :: primary(g).Some? ==> RevealedOnly(world, W.VersionWallet(own, g), W.Scanned(g, primary(g).value))
  }

  // ---------------------------------------------------------------------------
  // One sync
  // ---------------------------------------------------------------------------

  /** Some wallet was rebuilt: one of the version wallets, shown to the backend as revealed, or the primary one. */
  ghost predicate AnyRebuilt(before: seq<W.VersionWallet>, revealed: Option<nat>, backend: W.Backend, main: W.MainScan)
    requires forall i :: 0 <= i < |before| ==> backend(i, W.RevealedTo(before[i], revealed)).Some?
  {
    main.rebuilt || exists i :: 0 <= i < |before| && backend(i, W.RevealedTo(before[i], revealed)).value.rebuilt
  }

  /** The version wallets after a scan that reaches them all. */
  ghost function AllScanned(before: seq<W.VersionWallet>, revealed: Option<nat>, backend: W.Backend): (r: seq<W.VersionWallet>)
    requires forall i :: 0 <= i < |before| ==> backend(i, W.RevealedTo(before[i], revealed)).Some?
    ensures |r| == |before|
    ensures forall i :: 0 <= i < |r| ==>
      r[i] == W.VersionWallet(before[i].descriptor, backend(i, W.RevealedTo(before[i], revealed)).value.graph)
  {
    seq(|before|, i requires 0 <= i < |before| =>
      W.VersionWallet(before[i].descriptor, backend(i, W.RevealedTo(before[i], revealed)).value.graph))
  }

  ghost predicate Completes(before: seq<W.VersionWallet>, inner: W.Graph, revealed: Option<nat>, backend: W.Backend, primary: W.Primary) {
    (forall i :: 0 <= i < |before| ==> backend(i, W.RevealedTo(before[i], revealed)).Some?) && primary(inner).Some?
  }

  /** What a sync makes of one version row: reconciled against the graphs the sync leaves when it completes and some
      wallet was rebuilt, untouched otherwise. */
  ghost function SyncedRow(v: Version, w: WalletRef, parse: Parser, before: seq<W.VersionWallet>, inner: W.Graph,
                           nodeless: bool, backend: W.Backend, primary: W.Primary): Version
  {
    var revealed := W.AtScan(nodeless, inner.revealed);
    if Completes(before, inner, revealed, backend, primary) && AnyRebuilt(before, revealed, backend, primary(inner).value)
    then ReconciledRow(v, w, parse, GraphTxids(AllScanned(before, revealed, backend), W.Scanned(inner, primary(inner).value)))
    else v
  }

  /** Sync every wallet, persist the primary one, and reconcile if any of them was rebuilt.  A failure leaves the
      version table and the stored changeset alone, but not the version wallets scanned before it. */
  method SyncWallet(u: W.UserWallet, t: Table, w: WalletRef, parse: Parser, nodeless: bool,
                    backend: W.Backend, primary: W.Primary, tip: nat) returns (reverted: Option<nat>, ghost reached: nat)
    requires u.Valid() && Inv(t.rows, t.nextId)
    modifies u, t`rows
    ensures u.Valid() && Inv(t.rows, t.nextId)
    ensures W.ScannedUpTo(old(u.versions), u.versions, W.AtScan(nodeless, old(u.inner).revealed), backend, reached)
    ensures reverted.Some? <==> reached == |u.versions| && primary(old(u.inner)).Some?
    ensures reverted.Some? <==>
      Completes(old(u.versions), old(u.inner), W.AtScan(nodeless, old(u.inner).revealed), backend, primary)
    ensures reverted.None? ==> t.rows == old(t.rows) && u.row == old(u.row) && u.inner == old(u.inner)
    ensures |t.rows| == |old(t.rows)|
    ensures forall i :: 0 <= i < |t.rows| ==>
      t.rows[i] == SyncedRow(old(t.rows)[i], w, parse, old(u.versions), old(u.inner), nodeless, backend, primary)
    ensures reverted.Some? ==> CountsReverts(old(t.rows), t.rows, reverted.value)
    ensures reverted.Some? ==>
      && u.versions == AllScanned(old(u.versions), W.AtScan(nodeless, old(u.inner).revealed), backend)
      && u.inner == W.Scanned(old(u.inner), primary(old(u.inner)).value) && u.inner == W.Load(u.row)
      && reverted.value
         == if AnyRebuilt(old(u.versions), W.AtScan(nodeless, old(u.inner).revealed), backend, primary(old(u.inner)).value)
            then Saturated(|VanishedRows(old(t.rows), w, parse, GraphTxids(u.versions, u.inner))|)
            else 0
  {
    ghost var before, inner, rows := u.versions, u.inner, t.rows;
    ghost var revealed := W.AtScan(nodeless, inner.revealed);
    var synced;
    synced, reached := u.Sync(nodeless, backend, primary, tip);
    if synced.None? {
      NotCompleted(before, u.versions, inner, revealed, backend, primary, reached);
      return None, reached;
    }
    IsAllScanned(before, u.versions, revealed, backend);
    var n := Reconcile(t, w, parse, synced.value, u.versions, u.inner);
    return Some(n), reached;
  }

  lemma NotCompleted(before: seq<W.VersionWallet>, after: seq<W.VersionWallet>, inner: W.Graph, revealed: Option<nat>,
                     backend: W.Backend, primary: W.Primary, reached: nat)
    requires W.ScannedUpTo(before, after, revealed, backend, reached)
    requires reached != |after| || primary(inner).None?
    ensures !Completes(before, inner, revealed, backend, primary)
  {
  }

  lemma IsAllScanned(before: seq<W.VersionWallet>, after: seq<W.VersionWallet>, revealed: Option<nat>, backend: W.Backend)
    requires W.ScannedUpTo(before, after, revealed, backend, |before|)
    ensures forall i :: 0 <= i < |before| ==> backend(i, W.RevealedTo(before[i], revealed)).Some?
    ensures after == AllScanned(before, revealed, backend)
  {
  }

  // ---------------------------------------------------------------------------
  // False reverts
  // ---------------------------------------------------------------------------

  /** All wallets as a nodeless sync shows them to its backend: the version wallets revealed as far as the primary
      one, which comes last, on descriptor `own`. */
  ghost function Shown(versions: seq<W.VersionWallet>, inner: W.Graph, own: W.Descriptor): (r: seq<W.VersionWallet>)
    ensures |r| == |versions| + 1 && r[|versions|] == W.VersionWallet(own, inner)
    ensures forall i :: 0 <= i < |versions| ==> r[i] == W.RevealedTo(versions[i], inner.revealed)
  {
    seq(|versions|, i requires 0 <= i < |versions| => W.RevealedTo(versions[i], inner.revealed)) + [W.VersionWallet(own, inner)]
  }

  /** No wallet holds an abandoned block. */
  ghost predicate Quiet(best: Chain, shown: seq<W.VersionWallet>) {
    forall i :: 0 <= i < |shown| ==> OnChain(shown[i].graph.chain, best)
  }

  /** Some wallet watches an address the transaction pays or spends from. */
  ghost predicate Reached(world: set<Activity>, shown: seq<W.VersionWallet>, txid: Txid) {
    exists i, p :: 0 <= i < |shown| && p in world && p.txid == txid && Watched(shown[i], p)
  }

  /** Some wallet that will not be rebuilt has the transaction. */
  ghost predicate Safe(best: Chain, shown: seq<W.VersionWallet>, txid: Txid) {
    exists i :: 0 <= i < |shown| && OnChain(shown[i].graph.chain, best) && txid in shown[i].graph.txs
  }

  /** What decides, before a nodeless sync is made, whether it can revert a migration with this sweep. */
  ghost predicate Protected(world: set<Activity>, best: Chain, shown: seq<W.VersionWallet>, txid: Txid) {
    Quiet(best, shown) || Reached(world, shown, txid) || Safe(best, shown, txid)
  }

  /** A transaction that is reached or safe is in some graph the sync leaves. */
  lemma ReachedIsFound(world: set<Activity>, best: Chain, own: W.Descriptor, backend: W.Backend, primary: W.Primary,
                       versions: seq<W.VersionWallet>, inner: W.Graph, txid: Txid)
    requires Promised(world, best, own, backend, primary) && Completes(versions, inner, inner.revealed, backend, primary)
    requires var shown := Shown(versions, inner, own); Reached(world, shown, txid) || Safe(best, shown, txid)
    ensures txid in GraphTxids(AllScanned(versions, inner.revealed, backend), W.Scanned(inner, primary(inner).value))
  {
    hide OnChain;
    hide Watched;
    var shown, after := Shown(versions, inner, own), AllScanned(versions, inner.revealed, backend);
    var i :| 0 <= i < |shown|
      && ((exists p :: p in world && p.txid == txid && Watched(shown[i], p))
          || (OnChain(shown[i].graph.chain, best) && txid in shown[i].graph.txs));
    if i < |versions| {
      var scan := backend(i, shown[i]).value;
      assert LawfulScan(best, shown[i].graph, scan.graph, scan.rebuilt) && RevealedOnly(world, shown[i], scan.graph);
      assert txid in after[i].graph.txs;
    } else {
      var main := primary(inner).value;
      assert LawfulScan(best, inner, W.Scanned(inner, main), main.rebuilt);
      assert RevealedOnly(world, W.VersionWallet(own, inner), W.Scanned(inner, main));
    }
  }

  lemma QuietIsUnarmed(world: set<Activity>, best: Chain, own: W.Descriptor, backend: W.Backend, primary: W.Primary,
                       versions: seq<W.VersionWallet>, inner: W.Graph)
    requires Promised(world, best, own, backend, primary) && Completes(versions, inner, inner.revealed, backend, primary)
    ensures AnyRebuilt(versions, inner.revealed, backend, primary(inner).value) <==> !Quiet(best, Shown(versions, inner, own))
  {
    hide OnChain;
    hide RevealedOnly;
    var shown, main := Shown(versions, inner, own), primary(inner).value;
    assert LawfulScan(best, inner, W.Scanned(inner, main), main.rebuilt);
    forall i | 0 <= i < |versions|
      ensures backend(i, shown[i]).value.rebuilt <==> !OnChain(shown[i].graph.chain, best)
    {
      assert LawfulScan(best, shown[i].graph, backend(i, shown[i]).value.graph, backend(i, shown[i]).value.rebuilt);
    }
    if !Quiet(best, shown) {
      var i :| 0 <= i < |shown| && !OnChain(shown[i].graph.chain, best);
      assert i < |versions| ==> backend(i, W.RevealedTo(versions[i], inner.revealed)).value.rebuilt;
    }
  }

  lemma ProtectedIsKept(world: set<Activity>, best: Chain, own: W.Descriptor, backend: W.Backend, primary: W.Primary,
                        versions: seq<W.VersionWallet>, inner: W.Graph, v: Version, w: WalletRef, parse: Parser)
    requires Promised(world, best, own, backend, primary)
    requires Tracked(v, w, parse) ==> Protected(world, best, Shown(versions, inner, own), parse(v.sweep.value).value)
    ensures SyncedRow(v, w, parse, versions, inner, true, backend, primary) == v
  {
    hide Promised;
    hide Quiet;
    hide Reached;
    hide Safe;
    hide AnyRebuilt;
    hide GraphTxids;
    if Tracked(v, w, parse) && Completes(versions, inner, inner.revealed, backend, primary) {
      QuietIsUnarmed(world, best, own, backend, primary, versions, inner);
      if !Quiet(best, Shown(versions, inner, own)) {
        ReachedIsFound(world, best, own, backend, primary, versions, inner, parse(v.sweep.value).value);
      }
    }
  }

  /** A nodeless sync, whatever a backend that keeps its promises finds, leaves a completed migration as it is if and
      only if its sweep is protected: no wallet holds an abandoned block, or some wallet watches an address the sweep
      pays or spends from, or some wallet that will not be rebuilt has the sweep. */
  lemma KeptIffProtected(world: set<Activity>, best: Chain, own: W.Descriptor, versions: seq<W.VersionWallet>, inner: W.Graph,
                         v: Version, w: WalletRef, parse: Parser)
    requires Tracked(v, w, parse)
    ensures (forall backend, primary :: Promised(world, best, own, backend, primary) ==>
               SyncedRow(v, w, parse, versions, inner, true, backend, primary) == v)
            <==> Protected(world, best, Shown(versions, inner, own), parse(v.sweep.value).value)
  {
    hide Promised;
    hide Protected;
    hide SyncedRow;
    if Protected(world, best, Shown(versions, inner, own), parse(v.sweep.value).value) {
      forall backend, primary | Promised(world, best, own, backend, primary)
        ensures SyncedRow(v, w, parse, versions, inner, true, backend, primary) == v
      {
        ProtectedIsKept(world, best, own, backend, primary, versions, inner, v, w, parse);
      }
    } else {
      LeastIsPromised(world, best, own);
      LeastReverts(world, best, own, versions, inner, v, w, parse);
    }
  }

  // ---------------------------------------------------------------------------
  // The least a backend may find
  // ---------------------------------------------------------------------------

  /** What a revealed-only backend cannot help finding for a wallet: activity on its revealed addresses, and what it
      already has unless it is rebuilt. */
  function LeastTxs(world: set<Activity>, best: Chain, v: W.VersionWallet): set<Txid> {
    (set p | p in world && Watched(v, p) :: p.txid) + if OnChain(v.graph.chain, best) then v.graph.txs else {}
  }

  function LeastBackend(world: set<Activity>, best: Chain): W.Backend {
    (i: nat, v: W.VersionWallet) =>
      var txs := LeastTxs(world, best, v);
      if OnChain(v.graph.chain, best) then Some(W.Scan(v.graph.(txs := txs), false))
      else Some(W.Scan(W.Graph(txs, v.graph.revealed, best), true))
  }

  function LeastPrimary(world: set<Activity>, best: Chain, own: W.Descriptor): W.Primary {
    (g: W.Graph) =>
      var txs := LeastTxs(world, best, W.VersionWallet(own, g));
      if OnChain(g.chain, best) then Some(W.MainScan(W.ChangeSet(txs, None, map[]), false))
      else Some(W.MainScan(W.ChangeSet(txs, g.revealed, map h | h in best :: Some(best[h])), true))
  }

  /** A backend whose scan of the primary wallet fails. */
  function Unreachable(): W.Primary {
    g => None
  }

  lemma LeastMain(world: set<Activity>, best: Chain, own: W.Descriptor, g: W.Graph)
    ensures var main := LeastPrimary(world, best, own)(g);
            && main.Some? && (main.value.rebuilt <==> !OnChain(g.chain, best))
            && W.Scanned(g, main.value).txs == LeastTxs(world, best, W.VersionWallet(own, g))
            && W.Scanned(g, main.value).chain == (if OnChain(g.chain, best) then g.chain else best)
            && W.Scanned(g, main.value).revealed == g.revealed
  {
    hide OnChain;
    hide Watched;
  }

  lemma LeastIsPromised(world: set<Activity>, best: Chain, own: W.Descriptor)
    ensures Promised(world, best, own, LeastBackend(world, best), LeastPrimary(world, best, own))
    ensures Lawful(best, LeastBackend(world, best), Unreachable())
  {
    hide Watched;
    var backend, primary := LeastBackend(world, best), LeastPrimary(world, best, own);
    forall g: W.Graph {:trigger primary(g)}
      ensures LawfulScan(best, g, W.Scanned(g, primary(g).value), primary(g).value.rebuilt)
      ensures RevealedOnly(world, W.VersionWallet(own, g), W.Scanned(g, primary(g).value))
    {
      LeastMain(world, best, own, g);
    }
  }

  lemma LeastReverts(world: set<Activity>, best: Chain, own: W.Descriptor, versions: seq<W.VersionWallet>, inner: W.Graph,
                     v: Version, w: WalletRef, parse: Parser)
    requires Tracked(v, w, parse)
    requires !Protected(world, best, Shown(versions, inner, own), parse(v.sweep.value).value)
    ensures SyncedRow(v, w, parse, versions, inner, true, LeastBackend(world, best), LeastPrimary(world, best, own))
            == v.(status := Pending, sweep := None)
  {
    hide OnChain;
    hide Watched;
    var backend, primary := LeastBackend(world, best), LeastPrimary(world, best, own);
    var shown, txid := Shown(versions, inner, own), parse(v.sweep.value).value;
    forall i | 0 <= i < |shown| ensures txid !in LeastTxs(world, best, shown[i]) {
      assert forall p :: p in world && p.txid == txid ==> !Watched(shown[i], p);
      assert OnChain(shown[i].graph.chain, best) ==> txid !in shown[i].graph.txs;
    }
    LeastMain(world, best, own, inner);
    LeastIsPromised(world, best, own);
    QuietIsUnarmed(world, best, own, backend, primary, versions, inner);
    var after := AllScanned(versions, inner.revealed, backend);
    forall i | 0 <= i < |versions| ensures txid !in after[i].graph.txs {
      assert after[i].graph.txs == LeastTxs(world, best, shown[i]);
    }
    assert txid !in LeastTxs(world, best, shown[|versions|]);
  }

  // ---------------------------------------------------------------------------
  // The sync itself
  // ---------------------------------------------------------------------------

  /** A nodeless sync never reverts a migration whose sweep pays external index 0 of a tracked version or spends from
      it, once the primary wallet has revealed any external address: the version wallets are revealed as far before
      the backend is asked, so the backend finds the sweep. */
  method NoFalseRevert(u: W.UserWallet, t: Table, w: WalletRef, parse: Parser, backend: W.Backend, primary: W.Primary,
                       tip: nat, ghost world: set<Activity>, ghost p: Activity, ghost k: nat) returns (reverted: Option<nat>)
    requires u.Valid() && Inv(t.rows, t.nextId) && u.inner.revealed.Some?
    requires FindsActivity(world, backend)
    requires p in world && p.index == 0 && k < |u.versions| && p.descriptor == u.versions[k].descriptor
    modifies u, t`rows
    ensures |u.versions| == |old(u.versions)| && |t.rows| == |old(t.rows)|
    ensures forall i :: 0 <= i < |t.rows| && old(t.rows)[i].sweep.Some? && parse(old(t.rows)[i].sweep.value) == Some(p.txid) ==>
      t.rows[i] == old(t.rows)[i]
    ensures reverted.Some? ==> p.txid in u.versions[k].graph.txs
  {
    hide Inv;
    ghost var reached;
    reverted, reached := SyncWallet(u, t, w, parse, true, backend, primary, tip);
    if reverted.Some? {
      ghost var shown := W.RevealedTo(old(u.versions)[k], old(u.inner).revealed);
      assert Watched(shown, p);
      assert RevealedOnly(world, shown, backend(k, shown).value.graph);
      assert p.txid in GraphTxids(u.versions, u.inner);
    }
  }

  /** A nodeless sync against the backend that finds the least reverts exactly the completed migrations whose sweep
      is not protected. */
  method LeastSync(u: W.UserWallet, t: Table, w: WalletRef, parse: Parser, best: Chain, own: W.Descriptor, tip: nat,
                   world: set<Activity>) returns (reverted: Option<nat>)
    requires u.Valid() && Inv(t.rows, t.nextId)
    modifies u, t`rows
    ensures Promised(world, best, own, LeastBackend(world, best), LeastPrimary(world, best, own))
    ensures reverted.Some? && |t.rows| == |old(t.rows)|
    ensures forall i :: 0 <= i < |t.rows| ==>
      t.rows[i] == if Tracked(old(t.rows)[i], w, parse)
                      && !Protected(world, best, Shown(old(u.versions), old(u.inner), own), parse(old(t.rows)[i].sweep.value).value)
                   then old(t.rows)[i].(status := Pending, sweep := None)
                   else old(t.rows)[i]
  {
    hide Inv;
    hide Promised;
    hide Protected;
    hide SyncedRow;
    ghost var versions, inner, rows := u.versions, u.inner, t.rows;
    LeastIsPromised(world, best, own);
    LeastMain(world, best, own, inner);
    ghost var reached;
    reverted, reached := SyncWallet(u, t, w, parse, true, LeastBackend(world, best), LeastPrimary(world, best, own), tip);
    forall i | 0 <= i < |rows|
      ensures t.rows[i] == if Tracked(rows[i], w, parse)
                              && !Protected(world, best, Shown(versions, inner, own), parse(rows[i].sweep.value).value)
                           then rows[i].(status := Pending, sweep := None) else rows[i]
    {
      if Tracked(rows[i], w, parse) && !Protected(world, best, Shown(versions, inner, own), parse(rows[i].sweep.value).value) {
        LeastReverts(world, best, own, versions, inner, rows[i], w, parse);
      } else {
        ProtectedIsKept(world, best, own, LeastBackend(world, best), LeastPrimary(world, best, own), versions, inner, rows[i], w, parse);
      }
    }
  }

  /** Until anything has been revealed nothing is watched, so a reorg that rebuilds wallets may revert every tracked
      migration, whatever is on chain.  Loading a wallet after a federation change reveals an address, so this takes
      a process that loaded the wallet before the change. */
  method FalseRevertWhenNothingRevealed(u: W.UserWallet, t: Table, w: WalletRef, parse: Parser, best: Chain, own: W.Descriptor,
                                        tip: nat, world: set<Activity>)
    requires u.Valid() && Inv(t.rows, t.nextId) && u.inner.revealed.None?
    requires forall i :: 0 <= i < |u.versions| ==> u.versions[i].graph.revealed.None?
    requires forall i :: 0 <= i < |u.versions| && OnChain(u.versions[i].graph.chain, best) ==> u.versions[i].graph.txs == {}
    requires OnChain(u.inner.chain, best) ==> u.inner.txs == {}
    requires !OnChain(u.inner.chain, best) || exists i :: 0 <= i < |u.versions| && !OnChain(u.versions[i].graph.chain, best)
    modifies u, t`rows
    ensures Promised(world, best, own, LeastBackend(world, best), LeastPrimary(world, best, own))
    ensures |t.rows| == |old(t.rows)|
    ensures forall i :: 0 <= i < |t.rows| && Tracked(old(t.rows)[i], w, parse) ==>
      t.rows[i] == old(t.rows)[i].(status := Pending, sweep := None)
  {
    hide Inv;
    hide Promised;
    hide OnChain;
    ghost var shown := Shown(u.versions, u.inner, own);
    assert !Quiet(best, shown) by {
      if OnChain(u.inner.chain, best) {
        ghost var i :| 0 <= i < |u.versions| && !OnChain(u.versions[i].graph.chain, best);
        assert !OnChain(shown[i].graph.chain, best);
      }
    }
    assert forall txid :: !Reached(world, shown, txid) && !Safe(best, shown, txid);
    hide Protected;
    assert forall txid :: !Protected(world, best, shown, txid) by {
      NothingProtected(world, best, shown);
    }
    var reverted := LeastSync(u, t, w, parse, best, own, tip, world);
  }

  lemma NothingProtected(world: set<Activity>, best: Chain, shown: seq<W.VersionWallet>)
    requires !Quiet(best, shown) && forall txid :: !Reached(world, shown, txid) && !Safe(best, shown, txid)
    ensures forall txid :: !Protected(world, best, shown, txid)
  {
  }
}
