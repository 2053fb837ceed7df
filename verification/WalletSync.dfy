/** A user's Bitcoin wallet in memory and its persisted changeset: what sync, address reveal, sends and inserted
    transactions do to the live wallet, to what is staged, to the aggregate and to the stored row. */
module WalletSync {
  import opened Wrappers
  import Ledger

  type Txid = Ledger.Txid
  type BlockHash = nat
  type Descriptor = nat

  /** What BDK stages and what is stored: transactions learnt, the last external index revealed, and per height a
      block connected (`Some`) or disconnected (`None`). */
  datatype ChangeSet = ChangeSet(txs: set<Txid>, revealed: Option<nat>, blocks: map<nat, Option<BlockHash>>)

  /** A live BDK wallet: its transaction graph, its last revealed external index, its chain of checkpoints. */
  datatype Graph = Graph(txs: set<Txid>, revealed: Option<nat>, chain: map<nat, BlockHash>)

  datatype VersionWallet = VersionWallet(descriptor: Descriptor, graph: Graph)

  /** What a backend makes of one version wallet. */
  datatype Scan = Scan(graph: Graph, rebuilt: bool)

  /** What a backend finds for the primary wallet: new changes, or after a reorg a complete changeset. */
  datatype MainScan = MainScan(found: ChangeSet, rebuilt: bool)

  /** A backend, asked about the version wallet at a position as it is when its turn comes. */
  type Backend = (nat, VersionWallet) -> Option<Scan>

  /** The same backend, asked about the primary wallet. */
  type Primary = Graph -> Option<MainScan>

  const EMPTY := ChangeSet({}, None, map[])

  function MaxIndex(a: Option<nat>, b: Option<nat>): (r: Option<nat>)
    ensures r == a || r == b
    ensures a.Some? ==> r.Some? && a.value <= r.value
    ensures b.Some? ==> r.Some? && b.value <= r.value
  {
    if a.None? then b else if b.None? then a else if a.value < b.value then b else a
  }

  function Merge(a: ChangeSet, b: ChangeSet): ChangeSet {
    ChangeSet(a.txs + b.txs, MaxIndex(a.revealed, b.revealed), a.blocks + b.blocks)
  }

  /** The wallet a stored changeset loads to. */
  function Load(c: ChangeSet): Graph {
    Graph(c.txs, c.revealed, map h | h in c.blocks && c.blocks[h].Some? :: c.blocks[h].value)
  }

  predicate Connected(g: Graph, d: ChangeSet, h: nat) {
    if h in d.blocks then d.blocks[h].Some? else h in g.chain
  }

  /** A live wallet with a change applied. */
  function Extend(g: Graph, d: ChangeSet): Graph {
    Graph(g.txs + d.txs, MaxIndex(g.revealed, d.revealed),
          map h | h in g.chain.Keys + d.blocks.Keys && Connected(g, d, h) ::
            if h in d.blocks then d.blocks[h].value else g.chain[h])
  }

  /** Loading what was merged is applying what was merged to what was loaded. */
  lemma LoadMerge(a: ChangeSet, b: ChangeSet)
    ensures Load(Merge(a, b)) == Extend(Load(a), b)
  {
    var l, e := Load(Merge(a, b)).chain, Extend(Load(a), b).chain;
    assert l.Keys == e.Keys;
  }

  lemma MergeAssociative(a: ChangeSet, b: ChangeSet, c: ChangeSet)
    ensures Merge(Merge(a, b), c) == Merge(a, Merge(b, c))
  {
  }

  lemma MergeEmpty(a: ChangeSet)
    ensures Merge(a, EMPTY) == a && Merge(EMPTY, a) == a
  {
  }

  /** One more staged change: what the aggregate and the staged changes load to stays the live wallet. */
  lemma StagedChange(aggregate: ChangeSet, staged: ChangeSet, d: ChangeSet)
    ensures Load(Merge(aggregate, Merge(staged, d))) == Extend(Load(Merge(aggregate, staged)), d)
  {
    MergeAssociative(aggregate, staged, d);
    LoadMerge(Merge(aggregate, staged), d);
  }

  predicate Below(a: Option<nat>, b: Option<nat>) {
    a.None? || (b.Some? && a.value <= b.value)
  }

  /** Why a rebuilt changeset replaces the aggregate: merging would be right exactly when nothing was evicted, no
      higher reveal is missing and no block of the old chain is gone. */
  lemma ReplaceNotMerge(aggregate: ChangeSet, rebuilt: ChangeSet)
    ensures Load(Merge(aggregate, rebuilt)) == Load(rebuilt)
            <==> && aggregate.txs <= rebuilt.txs
                 && Below(aggregate.revealed, rebuilt.revealed)
                 && forall h :: h in aggregate.blocks && aggregate.blocks[h].Some? ==> h in rebuilt.blocks
  {
    LoadMerge(aggregate, rebuilt);
    var m, r := Extend(Load(aggregate), rebuilt), Load(rebuilt);
    assert m.txs == r.txs <==> aggregate.txs <= rebuilt.txs by {
      if m.txs == r.txs {
        assert forall t :: t in aggregate.txs ==> t in m.txs;
      }
    }
    if forall h :: h in aggregate.blocks && aggregate.blocks[h].Some? ==> h in rebuilt.blocks {
      assert m.chain.Keys == r.chain.Keys;
      assert m.chain == r.chain;
    } else {
      var h :| h in aggregate.blocks && aggregate.blocks[h].Some? && h !in rebuilt.blocks;
      assert h in m.chain && h !in r.chain;
    }
  }

  /** A merge keeps every transaction the aggregate ever had, evicted or not. */
  lemma MergeKeepsEvicted(aggregate: ChangeSet, rebuilt: ChangeSet, txid: Txid)
    requires txid in aggregate.txs && txid !in rebuilt.txs
    ensures txid in Load(Merge(aggregate, rebuilt)).txs && txid !in Load(rebuilt).txs
  {
  }

  class UserWallet {
    var versions: seq<VersionWallet>
    var inner: Graph
    var staged: ChangeSet
    var aggregate: ChangeSet
    var row: ChangeSet
    var tip: nat

    /** The aggregate with what is still staged loads to the live wallet, and the stored row is the aggregate. */
    ghost predicate Valid()
      reads this
    {
      Load(Merge(aggregate, staged)) == inner && row == aggregate
    }

    /** A wallet loaded from its row, version wallets fresh. */
    constructor (row: ChangeSet, descriptors: seq<Descriptor>, tip: nat)
      ensures Valid()
      ensures this.row == row && inner == Load(row) && staged == EMPTY && this.tip == tip
      ensures |versions| == |descriptors|
      ensures forall i :: 0 <= i < |versions| ==> versions[i] == VersionWallet(descriptors[i], Load(EMPTY))
    {
      MergeEmpty(row);
      this.row, aggregate, staged, inner, this.tip := row, row, EMPTY, Load(row), tip;
      versions := seq(|descriptors|, i requires 0 <= i < |descriptors| => VersionWallet(descriptors[i], Load(EMPTY)));
    }

    /** A change BDK makes to the primary wallet: applied at once, staged for later. */
    method Stage(d: ChangeSet)
      modifies this`inner, this`staged
      ensures inner == Extend(old(inner), d) && staged == Merge(old(staged), d)
      ensures old(Valid()) ==> Valid()
    {
      StagedChange(aggregate, staged, d);
      inner, staged := Extend(inner, d), Merge(staged, d);
    }

    method TakeStaged() returns (delta: Option<ChangeSet>)
      modifies this`staged
      ensures staged == EMPTY
      ensures delta == if old(staged) == EMPTY then None else Some(old(staged))
    {
      delta := if staged == EMPTY then None else Some(staged);
      staged := EMPTY;
    }

    /** Merge a taken changeset into the aggregate and store it, with the tip; nothing taken, nothing stored. */
    method MergeAndStore(delta: Option<ChangeSet>, tip: nat)
      modifies this`aggregate, this`row, this`tip
      ensures aggregate == if delta.Some? then Merge(old(aggregate), delta.value) else old(aggregate)
      ensures old(row) == old(aggregate) ==> row == aggregate
      ensures this.tip == if delta.Some? then tip else old(this.tip)
    {
      if delta.Some? {
        MergeEmpty(aggregate);
        aggregate := Merge(aggregate, delta.value);
        row, this.tip := aggregate, tip;
      }
    }

    /** Reveal external addresses `0 .. count`, persisting what that stages. */
    method RevealAddresses(count: nat, tip: nat)
      modifies this
      ensures versions == old(versions)
      ensures count == 0 ==>
        inner == old(inner) && row == old(row) && aggregate == old(aggregate) && staged == old(staged) && this.tip == old(this.tip)
      ensures count > 0 ==>
        && inner.txs == old(inner).txs && inner.chain == old(inner).chain
        && inner.revealed == (if Below(Some(count - 1), old(inner).revealed) then old(inner).revealed else Some(count - 1))
        && aggregate == Merge(old(aggregate), Merge(old(staged), Revealing(old(inner), count - 1)))
        && staged == EMPTY
        && this.tip == if old(staged) == EMPTY && inner == old(inner) then old(this.tip) else tip
      ensures old(row) == old(aggregate) ==> row == aggregate
      ensures old(Valid()) ==> Valid() && (count > 0 ==> inner == Load(row))
    {
      if count == 0 {
        return;
      }
      RevealingExtends(inner, count - 1);
      Persist(Revealing(inner, count - 1), tip);
    }

    /** Stage a change and persist everything staged. */
    method Persist(d: ChangeSet, tip: nat)
      modifies this
      ensures versions == old(versions)
      ensures inner == Extend(old(inner), d)
      ensures aggregate == Merge(old(aggregate), Merge(old(staged), d)) && staged == EMPTY
      ensures old(row) == old(aggregate) ==> row == aggregate
      ensures old(Valid()) ==> Valid() && inner == Load(row)
      ensures this.tip == if Merge(old(staged), d) == EMPTY then old(this.tip) else tip
    {
      Stage(d);
      MergeEmpty(aggregate);
      var delta := TakeStaged();
      MergeAndStore(delta, tip);
      MergeEmpty(aggregate);
    }

    /** Build, sign and broadcast a payment.  What building stages is persisted before the broadcast, so it stays
        even when the broadcast is rejected. */
    method Send(builds: Option<ChangeSet>, accepted: bool, tip: nat) returns (ok: bool)
      requires Valid()
      modifies this
      ensures Valid() && versions == old(versions)
      ensures ok <==> builds.Some? && accepted
      ensures builds.None? ==> inner == old(inner) && row == old(row) && this.tip == old(this.tip)
      ensures builds.Some? ==> inner == Extend(old(inner), builds.value) && inner == Load(row) && staged == EMPTY
      ensures builds.Some? ==> this.tip == if Merge(old(staged), builds.value) == EMPTY then old(this.tip) else tip
    {
      if builds.None? {
        return false;
      }
      Persist(builds.value, tip);
      return accepted;
    }

    /** Make a broadcast visible to every version wallet and the primary one; nothing is persisted. */
    method InsertUnconfirmed(txid: Txid)
      requires Valid()
      modifies this
      ensures Valid() && row == old(row) && tip == old(tip)
      ensures txid in inner.txs && forall i :: 0 <= i < |versions| ==> txid in versions[i].graph.txs
      ensures inner == Extend(old(inner), ChangeSet({txid}, None, map[]))
      ensures |versions| == |old(versions)|
      ensures forall i :: 0 <= i < |versions| ==>
        versions[i] == VersionWallet(old(versions)[i].descriptor, Extend(old(versions)[i].graph, ChangeSet({txid}, None, map[])))
    {
      var d := ChangeSet({txid}, None, map[]);
      for i := 0 to |versions|
        invariant Valid() && row == old(row) && tip == old(tip) && inner == old(inner) && |versions| == |old(versions)|
        invariant forall j :: 0 <= j < |versions| ==>
          versions[j] == if j < i then VersionWallet(old(versions)[j].descriptor, Extend(old(versions)[j].graph, d))
                         else old(versions)[j]
      {
        versions := versions[i := versions[i].(graph := Extend(versions[i].graph, d))];
      }
      Stage(d);
    }

    /** Reveal every version wallet as far as the primary one; nothing to do until that one has revealed. */
    method RevealVersionsToInner()
      modifies this`versions
      ensures |versions| == |old(versions)|
      ensures forall i :: 0 <= i < |versions| ==>
        versions[i] == RevealedTo(old(versions)[i], inner.revealed)
      ensures forall i :: 0 <= i < |versions| ==>
        && versions[i].descriptor == old(versions)[i].descriptor
        && versions[i].graph.txs == old(versions)[i].graph.txs && versions[i].graph.chain == old(versions)[i].graph.chain
        && versions[i].graph.revealed
           == if Below(inner.revealed, old(versions)[i].graph.revealed) then old(versions)[i].graph.revealed else inner.revealed
    {
      if inner.revealed.None? {
        return;
      }
      for i := 0 to |versions|
        invariant |versions| == |old(versions)|
        invariant forall j :: 0 <= j < |versions| ==>
          versions[j] == if j < i then RevealedTo(old(versions)[j], inner.revealed) else old(versions)[j]
      {
        versions := versions[i := RevealedTo(versions[i], inner.revealed)];
      }
    }

    /** Run every version wallet through the backend, in order, up to the first failure. */
    method ScanVersions(backend: Backend) returns (reached: nat, anyReorg: bool)
      modifies this`versions
      ensures |versions| == |old(versions)| && reached <= |versions|
      ensures forall i :: 0 <= i < reached ==>
        backend(i, old(versions)[i]).Some?
        && versions[i] == VersionWallet(old(versions)[i].descriptor, backend(i, old(versions)[i]).value.graph)
      ensures forall i :: reached <= i < |versions| ==> versions[i] == old(versions)[i]
      ensures reached < |versions| ==> backend(reached, old(versions)[reached]).None?
      ensures anyReorg <==> exists i :: 0 <= i < reached && backend(i, old(versions)[i]).value.rebuilt
    {
      anyReorg := false;
      for i := 0 to |versions|
        invariant |versions| == |old(versions)|
        invariant forall j :: 0 <= j < i ==>
          backend(j, old(versions)[j]).Some?
          && versions[j] == VersionWallet(old(versions)[j].descriptor, backend(j, old(versions)[j]).value.graph)
        invariant forall j :: i <= j < |versions| ==> versions[j] == old(versions)[j]
        invariant anyReorg <==> exists j :: 0 <= j < i && backend(j, old(versions)[j]).value.rebuilt
      {
        var scan := backend(i, versions[i]);
        if scan.None? {
          return i, anyReorg;
        }
        versions := versions[i := versions[i].(graph := scan.value.graph)];
        anyReorg := anyReorg || scan.value.rebuilt;
      }
      return |versions|, anyReorg;
    }

    /** Take what the backend found for the primary wallet: a rebuild starts it over, anything else is staged. */
    method TakePrimary(main: MainScan) returns (delta: Option<ChangeSet>)
      modifies this`inner, this`staged
      ensures inner == Scanned(old(inner), main) && staged == EMPTY
      ensures main.rebuilt ==> delta == Some(main.found)
      ensures !main.rebuilt ==>
        delta == if Merge(old(staged), main.found) == EMPTY then None else Some(Merge(old(staged), main.found))
    {
      if main.rebuilt {
        inner, staged, delta := Load(main.found), EMPTY, Some(main.found);
      } else {
        Stage(main.found);
        delta := TakeStaged();
      }
    }

    /** Persist a sync: a rebuilt changeset replaces the aggregate, any other is merged into it. */
    method PersistSync(rebuilt: bool, delta: Option<ChangeSet>, tip: nat)
      modifies this`aggregate, this`row, this`tip
      ensures aggregate == if delta.None? then old(aggregate)
                           else if rebuilt then delta.value
                           else Merge(old(aggregate), delta.value)
      ensures old(row) == old(aggregate) ==> row == aggregate
      ensures this.tip == tip
    {
      if delta.Some? {
        aggregate := if rebuilt then delta.value else Merge(aggregate, delta.value);
        row := aggregate;
      }
      this.tip := tip;
    }

    /** Sync every version wallet and the primary one, and persist.  On a nodeless backend the version wallets are
        first revealed as far as the primary one, and it is those the backend is asked about.  A failure stops the
        sync where it is and persists nothing; afterwards, what is stored loads to the live wallet. */
    method Sync(nodeless: bool, backend: Backend, primary: Primary, tip: nat) returns (r: Option<bool>, ghost reached: nat)
      requires Valid()
      modifies this
      ensures Valid() && |versions| == |old(versions)|
      ensures ScannedUpTo(old(versions), versions, AtScan(nodeless, old(inner).revealed), backend, reached)
      ensures r.Some? <==> reached == |versions| && primary(old(inner)).Some?
      ensures r.None? ==> row == old(row) && inner == old(inner) && this.tip == old(this.tip)
      ensures r.Some? ==> this.tip == tip
      ensures !nodeless ==>
        && (forall i :: 0 <= i < reached ==>
              backend(i, old(versions)[i]).Some? && versions[i].graph == backend(i, old(versions)[i]).value.graph)
        && forall i :: reached <= i < |versions| ==> versions[i] == old(versions)[i]
      ensures r.Some? ==>
        && (r.value <==> primary(old(inner)).value.rebuilt
                         || exists i :: 0 <= i < |versions|
                                        && backend(i, RevealedTo(old(versions)[i], AtScan(nodeless, old(inner).revealed))).value.rebuilt)
        && inner == Scanned(old(inner), primary(old(inner)).value)
        && inner == Load(row) && staged == EMPTY
        && (primary(old(inner)).value.rebuilt ==> row == primary(old(inner)).value.found)
    {
      if nodeless {
        RevealVersionsToInner();
      }
      assert forall i :: 0 <= i < |versions| ==> versions[i] == RevealedTo(old(versions)[i], AtScan(nodeless, old(inner).revealed));
      var done, anyReorg := ScanVersions(backend);
      reached := done;
      if done < |versions| {
        return None, reached;
      }
      var main := primary(inner);
      if main.None? {
        return None, reached;
      }
      if !main.value.rebuilt {
        StagedChange(aggregate, staged, main.value.found);
      }
      MergeEmpty(aggregate);
      var delta := TakePrimary(main.value);
      PersistSync(main.value.rebuilt, delta, tip);
      MergeEmpty(aggregate);
      return Some(anyReorg || main.value.rebuilt), reached;
    }

    /** The wallet lock is released between taking a rebuild and persisting it.  A reveal that gets in between is
        applied and stored, then overwritten: the stored changeset is the rebuilt one, and it loads to the live
        wallet exactly when the rebuild had revealed as far. */
    method RevealDuringSync(found: ChangeSet, count: nat, tip: nat)
      requires Valid() && count > 0
      modifies this
      ensures row == found && staged == EMPTY
      ensures Load(row) == inner <==> Below(Some(count - 1), found.revealed)
      ensures inner.revealed.Some? && inner.revealed.value >= count - 1
    {
      var delta := TakePrimary(MainScan(found, true));
      RevealAddresses(count, tip);
      PersistSync(true, delta, tip);
      assert inner.chain == Load(found).chain;
    }
  }

  /** What BDK stages when asked to reveal up to an index: nothing when it has already revealed as far. */
  function Revealing(g: Graph, index: nat): ChangeSet {
    if Below(Some(index), g.revealed) then EMPTY else ChangeSet({}, Some(index), map[])
  }

  lemma RevealingExtends(g: Graph, index: nat)
    ensures var g' := Extend(g, Revealing(g, index));
            && g'.txs == g.txs && g'.chain == g.chain
            && g'.revealed == if Below(Some(index), g.revealed) then g.revealed else Some(index)
  {
  }

  function RevealedTo(v: VersionWallet, index: Option<nat>): VersionWallet {
    v.(graph := v.graph.(revealed := MaxIndex(v.graph.revealed, index)))
  }

  /** How far version wallets are revealed before a scan: as far as the primary one on a nodeless backend. */
  function AtScan(nodeless: bool, revealed: Option<nat>): Option<nat> {
    if nodeless then revealed else None
  }

  /** The primary wallet after its scan. */
  function Scanned(g: Graph, main: MainScan): Graph {
    if main.rebuilt then Load(main.found) else Extend(g, main.found)
  }

  /** The first `reached` version wallets are what the backend made of them; the next one, if any, failed. */
  ghost predicate ScannedUpTo(before: seq<VersionWallet>, after: seq<VersionWallet>, revealed: Option<nat>,
                              backend: Backend, reached: nat) {
    && |after| == |before| && reached <= |after|
    && (forall i :: 0 <= i < reached ==>
          backend(i, RevealedTo(before[i], revealed)).Some?
          && after[i] == VersionWallet(before[i].descriptor, backend(i, RevealedTo(before[i], revealed)).value.graph))
    && (forall i :: reached <= i < |after| ==> after[i] == RevealedTo(before[i], revealed))
    && (reached < |after| ==> backend(reached, RevealedTo(before[reached], revealed)).None?)
  }
}
