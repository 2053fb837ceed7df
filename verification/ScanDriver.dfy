/** The per-block driver over the stores, and the theorem that the tables refine a plain replay of the best
    chain through any interleaving of block application, rollback, crash and re-run. */
module ScanDriver {
  import opened Wrappers
  import opened Ledger
  import opened ElementsSync

  /** A wallet output found in a block; its height is the block's. */
  datatype Found = Found(wallet: WalletId, op: OutPoint, data: Data)

  datatype Block = Block(hash: BlockHash, found: seq<Found>, spends: seq<OutPoint>)

  datatype Db = Db(rows: Rows, blocks: Blocks, cursor: Option<Tip>)

  function CapturesAt(b: Block, h: nat): (r: seq<Captured>)
    ensures |r| == |b.found|
    ensures forall i :: 0 <= i < |r| ==> r[i] == Captured(b.found[i].wallet, b.found[i].op, b.found[i].data, h)
  {
    seq(|b.found|, i requires 0 <= i < |b.found| => Captured(b.found[i].wallet, b.found[i].op, b.found[i].data, h))
  }

  function FoundKeys(b: Block): set<Key> {
    set f | f in b.found :: Key(f.wallet, f.op)
  }

  lemma CaptureKeys(b: Block, h: nat)
    ensures KeysOf(CapturesAt(b, h)) == FoundKeys(b)
    ensures forall u :: u in CapturesAt(b, h) ==> u.height == h
  {
    var us := CapturesAt(b, h);
    forall k ensures k in KeysOf(us) <==> k in FoundKeys(b) {
      if k in KeysOf(us) {
        var u :| u in us && KeyOf(u) == k;
        var i :| 0 <= i < |us| && us[i] == u;
        assert b.found[i] in b.found;
      }
      if k in FoundKeys(b) {
        var f :| f in b.found && Key(f.wallet, f.op) == k;
        var i :| 0 <= i < |b.found| && b.found[i] == f;
        assert us[i] in us;
      }
    }
  }

  // ---------------------------------------------------------------------------
  // Statements
  // ---------------------------------------------------------------------------

  ghost function Top(blocks: Blocks): (r: Option<Tip>)
    ensures CursorAgrees(blocks, r)
  {
    HighestExists(blocks);
    var r :| CursorAgrees(blocks, r);
    r
  }

  lemma {:induction false} HighestExists(blocks: Blocks)
    ensures exists r :: CursorAgrees(blocks, r)
    decreases |blocks|
  {
    if blocks == map[] {
      assert CursorAgrees(blocks, None);
    } else {
      SomeHeight(blocks.Keys);
      assert blocks.Keys != {};
      var h :| h in blocks.Keys;
      var rest := blocks - {h};
      assert rest.Keys == blocks.Keys - {h};
      assert |rest.Keys| < |blocks.Keys|;
      HighestExists(rest);
      var r :| CursorAgrees(rest, r);
      assert forall i :: i in blocks ==> i == h || i in rest;
      if r.Some? && r.value.height > h {
        assert CursorAgrees(blocks, r);
      } else {
        assert CursorAgrees(blocks, Some(Tip(h, blocks[h])));
      }
    }
  }

  ghost function CursorAfter(blocks: Blocks, cursor: Option<Tip>, h: nat): (r: Option<Tip>)
    ensures CursorRolledBack(blocks, cursor, h, r)
  {
    if cursor.None? || cursor.value.height <= h then cursor else Top(BlocksUpTo(blocks, h))
  }

  /** A rollback of the whole database to height `h`. */
  ghost function Back(db: Db, h: nat): Db {
    Db(RolledBack(db.rows, h), BlocksUpTo(db.blocks, h), CursorAfter(db.blocks, db.cursor, h))
  }

  /** The application of block `b` at height `h`: upsert captures, mark spends, store the block, set the tip. */
  function Applied(db: Db, b: Block, h: nat): Db {
    Db(Marked(Upserted(db.rows, CapturesAt(b, h)), b.spends, h), db.blocks[h := b.hash], Some(Tip(h, b.hash)))
  }

  /** The database when a block application stops after `n` of its statements. */
  function HalfApplied(db: Db, b: Block, h: nat, n: nat): Db {
    var us := CapturesAt(b, h);
    if n <= |us| then db.(rows := Upserted(db.rows, us[..n]))
    else if n - |us| <= |b.spends| then db.(rows := Marked(Upserted(db.rows, us), b.spends[..n - |us|], h))
    else if n - |us| - |b.spends| == 1 then Applied(db, b, h).(cursor := db.cursor)
    else Applied(db, b, h)
  }

  /** The database when a rollback stops after `n` of its four statements. */
  ghost function HalfBack(db: Db, h: nat, n: nat): Db {
    if n == 0 then db
    else if n == 1 then db.(rows := DeletedAbove(db.rows, h))
    else if n == 2 then db.(rows := RolledBack(db.rows, h))
    else if n == 3 then Db(RolledBack(db.rows, h), BlocksUpTo(db.blocks, h), db.cursor)
    else Back(db, h)
  }

  /** The driver: it owns the stores' objects and runs one operation at a time. */
  class Scanner {
    const utxos: PgWalletUtxoStore
    const store: PgBlockStore

    constructor ()
      ensures fresh(utxos) && fresh(store) && Database() == Db(map[], map[], None)
    {
      utxos := new PgWalletUtxoStore();
      store := new PgBlockStore();
    }

    ghost function Database(): Db
      reads this, utxos, store
    {
      Db(utxos.rows, store.blocks, store.cursor)
    }

    method Apply(b: Block, h: nat) returns (ok: bool)
      modifies utxos, store
      ensures ok <==> !HashTaken(old(store.blocks), h, b.hash)
      ensures Database() == if ok then Applied(old(Database()), b, h)
                            else old(Database()).(rows := Applied(old(Database()), b, h).rows)
    {
      utxos.UpsertUtxos(CapturesAt(b, h));
      utxos.MarkSpent(b.spends, h);
      ok := store.StoreBlock(h, b.hash);
      if ok {
        store.SetSyncedTip(Tip(h, b.hash));
      }
    }

    method RollbackAbove(h: nat)
      modifies utxos, store
      ensures Database() == Back(old(Database()), h)
    {
      ghost var before := Database();
      utxos.RollbackAbove(h);
      store.RollbackAbove(h);
      CursorUnique(before.blocks, before.cursor, h, store.cursor);
    }
  }

  lemma CursorUnique(blocks: Blocks, cursor: Option<Tip>, h: nat, after: Option<Tip>)
    requires CursorRolledBack(blocks, cursor, h, after)
    ensures after == CursorAfter(blocks, cursor, h)
  {
    AgreementIsUnique(BlocksUpTo(blocks, h));
  }

  lemma AgreementIsUnique(blocks: Blocks)
    ensures forall r, q :: CursorAgrees(blocks, r) && CursorAgrees(blocks, q) ==> r == q
  {
    forall r, q | CursorAgrees(blocks, r) && CursorAgrees(blocks, q) ensures r == q {
      if r.Some? && q.Some? {
        HighestIsUnique(blocks, r.value, q.value);
      }
    }
  }

  // ---------------------------------------------------------------------------
  // Rows: undo and convergence, block by block
  // ---------------------------------------------------------------------------

  function BlockRows(rows: Rows, b: Block, h: nat): Rows {
    Marked(Upserted(rows, CapturesAt(b, h)), b.spends, h)
  }

  /** The rows when the first `n` captures and the first `m` spends of a block have been written. */
  function PartRows(rows: Rows, b: Block, h: nat, n: nat, m: nat): Rows
    requires n <= |b.found| && m <= |b.spends|
  {
    Marked(Upserted(rows, CapturesAt(b, h)[..n]), b.spends[..m], h)
  }

  function PartKeys(b: Block, h: nat, n: nat): set<Key>
    requires n <= |b.found|
  {
    KeysOf(CapturesAt(b, h)[..n])
  }

  lemma AllParts(rows: Rows, b: Block, h: nat)
    ensures PartRows(rows, b, h, |b.found|, |b.spends|) == BlockRows(rows, b, h)
    ensures PartKeys(b, h, |b.found|) == FoundKeys(b)
    ensures b.spends[..|b.spends|] == b.spends && CapturesAt(b, h)[..|b.found|] == CapturesAt(b, h)
  {
    assert CapturesAt(b, h)[..|b.found|] == CapturesAt(b, h) && b.spends[..|b.spends|] == b.spends;
    CaptureKeys(b, h);
  }

  function Spent(r: Row, h: nat): Row {
    r.(isSpent := true, spentHeight := Some(h))
  }

  /** Row by row, what part of an application does. */
  lemma PartRow(rows: Rows, b: Block, h: nat, n: nat, m: nat)
    requires n <= |b.found| && m <= |b.spends|
    ensures PartKeys(b, h, n) <= FoundKeys(b)
    ensures forall k :: k in PartRows(rows, b, h, n, m) <==> k in rows || k in PartKeys(b, h, n)
    ensures forall k :: k in rows && k !in PartKeys(b, h, n) ==>
      PartRows(rows, b, h, n, m)[k] == if k.op in b.spends[..m] then Spent(rows[k], h) else rows[k]
    ensures forall k :: k in PartKeys(b, h, n) ==>
      var row := PartRows(rows, b, h, n, m)[k];
      && row.height == h
      && LastFor(CapturesAt(b, h)[..n], k).Some? && row.data == LastFor(CapturesAt(b, h)[..n], k).value.data
      && row.isSpent == (k.op in b.spends[..m] || (k in rows && rows[k].isSpent))
      && row.spentHeight == (if k.op in b.spends[..m] then Some(h) else if k in rows then rows[k].spentHeight else None)
  {
    CaptureKeys(b, h);
    var us := CapturesAt(b, h)[..n];
    assert forall u :: u in us ==> u in CapturesAt(b, h);
    assert KeysOf(us) <= KeysOf(CapturesAt(b, h));
    assert forall k :: k in KeysOf(us) ==> LastFor(us, k).Some?;
    assert forall k :: k !in KeysOf(us) ==> LastFor(us, k).None?;
  }

  lemma BackRow(rows: Rows, r: nat)
    ensures forall k :: k in RolledBack(rows, r) <==> k in rows && rows[k].height <= r
    ensures forall k :: k in RolledBack(rows, r) ==> RolledBack(rows, r)[k] == RolledBackRow(rows[k], r)
  {
  }

  /** Nothing the block captures or spends has a trace at or below height `r`: its captures are not stored there
      and what it spends is not already spent there. */
  ghost predicate NoTrace(rows: Rows, b: Block, r: nat) {
    && (forall k :: k in rows && k in FoundKeys(b) ==> rows[k].height > r)
    && (forall k :: k in rows && k.op in b.spends ==>
          (rows[k].isSpent <==> rows[k].spentHeight.Some?)
          && (rows[k].isSpent ==> rows[k].spentHeight.value > r))
  }

  lemma PartNoTrace(rows: Rows, b: Block, h: nat, n: nat, m: nat, r: nat)
    requires NoTrace(rows, b, r) && r < h && n <= |b.found| && m <= |b.spends|
    ensures NoTrace(PartRows(rows, b, h, n, m), b, r)
  {
    hide PartRows;
    hide PartKeys;
    hide LastFor;
    hide FoundKeys;
    PartRow(rows, b, h, n, m);
    assert forall op :: op in b.spends[..m] ==> op in b.spends;
  }

  /** Any part of an application at a height above `r` is invisible after a rollback to `r`. */
  lemma PartUndone(rows: Rows, b: Block, h: nat, n: nat, m: nat, r: nat)
    requires NoTrace(rows, b, r) && r < h && n <= |b.found| && m <= |b.spends|
    ensures RolledBack(PartRows(rows, b, h, n, m), r) == RolledBack(rows, r)
    ensures NoTrace(PartRows(rows, b, h, n, m), b, r)
  {
    hide PartRows;
    hide PartKeys;
    hide RolledBack;
    hide LastFor;
    hide FoundKeys;
    PartRow(rows, b, h, n, m);
    PartNoTrace(rows, b, h, n, m, r);
    BackRow(rows, r);
    BackRow(PartRows(rows, b, h, n, m), r);
    assert forall op :: op in b.spends[..m] ==> op in b.spends;
    var mid := PartRows(rows, b, h, n, m);
    assert RolledBack(mid, r).Keys == RolledBack(rows, r).Keys;
    forall k | k in RolledBack(rows, r) ensures RolledBack(mid, r)[k] == RolledBack(rows, r)[k] {
      assert k !in PartKeys(b, h, n);
    }
  }

  /** Rows scanned to height `r`: nothing above it, and the two spent columns agree. */
  ghost predicate ScannedTo(rows: Rows, r: nat) {
    forall k :: k in rows ==>
      && rows[k].height <= r
      && (rows[k].isSpent <==> rows[k].spentHeight.Some?)
      && (rows[k].isSpent ==> rows[k].spentHeight.value <= r)
  }

  lemma RecaptureIsLost(rows: Rows, b: Block, h: nat, r: nat, k: Key)
    requires r < h && k in FoundKeys(b)
    ensures k !in RolledBack(BlockRows(rows, b, h), r)
  {
    hide PartRows;
    hide PartKeys;
    hide RolledBack;
    hide BlockRows;
    hide FoundKeys;
    AllParts(rows, b, h);
    PartRow(rows, b, h, |b.found|, |b.spends|);
    BackRow(BlockRows(rows, b, h), r);
  }

  lemma RespendIsRevived(rows: Rows, b: Block, h: nat, r: nat, k: Key)
    requires r < h && k in rows && k !in FoundKeys(b) && k.op in b.spends && rows[k].height <= r
    ensures k in RolledBack(BlockRows(rows, b, h), r) && !RolledBack(BlockRows(rows, b, h), r)[k].isSpent
  {
    hide PartRows;
    hide PartKeys;
    hide RolledBack;
    hide BlockRows;
    hide FoundKeys;
    AllParts(rows, b, h);
    PartRow(rows, b, h, |b.found|, |b.spends|);
    BackRow(BlockRows(rows, b, h), r);
  }

  lemma ScannedStays(rows: Rows, r: nat)
    requires ScannedTo(rows, r)
    ensures RolledBack(rows, r) == rows
  {
    hide RolledBack;
    BackRow(rows, r);
    assert RolledBack(rows, r).Keys == rows.Keys;
  }

  /** The block re-captures no stored output and re-spends no spent one. */
  ghost predicate Untouched(rows: Rows, b: Block) {
    && (forall k :: k in FoundKeys(b) ==> k !in rows)
    && (forall k :: k in rows && k.op in b.spends ==> !rows[k].isSpent)
  }

  /** Rolling back exactly undoes a block, if and only if the block re-captures no stored output and re-spends
      no spent one; the rows are any rows scanned to a height below the block's. */
  lemma UndoIff(rows: Rows, b: Block, h: nat, r: nat)
    requires r < h && ScannedTo(rows, r)
    ensures RolledBack(BlockRows(rows, b, h), r) == rows
            <==> Untouched(rows, b)
  {
    hide RolledBack;
    hide BlockRows;
    hide PartRows;
    hide FoundKeys;
    if k :| k in FoundKeys(b) && k in rows {
      RecaptureIsLost(rows, b, h, r, k);
    } else if k :| k in rows && k.op in b.spends && rows[k].isSpent {
      RespendIsRevived(rows, b, h, r, k);
    } else {
      AllParts(rows, b, h);
      ScannedStays(rows, r);
      PartUndone(rows, b, h, |b.found|, |b.spends|, r);
    }
  }

  /** The rows after a sequence of blocks, the first of them at height `h`. */
  function Extended(rows: Rows, blocks: seq<Block>, h: nat): Rows {
    if blocks == [] then rows
    else BlockRows(Extended(rows, blocks[..|blocks| - 1], h), blocks[|blocks| - 1], h + |blocks| - 1)
  }

  /** In every row the two spent columns agree, and what is new is spent above `r` if at all. */
  ghost predicate SpentAbove(rows: Rows, after: Rows, r: nat) {
    forall k :: k in after ==>
      && (after[k].isSpent <==> after[k].spentHeight.Some?)
      && (k !in rows && after[k].isSpent ==> after[k].spentHeight.value > r)
  }

  /** Rolling back exactly undoes any sequence of blocks above the height the rows were scanned to. */
  lemma {:induction false} UndoAll(rows: Rows, blocks: seq<Block>, h: nat, r: nat)
    requires r < h && ScannedTo(rows, r) && forall i :: 0 <= i < |blocks| ==> Untouched(rows, blocks[i])
    ensures RolledBack(Extended(rows, blocks, h), r) == rows
    ensures SpentAbove(rows, Extended(rows, blocks, h), r)
  {
    hide RolledBack;
    hide BlockRows;
    hide PartRows;
    hide PartKeys;
    hide FoundKeys;
    hide LastFor;
    hide NoTrace;
    hide SpentAbove;
    if blocks == [] {
      ScannedStays(rows, r);
      ScannedIsSpentAbove(rows, r);
    } else {
      var init, b, top := blocks[..|blocks| - 1], blocks[|blocks| - 1], h + |blocks| - 1;
      var mid := Extended(rows, init, h);
      UndoAll(rows, init, h, r);
      NoTraceOf(rows, mid, b, r);
      AllParts(mid, b, top);
      PartUndone(mid, b, top, |b.found|, |b.spends|, r);
      SpentAboveNext(rows, mid, b, top, r);
    }
  }

  lemma ScannedIsSpentAbove(rows: Rows, r: nat)
    requires ScannedTo(rows, r)
    ensures SpentAbove(rows, rows, r)
  {
  }

  lemma SpentAboveNext(rows: Rows, mid: Rows, b: Block, h: nat, r: nat)
    requires SpentAbove(rows, mid, r) && r < h
    ensures SpentAbove(rows, BlockRows(mid, b, h), r)
  {
    hide BlockRows;
    hide PartRows;
    hide PartKeys;
    hide FoundKeys;
    hide LastFor;
    AllParts(mid, b, h);
    PartRow(mid, b, h, |b.found|, |b.spends|);
  }

  lemma NoTraceOf(rows: Rows, mid: Rows, b: Block, r: nat)
    requires RolledBack(mid, r) == rows && SpentAbove(rows, mid, r) && Untouched(rows, b)
    ensures NoTrace(mid, b, r)
  {
    hide RolledBack;
    hide FoundKeys;
    BackRow(mid, r);
    forall k | k in mid && k.op in b.spends && mid[k].isSpent ensures mid[k].spentHeight.value > r {
      if k in rows {
        assert rows[k] == RolledBackRow(mid[k], r);
      }
    }
  }

  /** Re-running a block application after it stopped anywhere gives the uninterrupted result. */
  lemma ApplyConverges(db: Db, b: Block, h: nat, n: nat)
    ensures Applied(HalfApplied(db, b, h, n), b, h) == Applied(db, b, h)
  {
    hide Upserted;
    hide Marked;
    hide CapturesAt;
    var us := CapturesAt(b, h);
    var half := HalfApplied(db, b, h, n);
    if n <= |us| {
      UpsertConverges(db.rows, us, n);
    } else {
      var m := if n - |us| <= |b.spends| then n - |us| else |b.spends|;
      assert b.spends[..|b.spends|] == b.spends;
      assert half.rows == Marked(Upserted(db.rows, us), b.spends[..m], h);
      RowsConverge(db.rows, us, b.spends, m, h);
    }
  }

  lemma RowsConverge(rows: Rows, us: seq<Captured>, ops: seq<OutPoint>, m: nat, h: nat)
    requires m <= |ops|
    ensures Marked(Upserted(Marked(Upserted(rows, us), ops[..m], h), us), ops, h) == Marked(Upserted(rows, us), ops, h)
  {
    assert forall op :: op in ops[..m] ==> op in ops;
    var once := Upserted(rows, us);
    var part := Marked(once, ops[..m], h);
    assert part.Keys == rows.Keys + KeysOf(us);
    var again, whole := Marked(Upserted(part, us), ops, h), Marked(once, ops, h);
    assert again.Keys == whole.Keys;
    forall k | k in whole ensures again[k] == whole[k] {
    }
  }

  lemma BlockRow(rows: Rows, c: Block, h: nat)
    ensures forall k :: k in BlockRows(rows, c, h) <==> k in rows || k in FoundKeys(c)
    ensures forall k :: k in rows && k !in FoundKeys(c) ==>
      BlockRows(rows, c, h)[k] == if k.op in c.spends then Spent(rows[k], h) else rows[k]
    ensures forall k :: k in FoundKeys(c) ==>
      LastFor(CapturesAt(c, h), k).Some? && BlockRows(rows, c, h)[k]
      == Row(LastFor(CapturesAt(c, h), k).value.data, h, k.op in c.spends || (k in rows && rows[k].isSpent),
             if k.op in c.spends then Some(h) else if k in rows then rows[k].spentHeight else None)
  {
    AllParts(rows, c, h);
    PartRow(rows, c, h, |c.found|, |c.spends|);
    hide PartRows;
    hide FoundKeys;
    forall k | k in FoundKeys(c)
      ensures LastFor(CapturesAt(c, h), k).Some?
      ensures BlockRows(rows, c, h)[k]
              == Row(LastFor(CapturesAt(c, h), k).value.data, h, k.op in c.spends || (k in rows && rows[k].isSpent),
                     if k.op in c.spends then Some(h) else if k in rows then rows[k].spentHeight else None)
    {
    }
  }

  lemma LeftoversCovered(rows: Rows, b: Block, c: Block, h: nat, n: nat, m: nat)
    requires n <= |b.found| && m <= |b.spends|
    requires forall k :: k in PartKeys(b, h, n) ==> k !in rows && k in FoundKeys(c)
    requires forall k :: k in PartRows(rows, b, h, n, m) && k.op in b.spends[..m] ==> k.op in c.spends
    ensures BlockRows(PartRows(rows, b, h, n, m), c, h) == BlockRows(rows, c, h)
  {
    hide PartRows;
    hide PartKeys;
    hide BlockRows;
    hide FoundKeys;
    hide LastFor;
    var half := PartRows(rows, b, h, n, m);
    PartRow(rows, b, h, n, m);
    BlockRow(half, c, h);
    BlockRow(rows, c, h);
    assert BlockRows(half, c, h).Keys == BlockRows(rows, c, h).Keys;
  }

  lemma LeftoverSeen(rows: Rows, b: Block, c: Block, h: nat, n: nat, m: nat, k: Key)
    requires n <= |b.found| && m <= |b.spends|
    requires forall k :: k in FoundKeys(b) ==> k !in rows
    requires forall k :: k in rows && k.op in b.spends ==> !rows[k].isSpent
    requires || (k in PartKeys(b, h, n) && k !in FoundKeys(c))
             || (k in PartRows(rows, b, h, n, m) && k.op in b.spends[..m] && k.op !in c.spends)
    ensures BlockRows(PartRows(rows, b, h, n, m), c, h) != BlockRows(rows, c, h)
  {
    hide PartRows;
    hide PartKeys;
    hide BlockRows;
    hide FoundKeys;
    hide LastFor;
    var half := PartRows(rows, b, h, n, m);
    PartRow(rows, b, h, n, m);
    BlockRow(half, c, h);
    BlockRow(rows, c, h);
    assert forall op :: op in b.spends[..m] ==> op in b.spends;
    if k in PartKeys(b, h, n) && k !in FoundKeys(c) {
      assert k in BlockRows(half, c, h) && k !in BlockRows(rows, c, h);
    } else {
      assert half[k].isSpent && BlockRows(half, c, h)[k].isSpent;
      assert k in BlockRows(rows, c, h) ==> !BlockRows(rows, c, h)[k].isSpent;
    }
  }

  /** Applying a different block over what a half-applied one left behind is right exactly when it captures
      every output and spends every row that the first one had already touched. */
  lemma LeftoversIff(rows: Rows, b: Block, c: Block, h: nat, n: nat, m: nat)
    requires n <= |b.found| && m <= |b.spends|
    requires forall k :: k in FoundKeys(b) ==> k !in rows
    requires forall k :: k in rows && k.op in b.spends ==> !rows[k].isSpent
    ensures var half := PartRows(rows, b, h, n, m);
            BlockRows(half, c, h) == BlockRows(rows, c, h)
            <==> (forall k :: k in PartKeys(b, h, n) ==> k in FoundKeys(c))
                 && (forall k :: k in half && k.op in b.spends[..m] ==> k.op in c.spends)
  {
    hide PartRows;
    hide PartKeys;
    hide BlockRows;
    hide FoundKeys;
    PartRow(rows, b, h, n, m);
    if k :| k in PartKeys(b, h, n) && k !in FoundKeys(c) {
      LeftoverSeen(rows, b, c, h, n, m, k);
    } else if k :| k in PartRows(rows, b, h, n, m) && k.op in b.spends[..m] && k.op !in c.spends {
      LeftoverSeen(rows, b, c, h, n, m, k);
    } else {
      LeftoversCovered(rows, b, c, h, n, m);
    }
  }

  // ---------------------------------------------------------------------------
  // Replay
  // ---------------------------------------------------------------------------

  /** The tables after a plain replay of a chain whose first block is at height `base`. */
  function Replay(base: nat, chain: seq<Block>): Db {
    if chain == [] then Db(map[], map[], None)
    else Applied(Replay(base, chain[..|chain| - 1]), chain[|chain| - 1], base + |chain| - 1)
  }

  /** A block that can follow: its outputs are new, what it spends is unspent, its hash is new. */
  ghost predicate Follows(base: nat, chain: seq<Block>, b: Block) {
    && (forall k :: k in FoundKeys(b) ==> k !in Replay(base, chain).rows)
    && (forall k :: k in Replay(base, chain).rows && k.op in b.spends ==> !Replay(base, chain).rows[k].isSpent)
    && (forall i :: 0 <= i < |chain| ==> chain[i].hash != b.hash)
    && (forall i, k :: 0 <= i < |chain| && k in FoundKeys(b) ==> k.op !in chain[i].spends)
  }

  ghost predicate ChainOk(base: nat, chain: seq<Block>) {
    chain == [] || (ChainOk(base, chain[..|chain| - 1]) && Follows(base, chain[..|chain| - 1], chain[|chain| - 1]))
  }

  lemma ReplayStep(base: nat, chain: seq<Block>)
    requires ChainOk(base, chain)
    ensures chain == [] ==> Replay(base, chain).rows == map[]
    ensures chain != [] ==>
      var init, b := chain[..|chain| - 1], chain[|chain| - 1];
      && Replay(base, chain) == Applied(Replay(base, init), b, base + |init|)
      && Replay(base, chain).rows == BlockRows(Replay(base, init).rows, b, base + |init|)
      && ChainOk(base, init) && Follows(base, init, b)
      && (forall k :: k in FoundKeys(b) ==> k !in Replay(base, init).rows)
  {
  }

  /** Every row of a replay: captured and spent within the chain, in that order, spent flag and height agreeing. */
  lemma {:induction false} ReplayRows(base: nat, chain: seq<Block>)
    requires ChainOk(base, chain)
    ensures forall k :: k in Replay(base, chain).rows ==>
      var row := Replay(base, chain).rows[k];
      && base <= row.height < base + |chain|
      && (row.isSpent <==> row.spentHeight.Some?)
      && (row.isSpent ==> row.height <= row.spentHeight.value < base + |chain|)
  {
    hide PartRows;
    hide PartKeys;
    hide BlockRows;
    hide FoundKeys;
    hide LastFor;
    hide Applied;
    hide Follows;
    ReplayStep(base, chain);
    if chain != [] {
      var init, b := chain[..|chain| - 1], chain[|chain| - 1];
      var h := base + |init|;
      ReplayRows(base, init);
      AllParts(Replay(base, init).rows, b, h);
      PartRow(Replay(base, init).rows, b, h, |b.found|, |b.spends|);
    }
  }

  ghost predicate FoundOn(chain: seq<Block>, k: Key) {
    exists i :: 0 <= i < |chain| && k in FoundKeys(chain[i])
  }

  ghost predicate SpentOn(chain: seq<Block>, op: OutPoint) {
    exists i :: 0 <= i < |chain| && op in chain[i].spends
  }

  lemma OnSnoc(chain: seq<Block>, b: Block, k: Key)
    ensures FoundOn(chain + [b], k) <==> FoundOn(chain, k) || k in FoundKeys(b)
    ensures SpentOn(chain + [b], k.op) <==> SpentOn(chain, k.op) || k.op in b.spends
  {
    var all := chain + [b];
    if i :| 0 <= i < |chain| && k in FoundKeys(chain[i]) {
      assert all[i] == chain[i];
    }
    if i :| 0 <= i < |chain| && k.op in chain[i].spends {
      assert all[i] == chain[i];
    }
    assert all[|chain|] == b;
  }

  /** The unspent rows are exactly the outputs found along the chain and not spent on it. */
  lemma {:induction false} UnspentIsFoundNotSpent(base: nat, chain: seq<Block>, k: Key)
    requires ChainOk(base, chain)
    ensures k in Replay(base, chain).rows <==> FoundOn(chain, k)
    ensures k in Unspent(Replay(base, chain).rows) <==> FoundOn(chain, k) && !SpentOn(chain, k.op)
  {
    if chain != [] {
      var init, b := chain[..|chain| - 1], chain[|chain| - 1];
      assert chain == init + [b];
      UnspentIsFoundNotSpent(base, init, k);
      OnSnoc(init, b, k);
      var h := base + |init|;
      var rows := Replay(base, init).rows;
      AllParts(rows, b, h);
      PartRow(rows, b, h, |b.found|, |b.spends|);
      assert Replay(base, chain).rows == BlockRows(rows, b, h);
      if k in FoundKeys(b) {
        assert !SpentOn(init, k.op);
      }
      hide PartRows;
      hide PartKeys;
      hide BlockRows;
      hide Replay;
      hide FoundKeys;
      hide LastFor;
    }
  }

  /** What an unspent row holds is what the block that captured it found. */
  lemma {:induction false} UnspentData(base: nat, chain: seq<Block>, k: Key)
    requires ChainOk(base, chain) && k in Replay(base, chain).rows
    ensures var row := Replay(base, chain).rows[k];
            base <= row.height < base + |chain|
            && Found(k.wallet, k.op, row.data) in chain[row.height - base].found
  {
    hide BlockRows;
    hide Replay;
    hide ChainOk;
    hide FoundKeys;
    hide Follows;
    hide Applied;
    hide LastFor;
    ReplayStep(base, chain);
    ReplayRows(base, chain);
    if chain != [] {
      var init, b := chain[..|chain| - 1], chain[|chain| - 1];
      var h := base + |init|;
      BlockRow(Replay(base, init).rows, b, h);
      if k in Replay(base, init).rows {
        UnspentData(base, init, k);
      } else {
        FoundInBlock(b, h, k);
      }
    }
  }

  lemma FoundInBlock(b: Block, h: nat, k: Key)
    requires k in FoundKeys(b)
    ensures LastFor(CapturesAt(b, h), k).Some?
    ensures Found(k.wallet, k.op, LastFor(CapturesAt(b, h), k).value.data) in b.found
  {
    CaptureKeys(b, h);
    var us := CapturesAt(b, h);
    var u := LastFor(us, k).value;
    var i :| 0 <= i < |us| && us[i] == u;
    assert b.found[i] == Found(k.wallet, k.op, u.data);
  }

  lemma {:induction false} ReplayBlocks(base: nat, chain: seq<Block>)
    ensures forall i :: i in Replay(base, chain).blocks <==> base <= i < base + |chain|
    ensures forall i :: 0 <= i < |chain| ==> Replay(base, chain).blocks[base + i] == chain[i].hash
    ensures Replay(base, chain).cursor
            == if chain == [] then None else Some(Tip(base + |chain| - 1, chain[|chain| - 1].hash))
    ensures CursorAgrees(Replay(base, chain).blocks, Replay(base, chain).cursor)
  {
    if chain != [] {
      ReplayBlocks(base, chain[..|chain| - 1]);
    }
  }

  // ---------------------------------------------------------------------------
  // Rollback of a replay is a replay of the prefix
  // ---------------------------------------------------------------------------

  /** The blocks at heights up to `h`. */
  function Prefix(base: nat, chain: seq<Block>, h: nat): seq<Block>
    requires base <= h + 1
  {
    if h + 1 - base < |chain| then chain[..h + 1 - base] else chain
  }

  lemma AboveTipIsNothing(base: nat, chain: seq<Block>, h: nat)
    requires ChainOk(base, chain) && base + |chain| <= h + 1
    ensures Back(Replay(base, chain), h) == Replay(base, chain)
  {
    hide RolledBack;
    hide Replay;
    hide ChainOk;
    ReplayRows(base, chain);
    ReplayBlocks(base, chain);
    BackRow(Replay(base, chain).rows, h);
    assert RolledBack(Replay(base, chain).rows, h) == Replay(base, chain).rows;
    assert BlocksUpTo(Replay(base, chain).blocks, h) == Replay(base, chain).blocks;
  }

  lemma ReplayNoTrace(base: nat, chain: seq<Block>, b: Block, r: nat)
    requires ChainOk(base, chain) && Follows(base, chain, b)
    ensures NoTrace(Replay(base, chain).rows, b, r)
  {
    ReplayRows(base, chain);
  }

  lemma BackBlocks(base: nat, chain: seq<Block>, h: nat)
    requires chain != [] && base <= h + 1 && h + 1 < base + |chain|
    ensures var db, before := Replay(base, chain), Replay(base, chain[..|chain| - 1]);
            && BlocksUpTo(db.blocks, h) == BlocksUpTo(before.blocks, h)
            && CursorAfter(db.blocks, db.cursor, h) == CursorAfter(before.blocks, before.cursor, h)
  {
    hide Upserted;
    hide Marked;
    var init := chain[..|chain| - 1];
    var db, before := Replay(base, chain), Replay(base, init);
    ReplayBlocks(base, chain);
    ReplayBlocks(base, init);
    assert BlocksUpTo(db.blocks, h) == BlocksUpTo(before.blocks, h);
    if h + 1 == base + |init| {
      assert BlocksUpTo(before.blocks, h) == before.blocks;
    }
    AgreementIsUnique(BlocksUpTo(before.blocks, h));
  }

  /** Rolling a replay back to any height is the replay of the blocks up to it: scan, roll back and scan again
      equals the second scan alone. */
  lemma {:induction false} BackIsReplay(base: nat, chain: seq<Block>, h: nat)
    requires ChainOk(base, chain) && base <= h + 1
    ensures Back(Replay(base, chain), h) == Replay(base, Prefix(base, chain, h))
    ensures ChainOk(base, Prefix(base, chain, h))
  {
    hide PartRows;
    hide BlockRows;
    hide RolledBack;
    hide NoTrace;
    hide ChainOk;
    hide Follows;
    hide Replay;
    hide Applied;
    if base + |chain| <= h + 1 {
      AboveTipIsNothing(base, chain, h);
    } else {
      ReplayStep(base, chain);
      var init, b := chain[..|chain| - 1], chain[|chain| - 1];
      var top := base + |init|;
      var rows := Replay(base, init).rows;
      BackIsReplay(base, init, h);
      assert Prefix(base, chain, h) == Prefix(base, init, h);
      ReplayNoTrace(base, init, b, h);
      AllParts(rows, b, top);
      PartUndone(rows, b, top, |b.found|, |b.spends|, h);
      BackBlocks(base, chain, h);
    }
  }

  // ---------------------------------------------------------------------------
  // Runs with crashes
  // ---------------------------------------------------------------------------

  datatype Event =
    | Apply(b: Block)
    | CrashInApply(b: Block, n: nat)
    | Rollback(h: nat)
    | CrashInRollback(h: nat, n: nat)

  /** What has to be finished or rolled back before anything else. */
  datatype Phase = Idle | Applying(b: Block) | RollingBack(h: nat)

  datatype State = State(db: Db, chain: seq<Block>, phase: Phase)

  ghost function Initial(): State {
    State(Db(map[], map[], None), [], Idle)
  }

  /** An interrupted application is run again or rolled back to the tip or below; an interrupted rollback is run
      again, to the same height or below. */
  ghost predicate Allowed(base: nat, s: State, e: Event) {
    match e
    case Apply(b) => Follows(base, s.chain, b) && (s.phase.Idle? || s.phase == Applying(b))
    case CrashInApply(b, _) => Follows(base, s.chain, b) && (s.phase.Idle? || s.phase == Applying(b))
    case Rollback(h) => CanRollTo(base, s, h)
    case CrashInRollback(h, _) => CanRollTo(base, s, h)
  }

  predicate CanRollTo(base: nat, s: State, h: nat) {
    && base <= h + 1
    && (s.phase.Applying? ==> h < base + |s.chain|)
    && (s.phase.RollingBack? ==> h <= s.phase.h)
  }

  ghost function Next(base: nat, s: State, e: Event): State
    requires Allowed(base, s, e)
  {
    match e
    case Apply(b) => State(Applied(s.db, b, base + |s.chain|), s.chain + [b], Idle)
    case CrashInApply(b, n) => State(HalfApplied(s.db, b, base + |s.chain|, n), s.chain, Applying(b))
    case Rollback(h) => State(Back(s.db, h), Prefix(base, s.chain, h), Idle)
    case CrashInRollback(h, n) => State(HalfBack(s.db, h, n), s.chain, RollingBack(h))
  }

  /** A rollback to any admissible height up to `limit` gives the replay of the prefix. */
  ghost predicate Recoverable(base: nat, db: Db, chain: seq<Block>, limit: int) {
    forall r: nat :: base <= r + 1 && r <= limit ==> Back(db, r) == Replay(base, Prefix(base, chain, r))
  }

  ghost predicate Inv(base: nat, s: State) {
    && ChainOk(base, s.chain)
    && match s.phase
       case Idle => s.db == Replay(base, s.chain)
       case Applying(b) =>
         && Follows(base, s.chain, b)
         && Applied(s.db, b, base + |s.chain|) == Replay(base, s.chain + [b])
         && (forall r: nat :: r < base + |s.chain| ==> NoTrace(s.db.rows, b, r))
         && Recoverable(base, s.db, s.chain, base + |s.chain| - 1)
       case RollingBack(h) => Recoverable(base, s.db, s.chain, h)
  }

  lemma ChainSnoc(base: nat, chain: seq<Block>, b: Block)
    requires ChainOk(base, chain) && Follows(base, chain, b)
    ensures ChainOk(base, chain + [b])
    ensures Replay(base, chain + [b]) == Applied(Replay(base, chain), b, base + |chain|)
  {
    hide Applied;
    hide Follows;
    assert (chain + [b])[..|chain|] == chain;
  }

  /** A state between operations can be rolled back to anywhere. */
  lemma IdleRecoverable(base: nat, s: State, limit: int)
    requires Inv(base, s) && s.phase.Idle?
    ensures Recoverable(base, s.db, s.chain, limit)
  {
    forall r: nat | base <= r + 1 && r <= limit ensures Back(s.db, r) == Replay(base, Prefix(base, s.chain, r)) {
      BackIsReplay(base, s.chain, r);
    }
  }

  /** The rows of a half-applied block, as parts. */
  lemma HalfAppliedParts(db: Db, b: Block, h: nat, n: nat) returns (i: nat, j: nat)
    ensures i <= |b.found| && j <= |b.spends|
    ensures HalfApplied(db, b, h, n).rows == PartRows(db.rows, b, h, i, j)
  {
    hide Upserted;
    hide Marked;
    var us := CapturesAt(b, h);
    i := if n <= |us| then n else |us|;
    j := if n <= |us| then 0 else if n - |us| <= |b.spends| then n - |us| else |b.spends|;
    assert us[..|us|] == us && b.spends[..|b.spends|] == b.spends;
    MarkNothing(Upserted(db.rows, us[..i]), h);
    assert b.spends[..0] == [];
  }

  lemma MarkNothing(rows: Rows, h: nat)
    ensures Marked(rows, [], h) == rows
  {
  }

  /** Statements of an application above `r` leave the rollback to `r` what it was. */
  lemma HalfAppliedUndone(db: Db, b: Block, h: nat, n: nat, r: nat)
    requires NoTrace(db.rows, b, r) && r < h
    ensures NoTrace(HalfApplied(db, b, h, n).rows, b, r)
    ensures RolledBack(HalfApplied(db, b, h, n).rows, r) == RolledBack(db.rows, r)
    ensures CursorAgrees(BlocksUpTo(db.blocks, r), CursorAfter(db.blocks, db.cursor, r)) ==>
      Back(HalfApplied(db, b, h, n), r) == Back(db, r)
  {
    var i, j := HalfAppliedParts(db, b, h, n);
    PartUndone(db.rows, b, h, i, j, r);
    hide PartRows;
    hide NoTrace;
    hide RolledBack;
    HalfAppliedBlocks(db, b, h, n, r);
  }

  lemma HalfAppliedBlocks(db: Db, b: Block, h: nat, n: nat, r: nat)
    requires r < h
    ensures var half := HalfApplied(db, b, h, n);
            && BlocksUpTo(half.blocks, r) == BlocksUpTo(db.blocks, r)
            && (CursorAgrees(BlocksUpTo(db.blocks, r), CursorAfter(db.blocks, db.cursor, r)) ==>
                  CursorAfter(half.blocks, half.cursor, r) == CursorAfter(db.blocks, db.cursor, r))
  {
    hide Upserted;
    hide Marked;
    assert BlocksUpTo(HalfApplied(db, b, h, n).blocks, r) == BlocksUpTo(db.blocks, r);
    AgreementIsUnique(BlocksUpTo(db.blocks, r));
  }

  /** Statements of a rollback to `h` leave the rollback to any `r` at or below `h` what it was. */
  lemma HalfBackUndone(db: Db, h: nat, n: nat, r: nat)
    requires r <= h
    ensures Back(HalfBack(db, h, n), r) == Back(db, r)
  {
    hide RolledBack;
    hide DeletedAbove;
    hide CursorAfter;
    hide BlocksUpTo;
    HalfBackRows(db.rows, h, r);
    BlocksTwice(db.blocks, h, r);
    HalfBackCursor(db.blocks, db.cursor, h, r);
  }

  lemma BlocksTwice(blocks: Blocks, h: nat, r: nat)
    requires r <= h
    ensures BlocksUpTo(BlocksUpTo(blocks, h), r) == BlocksUpTo(blocks, r)
  {
  }

  lemma HalfBackRows(rows: Rows, h: nat, r: nat)
    requires r <= h
    ensures RolledBack(DeletedAbove(rows, h), r) == RolledBack(rows, r)
    ensures RolledBack(RolledBack(rows, h), r) == RolledBack(rows, r)
  {
    RollbacksCompose(rows, h, r);
    RolledBackRows(DeletedAbove(rows, h), r);
    RolledBackRows(rows, r);
  }

  lemma HalfBackCursor(blocks: Blocks, cursor: Option<Tip>, h: nat, r: nat)
    requires r <= h
    ensures CursorAfter(BlocksUpTo(blocks, h), cursor, r) == CursorAfter(blocks, cursor, r)
    ensures CursorAfter(BlocksUpTo(blocks, h), CursorAfter(blocks, cursor, h), r) == CursorAfter(blocks, cursor, r)
  {
    assert BlocksUpTo(BlocksUpTo(blocks, h), r) == BlocksUpTo(blocks, r);
    var mid := CursorAfter(blocks, cursor, h);
    var after := CursorAfter(BlocksUpTo(blocks, h), mid, r);
    BlockRollbacksCompose(blocks, cursor, h, r, mid, after);
    CursorUnique(blocks, cursor, r, after);
  }

  lemma RecoverableCursor(base: nat, db: Db, chain: seq<Block>, r: nat)
    requires Back(db, r) == Replay(base, chain)
    ensures CursorAgrees(BlocksUpTo(db.blocks, r), CursorAfter(db.blocks, db.cursor, r))
  {
    ReplayBlocks(base, chain);
  }

  lemma CrashInApplyKeeps(base: nat, s: State, b: Block, n: nat)
    requires Inv(base, s) && Allowed(base, s, CrashInApply(b, n))
    ensures Inv(base, Next(base, s, CrashInApply(b, n)))
  {
    hide HalfApplied;
    hide Applied;
    hide Replay;
    hide Back;
    hide NoTrace;
    hide Follows;
    hide ChainOk;
    var h := base + |s.chain|;
    var half := HalfApplied(s.db, b, h, n);
    CanBeResumed(base, s, b);
    ApplyConverges(s.db, b, h, n);
    forall r: nat | r < h ensures NoTrace(half.rows, b, r) {
      HalfAppliedUndone(s.db, b, h, n, r);
    }
    forall r: nat | base <= r + 1 && r <= h - 1 ensures Back(half, r) == Replay(base, Prefix(base, s.chain, r)) {
      RecoverableCursor(base, s.db, Prefix(base, s.chain, r), r);
      HalfAppliedUndone(s.db, b, h, n, r);
    }
  }

  /** A state in which `b` may be applied satisfies what the invariant asks of an interrupted application. */
  lemma CanBeResumed(base: nat, s: State, b: Block)
    requires Inv(base, s) && Allowed(base, s, Apply(b))
    ensures Applied(s.db, b, base + |s.chain|) == Replay(base, s.chain + [b])
    ensures forall r: nat :: r < base + |s.chain| ==> NoTrace(s.db.rows, b, r)
    ensures Recoverable(base, s.db, s.chain, base + |s.chain| - 1)
  {
    hide Applied;
    hide Replay;
    hide Recoverable;
    hide NoTrace;
    hide Follows;
    hide ChainOk;
    if s.phase.Idle? {
      ChainSnoc(base, s.chain, b);
      IdleRecoverable(base, s, base + |s.chain| - 1);
      forall r: nat ensures NoTrace(s.db.rows, b, r) {
        ReplayNoTrace(base, s.chain, b, r);
      }
    }
  }

  lemma CrashInRollbackKeeps(base: nat, s: State, h: nat, n: nat)
    requires Inv(base, s) && Allowed(base, s, CrashInRollback(h, n))
    ensures Inv(base, Next(base, s, CrashInRollback(h, n)))
  {
    if s.phase.Idle? {
      IdleRecoverable(base, s, h);
    }
    var half := HalfBack(s.db, h, n);
    forall r: nat | base <= r + 1 && r <= h ensures Back(half, r) == Replay(base, Prefix(base, s.chain, r)) {
      HalfBackUndone(s.db, h, n, r);
    }
  }

  lemma ApplyKeeps(base: nat, s: State, b: Block)
    requires Inv(base, s) && Allowed(base, s, Apply(b))
    ensures Inv(base, Next(base, s, Apply(b)))
  {
    hide Applied;
    hide Replay;
    hide Recoverable;
    hide NoTrace;
    hide Follows;
    hide ChainOk;
    CanBeResumed(base, s, b);
    ChainSnoc(base, s.chain, b);
  }

  lemma RollbackKeeps(base: nat, s: State, h: nat)
    requires Inv(base, s) && Allowed(base, s, Rollback(h))
    ensures Inv(base, Next(base, s, Rollback(h)))
  {
    hide Applied;
    hide Replay;
    hide NoTrace;
    hide Follows;
    hide ChainOk;
    hide Back;
    if s.phase.Idle? {
      IdleRecoverable(base, s, h);
    }
    BackIsReplay(base, s.chain, h);
  }

  /** Every event keeps the invariant. */
  lemma NextKeeps(base: nat, s: State, e: Event)
    requires Inv(base, s) && Allowed(base, s, e)
    ensures Inv(base, Next(base, s, e))
  {
    hide *;
    match e
    case Apply(b) =>
      ApplyKeeps(base, s, b);
    case CrashInApply(b, n) =>
      CrashInApplyKeeps(base, s, b, n);
    case Rollback(h) =>
      RollbackKeeps(base, s, h);
    case CrashInRollback(h, n) =>
      CrashInRollbackKeeps(base, s, h, n);
  }

  /** The states after a run of events. */
  ghost predicate Run(base: nat, events: seq<Event>, s: State) {
    if events == [] then s == Initial()
    else exists t {:trigger Run(base, events[..|events| - 1], t)} :: Run(base, events[..|events| - 1], t)
                     && Allowed(base, t, events[|events| - 1]) && s == Next(base, t, events[|events| - 1])
  }

  /** Refinement: after any run of applications, rollbacks, crashes and re-runs that is not in the middle of an
      operation, the tables are the replay of the current best chain: `list_unspent` and `unspent_outpoints` are
      what was found and not spent on it, and the cursor is its tip. */
  lemma {:induction false} TablesRefineReplay(base: nat, events: seq<Event>, s: State)
    requires Run(base, events, s)
    ensures Inv(base, s)
    ensures s.phase.Idle? ==> s.db == Replay(base, s.chain) && CursorAgrees(s.db.blocks, s.db.cursor)
    ensures s.phase.Idle? ==>
      forall k :: k in Unspent(s.db.rows) <==> FoundOn(s.chain, k) && !SpentOn(s.chain, k.op)
  {
    if events != [] {
      var t :| Run(base, events[..|events| - 1], t)
               && Allowed(base, t, events[|events| - 1]) && s == Next(base, t, events[|events| - 1]);
      TablesRefineReplay(base, events[..|events| - 1], t);
      NextKeeps(base, t, events[|events| - 1]);
    }
    if s.phase.Idle? {
      ReplayBlocks(base, s.chain);
      forall k ensures k in Unspent(s.db.rows) <==> FoundOn(s.chain, k) && !SpentOn(s.chain, k.op) {
        UnspentIsFoundNotSpent(base, s.chain, k);
      }
    }
  }

  /** Not the height an interrupted operation is working on. */
  predicate Settled(base: nat, s: State, h: nat) {
    match s.phase
    case Idle => true
    case Applying(_) => h != base + |s.chain|
    case RollingBack(to) => h <= to
  }

  /** What the stored hashes say after any run, in the middle of an operation too: at every height not being worked on,
      the hash of the best chain's block there, and nothing where it has none. */
  lemma {:induction false} StoredHash(base: nat, events: seq<Event>, s: State, h: nat)
    requires Run(base, events, s) && base <= h && Settled(base, s, h)
    ensures HashAt(s.db.blocks, h) == if h < base + |s.chain| then Some(s.chain[h - base].hash) else None
  {
    hide Run;
    hide Inv;
    hide Replay;
    hide Unspent;
    TablesRefineReplay(base, events, s);
    if s.phase.Applying? && h > base + |s.chain| {
      NothingAboveApplied(base, s, h);
    } else {
      SettledIsReplay(base, s, h);
      ReplayBlocks(base, Prefix(base, s.chain, h));
      assert h in BlocksUpTo(s.db.blocks, h) <==> h in s.db.blocks;
    }
  }

  /** The stored hash at a settled height, after any run that has led the stores to where they are. */
  method HashOf(scanner: Scanner, h: nat, ghost base: nat, ghost events: seq<Event>, ghost s: State) returns (r: Option<BlockHash>)
    requires Run(base, events, s) && scanner.Database() == s.db && base <= h && Settled(base, s, h)
    ensures r == if h < base + |s.chain| then Some(s.chain[h - base].hash) else None
  {
    StoredHash(base, events, s, h);
    r := scanner.store.BlockHashAt(h);
  }

  lemma NothingAboveApplied(base: nat, s: State, h: nat)
    requires Inv(base, s) && s.phase.Applying? && h > base + |s.chain|
    ensures h !in s.db.blocks
  {
    ReplayBlocks(base, s.chain + [s.phase.b]);
    hide Replay;
    hide Recoverable;
    hide NoTrace;
    hide Follows;
    hide ChainOk;
    hide Upserted;
    hide Marked;
    assert h !in Applied(s.db, s.phase.b, base + |s.chain|).blocks;
  }

  lemma SettledIsReplay(base: nat, s: State, h: nat)
    requires Inv(base, s) && base <= h && Settled(base, s, h) && (s.phase.Applying? ==> h < base + |s.chain|)
    ensures BlocksUpTo(s.db.blocks, h) == Replay(base, Prefix(base, s.chain, h)).blocks
  {
    hide Replay;
    hide RolledBack;
    hide ChainOk;
    hide CursorAfter;
    hide NoTrace;
    hide Applied;
    if s.phase.Idle? {
      BackIsReplay(base, s.chain, h);
    }
    assert Back(s.db, h) == Replay(base, Prefix(base, s.chain, h));
  }

  /** In every state of a run the unique block hash never stands in the way of storing the next block. */
  lemma StoreNeverRefused(base: nat, s: State, b: Block)
    requires Inv(base, s) && Allowed(base, s, Apply(b))
    ensures !HashTaken(s.db.blocks, base + |s.chain|, b.hash)
  {
    var h := base + |s.chain|;
    ReplayBlocks(base, s.chain);
    ReplayBlocks(base, s.chain + [b]);
    forall i | i in s.db.blocks && i != h ensures s.db.blocks[i] != b.hash {
      if s.phase.Applying? {
        assert Replay(base, s.chain + [b]).blocks[i] == s.db.blocks[i];
        assert base <= i < h;
        assert (s.chain + [b])[i - base] == s.chain[i - base];
      } else {
        assert s.chain[i - base].hash == s.db.blocks[i];
      }
    }
  }
}
