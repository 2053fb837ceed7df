/** The Postgres stores of the Elements block scan: UTXO rows, blocks with the sync cursor, and per-wallet
    checkpoints.  Each class holds one table (or two) as a map and changes it statement by statement. */
module ElementsSync {
  import opened Wrappers
  import opened Ledger

  type WalletId = nat
  type BlockHash = nat

  /** What is stored about an output besides its key and height (raw output, secrets, chain, wildcard index). */
  datatype Data = Data(txout: TxOut, chain: int, wildcard: nat)

  datatype Captured = Captured(wallet: WalletId, op: OutPoint, data: Data, height: nat)
  datatype Key = Key(wallet: WalletId, op: OutPoint)
  datatype Row = Row(data: Data, height: nat, isSpent: bool, spentHeight: Option<nat>)
  datatype Tip = Tip(height: nat, hash: BlockHash)

  type Rows = map<Key, Row>
  type Blocks = map<nat, BlockHash>

  function KeyOf(u: Captured): Key {
    Key(u.wallet, u.op)
  }

  function KeysOf(us: seq<Captured>): set<Key> {
    set u | u in us :: KeyOf(u)
  }

  /** The last entry for a key: the one whose values an upsert of the whole list leaves behind. */
  function LastFor(us: seq<Captured>, k: Key): (r: Option<Captured>)
    ensures r.Some? <==> k in KeysOf(us)
    ensures r.Some? ==> r.value in us && KeyOf(r.value) == k
  {
    if us == [] then None
    else if KeyOf(us[|us| - 1]) == k then
      assert us[|us| - 1] in us;
      Some(us[|us| - 1])
    else
      assert forall u :: u in us <==> u in us[..|us| - 1] || u == us[|us| - 1];
      LastFor(us[..|us| - 1], k)
  }

  /** Inserted rows start unspent; a conflicting row takes the new values but keeps its spent columns. */
  function UpsertedRow(rows: Rows, us: seq<Captured>, k: Key): Row
    requires k in rows || k in KeysOf(us)
  {
    match LastFor(us, k)
    case None => rows[k]
    case Some(u) =>
      if k in rows then rows[k].(data := u.data, height := u.height) else Row(u.data, u.height, false, None)
  }

  function Upserted(rows: Rows, us: seq<Captured>): Rows {
    map k | k in rows.Keys + KeysOf(us) :: UpsertedRow(rows, us, k)
  }

  /** The update matches on the outpoint alone, so it reaches the rows of every wallet. */
  function Marked(rows: Rows, ops: seq<OutPoint>, h: nat): Rows {
    map k | k in rows ::
      if k.op in ops then rows[k].(isSpent := true, spentHeight := Some(h)) else rows[k]
  }

  function DeletedAbove(rows: Rows, h: nat): Rows {
    map k | k in rows && rows[k].height <= h :: rows[k]
  }

  function UnspentAbove(rows: Rows, h: nat): Rows {
    map k | k in rows ::
      if rows[k].spentHeight.Some? && rows[k].spentHeight.value > h
      then rows[k].(isSpent := false, spentHeight := None)
      else rows[k]
  }

  function RolledBack(rows: Rows, h: nat): Rows {
    UnspentAbove(DeletedAbove(rows, h), h)
  }

  /** Row-wise form of a rollback. */
  function RolledBackRow(r: Row, h: nat): Row {
    if r.spentHeight.Some? && r.spentHeight.value > h then r.(isSpent := false, spentHeight := None) else r
  }

  lemma RolledBackRows(rows: Rows, h: nat)
    ensures RolledBack(rows, h) == map k | k in rows && rows[k].height <= h :: RolledBackRow(rows[k], h)
  {
  }

  function Unspent(rows: Rows): map<Key, (Data, nat)> {
    map k | k in rows && !rows[k].isSpent :: (rows[k].data, rows[k].height)
  }

  class PgWalletUtxoStore {
    var rows: Rows

    constructor ()
      ensures rows == map[]
    {
      rows := map[];
    }

    method UpsertUtxos(utxos: seq<Captured>)
      modifies this
      ensures rows == Upserted(old(rows), utxos)
    {
      UpsertNothing(rows);
      for i := 0 to |utxos|
        invariant rows == Upserted(old(rows), utxos[..i])
      {
        assert utxos[..i + 1] == utxos[..i] + [utxos[i]];
        UpsertSnoc(old(rows), utxos[..i], utxos[i]);
        var k := KeyOf(utxos[i]);
        if k in rows {
          rows := rows[k := rows[k].(data := utxos[i].data, height := utxos[i].height)];
        } else {
          rows := rows[k := Row(utxos[i].data, utxos[i].height, false, None)];
        }
      }
      assert utxos[..|utxos|] == utxos;
    }

    method MarkSpent(ops: seq<OutPoint>, spentHeight: nat)
      modifies this
      ensures rows == Marked(old(rows), ops, spentHeight)
    {
      assert Marked(rows, [], spentHeight) == rows;
      for i := 0 to |ops|
        invariant rows == Marked(old(rows), ops[..i], spentHeight)
      {
        assert ops[..i + 1] == ops[..i] + [ops[i]];
        MarkSnoc(old(rows), ops[..i], ops[i], spentHeight);
        rows := map k | k in rows ::
          if k.op == ops[i] then rows[k].(isSpent := true, spentHeight := Some(spentHeight)) else rows[k];
      }
      assert ops[..|ops|] == ops;
    }

    /** The wallet's unspent rows, as captured outputs. */
    method ListUnspent(wallet: WalletId) returns (r: set<Captured>)
      ensures forall u :: u in r <==>
        && u.wallet == wallet && Key(wallet, u.op) in rows
        && var row := rows[Key(wallet, u.op)]; !row.isSpent && row.data == u.data && row.height == u.height
      ensures forall u :: u in r <==>
        KeyOf(u) in Unspent(rows) && u.wallet == wallet && Unspent(rows)[KeyOf(u)] == (u.data, u.height)
    {
      r := set k | k in rows && k.wallet == wallet && !rows[k].isSpent :: Captured(k.wallet, k.op, rows[k].data, rows[k].height);
      forall u ensures u in r <==>
        KeyOf(u) in Unspent(rows) && u.wallet == wallet && Unspent(rows)[KeyOf(u)] == (u.data, u.height)
      {
        if KeyOf(u) in Unspent(rows) && u.wallet == wallet && Unspent(rows)[KeyOf(u)] == (u.data, u.height) {
          assert u == Captured(KeyOf(u).wallet, KeyOf(u).op, rows[KeyOf(u)].data, rows[KeyOf(u)].height);
        }
      }
    }

    /** Every unspent outpoint with the wallet it belongs to. */
    method UnspentOutpoints() returns (r: set<(OutPoint, WalletId)>)
      ensures forall op, w: WalletId :: (op, w) in r <==> Key(w, op) in rows && !rows[Key(w, op)].isSpent
      ensures forall op, w: WalletId :: (op, w) in r <==> Key(w, op) in Unspent(rows)
    {
      r := set k | k in rows && !rows[k].isSpent :: (k.op, k.wallet);
      forall op, w: WalletId ensures (op, w) in r <==> Key(w, op) in Unspent(rows) {
        if Key(w, op) in Unspent(rows) {
          var k := Key(w, op);
          assert (k.op, k.wallet) in r;
        }
      }
    }

    method RollbackAbove(height: nat)
      modifies this
      ensures rows == RolledBack(old(rows), height)
    {
      rows := map k | k in rows && rows[k].height <= height :: rows[k];
      rows := map k | k in rows ::
        if rows[k].spentHeight.Some? && rows[k].spentHeight.value > height
        then rows[k].(isSpent := false, spentHeight := None)
        else rows[k];
    }
  }

  lemma UpsertNothing(rows: Rows)
    ensures Upserted(rows, []) == rows
  {
  }

  lemma KeysSnoc(us: seq<Captured>, u: Captured)
    ensures KeysOf(us + [u]) == KeysOf(us) + {KeyOf(u)}
  {
    assert forall v :: v in us + [u] <==> v in us || v == u;
  }

  lemma LastForSnoc(us: seq<Captured>, u: Captured, k: Key)
    ensures LastFor(us + [u], k) == if KeyOf(u) == k then Some(u) else LastFor(us, k)
  {
    assert (us + [u])[..|us|] == us;
  }

  /** One more statement of the upsert loop. */
  lemma UpsertSnoc(rows: Rows, us: seq<Captured>, u: Captured)
    ensures Upserted(rows, us + [u])
            == var before := Upserted(rows, us);
               before[KeyOf(u) := if KeyOf(u) in before then before[KeyOf(u)].(data := u.data, height := u.height)
                                  else Row(u.data, u.height, false, None)]
  {
    hide KeysOf;
    hide LastFor;
    KeysSnoc(us, u);
    var before := Upserted(rows, us);
    assert Upserted(rows, us + [u]).Keys == before.Keys + {KeyOf(u)};
    forall k | k in rows.Keys + KeysOf(us + [u])
      ensures Upserted(rows, us + [u])[k]
              == if k == KeyOf(u)
                 then (if k in before then before[k].(data := u.data, height := u.height) else Row(u.data, u.height, false, None))
                 else before[k]
    {
      LastForSnoc(us, u, k);
    }
  }

  lemma MarkSnoc(rows: Rows, ops: seq<OutPoint>, op: OutPoint, h: nat)
    ensures Marked(rows, ops + [op], h)
            == var before := Marked(rows, ops, h);
               map k | k in before :: if k.op == op then before[k].(isSpent := true, spentHeight := Some(h)) else before[k]
  {
  }

  // ---------------------------------------------------------------------------
  // Blocks and the cursor
  // ---------------------------------------------------------------------------

  function BlocksUpTo(blocks: Blocks, h: nat): Blocks {
    map i | i in blocks && i <= h :: blocks[i]
  }

  function HashAt(blocks: Blocks, h: nat): Option<BlockHash> {
    if h in blocks then Some(blocks[h]) else None
  }

  /** `block_hash` is unique: storing a hash already held at another height is refused. */
  predicate HashTaken(blocks: Blocks, h: nat, hash: BlockHash) {
    exists i :: i in blocks && i != h && blocks[i] == hash
  }

  ghost predicate Highest(blocks: Blocks, t: Tip) {
    t.height in blocks && blocks[t.height] == t.hash && forall i :: i in blocks ==> i <= t.height
  }

  /** The cursor names the highest stored block, and is absent exactly when none is stored. */
  ghost predicate CursorAgrees(blocks: Blocks, cursor: Option<Tip>) {
    (cursor.None? <==> blocks == map[]) && (cursor.Some? ==> Highest(blocks, cursor.value))
  }

  /** The cursor a rollback to `h` leaves: unchanged when not above `h`, else the new highest block if any. */
  ghost predicate CursorRolledBack(blocks: Blocks, cursor: Option<Tip>, h: nat, after: Option<Tip>) {
    if cursor.None? || cursor.value.height <= h then after == cursor
    else CursorAgrees(BlocksUpTo(blocks, h), after)
  }

  lemma HighestIsUnique(blocks: Blocks, t: Tip, u: Tip)
    requires Highest(blocks, t) && Highest(blocks, u)
    ensures t == u
  {
  }

  class PgBlockStore {
    var blocks: Blocks
    var cursor: Option<Tip>

    constructor ()
      ensures blocks == map[] && cursor == None
    {
      blocks, cursor := map[], None;
    }

    method StoreBlock(height: nat, hash: BlockHash) returns (ok: bool)
      modifies this`blocks
      ensures ok <==> !HashTaken(old(blocks), height, hash)
      ensures ok <==> forall i :: i in old(blocks) && i != height ==> old(blocks)[i] != hash
      ensures blocks == if ok then old(blocks)[height := hash] else old(blocks)
    {
      ok := !exists i :: i in blocks && i != height && blocks[i] == hash;
      if ok {
        blocks := blocks[height := hash];
      }
    }

    method SetSyncedTip(tip: Tip)
      modifies this`cursor
      ensures cursor == Some(tip)
    {
      cursor := Some(tip);
    }

    method BlockHashAt(height: nat) returns (r: Option<BlockHash>)
      ensures r == HashAt(blocks, height)
    {
      r := if height in blocks then Some(blocks[height]) else None;
    }

    /** The greatest stored height, by a scan that keeps the larger of two rows. */
    method MaxBlock() returns (r: Option<Tip>)
      ensures CursorAgrees(blocks, r)
    {
      r := None;
      var todo := blocks.Keys;
      while todo != {}
        invariant todo <= blocks.Keys
        invariant r.None? ==> todo == blocks.Keys
        invariant r.Some? ==> r.value.height in blocks && blocks[r.value.height] == r.value.hash
                              && forall i :: i in blocks && i !in todo ==> i <= r.value.height
        decreases todo
      {
        SomeHeight(todo);
        var h :| h in todo;
        if r.None? || r.value.height < h {
          r := Some(Tip(h, blocks[h]));
        }
        todo := todo - {h};
      }
      assert r.None? ==> blocks.Keys == {};
    }

    method RollbackAbove(height: nat)
      modifies this
      ensures blocks == BlocksUpTo(old(blocks), height)
      ensures CursorRolledBack(old(blocks), old(cursor), height, cursor)
    {
      blocks := map i | i in blocks && i <= height :: blocks[i];
      if cursor.Some? && cursor.value.height > height {
        cursor := MaxBlock();
      }
    }
  }

  lemma SomeHeight(s: set<nat>)
    ensures s == {} || exists h :: h in s
  {
    assert (forall h :: h !in s) ==> s == {};
  }

  // ---------------------------------------------------------------------------
  // Checkpoints
  // ---------------------------------------------------------------------------

  datatype CheckpointKey = CheckpointKey(wallet: WalletId, height: nat)
  type Checkpoints = map<CheckpointKey, BlockHash>

  function CheckpointsRolledBack(rows: Checkpoints, w: WalletId, h: nat): Checkpoints {
    map k | k in rows && !(k.wallet == w && k.height > h) :: rows[k]
  }

  /** What the store is asked to do: save a wallet's tip, or drop its checkpoints above a height. */
  datatype CheckpointOp = SaveTip(wallet: WalletId, tip: Tip) | DropAbove(wallet: WalletId, height: nat)

  function AfterOp(rows: Checkpoints, op: CheckpointOp): Checkpoints {
    match op
    case SaveTip(w, tip) => rows[CheckpointKey(w, tip.height) := tip.hash]
    case DropAbove(w, h) => CheckpointsRolledBack(rows, w, h)
  }

  /** The table, empty at first, after a sequence of operations. */
  function AfterOps(ops: seq<CheckpointOp>): Checkpoints {
    if ops == [] then map[] else AfterOp(AfterOps(ops[..|ops| - 1]), ops[|ops| - 1])
  }

  predicate HasTip(rows: Checkpoints, w: WalletId, t: Tip) {
    CheckpointKey(w, t.height) in rows && rows[CheckpointKey(w, t.height)] == t.hash
  }

  /** The operations after which a checkpoint of `w` at this height is no longer the one saved before. */
  predicate Displaces(op: CheckpointOp, w: WalletId, height: nat) {
    op.wallet == w && match op case SaveTip(_, tip) => tip.height == height case DropAbove(_, h) => h < height
  }

  class PgCheckpointStore {
    var rows: Checkpoints

    constructor ()
      ensures rows == map[]
    {
      rows := map[];
    }

    method Load(wallet: WalletId) returns (r: set<Tip>)
      ensures forall t :: t in r <==> HasTip(rows, wallet, t)
    {
      r := set k | k in rows && k.wallet == wallet :: Tip(k.height, rows[k]);
      forall t ensures t in r <==> HasTip(rows, wallet, t) {
        var k := CheckpointKey(wallet, t.height);
        if k in rows && rows[k] == t.hash {
          assert Tip(k.height, rows[k]) in r;
        }
      }
    }

    method Save(wallet: WalletId, tip: Tip)
      modifies this
      ensures rows == AfterOp(old(rows), SaveTip(wallet, tip))
    {
      rows := rows[CheckpointKey(wallet, tip.height) := tip.hash];
    }

    method RollbackAbove(wallet: WalletId, height: nat)
      modifies this
      ensures rows == AfterOp(old(rows), DropAbove(wallet, height))
    {
      rows := map k | k in rows && !(k.wallet == wallet && k.height > height) :: rows[k];
    }
  }

  // ---------------------------------------------------------------------------
  // Crash and re-run; rollbacks compose
  // ---------------------------------------------------------------------------

  /** Stopping an upsert after any statement and running the whole of it again gives the uninterrupted result. */
  lemma UpsertConverges(rows: Rows, us: seq<Captured>, n: nat)
    requires n <= |us|
    ensures Upserted(Upserted(rows, us[..n]), us) == Upserted(rows, us)
  {
    assert KeysOf(us[..n]) <= KeysOf(us);
  }

  lemma MarkConverges(rows: Rows, ops: seq<OutPoint>, n: nat, h: nat)
    requires n <= |ops|
    ensures Marked(Marked(rows, ops[..n], h), ops, h) == Marked(rows, ops, h)
  {
    assert forall op :: op in ops[..n] ==> op in ops;
  }

  /** A rollback stopped between its two statements is completed by the next run. */
  lemma RollbackConverges(rows: Rows, h: nat)
    ensures RolledBack(DeletedAbove(rows, h), h) == RolledBack(rows, h)
    ensures RolledBack(RolledBack(rows, h), h) == RolledBack(rows, h)
  {
  }

  function Min(a: nat, b: nat): nat {
    if a <= b then a else b
  }

  lemma RollbacksCompose(rows: Rows, a: nat, b: nat)
    ensures RolledBack(RolledBack(rows, a), b) == RolledBack(rows, Min(a, b))
  {
    RolledBackRows(rows, a);
    RolledBackRows(RolledBack(rows, a), b);
    RolledBackRows(rows, Min(a, b));
  }

  lemma BlockRollbacksCompose(blocks: Blocks, cursor: Option<Tip>, a: nat, b: nat, mid: Option<Tip>, after: Option<Tip>)
    requires CursorRolledBack(blocks, cursor, a, mid)
    requires CursorRolledBack(BlocksUpTo(blocks, a), mid, b, after)
    ensures BlocksUpTo(BlocksUpTo(blocks, a), b) == BlocksUpTo(blocks, Min(a, b))
    ensures CursorRolledBack(blocks, cursor, Min(a, b), after)
  {
    assert BlocksUpTo(BlocksUpTo(blocks, a), b) == BlocksUpTo(blocks, Min(a, b));
    var least := BlocksUpTo(blocks, Min(a, b));
    if cursor.Some? && cursor.value.height > Min(a, b) {
      if mid.None? {
        assert BlocksUpTo(blocks, a) == map[];
        assert least == map[];
      } else if mid.value.height <= b {
        assert mid.value.height in least;
      }
    }
  }

  /** A block rollback stopped after the delete is completed by the next run. */
  lemma BlockRollbackConverges(blocks: Blocks, cursor: Option<Tip>, h: nat, after: Option<Tip>)
    ensures BlocksUpTo(BlocksUpTo(blocks, h), h) == BlocksUpTo(blocks, h)
    ensures CursorRolledBack(BlocksUpTo(blocks, h), cursor, h, after) <==> CursorRolledBack(blocks, cursor, h, after)
  {
    assert BlocksUpTo(BlocksUpTo(blocks, h), h) == BlocksUpTo(blocks, h);
  }

  lemma CheckpointRollbacksCompose(rows: Checkpoints, w: WalletId, a: nat, b: nat)
    ensures CheckpointsRolledBack(CheckpointsRolledBack(rows, w, a), w, b) == CheckpointsRolledBack(rows, w, Min(a, b))
  {
  }

  /** Rollbacks of different wallets' checkpoints commute. */
  lemma CheckpointWalletsIndependent(rows: Checkpoints, v: WalletId, w: WalletId, a: nat, b: nat)
    requires v != w
    ensures CheckpointsRolledBack(CheckpointsRolledBack(rows, v, a), w, b)
            == CheckpointsRolledBack(CheckpointsRolledBack(rows, w, b), v, a)
  {
  }

  /** The save at position `i` put the tip there, and nothing since has replaced or dropped it. */
  predicate LastSaved(ops: seq<CheckpointOp>, w: WalletId, t: Tip, i: nat) {
    && i < |ops| && ops[i] == SaveTip(w, t)
    && forall j :: i < j < |ops| ==> !Displaces(ops[j], w, t.height)
  }

  /** After any sequence of saves and rollbacks of any wallets, a load returns exactly the tips that were saved for
      the wallet and that no later save at their height and no later rollback below it has displaced. */
  lemma {:induction false} LoadedIffLastSaved(ops: seq<CheckpointOp>, w: WalletId, t: Tip)
    ensures HasTip(AfterOps(ops), w, t) <==> exists i :: LastSaved(ops, w, t, i)
  {
    if ops != [] {
      var init, op := ops[..|ops| - 1], ops[|ops| - 1];
      LoadedIffLastSaved(init, w, t);
      if op == SaveTip(w, t) {
        assert LastSaved(ops, w, t, |init|);
      } else {
        assert HasTip(AfterOps(ops), w, t) <==> HasTip(AfterOps(init), w, t) && !Displaces(op, w, t.height);
        if i :| LastSaved(init, w, t, i) && !Displaces(op, w, t.height) {
          assert LastSaved(ops, w, t, i);
        }
        if i :| LastSaved(ops, w, t, i) {
          assert LastSaved(init, w, t, i) && op == ops[|init|];
        }
      }
    }
  }

  /** A store driven through any sequence of saves and rollbacks loads, for each wallet, exactly what is still saved. */
  method SaveAndLoad(ops: seq<CheckpointOp>, wallet: WalletId) returns (loaded: set<Tip>)
    ensures forall t :: t in loaded <==> exists i :: LastSaved(ops, wallet, t, i)
  {
    var store := new PgCheckpointStore();
    for i := 0 to |ops|
      invariant fresh(store) && store.rows == AfterOps(ops[..i])
    {
      assert ops[..i + 1][..i] == ops[..i];
      match ops[i]
      case SaveTip(w, tip) => store.Save(w, tip);
      case DropAbove(w, h) => store.RollbackAbove(w, h);
    }
    assert ops[..|ops|] == ops;
    loaded := store.Load(wallet);
    forall t ensures t in loaded <==> exists i :: LastSaved(ops, wallet, t, i) {
      LoadedIffLastSaved(ops, wallet, t);
    }
  }
}
