/** A UTXO ledger: what a chain of broadcasts spends and creates.

    A transaction id is the transaction itself under an injective constructor, the
    idealisation of a collision-free hash.  Freshness of newly created outpoints is
    therefore a theorem about sound ledgers and not an assumption. */
module Ledger {
  import opened Wrappers

  type Script = nat
  type Asset = nat

  datatype Txid = Known(n: nat) | Hash(tx: Tx)
  datatype OutPoint = OutPoint(txid: Txid, vout: nat)
  datatype TxOut = TxOut(script: Script, asset: Asset, value: nat)
  datatype Tx = Tx(inputs: seq<OutPoint>, outputs: seq<TxOut>)

  /** A UTXO together with the output it holds. */
  datatype Coin = Coin(op: OutPoint, out: TxOut)

  datatype Ledger = Ledger(live: map<OutPoint, TxOut>, spent: set<OutPoint>)

  // ---------------------------------------------------------------------------
  // Distinctness
  // ---------------------------------------------------------------------------

  ghost predicate Distinct<T(!new)>(s: seq<T>) {
    forall x :: x in s ==> multiset(s)[x] == 1
  }

  lemma DistinctConcat<T(!new)>(a: seq<T>, b: seq<T>)
    requires Distinct(a) && Distinct(b)
    requires forall x :: x in a ==> x !in b
    ensures Distinct(a + b)
  {
    forall x | x in a + b ensures multiset(a + b)[x] == 1 {
      assert multiset(a + b)[x] == multiset(a)[x] + multiset(b)[x];
      assert x in a ==> multiset(b)[x] == 0;
      assert x in b ==> multiset(a)[x] == 0;
    }
  }

  lemma DistinctSplit<T(!new)>(a: seq<T>, b: seq<T>)
    requires Distinct(a + b)
    ensures Distinct(a) && Distinct(b)
    ensures forall x :: x in a ==> x !in b
  {
    forall x | x in a || x in b
      ensures x in a ==> multiset(a)[x] == 1 && x !in b
      ensures x in b ==> multiset(b)[x] == 1
    {
      assert multiset(a + b)[x] == multiset(a)[x] + multiset(b)[x];
      assert x in a + b;
    }
  }

  lemma SamePermutation<T(!new)>(a: seq<T>, b: seq<T>)
    requires multiset(a) == multiset(b)
    ensures Distinct(a) <==> Distinct(b)
    ensures forall x :: x in a <==> x in b
    ensures |a| == |b|
  {
    assert forall x :: x in a <==> x in multiset(a);
    assert forall x :: x in b <==> x in multiset(b);
    assert |multiset(a)| == |a| && |multiset(b)| == |b|;
  }

  // ---------------------------------------------------------------------------
  // Sums
  // ---------------------------------------------------------------------------

  /** Value of `asset` among `outs`. */
  function Total(outs: seq<TxOut>, asset: Asset): nat {
    if outs == [] then 0
    else Total(outs[..|outs| - 1], asset) + (if outs[|outs| - 1].asset == asset then outs[|outs| - 1].value else 0)
  }

  /** Value of `asset` among the outputs that pay `script`. */
  function PaidAt(outs: seq<TxOut>, script: Script, asset: Asset): nat {
    if outs == [] then 0
    else
      var o := outs[|outs| - 1];
      PaidAt(outs[..|outs| - 1], script, asset) + (if o.script == script && o.asset == asset then o.value else 0)
  }

  function Outs(coins: seq<Coin>): (r: seq<TxOut>)
    ensures |r| == |coins| && forall i :: 0 <= i < |r| ==> r[i] == coins[i].out
  {
    seq(|coins|, i requires 0 <= i < |coins| => coins[i].out)
  }

  function Points(coins: seq<Coin>): (r: seq<OutPoint>)
    ensures |r| == |coins| && forall i :: 0 <= i < |r| ==> r[i] == coins[i].op
  {
    seq(|coins|, i requires 0 <= i < |coins| => coins[i].op)
  }

  /** Value of `asset` held by `coins`. */
  function Held(coins: seq<Coin>, asset: Asset): nat {
    Total(Outs(coins), asset)
  }

  lemma {:induction false} TotalConcat(a: seq<TxOut>, b: seq<TxOut>, asset: Asset)
    ensures Total(a + b, asset) == Total(a, asset) + Total(b, asset)
  {
    if b == [] {
      assert a + b == a;
    } else {
      assert (a + b)[..|a + b| - 1] == a + b[..|b| - 1];
      TotalConcat(a, b[..|b| - 1], asset);
    }
  }

  lemma {:induction false} PaidAtConcat(a: seq<TxOut>, b: seq<TxOut>, script: Script, asset: Asset)
    ensures PaidAt(a + b, script, asset) == PaidAt(a, script, asset) + PaidAt(b, script, asset)
  {
    if b == [] {
      assert a + b == a;
    } else {
      assert (a + b)[..|a + b| - 1] == a + b[..|b| - 1];
      PaidAtConcat(a, b[..|b| - 1], script, asset);
    }
  }

  lemma HeldConcat(a: seq<Coin>, b: seq<Coin>, asset: Asset)
    ensures Held(a + b, asset) == Held(a, asset) + Held(b, asset)
    ensures Points(a + b) == Points(a) + Points(b)
  {
    assert Outs(a + b) == Outs(a) + Outs(b);
    TotalConcat(Outs(a), Outs(b), asset);
  }

  lemma HeldOne(c: Coin, asset: Asset)
    ensures Held([c], asset) == if c.out.asset == asset then c.out.value else 0
    ensures Points([c]) == [c.op]
  {
    assert Outs([c]) == [c.out];
    assert Total([c.out][..0], asset) == 0;
  }

  lemma PaidAtOne(o: TxOut, script: Script, asset: Asset)
    ensures PaidAt([o], script, asset) == if o.script == script && o.asset == asset then o.value else 0
  {
    assert PaidAt([o][..0], script, asset) == 0;
  }

  lemma WithoutAt<T>(b: seq<T>, i: nat)
    requires i < |b|
    ensures multiset(b[..i] + b[i + 1..]) == multiset(b) - multiset{b[i]}
    ensures b == b[..i] + ([b[i]] + b[i + 1..])
  {
    assert b == b[..i] + [b[i]] + b[i + 1..];
    assert multiset(b) == multiset(b[..i]) + multiset{b[i]} + multiset(b[i + 1..]);
  }

  lemma FirstOff<T>(a: seq<T>)
    requires a != []
    ensures a == [a[0]] + a[1..]
    ensures multiset(a[1..]) == multiset(a) - multiset{a[0]}
    ensures a[0] in multiset(a)
  {
    assert a == [a[0]] + a[1..];
    assert multiset(a) == multiset{a[0]} + multiset(a[1..]);
  }

  lemma LessOne<T>(a: multiset<T>, b: multiset<T>, x: T)
    requires a <= b
    ensures a - multiset{x} <= b - multiset{x}
  {
  }

  /** Where the first element of one sequence is in another that has all its elements, and what is left of both. */
  lemma MatchFirst<T>(a: seq<T>, b: seq<T>) returns (i: nat)
    requires a != [] && multiset(a) <= multiset(b)
    ensures i < |b| && b[i] == a[0]
    ensures a == [a[0]] + a[1..] && b == b[..i] + ([b[i]] + b[i + 1..])
    ensures multiset(a[1..]) <= multiset(b[..i] + b[i + 1..])
    ensures multiset(a) == multiset(b) ==> multiset(a[1..]) == multiset(b[..i] + b[i + 1..])
  {
    FirstOff(a);
    i := PositionOf(b, a[0]);
    WithoutAt(b, i);
    LessOne(multiset(a), multiset(b), a[0]);
  }

  lemma PositionOf<T>(b: seq<T>, x: T) returns (i: nat)
    requires x in multiset(b)
    ensures i < |b| && b[i] == x
  {
    i :| 0 <= i < |b| && b[i] == x;
  }

  /** Sums do not depend on the order in which a builder lays out its outputs. */
  lemma {:induction false} PaidAtPermutation(a: seq<TxOut>, b: seq<TxOut>, script: Script, asset: Asset)
    requires multiset(a) == multiset(b)
    ensures PaidAt(a, script, asset) == PaidAt(b, script, asset)
    decreases |a|
  {
    if a == [] {
      assert |multiset(b)| == 0;
    } else {
      hide PaidAt;
      var i := MatchFirst(a, b);
      PaidAtPermutation(a[1..], b[..i] + b[i + 1..], script, asset);
      PaidAtConcat([a[0]], a[1..], script, asset);
      PaidAtConcat(b[..i], [b[i]] + b[i + 1..], script, asset);
      PaidAtConcat([b[i]], b[i + 1..], script, asset);
      PaidAtConcat(b[..i], b[i + 1..], script, asset);
    }
  }

  lemma {:induction false} HeldPermutation(a: seq<Coin>, b: seq<Coin>, asset: Asset)
    requires multiset(a) == multiset(b)
    ensures Held(a, asset) == Held(b, asset)
    decreases |a|
  {
    if a == [] {
      assert |multiset(b)| == 0;
    } else {
      hide Held;
      var i := MatchFirst(a, b);
      HeldPermutation(a[1..], b[..i] + b[i + 1..], asset);
      HeldConcat([a[0]], a[1..], asset);
      HeldConcat(b[..i], [b[i]] + b[i + 1..], asset);
      HeldConcat([b[i]], b[i + 1..], asset);
      HeldConcat(b[..i], b[i + 1..], asset);
    }
  }

  lemma {:induction false} PaidAtZero(outs: seq<TxOut>, script: Script, asset: Asset)
    requires forall i :: 0 <= i < |outs| ==> outs[i].script != script
    ensures PaidAt(outs, script, asset) == 0
  {
    if outs != [] {
      PaidAtZero(outs[..|outs| - 1], script, asset);
    }
  }

  /** Index of the first output that pays `script`. */
  function FirstAt(outs: seq<TxOut>, script: Script): (r: Option<nat>)
    ensures r.Some? ==> r.value < |outs| && outs[r.value].script == script
                        && forall i :: 0 <= i < r.value ==> outs[i].script != script
    ensures r.None? ==> forall i :: 0 <= i < |outs| ==> outs[i].script != script
  {
    if outs == [] then None
    else if outs[0].script == script then Some(0)
    else match FirstAt(outs[1..], script)
      case None => None
      case Some(i) => Some(i + 1)
  }

  // ---------------------------------------------------------------------------
  // The ledger
  // ---------------------------------------------------------------------------

  /** No outpoint is both live and spent, and whatever a known outpoint's transaction consumed is spent. */
  ghost predicate Sound(l: Ledger) {
    && l.live.Keys !! l.spent
    && forall op :: (op in l.live || op in l.spent) && op.txid.Hash? ==> Consumed(l, op.txid.tx)
  }

  ghost predicate Consumed(l: Ledger, tx: Tx) {
    tx.inputs != [] && forall op :: op in tx.inputs ==> op in l.spent
  }

  /** What a node checks of a transaction's inputs: at least one, none repeated, all unspent. */
  ghost predicate Spendable(l: Ledger, tx: Tx) {
    tx.inputs != [] && Distinct(tx.inputs) && forall op :: op in tx.inputs ==> op in l.live
  }

  function InputSet(tx: Tx): set<OutPoint> {
    set op | op in tx.inputs
  }

  function Created(tx: Tx): map<OutPoint, TxOut> {
    map i | 0 <= i < |tx.outputs| :: OutPoint(Hash(tx), i) := tx.outputs[i]
  }

  function Spend(l: Ledger, tx: Tx): Ledger {
    Ledger((l.live - InputSet(tx)) + Created(tx), l.spent + InputSet(tx))
  }

  /** One accepted broadcast: the outputs it creates were unknown, everything it does not touch stays. */
  lemma SpendKeepsSound(l: Ledger, tx: Tx)
    requires Sound(l) && Spendable(l, tx)
    ensures Sound(Spend(l, tx))
    ensures forall op :: op in Created(tx) ==> op !in l.live && op !in l.spent
    ensures forall op :: op in l.live && op !in tx.inputs ==> op in Spend(l, tx).live && Spend(l, tx).live[op] == l.live[op]
    ensures forall op :: op in tx.inputs ==> op in Spend(l, tx).spent && op !in Spend(l, tx).live
    ensures forall i :: 0 <= i < |tx.outputs| ==>
      OutPoint(Hash(tx), i) in Spend(l, tx).live && Spend(l, tx).live[OutPoint(Hash(tx), i)] == tx.outputs[i]
  {
    forall op | op in Created(tx) ensures op !in l.live && op !in l.spent {
      assert op.txid == Hash(tx);
      assert tx.inputs[0] in tx.inputs;
      assert !Consumed(l, tx);
    }
    var l' := Spend(l, tx);
    forall op | (op in l'.live || op in l'.spent) && op.txid.Hash? ensures Consumed(l', op.txid.tx) {
      if op in Created(tx) {
        assert op.txid.tx == tx;
      } else {
        assert op in l.live || op in l.spent;
        assert Consumed(l, op.txid.tx);
      }
    }
  }

  /** The ledger after a sequence of broadcasts. */
  function After(l: Ledger, log: seq<Tx>): Ledger {
    if log == [] then l else Spend(After(l, log[..|log| - 1]), log[|log| - 1])
  }

  /** Every broadcast spends only outputs that are unspent when it is made. */
  ghost predicate ValidLog(l: Ledger, log: seq<Tx>) {
    log == [] || (ValidLog(l, log[..|log| - 1]) && Spendable(After(l, log[..|log| - 1]), log[|log| - 1]))
  }

  function AllInputs(log: seq<Tx>): seq<OutPoint> {
    if log == [] then [] else AllInputs(log[..|log| - 1]) + log[|log| - 1].inputs
  }

  /** No outpoint is spent twice anywhere in a valid log; what was spent is what the inputs name. */
  lemma {:induction false} NoDoubleSpend(l: Ledger, log: seq<Tx>)
    requires Sound(l) && ValidLog(l, log)
    ensures Sound(After(l, log))
    ensures Distinct(AllInputs(log))
    ensures forall op :: op in After(l, log).spent <==> op in l.spent || op in AllInputs(log)
    ensures forall op :: op in AllInputs(log) ==> op !in l.spent
  {
    if log != [] {
      var prev := log[..|log| - 1];
      var tx := log[|log| - 1];
      NoDoubleSpend(l, prev);
      SpendKeepsSound(After(l, prev), tx);
      DistinctConcat(AllInputs(prev), tx.inputs);
    }
  }

  /** What a broadcast of a valid log creates was unknown to the starting ledger. */
  lemma {:induction false} CreatedIsNew(l: Ledger, log: seq<Tx>, j: nat)
    requires Sound(l) && ValidLog(l, log) && j < |log|
    ensures forall op: OutPoint :: op.txid == Hash(log[j]) ==> op !in l.live && op !in l.spent
    ensures log[j].inputs != [] && forall op :: op in log[j].inputs ==> op in AllInputs(log)
  {
    if j < |log| - 1 {
      CreatedIsNew(l, log[..|log| - 1], j);
    } else {
      NoDoubleSpend(l, log);
      assert log[j].inputs[0] in AllInputs(log);
      assert !Consumed(l, log[j]);
    }
  }

  lemma LogSnoc(l: Ledger, log: seq<Tx>, tx: Tx)
    requires ValidLog(l, log) && Spendable(After(l, log), tx)
    ensures ValidLog(l, log + [tx])
    ensures After(l, log + [tx]) == Spend(After(l, log), tx)
    ensures AllInputs(log + [tx]) == AllInputs(log) + tx.inputs
  {
    assert (log + [tx])[..|log + [tx]| - 1] == log;
  }

  /** Everything a sequence of broadcasts pays to a script. */
  function PaidByLog(log: seq<Tx>, script: Script, asset: Asset): nat {
    if log == [] then 0
    else PaidByLog(log[..|log| - 1], script, asset) + PaidAt(log[|log| - 1].outputs, script, asset)
  }

  // ---------------------------------------------------------------------------
  // Sets of coins
  // ---------------------------------------------------------------------------

  ghost predicate Holds(coins: seq<Coin>, op: OutPoint) {
    exists c :: c in coins && c.op == op
  }

  ghost predicate Apart(a: seq<Coin>, b: seq<Coin>) {
    forall op :: !(Holds(a, op) && Holds(b, op))
  }

  /** `coins` are unspent in `l`, each once and with the output the ledger records. */
  ghost predicate Live(l: Ledger, coins: seq<Coin>) {
    forall c :: c in coins ==> c.op in l.live && l.live[c.op] == c.out
  }

  ghost predicate Gone(l: Ledger, coins: seq<Coin>) {
    forall c :: c in coins ==> c.op in l.spent
  }

  lemma HoldsPoints(coins: seq<Coin>)
    ensures forall op :: op in Points(coins) <==> Holds(coins, op)
  {
    forall op ensures op in Points(coins) <==> Holds(coins, op) {
      if op in Points(coins) {
        var i :| 0 <= i < |coins| && Points(coins)[i] == op;
        assert coins[i] in coins;
      }
      if Holds(coins, op) {
        var c :| c in coins && c.op == op;
        var i :| 0 <= i < |coins| && coins[i] == c;
        assert Points(coins)[i] == op;
      }
    }
  }

  lemma HoldsConcat(a: seq<Coin>, b: seq<Coin>)
    ensures forall op :: Holds(a + b, op) <==> Holds(a, op) || Holds(b, op)
  {
    forall op ensures Holds(a + b, op) <==> Holds(a, op) || Holds(b, op) {
      if Holds(a, op) {
        var c :| c in a && c.op == op;
        assert c in a + b;
      }
      if Holds(b, op) {
        var c :| c in b && c.op == op;
        assert c in a + b;
      }
    }
  }

  lemma DistinctPointsConcat(a: seq<Coin>, b: seq<Coin>)
    requires Distinct(Points(a)) && Distinct(Points(b)) && Apart(a, b)
    ensures Distinct(Points(a + b))
  {
    HoldsPoints(a);
    HoldsPoints(b);
    assert Points(a + b) == Points(a) + Points(b);
    DistinctConcat(Points(a), Points(b));
  }

  lemma TotalSnoc(outs: seq<TxOut>, o: TxOut, asset: Asset)
    ensures Total(outs + [o], asset) == Total(outs, asset) + (if o.asset == asset then o.value else 0)
  {
    assert (outs + [o])[..|outs|] == outs;
  }

  lemma {:induction false} KnownStaysKnown(l: Ledger, log: seq<Tx>)
    requires Sound(l) && ValidLog(l, log)
    ensures forall op :: op in l.live || op in l.spent ==> op in After(l, log).live || op in After(l, log).spent
  {
    if log != [] {
      KnownStaysKnown(l, log[..|log| - 1]);
    }
  }

  /** Live coins with the same outpoints, each once, are the same coins. */
  lemma SameCoins(l: Ledger, a: seq<Coin>, b: seq<Coin>)
    requires Live(l, a) && Live(l, b) && Distinct(Points(a)) && Distinct(Points(b))
    requires forall op :: Holds(a, op) <==> Holds(b, op)
    ensures multiset(a) == multiset(b)
  {
    OnceEach(a);
    OnceEach(b);
    forall c ensures multiset(a)[c] == multiset(b)[c] {
      SameCoin(l, a, b, c);
      SameCoin(l, b, a, c);
    }
  }

  lemma SameCoin(l: Ledger, a: seq<Coin>, b: seq<Coin>, c: Coin)
    requires Live(l, a) && Live(l, b) && forall op :: Holds(a, op) ==> Holds(b, op)
    ensures c in a ==> c in b
  {
    if c in a {
      assert Holds(a, c.op);
      var d :| d in b && d.op == c.op;
    }
  }

  lemma {:induction false} OnceEach(a: seq<Coin>)
    requires Distinct(Points(a))
    ensures Distinct(a)
  {
    if a != [] {
      var init, c := a[..|a| - 1], a[|a| - 1];
      assert a == init + [c];
      assert Points(a) == Points(init) + [c.op];
      DistinctSplit(Points(init), [c.op]);
      OnceEach(init);
      assert c.op in [c.op];
      HoldsPoints(init);
      DistinctConcat(init, [c]);
    }
  }
}
