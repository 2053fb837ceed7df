/** A chained sweep: a sequence of transactions, each moving some customers whole to their new addresses, with
    one fee account whose change is carried from each transaction into the next and which crosses over in the
    last.  Both migration executors are instances; this module says what a log of such broadcasts does to the
    ledger. */
module ChainedSweep {
  import opened Wrappers
  import opened Ledger
  import opened SweepPlan

  /** One accepted broadcast, with what the executor recorded about it. */
  datatype Broadcast = Broadcast(
    tx: Tx, fee: nat, owner: map<OutPoint, int>, report: seq<(int, nat)>, isFeeFinal: bool)

  /** What a transaction builder settles on: the transaction, the value of its drain output and its fee. */
  datatype Built = Built(tx: Tx, change: nat, fee: nat)

  /** One planned transaction: its planned outputs and the fee account's own coins it brings in. */
  datatype Leg = Leg(outputs: seq<PlanOut>, feeCoins: seq<Coin>, isFeeFinal: bool)

  datatype Scene = Scene(accounts: seq<Account>, fee: Account, policy: Asset, feeOld: Script, legs: seq<Leg>)

  function AllFeeCoins(legs: seq<Leg>): seq<Coin> {
    if legs == [] then [] else AllFeeCoins(legs[..|legs| - 1]) + legs[|legs| - 1].feeCoins
  }

  /** The fee account's own coins brought in by the first `m` transactions, in value. */
  function FeeIn(sc: Scene, m: nat, asset: Asset): nat
    requires m <= |sc.legs|
  {
    if m == 0 then 0 else FeeIn(sc, m - 1, asset) + Held(sc.legs[m - 1].feeCoins, asset)
  }

  // ---------------------------------------------------------------------------
  // Hypotheses
  // ---------------------------------------------------------------------------

  /** Funded accounts, each with its own live coins and its own destination, none of them the address at which
      the fee account's change is kept. */
  ghost predicate GoodScene(sc: Scene, l: Ledger) {
    && sc.fee in sc.accounts
    && OwnCoins(sc.accounts)
    && (forall a :: a in sc.accounts ==> a.dest != sc.feeOld && Live(l, a.coins))
    && (forall a, b :: a in sc.accounts && b in sc.accounts && a != b ==> a.dest != b.dest)
  }

  /** Every customer is paid in at most one transaction and the fee account in none; exactly the last transaction
      is final; the fee account's coins are brought in once each over the whole plan. */
  ghost predicate GoodLegs(sc: Scene) {
    && (forall k :: 0 <= k < |sc.legs| ==> (sc.legs[k].isFeeFinal <==> k == |sc.legs| - 1))
    && (forall k :: 0 <= k < |sc.legs| ==> !Pays(sc.legs[k].outputs, sc.fee.idx))
    && (forall j, k, idx :: 0 <= j < k < |sc.legs| ==> !(Pays(sc.legs[j].outputs, idx) && Pays(sc.legs[k].outputs, idx)))
    && (sc.legs != [] ==> multiset(AllFeeCoins(sc.legs)) == multiset(sc.fee.coins))
  }

  // ---------------------------------------------------------------------------
  // Logs
  // ---------------------------------------------------------------------------

  function Txs(log: seq<Broadcast>): (r: seq<Tx>)
    ensures |r| == |log| && forall i :: 0 <= i < |r| ==> r[i] == log[i].tx
  {
    seq(|log|, i requires 0 <= i < |log| => log[i].tx)
  }

  function FeesPaid(log: seq<Broadcast>): nat {
    if log == [] then 0 else FeesPaid(log[..|log| - 1]) + log[|log| - 1].fee
  }

  /** What the broadcasts so far pay to a script. */
  function Received(log: seq<Broadcast>, script: Script, asset: Asset): nat {
    PaidByLog(Txs(log), script, asset)
  }

  function LedgerAfter(l: Ledger, log: seq<Broadcast>): Ledger {
    After(l, Txs(log))
  }

  lemma ReceivedSnoc(log: seq<Broadcast>, b: Broadcast, script: Script, asset: Asset)
    ensures Received(log + [b], script, asset) == Received(log, script, asset) + PaidAt(b.tx.outputs, script, asset)
  {
    assert Txs(log + [b])[..|log|] == Txs(log);
  }

  lemma LogGrows(l: Ledger, log: seq<Broadcast>, b: Broadcast)
    requires Sound(l) && ValidLog(l, Txs(log)) && Spendable(LedgerAfter(l, log), b.tx)
    ensures Txs(log + [b]) == Txs(log) + [b.tx]
    ensures ValidLog(l, Txs(log + [b]))
    ensures LedgerAfter(l, log + [b]) == Spend(LedgerAfter(l, log), b.tx)
    ensures FeesPaid(log + [b]) == FeesPaid(log) + b.fee
    ensures Sound(LedgerAfter(l, log))
  {
    assert Txs(log + [b]) == Txs(log) + [b.tx];
    LogSnoc(l, Txs(log), b.tx);
    NoDoubleSpend(l, Txs(log));
    assert (log + [b])[..|log|] == log;
  }

  // ---------------------------------------------------------------------------
  // The state of every account after a prefix of the plan
  // ---------------------------------------------------------------------------

  ghost predicate PaidBefore(sc: Scene, m: nat, idx: int)
    requires m <= |sc.legs|
  {
    exists j :: 0 <= j < m && Pays(sc.legs[j].outputs, idx)
  }

  /** A customer is wholly at the new federation, or wholly at the old one with nothing at its new address. */
  ghost predicate CustomerState(sc: Scene, l: Ledger, log: seq<Broadcast>, a: Account)
    requires |log| <= |sc.legs|
  {
    if PaidBefore(sc, |log|, a.idx) then
      Gone(LedgerAfter(l, log), a.coins) && forall asset :: Received(log, a.dest, asset) == Held(a.coins, asset)
    else
      Live(LedgerAfter(l, log), a.coins) && forall asset :: Received(log, a.dest, asset) == 0
  }

  /** The fee account's change in a broadcast: its first output at the fee account's old address. */
  function ChangeCoin(feeOld: Script, tx: Tx): Option<Coin> {
    match FirstAt(tx.outputs, feeOld)
    case None => None
    case Some(v) => Some(Coin(OutPoint(Hash(tx), v), tx.outputs[v]))
  }

  function Carry(c: Option<Coin>): seq<Coin> {
    match c case None => [] case Some(c) => [c]
  }

  /** What the fee account contributes to transaction `j`: its own coins and the previous transaction's change. */
  function FeeShare(sc: Scene, log: seq<Broadcast>, j: nat): seq<Coin>
    requires j < |sc.legs| && j <= |log|
  {
    sc.legs[j].feeCoins + (if j == 0 then [] else Carry(ChangeCoin(sc.feeOld, log[j - 1].tx)))
  }

  /** `c` is the one live output of the chain: unspent at the fee account's old address, unknown before the
      run, and worth what the fee account has put in less every fee paid so far. */
  ghost predicate LiveChange(sc: Scene, l: Ledger, log: seq<Broadcast>, c: Coin)
    requires |log| <= |sc.legs|
  {
    && c.op in LedgerAfter(l, log).live && LedgerAfter(l, log).live[c.op] == c.out
    && c.op !in l.live
    && c.out.script == sc.feeOld && c.out.asset == sc.policy
    && c.out.value + FeesPaid(log) == FeeIn(sc, |log|, sc.policy)
  }

  ghost predicate EarlierChangeSpent(sc: Scene, l: Ledger, log: seq<Broadcast>) {
    forall j :: 0 <= j < |log| - 1 ==>
      ChangeCoin(sc.feeOld, log[j].tx).Some?
      && ChangeCoin(sc.feeOld, log[j].tx).value.op in LedgerAfter(l, log).spent
  }

  ghost predicate FeeCoinsState(sc: Scene, ledger: Ledger, m: nat) {
    forall j :: 0 <= j < |sc.legs| ==>
      if j < m then Gone(ledger, sc.legs[j].feeCoins) else Live(ledger, sc.legs[j].feeCoins)
  }

  ghost predicate FeeState(sc: Scene, l: Ledger, log: seq<Broadcast>)
    requires |log| <= |sc.legs|
  {
    var m := |log|;
    && EarlierChangeSpent(sc, l, log)
    && FeeCoinsState(sc, LedgerAfter(l, log), m)
    && (0 < m < |sc.legs| ==>
          ChangeCoin(sc.feeOld, log[m - 1].tx).Some?
          && LiveChange(sc, l, log, ChangeCoin(sc.feeOld, log[m - 1].tx).value))
    && (m < |sc.legs| ==> forall asset :: Received(log, sc.fee.dest, asset) == 0)
    && (0 < m == |sc.legs| ==>
          forall asset :: Received(log, sc.fee.dest, asset) + (if asset == sc.policy then FeesPaid(log) else 0)
                          == FeeIn(sc, m, asset))
  }

  /** `op` is among the coins of an account that transaction `k` pays. */
  ghost predicate CustomerPoint(sc: Scene, k: nat, op: OutPoint)
    requires k < |sc.legs|
  {
    exists a :: a in sc.accounts && Pays(sc.legs[k].outputs, a.idx) && Holds(a.coins, op)
  }

  /** Broadcast `j` spends exactly the coins of the customers it pays and the fee account's share. */
  ghost predicate SpendsPlanned(sc: Scene, log: seq<Broadcast>, j: nat)
    requires j < |sc.legs| && j < |log|
  {
    forall op :: op in log[j].tx.inputs <==> CustomerPoint(sc, j, op) || Holds(FeeShare(sc, log, j), op)
  }

  /** A broadcast pays every customer of leg `k` its whole balance and every other one nothing. */
  ghost predicate PaysPlanned(sc: Scene, k: nat, b: Broadcast)
    requires k < |sc.legs|
  {
    forall a, asset {:trigger PaidAt(b.tx.outputs, a.dest, asset)} :: a in sc.accounts && a != sc.fee ==>
      PaidAt(b.tx.outputs, a.dest, asset) == if Pays(sc.legs[k].outputs, a.idx) then Held(a.coins, asset) else 0
  }

  ghost predicate Progress(sc: Scene, l: Ledger, log: seq<Broadcast>) {
    && |log| <= |sc.legs|
    && ValidLog(l, Txs(log))
    && (forall j :: 0 <= j < |log| ==> SpendsPlanned(sc, log, j) && PaysPlanned(sc, j, log[j]))
    && (forall a :: a in sc.accounts && a != sc.fee ==> CustomerState(sc, l, log, a))
    && FeeState(sc, l, log)
  }

  // ---------------------------------------------------------------------------
  // The fee account's coins
  // ---------------------------------------------------------------------------

  lemma {:induction false} FeeCoinsAmong(legs: seq<Leg>, k: nat)
    requires k < |legs|
    ensures multiset(legs[k].feeCoins) <= multiset(AllFeeCoins(legs))
  {
    if k < |legs| - 1 {
      FeeCoinsAmong(legs[..|legs| - 1], k);
    }
  }

  lemma {:induction false} FeeCoinsOfTwo(legs: seq<Leg>, j: nat, k: nat)
    requires j < k < |legs|
    ensures multiset(legs[j].feeCoins) + multiset(legs[k].feeCoins) <= multiset(AllFeeCoins(legs))
  {
    if k < |legs| - 1 {
      FeeCoinsOfTwo(legs[..|legs| - 1], j, k);
    } else {
      FeeCoinsAmong(legs[..|legs| - 1], j);
    }
  }

  lemma AllFeeCoinsSnoc(legs: seq<Leg>, m: nat)
    requires 0 < m <= |legs|
    ensures AllFeeCoins(legs[..m]) == AllFeeCoins(legs[..m - 1]) + legs[m - 1].feeCoins
  {
    assert legs[..m][..m - 1] == legs[..m - 1];
  }

  lemma {:induction false} FeeInIsAll(sc: Scene, m: nat, asset: Asset)
    requires m <= |sc.legs|
    ensures FeeIn(sc, m, asset) == Held(AllFeeCoins(sc.legs[..m]), asset)
  {
    if m == 0 {
      assert Outs([]) == [];
    } else {
      FeeInIsAll(sc, m - 1, asset);
      AllFeeCoinsSnoc(sc.legs, m);
      HeldConcat(AllFeeCoins(sc.legs[..m - 1]), sc.legs[m - 1].feeCoins, asset);
    }
  }

  /** Over the whole plan the fee account brings in what it holds. */
  lemma FeeInIsHeld(sc: Scene, asset: Asset)
    requires GoodLegs(sc) && sc.legs != []
    ensures FeeIn(sc, |sc.legs|, asset) == Held(sc.fee.coins, asset)
  {
    FeeInIsAll(sc, |sc.legs|, asset);
    assert sc.legs[..|sc.legs|] == sc.legs;
    HeldPermutation(AllFeeCoins(sc.legs), sc.fee.coins, asset);
  }

  /** The fee coins a transaction brings in: the fee account's, each once, and no other transaction's. */
  lemma LegCoins(sc: Scene, l: Ledger, k: nat)
    requires GoodScene(sc, l) && GoodLegs(sc) && k < |sc.legs|
    ensures Distinct(Points(sc.legs[k].feeCoins))
    ensures forall c :: c in sc.legs[k].feeCoins ==> c in sc.fee.coins
    ensures forall j, c :: 0 <= j < |sc.legs| && j != k && c in sc.legs[k].feeCoins ==> !Holds(sc.legs[j].feeCoins, c.op)
  {
    var coins := sc.legs[k].feeCoins;
    FeeCoinsAmong(sc.legs, k);
    assert forall c :: c in coins ==> c in multiset(coins);
    assert forall c :: c in multiset(sc.fee.coins) ==> c in sc.fee.coins;
    SubsetDistinct(coins, sc.fee.coins);
    forall j, c | 0 <= j < |sc.legs| && j != k && c in coins ensures !Holds(sc.legs[j].feeCoins, c.op) {
      if d :| d in sc.legs[j].feeCoins && d.op == c.op {
        if j < k {
          FeeCoinsOfTwo(sc.legs, j, k);
        } else {
          FeeCoinsOfTwo(sc.legs, k, j);
        }
        FeeCoinsAmong(sc.legs, j);
        SharedPoint(sc.fee.coins, sc.legs[j].feeCoins, coins, d, c);
      }
    }
  }

  lemma SubsetDistinct(a: seq<Coin>, b: seq<Coin>)
    requires multiset(a) <= multiset(b) && Distinct(Points(b))
    ensures Distinct(Points(a))
  {
    PointsCount(b, a);
  }

  lemma PointsConcat(a: seq<Coin>, b: seq<Coin>)
    ensures multiset(Points(a + b)) == multiset(Points(a)) + multiset(Points(b))
  {
    assert Points(a + b) == Points(a) + Points(b);
  }

  /** Fewer coins have fewer points. */
  lemma {:induction false} PointsCount(b: seq<Coin>, a: seq<Coin>)
    requires multiset(a) <= multiset(b)
    ensures multiset(Points(a)) <= multiset(Points(b))
    decreases |a|
  {
    if a != [] {
      hide Points;
      var i := MatchFirst(a, b);
      PointsCount(b[..i] + b[i + 1..], a[1..]);
      PointsConcat([a[0]], a[1..]);
      PointsConcat(b[..i], [b[i]] + b[i + 1..]);
      PointsConcat([b[i]], b[i + 1..]);
      PointsConcat(b[..i], b[i + 1..]);
    }
  }

  lemma SharedPoint(all: seq<Coin>, a: seq<Coin>, b: seq<Coin>, d: Coin, c: Coin)
    requires multiset(a) + multiset(b) <= multiset(all) && d in a && c in b && d.op == c.op
    ensures !Distinct(Points(all))
  {
    PointsCount(all, a + b);
    assert Points(a + b) == Points(a) + Points(b);
    HoldsPoints(a);
    HoldsPoints(b);
    assert multiset(Points(a + b))[c.op] == multiset(Points(a))[c.op] + multiset(Points(b))[c.op];
    assert c.op in Points(a) && c.op in Points(b);
    HoldsPoints(all);
    assert multiset(Points(all))[c.op] >= 2;
    assert c.op in Points(all);
  }

  lemma FeeNow(sc: Scene, l: Ledger, log: seq<Broadcast>)
    requires Progress(sc, l, log) && |log| < |sc.legs|
    ensures FeeState(sc, l, log)
    ensures |log| > 0 ==> ChangeCoin(sc.feeOld, log[|log| - 1].tx).Some?
    ensures |log| > 0 ==> LiveChange(sc, l, log, ChangeCoin(sc.feeOld, log[|log| - 1].tx).value)
    ensures Live(LedgerAfter(l, log), sc.legs[|log|].feeCoins)
    ensures EarlierChangeSpent(sc, l, log)
  {
  }

  /** The fee account's next inputs are worth what is left of the chain plus what it brings in. */
  lemma FeeShareValue(sc: Scene, l: Ledger, log: seq<Broadcast>, asset: Asset)
    requires |log| < |sc.legs| && FeeState(sc, l, log)
    ensures Held(FeeShare(sc, log, |log|), sc.policy) + FeesPaid(log) == FeeIn(sc, |log| + 1, sc.policy)
    ensures asset != sc.policy ==> Held(FeeShare(sc, log, |log|), asset) == Held(sc.legs[|log|].feeCoins, asset)
  {
    hide Live;
    hide FeeCoinsState;
    hide EarlierChangeSpent;
    var own := sc.legs[|log|].feeCoins;
    if |log| == 0 {
      assert own + [] == own;
    } else {
      var c := ChangeCoin(sc.feeOld, log[|log| - 1].tx).value;
      HeldConcat(own, [c], asset);
      HeldConcat(own, [c], sc.policy);
      HeldOne(c, asset);
      HeldOne(c, sc.policy);
    }
  }

  /** The fee account's next inputs are live, distinct and held by no customer. */
  lemma FeeShareFacts(sc: Scene, l: Ledger, log: seq<Broadcast>)
    requires GoodScene(sc, l) && GoodLegs(sc) && Progress(sc, l, log) && |log| < |sc.legs|
    ensures Live(LedgerAfter(l, log), FeeShare(sc, log, |log|))
    ensures Distinct(Points(FeeShare(sc, log, |log|)))
    ensures forall a :: a in sc.accounts && a != sc.fee ==> Apart(a.coins, FeeShare(sc, log, |log|))
  {
    hide Progress;
    hide FeeState;
    hide GoodLegs;
    hide LedgerAfter;
    var own := sc.legs[|log|].feeCoins;
    FeeNow(sc, l, log);
    LegCoins(sc, l, |log|);
    assert forall op :: Holds(own, op) ==> Holds(sc.fee.coins, op) && op in l.live;
    if |log| == 0 {
      assert own + [] == own;
    } else {
      var c := ChangeCoin(sc.feeOld, log[|log| - 1].tx).value;
      assert Points([c]) == [c.op];
      assert forall op :: Holds([c], op) ==> op == c.op;
      assert forall a :: a in sc.accounts ==> !Holds(a.coins, c.op);
      HoldsConcat(own, [c]);
      DistinctPointsConcat(own, [c]);
    }
  }

  // ---------------------------------------------------------------------------
  // One more broadcast
  // ---------------------------------------------------------------------------

  ghost predicate Touched(sc: Scene, log: seq<Broadcast>, op: OutPoint)
    requires |log| < |sc.legs|
  {
    CustomerPoint(sc, |log|, op) || Holds(FeeShare(sc, log, |log|), op)
  }

  /** What an executor has to deliver for the next transaction: it spends exactly the planned coins, pays every
      customer it is planned to pay its whole balance and no other customer anything, and gives the fee account
      its share less the fee, at its old address until the final transaction and at its new one there. */
  ghost predicate Delivers(sc: Scene, log: seq<Broadcast>, b: Broadcast, change: nat)
    requires |log| < |sc.legs|
  {
    var m := |log|;
    && b.tx.inputs != [] && Distinct(b.tx.inputs)
    && (forall op :: op in b.tx.inputs <==> Touched(sc, log, op))
    && PaysPlanned(sc, m, b)
    && change + b.fee == Held(FeeShare(sc, log, m), sc.policy)
    && (if sc.legs[m].isFeeFinal
        then forall asset :: PaidAt(b.tx.outputs, sc.fee.dest, asset)
                             == if asset == sc.policy then change else FeeIn(sc, m + 1, asset)
        else && (forall asset :: PaidAt(b.tx.outputs, sc.fee.dest, asset) == 0)
             && ChangeCoin(sc.feeOld, b.tx).Some?
             && ChangeCoin(sc.feeOld, b.tx).value.out == TxOut(sc.feeOld, sc.policy, change))
  }

  lemma CustomersLive(sc: Scene, l: Ledger, log: seq<Broadcast>, op: OutPoint)
    requires GoodScene(sc, l) && GoodLegs(sc) && Progress(sc, l, log) && |log| < |sc.legs|
    requires CustomerPoint(sc, |log|, op)
    ensures op in LedgerAfter(l, log).live
    ensures !Holds(FeeShare(sc, log, |log|), op)
  {
    hide Pays;
    var a :| a in sc.accounts && Pays(sc.legs[|log|].outputs, a.idx) && Holds(a.coins, op);
    assert !PaidBefore(sc, |log|, a.idx) && a != sc.fee;
    assert CustomerState(sc, l, log, a);
    FeeShareFacts(sc, l, log);
  }

  lemma NextSpendable(sc: Scene, l: Ledger, log: seq<Broadcast>, b: Broadcast, change: nat)
    requires GoodScene(sc, l) && GoodLegs(sc) && Progress(sc, l, log) && |log| < |sc.legs|
    requires Delivers(sc, log, b, change)
    ensures Spendable(LedgerAfter(l, log), b.tx)
  {
    hide Pays;
    forall op | op in b.tx.inputs ensures op in LedgerAfter(l, log).live {
      if CustomerPoint(sc, |log|, op) {
        CustomersLive(sc, l, log, op);
      } else {
        FeeShareFacts(sc, l, log);
      }
    }
  }

  lemma NextSpends(sc: Scene, l: Ledger, log: seq<Broadcast>, b: Broadcast, change: nat)
    requires Progress(sc, l, log) && |log| < |sc.legs| && Delivers(sc, log, b, change)
    ensures ValidLog(l, Txs(log))
    ensures forall op :: op in b.tx.inputs <==> Touched(sc, log, op)
  {
  }

  /** From one ledger to the next: touched coins are spent, spent coins stay spent, all others stay live. */
  ghost predicate Shift(sc: Scene, log: seq<Broadcast>, before: Ledger, after: Ledger)
    requires |log| < |sc.legs|
  {
    && (forall op :: Touched(sc, log, op) ==> op in after.spent)
    && (forall op :: op in before.spent ==> op in after.spent)
    && (forall op :: op in before.live && !Touched(sc, log, op) ==> op in after.live && after.live[op] == before.live[op])
  }

  lemma NextLedger(sc: Scene, l: Ledger, log: seq<Broadcast>, b: Broadcast, change: nat)
    requires GoodScene(sc, l) && GoodLegs(sc) && Sound(l) && Progress(sc, l, log) && |log| < |sc.legs|
    requires Delivers(sc, log, b, change)
    ensures ValidLog(l, Txs(log + [b]))
    ensures FeesPaid(log + [b]) == FeesPaid(log) + b.fee
    ensures Shift(sc, log, LedgerAfter(l, log), LedgerAfter(l, log + [b]))
    ensures forall op :: op in l.live ==> op !in Created(b.tx)
    ensures forall i :: 0 <= i < |b.tx.outputs| ==>
      var op := OutPoint(Hash(b.tx), i);
      op in Created(b.tx) && op in LedgerAfter(l, log + [b]).live
      && LedgerAfter(l, log + [b]).live[op] == b.tx.outputs[i]
  {
    hide Touched;
    hide Delivers;
    hide Progress;
    hide GoodScene;
    hide GoodLegs;
    NextSpendable(sc, l, log, b, change);
    NextSpends(sc, l, log, b, change);
    LogGrows(l, log, b);
    SpendKeepsSound(LedgerAfter(l, log), b.tx);
    KnownStaysKnown(l, Txs(log));
  }

  lemma PaidBeforeSnoc(sc: Scene, m: nat, idx: int)
    requires m < |sc.legs|
    ensures PaidBefore(sc, m + 1, idx) <==> PaidBefore(sc, m, idx) || Pays(sc.legs[m].outputs, idx)
  {
  }

  lemma PaidOnce(sc: Scene, m: nat, idx: int)
    requires GoodLegs(sc) && m < |sc.legs| && Pays(sc.legs[m].outputs, idx)
    ensures !PaidBefore(sc, m, idx) && idx != sc.fee.idx
    ensures forall i :: 0 <= i < |sc.legs| && i != m ==> !Pays(sc.legs[i].outputs, idx)
  {
    hide Pays;
  }

  lemma CustomerNow(sc: Scene, l: Ledger, log: seq<Broadcast>, a: Account)
    requires Progress(sc, l, log) && a in sc.accounts && a != sc.fee
    ensures CustomerState(sc, l, log, a)
  {
  }

  /** A customer whose coins are touched and who is paid in full has crossed over. */
  lemma CrossOver(sc: Scene, l: Ledger, log: seq<Broadcast>, b: Broadcast, a: Account)
    requires |log| < |sc.legs| && CustomerState(sc, l, log, a)
    requires Shift(sc, log, LedgerAfter(l, log), LedgerAfter(l, log + [b]))
    requires Pays(sc.legs[|log|].outputs, a.idx) && !PaidBefore(sc, |log|, a.idx)
    requires forall asset :: PaidAt(b.tx.outputs, a.dest, asset) == Held(a.coins, asset)
    requires forall c :: c in a.coins ==> Touched(sc, log, c.op)
    ensures CustomerState(sc, l, log + [b], a)
  {
    hide Pays;
    hide LedgerAfter;
    hide Received;
    hide Touched;
    PaidBeforeSnoc(sc, |log|, a.idx);
    forall asset ensures Received(log + [b], a.dest, asset) == Held(a.coins, asset) {
      ReceivedSnoc(log, b, a.dest, asset);
    }
  }

  lemma StayPut(sc: Scene, l: Ledger, log: seq<Broadcast>, b: Broadcast, a: Account)
    requires |log| < |sc.legs| && CustomerState(sc, l, log, a)
    requires Shift(sc, log, LedgerAfter(l, log), LedgerAfter(l, log + [b]))
    requires !Pays(sc.legs[|log|].outputs, a.idx)
    requires forall asset :: PaidAt(b.tx.outputs, a.dest, asset) == 0
    requires forall c :: c in a.coins ==> !Touched(sc, log, c.op)
    ensures CustomerState(sc, l, log + [b], a)
  {
    hide Pays;
    hide LedgerAfter;
    hide Received;
    hide Touched;
    PaidBeforeSnoc(sc, |log|, a.idx);
    forall asset ensures Received(log + [b], a.dest, asset) == Received(log, a.dest, asset) {
      ReceivedSnoc(log, b, a.dest, asset);
    }
  }

  lemma PaidIsTouched(sc: Scene, log: seq<Broadcast>, a: Account)
    requires |log| < |sc.legs| && a in sc.accounts && Pays(sc.legs[|log|].outputs, a.idx)
    ensures forall c :: c in a.coins ==> Touched(sc, log, c.op)
  {
    hide Pays;
    forall c | c in a.coins ensures Touched(sc, log, c.op) {
      assert Holds(a.coins, c.op);
    }
  }

  lemma OnlyOwnerTouches(sc: Scene, l: Ledger, k: nat, a: Account, c: Coin)
    requires GoodScene(sc, l) && k < |sc.legs| && a in sc.accounts && c in a.coins
    requires !Pays(sc.legs[k].outputs, a.idx)
    ensures !CustomerPoint(sc, k, c.op)
  {
    hide Pays;
    assert Holds(a.coins, c.op);
  }

  lemma NotTouched(sc: Scene, l: Ledger, log: seq<Broadcast>, a: Account)
    requires GoodScene(sc, l) && GoodLegs(sc) && Progress(sc, l, log) && |log| < |sc.legs|
    requires a in sc.accounts && a != sc.fee && !Pays(sc.legs[|log|].outputs, a.idx)
    ensures forall c :: c in a.coins ==> !Touched(sc, log, c.op)
  {
    hide Pays;
    hide Progress;
    hide GoodLegs;
    FeeShareFacts(sc, l, log);
    forall c | c in a.coins ensures !Touched(sc, log, c.op) {
      assert Holds(a.coins, c.op);
      OnlyOwnerTouches(sc, l, |log|, a, c);
    }
  }

  /** A customer the broadcast pays crosses over whole; every other one keeps its state. */
  lemma NextCustomer(sc: Scene, l: Ledger, log: seq<Broadcast>, b: Broadcast, change: nat, a: Account)
    requires GoodScene(sc, l) && GoodLegs(sc) && Sound(l) && Progress(sc, l, log) && |log| < |sc.legs|
    requires Delivers(sc, log, b, change) && a in sc.accounts && a != sc.fee
    ensures CustomerState(sc, l, log + [b], a)
  {
    assert forall asset :: PaidAt(b.tx.outputs, a.dest, asset)
                           == if Pays(sc.legs[|log|].outputs, a.idx) then Held(a.coins, asset) else 0;
    hide *;
    NextLedger(sc, l, log, b, change);
    CustomerNow(sc, l, log, a);
    if Pays(sc.legs[|log|].outputs, a.idx) {
      PaidOnce(sc, |log|, a.idx);
      PaidIsTouched(sc, log, a);
      CrossOver(sc, l, log, b, a);
    } else {
      NotTouched(sc, l, log, a);
      StayPut(sc, l, log, b, a);
    }
  }

  lemma ShareIsTouched(sc: Scene, log: seq<Broadcast>)
    requires |log| < |sc.legs|
    ensures forall c :: c in sc.legs[|log|].feeCoins ==> Touched(sc, log, c.op)
    ensures |log| > 0 && ChangeCoin(sc.feeOld, log[|log| - 1].tx).Some? ==>
      Touched(sc, log, ChangeCoin(sc.feeOld, log[|log| - 1].tx).value.op)
  {
    hide CustomerPoint;
    var share := FeeShare(sc, log, |log|);
    forall c | c in share ensures Touched(sc, log, c.op) {
      assert Holds(share, c.op);
    }
    if |log| > 0 && ChangeCoin(sc.feeOld, log[|log| - 1].tx).Some? {
      assert ChangeCoin(sc.feeOld, log[|log| - 1].tx).value in share;
    }
  }

  lemma LaterCoinsUntouched(sc: Scene, l: Ledger, log: seq<Broadcast>, j: nat, c: Coin)
    requires GoodScene(sc, l) && GoodLegs(sc) && Progress(sc, l, log) && |log| < j < |sc.legs|
    requires c in sc.legs[j].feeCoins
    ensures !Touched(sc, log, c.op)
  {
    LegCoins(sc, l, j);
    assert !Holds(sc.legs[|log|].feeCoins, c.op);
    assert !Pays(sc.legs[|log|].outputs, sc.fee.idx);
    OnlyOwnerTouches(sc, l, |log|, sc.fee, c);
    FeeNow(sc, l, log);
    assert c.op in l.live;
    hide Progress;
    hide FeeState;
    hide GoodScene;
    hide GoodLegs;
    hide CustomerPoint;
    if |log| > 0 {
      HoldsConcat(sc.legs[|log|].feeCoins, [ChangeCoin(sc.feeOld, log[|log| - 1].tx).value]);
    } else {
      assert sc.legs[|log|].feeCoins + [] == sc.legs[|log|].feeCoins;
    }
  }

  lemma LaterLegStays(sc: Scene, l: Ledger, log: seq<Broadcast>, after: Ledger, j: nat)
    requires GoodScene(sc, l) && GoodLegs(sc) && Progress(sc, l, log) && |log| < j < |sc.legs|
    requires Shift(sc, log, LedgerAfter(l, log), after) && Live(LedgerAfter(l, log), sc.legs[j].feeCoins)
    ensures Live(after, sc.legs[j].feeCoins)
  {
    hide Touched;
    hide LedgerAfter;
    hide Progress;
    hide GoodScene;
    hide GoodLegs;
    forall c | c in sc.legs[j].feeCoins ensures !Touched(sc, log, c.op) {
      LaterCoinsUntouched(sc, l, log, j, c);
    }
  }

  lemma FeeCoinsNow(sc: Scene, l: Ledger, log: seq<Broadcast>, j: nat)
    requires Progress(sc, l, log) && j < |sc.legs|
    ensures if j < |log| then Gone(LedgerAfter(l, log), sc.legs[j].feeCoins)
            else Live(LedgerAfter(l, log), sc.legs[j].feeCoins)
  {
  }

  lemma NextFeeCoins(sc: Scene, l: Ledger, log: seq<Broadcast>, after: Ledger)
    requires GoodScene(sc, l) && GoodLegs(sc) && Progress(sc, l, log) && |log| < |sc.legs|
    requires Shift(sc, log, LedgerAfter(l, log), after)
    ensures FeeCoinsState(sc, after, |log| + 1)
  {
    hide Touched;
    hide LedgerAfter;
    hide Progress;
    hide GoodScene;
    hide GoodLegs;
    ShareIsTouched(sc, log);
    forall j | 0 <= j < |sc.legs|
      ensures if j < |log| + 1 then Gone(after, sc.legs[j].feeCoins) else Live(after, sc.legs[j].feeCoins)
    {
      FeeCoinsNow(sc, l, log, j);
      if j > |log| {
        LaterLegStays(sc, l, log, after, j);
      }
    }
  }

  lemma EarlierNow(sc: Scene, l: Ledger, log: seq<Broadcast>)
    requires Progress(sc, l, log)
    ensures EarlierChangeSpent(sc, l, log)
    ensures 0 < |log| < |sc.legs| ==> ChangeCoin(sc.feeOld, log[|log| - 1].tx).Some?
  {
  }

  /** The change of the last broadcast is among what the next one spends. */
  lemma LastChangeTouched(sc: Scene, log: seq<Broadcast>)
    requires |log| < |sc.legs|
    ensures |log| > 0 && ChangeCoin(sc.feeOld, log[|log| - 1].tx).Some? ==>
      Touched(sc, log, ChangeCoin(sc.feeOld, log[|log| - 1].tx).value.op)
  {
    ShareIsTouched(sc, log);
    if |log| > 0 && ChangeCoin(sc.feeOld, log[|log| - 1].tx).Some? {
      var c := ChangeCoin(sc.feeOld, log[|log| - 1].tx).value;
      assert c in FeeShare(sc, log, |log|);
    }
  }

  lemma NextEarlierChange(sc: Scene, l: Ledger, log: seq<Broadcast>, b: Broadcast)
    requires Progress(sc, l, log) && |log| < |sc.legs|
    requires Shift(sc, log, LedgerAfter(l, log), LedgerAfter(l, log + [b]))
    ensures EarlierChangeSpent(sc, l, log + [b])
  {
    hide Touched;
    hide LedgerAfter;
    hide Progress;
    hide FeeState;
    hide FeeShare;
    LastChangeTouched(sc, log);
    FeeNow(sc, l, log);
    EarlierNow(sc, l, log);
    var log' := log + [b];
    forall j | 0 <= j < |log|
      ensures ChangeCoin(sc.feeOld, log'[j].tx).Some?
      ensures ChangeCoin(sc.feeOld, log'[j].tx).value.op in LedgerAfter(l, log').spent
    {
      assert log'[j] == log[j];
    }
  }

  lemma NextReceived(sc: Scene, l: Ledger, log: seq<Broadcast>, b: Broadcast, change: nat)
    requires GoodLegs(sc) && Progress(sc, l, log) && |log| < |sc.legs| && Delivers(sc, log, b, change)
    requires FeesPaid(log + [b]) == FeesPaid(log) + b.fee
    ensures change + FeesPaid(log + [b]) == FeeIn(sc, |log| + 1, sc.policy)
    ensures forall asset ::
      Received(log + [b], sc.fee.dest, asset)
      == if !sc.legs[|log|].isFeeFinal then 0 else if asset == sc.policy then change else FeeIn(sc, |log| + 1, asset)
  {
    FeeShareValue(sc, l, log, sc.policy);
    assert forall asset :: Received(log, sc.fee.dest, asset) == 0;
    hide Received;
    hide Progress;
    hide Touched;
    forall asset ensures Received(log + [b], sc.fee.dest, asset)
                         == if !sc.legs[|log|].isFeeFinal then 0 else if asset == sc.policy then change else FeeIn(sc, |log| + 1, asset)
    {
      ReceivedSnoc(log, b, sc.fee.dest, asset);
    }
  }

  lemma NextFeeState(sc: Scene, l: Ledger, log: seq<Broadcast>, b: Broadcast, change: nat)
    requires GoodScene(sc, l) && GoodLegs(sc) && Sound(l) && Progress(sc, l, log) && |log| < |sc.legs|
    requires Delivers(sc, log, b, change)
    ensures FeeState(sc, l, log + [b])
  {
    hide Pays;
    hide Progress;
    hide GoodScene;
    hide LedgerAfter;
    hide Received;
    hide FeeShare;
    hide EarlierChangeSpent;
    hide FeeCoinsState;
    hide Created;
    hide Touched;
    hide PaysPlanned;
    NextLedger(sc, l, log, b, change);
    NextFeeCoins(sc, l, log, LedgerAfter(l, log + [b]));
    NextEarlierChange(sc, l, log, b);
    NextReceived(sc, l, log, b, change);
  }

  /** One more delivered broadcast keeps the state of every account and of the chain. */
  lemma NextProgress(sc: Scene, l: Ledger, log: seq<Broadcast>, b: Broadcast, change: nat)
    requires GoodScene(sc, l) && GoodLegs(sc) && Sound(l) && Progress(sc, l, log) && |log| < |sc.legs|
    requires Delivers(sc, log, b, change)
    ensures Progress(sc, l, log + [b])
  {
    hide Pays;
    hide CustomerState;
    hide SpendsPlanned;
    hide PaysPlanned;
    hide LedgerAfter;
    hide FeeState;
    hide GoodScene;
    hide GoodLegs;
    hide Delivers;
    hide Created;
    hide Shift;
    var log' := log + [b];
    NextLedger(sc, l, log, b, change);
    forall a | a in sc.accounts && a != sc.fee ensures CustomerState(sc, l, log', a) {
      NextCustomer(sc, l, log, b, change, a);
    }
    forall j | 0 <= j < |log'| ensures SpendsPlanned(sc, log', j) && PaysPlanned(sc, j, log'[j]) {
      NextSpendsPlanned(sc, l, log, b, change, j);
    }
    NextFeeState(sc, l, log, b, change);
  }

  lemma NextSpendsPlanned(sc: Scene, l: Ledger, log: seq<Broadcast>, b: Broadcast, change: nat, j: nat)
    requires Progress(sc, l, log) && |log| < |sc.legs| && Delivers(sc, log, b, change) && j <= |log|
    ensures SpendsPlanned(sc, log + [b], j) && PaysPlanned(sc, j, (log + [b])[j])
  {
    hide CustomerPoint;
    hide Progress;
    hide Delivers;
    hide PaysPlanned;
    hide FeeShare;
    ShareUnchanged(sc, log, b, j);
    if j < |log| {
      PlannedAt(sc, l, log, j);
    } else {
      DeliversPlanned(sc, log, b, change);
    }
  }

  lemma ShareUnchanged(sc: Scene, log: seq<Broadcast>, b: Broadcast, j: nat)
    requires j <= |log| && j < |sc.legs|
    ensures FeeShare(sc, log + [b], j) == FeeShare(sc, log, j)
  {
  }

  lemma PlannedAt(sc: Scene, l: Ledger, log: seq<Broadcast>, j: nat)
    requires Progress(sc, l, log) && j < |log|
    ensures SpendsPlanned(sc, log, j) && PaysPlanned(sc, j, log[j])
  {
  }

  lemma DeliversPlanned(sc: Scene, log: seq<Broadcast>, b: Broadcast, change: nat)
    requires |log| < |sc.legs| && Delivers(sc, log, b, change)
    ensures PaysPlanned(sc, |log|, b)
    ensures forall op :: op in b.tx.inputs <==> CustomerPoint(sc, |log|, op) || Holds(FeeShare(sc, log, |log|), op)
  {
  }

  lemma Beginning(sc: Scene, l: Ledger)
    requires GoodScene(sc, l) && GoodLegs(sc)
    ensures Progress(sc, l, [])
  {
    assert Txs([]) == [];
    forall j | 0 <= j < |sc.legs| ensures Live(l, sc.legs[j].feeCoins) {
      LegCoins(sc, l, j);
    }
  }

  // ---------------------------------------------------------------------------
  // Whole logs
  // ---------------------------------------------------------------------------

  /** `op` is an intermediate change of the fee account: the chained output of a broadcast before the last. */
  ghost predicate IntermediateChange(sc: Scene, log: seq<Broadcast>, op: OutPoint) {
    exists j :: 0 <= j < |log| - 1
                && ChangeCoin(sc.feeOld, log[j].tx).Some? && ChangeCoin(sc.feeOld, log[j].tx).value.op == op
  }

  /** `op` belongs to an account the plan moves: a customer it pays, or the fee account. */
  ghost predicate PlannedPoint(sc: Scene, op: OutPoint) {
    || Holds(sc.fee.coins, op)
    || exists a :: a in sc.accounts && a != sc.fee && PaidBefore(sc, |sc.legs|, a.idx) && Holds(a.coins, op)
  }

  lemma IntermediateIsNew(sc: Scene, l: Ledger, log: seq<Broadcast>, op: OutPoint)
    requires Sound(l) && Progress(sc, l, log)
    ensures IntermediateChange(sc, log, op) ==> op !in l.live
  {
    hide FeeState;
    hide CustomerState;
    hide SpendsPlanned;
    hide PaysPlanned;
    if IntermediateChange(sc, log, op) {
      var j :| 0 <= j < |log| - 1
               && ChangeCoin(sc.feeOld, log[j].tx).Some? && ChangeCoin(sc.feeOld, log[j].tx).value.op == op;
      CreatedIsNew(l, Txs(log), j);
    }
  }

  lemma {:induction false} InputsAreInTransactions(log: seq<Broadcast>)
    ensures forall op :: op in AllInputs(Txs(log)) <==> exists j :: 0 <= j < |log| && op in log[j].tx.inputs
  {
    if log != [] {
      var init, e := log[..|log| - 1], log[|log| - 1];
      InputsAreInTransactions(init);
      assert Txs(log)[..|log| - 1] == Txs(init);
      forall op ensures op in AllInputs(Txs(log)) <==> exists j :: 0 <= j < |log| && op in log[j].tx.inputs {
        if op in AllInputs(Txs(init)) {
          var j :| 0 <= j < |init| && op in init[j].tx.inputs;
          assert log[j] == init[j];
        }
        if j :| 0 <= j < |log| && op in log[j].tx.inputs {
          assert j < |init| ==> init[j] == log[j];
        }
      }
    }
  }

  lemma SharePoint(sc: Scene, l: Ledger, log: seq<Broadcast>, j: nat, op: OutPoint)
    requires GoodScene(sc, l) && GoodLegs(sc) && j < |sc.legs| && j < |log| && Holds(FeeShare(sc, log, j), op)
    ensures Holds(sc.fee.coins, op) || IntermediateChange(sc, log, op)
  {
    var c :| c in FeeShare(sc, log, j) && c.op == op;
    LegCoins(sc, l, j);
    if c !in sc.legs[j].feeCoins {
      assert j > 0 && ChangeCoin(sc.feeOld, log[j - 1].tx) == Some(c);
    }
  }

  /** Nothing outside the plan is spent: every input is a planned account's coin or an intermediate change. */
  lemma OnlyPlannedCoinsSpent(sc: Scene, l: Ledger, log: seq<Broadcast>, op: OutPoint)
    requires GoodScene(sc, l) && GoodLegs(sc) && Progress(sc, l, log) && op in AllInputs(Txs(log))
    ensures PlannedPoint(sc, op) || IntermediateChange(sc, log, op)
  {
    InputsAreInTransactions(log);
    var j :| 0 <= j < |log| && op in log[j].tx.inputs;
    assert SpendsPlanned(sc, log, j);
    if CustomerPoint(sc, j, op) {
      var a :| a in sc.accounts && Pays(sc.legs[j].outputs, a.idx) && Holds(a.coins, op);
      PaidOnce(sc, j, a.idx);
      assert PaidBefore(sc, |sc.legs|, a.idx);
      assert PlannedPoint(sc, op);
    } else {
      SharePoint(sc, l, log, j, op);
    }
  }

  lemma {:induction false} FeeCoinHasLeg(legs: seq<Leg>, c: Coin)
    requires c in AllFeeCoins(legs)
    ensures exists k :: 0 <= k < |legs| && c in legs[k].feeCoins
  {
    if c in AllFeeCoins(legs[..|legs| - 1]) {
      FeeCoinHasLeg(legs[..|legs| - 1], c);
      var k :| 0 <= k < |legs| - 1 && c in legs[..|legs| - 1][k].feeCoins;
      assert c in legs[k].feeCoins;
    } else {
      assert c in legs[|legs| - 1].feeCoins;
    }
  }

  lemma FeeCoinSpent(sc: Scene, l: Ledger, log: seq<Broadcast>, op: OutPoint)
    requires GoodLegs(sc) && Progress(sc, l, log) && |log| == |sc.legs| > 0 && Holds(sc.fee.coins, op)
    ensures op in LedgerAfter(l, log).spent
  {
    hide Pays;
    hide CustomerState;
    hide SpendsPlanned;
    hide PaysPlanned;
    hide EarlierChangeSpent;
    hide LedgerAfter;
    var c :| c in sc.fee.coins && c.op == op;
    assert c in multiset(AllFeeCoins(sc.legs));
    FeeCoinHasLeg(sc.legs, c);
    var k :| 0 <= k < |sc.legs| && c in sc.legs[k].feeCoins;
    assert Gone(LedgerAfter(l, log), sc.legs[k].feeCoins);
  }

  lemma PaidCoinSpent(sc: Scene, l: Ledger, log: seq<Broadcast>, a: Account, op: OutPoint)
    requires Progress(sc, l, log) && |log| == |sc.legs| && a in sc.accounts && a != sc.fee
    requires PaidBefore(sc, |sc.legs|, a.idx) && Holds(a.coins, op)
    ensures op in LedgerAfter(l, log).spent
  {
    CustomerNow(sc, l, log, a);
    hide Progress;
    hide LedgerAfter;
    hide PaidBefore;
    var c :| c in a.coins && c.op == op;
  }

  lemma IntermediateChangeSpent(sc: Scene, l: Ledger, log: seq<Broadcast>, op: OutPoint)
    requires Progress(sc, l, log) && IntermediateChange(sc, log, op)
    ensures op in AllInputs(Txs(log))
  {
    hide FeeState;
    hide CustomerState;
    hide PaysPlanned;
    hide CustomerPoint;
    var j :| 0 <= j < |log| - 1
             && ChangeCoin(sc.feeOld, log[j].tx).Some? && ChangeCoin(sc.feeOld, log[j].tx).value.op == op;
    assert SpendsPlanned(sc, log, j + 1);
    assert ChangeCoin(sc.feeOld, log[j].tx).value in FeeShare(sc, log, j + 1);
    assert Holds(FeeShare(sc, log, j + 1), op);
    InputsAreInTransactions(log);
  }

  lemma PlannedCoinsAreSpent(sc: Scene, l: Ledger, log: seq<Broadcast>, op: OutPoint)
    requires GoodScene(sc, l) && GoodLegs(sc) && Sound(l) && Progress(sc, l, log) && |log| == |sc.legs| > 0
    requires PlannedPoint(sc, op) || IntermediateChange(sc, log, op)
    ensures op in AllInputs(Txs(log))
  {
    hide GoodScene;
    hide GoodLegs;
    hide IntermediateChange;
    hide Holds;
    hide PaidBefore;
    hide FeeState;
    hide CustomerState;
    hide SpendsPlanned;
    hide PaysPlanned;
    if IntermediateChange(sc, log, op) {
      IntermediateChangeSpent(sc, l, log, op);
    } else {
      NoDoubleSpend(l, Txs(log));
      PlannedIsLive(sc, l, op);
      if Holds(sc.fee.coins, op) {
        FeeCoinSpent(sc, l, log, op);
      } else {
        var a :| a in sc.accounts && a != sc.fee && PaidBefore(sc, |sc.legs|, a.idx) && Holds(a.coins, op);
        PaidCoinSpent(sc, l, log, a, op);
      }
    }
  }

  /** A complete log has spent, once each, exactly the coins of the planned accounts and every intermediate
      change. */
  lemma CompleteLog(sc: Scene, l: Ledger, log: seq<Broadcast>)
    requires GoodScene(sc, l) && GoodLegs(sc) && Sound(l) && Progress(sc, l, log) && |log| == |sc.legs| > 0
    ensures Distinct(AllInputs(Txs(log)))
    ensures forall op :: op in AllInputs(Txs(log)) <==> PlannedPoint(sc, op) || IntermediateChange(sc, log, op)
  {
    NoDoubleSpend(l, Txs(log));
    hide GoodScene;
    hide GoodLegs;
    hide Progress;
    hide PlannedPoint;
    hide IntermediateChange;
    forall op ensures op in AllInputs(Txs(log)) <==> PlannedPoint(sc, op) || IntermediateChange(sc, log, op) {
      if op in AllInputs(Txs(log)) {
        OnlyPlannedCoinsSpent(sc, l, log, op);
      }
      if PlannedPoint(sc, op) || IntermediateChange(sc, log, op) {
        PlannedCoinsAreSpent(sc, l, log, op);
      }
    }
  }

  /** Conservation over a complete log: every paid customer has received what it held, every other one nothing,
      and the fee account what it held less all fees, taken from the policy asset. */
  lemma {:induction false} CompleteLogConserves(sc: Scene, l: Ledger, log: seq<Broadcast>, asset: Asset)
    requires GoodScene(sc, l) && GoodLegs(sc) && Progress(sc, l, log) && |log| == |sc.legs| > 0
    ensures forall a :: a in sc.accounts && a != sc.fee ==>
      Received(log, a.dest, asset) == if PaidBefore(sc, |sc.legs|, a.idx) then Held(a.coins, asset) else 0
    ensures Received(log, sc.fee.dest, asset)
            == Held(sc.fee.coins, asset) - (if asset == sc.policy then FeesPaid(log) else 0)
  {
    hide LedgerAfter;
    hide Received;
    hide GoodScene;
    hide LiveChange;
    hide EarlierChangeSpent;
    FeeInIsHeld(sc, asset);
    FinalReceipt(sc, l, log, asset);
    forall a | a in sc.accounts && a != sc.fee
      ensures Received(log, a.dest, asset) == if PaidBefore(sc, |sc.legs|, a.idx) then Held(a.coins, asset) else 0
    {
      CustomerNow(sc, l, log, a);
    }
  }

  lemma {:induction false} FinalReceipt(sc: Scene, l: Ledger, log: seq<Broadcast>, asset: Asset)
    requires Progress(sc, l, log) && |log| == |sc.legs| > 0
    ensures Received(log, sc.fee.dest, asset) + (if asset == sc.policy then FeesPaid(log) else 0)
            == FeeIn(sc, |log|, asset)
  {
    hide LedgerAfter;
    hide Received;
    hide LiveChange;
    hide EarlierChangeSpent;
  }

  /** Safety of any log: each customer wholly on one side, the fee account's new address untouched and the rest
      of the chain unspent at its old one until the final transaction. */
  ghost predicate Safe(sc: Scene, l: Ledger, log: seq<Broadcast>) {
    && |log| <= |sc.legs|
    && (forall a :: a in sc.accounts && a != sc.fee ==>
          || (Gone(LedgerAfter(l, log), a.coins)
              && forall asset :: Received(log, a.dest, asset) == Held(a.coins, asset))
          || (Live(LedgerAfter(l, log), a.coins) && forall asset :: Received(log, a.dest, asset) == 0))
    && (|log| < |sc.legs| ==> forall asset :: Received(log, sc.fee.dest, asset) == 0)
    && (forall k :: |log| <= k < |sc.legs| ==> Live(LedgerAfter(l, log), sc.legs[k].feeCoins))
    && (0 < |log| < |sc.legs| ==>
          && ChangeCoin(sc.feeOld, log[|log| - 1].tx).Some?
          && LiveChange(sc, l, log, ChangeCoin(sc.feeOld, log[|log| - 1].tx).value))
    && ReceiptsKept(sc, l, log)
  }

  /** What has arrived at an account's new address is still there, unspent. */
  ghost predicate ReceiptsKept(sc: Scene, l: Ledger, log: seq<Broadcast>) {
    forall j, i :: 0 <= j < |log| && 0 <= i < |log[j].tx.outputs| && log[j].tx.outputs[i].script != sc.feeOld ==>
      OutPoint(Hash(log[j].tx), i) in LedgerAfter(l, log).live
  }

  lemma {:induction false} CreatedStaysKnown(l: Ledger, log: seq<Tx>, j: nat, i: nat)
    requires Sound(l) && ValidLog(l, log) && j < |log| && i < |log[j].outputs|
    ensures OutPoint(Hash(log[j]), i) in After(l, log).live || OutPoint(Hash(log[j]), i) in After(l, log).spent
  {
    if j < |log| - 1 {
      CreatedStaysKnown(l, log[..|log| - 1], j, i);
    }
  }

  lemma ReceiptIsKept(sc: Scene, l: Ledger, log: seq<Broadcast>, j: nat, i: nat)
    requires GoodScene(sc, l) && GoodLegs(sc) && Sound(l) && Progress(sc, l, log)
    requires j < |log| && i < |log[j].tx.outputs| && log[j].tx.outputs[i].script != sc.feeOld
    ensures OutPoint(Hash(log[j].tx), i) in LedgerAfter(l, log).live
  {
    var op := OutPoint(Hash(log[j].tx), i);
    NoDoubleSpend(l, Txs(log));
    CreatedIsNew(l, Txs(log), j);
    CreatedStaysKnown(l, Txs(log), j, i);
    assert op !in l.live && op !in l.spent;
    PlannedIsLive(sc, l, op);
    ChangeIsAtOld(sc, log, op, j, i);
    if op in AllInputs(Txs(log)) {
      OnlyPlannedCoinsSpent(sc, l, log, op);
    }
  }

  lemma ChangeIsAtOld(sc: Scene, log: seq<Broadcast>, op: OutPoint, j: nat, i: nat)
    requires j < |log| && i < |log[j].tx.outputs| && op == OutPoint(Hash(log[j].tx), i)
    ensures IntermediateChange(sc, log, op) ==> log[j].tx.outputs[i].script == sc.feeOld
  {
  }

  lemma PlannedIsLive(sc: Scene, l: Ledger, op: OutPoint)
    requires GoodScene(sc, l)
    ensures PlannedPoint(sc, op) ==> op in l.live
  {
    if Holds(sc.fee.coins, op) {
      var c :| c in sc.fee.coins && c.op == op;
    } else if PlannedPoint(sc, op) {
      var a :| a in sc.accounts && a != sc.fee && PaidBefore(sc, |sc.legs|, a.idx) && Holds(a.coins, op);
      var c :| c in a.coins && c.op == op;
    }
  }

  lemma AllReceiptsKept(sc: Scene, l: Ledger, log: seq<Broadcast>)
    requires GoodScene(sc, l) && GoodLegs(sc) && Sound(l) && Progress(sc, l, log)
    ensures ReceiptsKept(sc, l, log)
  {
    hide LedgerAfter;
    hide Progress;
    hide GoodScene;
    hide GoodLegs;
    forall j, i | 0 <= j < |log| && 0 <= i < |log[j].tx.outputs| && log[j].tx.outputs[i].script != sc.feeOld
      ensures OutPoint(Hash(log[j].tx), i) in LedgerAfter(l, log).live
    {
      ReceiptIsKept(sc, l, log, j, i);
    }
  }

  lemma ProgressIsSafe(sc: Scene, l: Ledger, log: seq<Broadcast>)
    requires GoodScene(sc, l) && GoodLegs(sc) && Sound(l) && Progress(sc, l, log)
    ensures Safe(sc, l, log)
  {
    hide LedgerAfter;
    hide Received;
    hide LiveChange;
    hide ReceiptsKept;
    AllReceiptsKept(sc, l, log);
    forall a | a in sc.accounts && a != sc.fee ensures CustomerState(sc, l, log, a) {
      CustomerNow(sc, l, log, a);
    }
  }
}
