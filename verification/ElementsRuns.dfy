/** What every run of the batched Elements executor does to the ledger: no double spend, conservation per
    asset, completion when the run finishes, and safety on every aborted prefix. */
module ElementsRuns {
  import opened Wrappers
  import opened Ledger
  import opened SweepPlan
  import opened ChainedSweep
  import opened ElementsMigration

  // ---------------------------------------------------------------------------
  // Hypotheses: the accounts, the plan and the PSET builder
  // ---------------------------------------------------------------------------

  /** Funded accounts with their own coins and their own destination; the chain of a plan with several transactions
      starts from a policy coin. */
  ghost predicate GoodAccounts(s: Setup, l: Ledger) {
    && Ready(s)
    && s.feeOld != NO_SCRIPT
    && (|s.plan| > 1 ==> Fee(s).coins[0].out.asset == s.policy)
    && (forall a :: a in s.accounts ==> a.dest != s.feeOld && a.dest != NO_SCRIPT)
    && OwnCoins(s.accounts)
    && (forall a :: a in s.accounts ==> Live(l, a.coins))
    && (forall a, b :: a in s.accounts && b in s.accounts && a != b ==> a.idx != b.idx && a.dest != b.dest)
  }

  /** The planner's side of the bargain: every customer's whole balance in one transaction, the fee account
      final exactly in the last one, its non-policy assets returned there and nowhere before. */
  ghost predicate GoodPlan(s: Setup)
    requires Ready(s)
  {
    && (forall k :: 0 <= k < |s.plan| ==> (s.plan[k].isFeeFinal <==> k == |s.plan| - 1))
    && (forall k :: 0 <= k < |s.plan| ==> !Pays(s.plan[k].outputs, s.feeIdx))
    && (forall j, k, idx :: 0 <= j < k < |s.plan| ==> !(Pays(s.plan[j].outputs, idx) && Pays(s.plan[k].outputs, idx)))
    && (forall k, a, asset {:trigger PlannedFor(s.plan[k].outputs, a.idx, asset)} ::
          0 <= k < |s.plan| && a in s.accounts && Pays(s.plan[k].outputs, a.idx) ==>
          PlannedFor(s.plan[k].outputs, a.idx, asset) == Held(a.coins, asset))
    && (forall k, o :: 0 <= k < |s.plan| - 1 && o in s.plan[k].outputs && o.FeeChange? ==> o.asset == s.policy)
    && (|s.plan| > 0 ==> forall asset :: asset != s.policy ==>
          PlannedFeeChange(s.plan[|s.plan| - 1].outputs, asset) == Held(Fee(s).coins, asset))
  }

  /** The builder's contract: when every other asset balances, a built transaction spends exactly the given
      coins, pays exactly the given recipients, returns the policy remainder to the drain script and pays a
      positive fee out of it. */
  ghost predicate Funded(coins: seq<Coin>, recipients: seq<TxOut>, drain: Script, policy: Asset, b: Built) {
    && multiset(b.tx.inputs) == multiset(Points(coins))
    && multiset(b.tx.outputs)
       == multiset(recipients + [TxOut(drain, policy, b.change), TxOut(NO_SCRIPT, policy, b.fee)])
    && Held(coins, policy) == Total(recipients, policy) + b.change + b.fee
    && b.fee > 0
  }

  ghost predicate Balanced(coins: seq<Coin>, recipients: seq<TxOut>, policy: Asset) {
    forall asset :: asset != policy ==> Held(coins, asset) == Total(recipients, asset)
  }

  ghost predicate BuilderContract(s: Setup) {
    forall k, coins, recipients, drain ::
      s.env.build(k, coins, recipients, drain).Some? && Balanced(coins, recipients, s.policy) ==>
      Funded(coins, recipients, drain, s.policy, s.env.build(k, coins, recipients, drain).value)
  }

  // ---------------------------------------------------------------------------
  // What is gathered from one plan entry
  // ---------------------------------------------------------------------------

  lemma AddedSnoc(accounts: seq<Account>, outs: seq<PlanOut>, feeDest: Script, policy: Asset)
    requires outs != [] && Assemble(accounts, outs, feeDest, policy).Some?
    ensures var o := outs[|outs| - 1];
            && Assemble(accounts, outs[..|outs| - 1], feeDest, policy).Some?
            && var a0, a := Assemble(accounts, outs[..|outs| - 1], feeDest, policy).value, Assemble(accounts, outs, feeDest, policy).value;
            if o.Customer? && Idx(o.account) !in a0.added then
              && Find(accounts, Idx(o.account)).Some?
              && a.added == a0.added + [Idx(o.account)] && a.coins == a0.coins + Find(accounts, Idx(o.account)).value.coins
            else a.added == a0.added && a.coins == a0.coins
  {
  }

  /** Every paid account's coins are gathered exactly once, whatever number of outputs it has. */
  lemma {:induction false} GatheredAccounts(accounts: seq<Account>, outs: seq<PlanOut>, feeDest: Script, policy: Asset)
    requires Assemble(accounts, outs, feeDest, policy).Some?
    ensures var a := Assemble(accounts, outs, feeDest, policy).value;
            && Distinct(a.added)
            && (forall idx :: idx in a.added <==> Pays(outs, idx))
            && (forall idx :: idx in a.added ==> Find(accounts, idx).Some?)
            && a.coins == CoinsOf(accounts, a.added)
  {
    hide Pays;
    if outs == [] {
      PaysNobody();
    } else {
      var init, o := outs[..|outs| - 1], outs[|outs| - 1];
      AddedSnoc(accounts, outs, feeDest, policy);
      hide Assemble;
      GatheredAccounts(accounts, init, feeDest, policy);
      var a0 := Assemble(accounts, init, feeDest, policy).value;
      forall idx ensures Pays(outs, idx) <==> Pays(init, idx) || (o.Customer? && Idx(o.account) == idx) {
        PaysSnoc(outs, idx);
      }
      if o.Customer? && Idx(o.account) !in a0.added {
        var x := Idx(o.account);
        DistinctConcat(a0.added, [x]);
        assert (a0.added + [x])[..|a0.added|] == a0.added;
      }
    }
  }

  /** What one planned output adds to the recipients. */
  function Adds(accounts: seq<Account>, o: PlanOut, feeDest: Script, policy: Asset): seq<TxOut> {
    match o
    case FeeChange(amount, asset) => if asset != policy then [TxOut(feeDest, asset, amount)] else []
    case Customer(account, _, amount, asset) =>
      match Find(accounts, Idx(account)) case None => [] case Some(a) => [TxOut(a.dest, asset, amount)]
  }

  lemma RecipientsSnoc(accounts: seq<Account>, outs: seq<PlanOut>, feeDest: Script, policy: Asset)
    requires outs != [] && Assemble(accounts, outs, feeDest, policy).Some?
    ensures var init, o := outs[..|outs| - 1], outs[|outs| - 1];
            && Assemble(accounts, init, feeDest, policy).Some?
            && Assemble(accounts, outs, feeDest, policy).value.recipients
               == Assemble(accounts, init, feeDest, policy).value.recipients + Adds(accounts, o, feeDest, policy)
            && (o.Customer? ==> Find(accounts, Idx(o.account)).Some?)
  {
  }

  /** The recipients gathered for an asset are worth what is planned for all customers, plus the fee account's
      own non-policy assets. */
  lemma {:induction false} RecipientsTotal(accounts: seq<Account>, outs: seq<PlanOut>, feeDest: Script, policy: Asset, asset: Asset)
    requires Assemble(accounts, outs, feeDest, policy).Some?
    ensures Total(Assemble(accounts, outs, feeDest, policy).value.recipients, asset)
            == PlannedForAll(outs, asset) + (if asset != policy then PlannedFeeChange(outs, asset) else 0)
  {
    if outs != [] {
      var init, o := outs[..|outs| - 1], outs[|outs| - 1];
      RecipientsSnoc(accounts, outs, feeDest, policy);
      hide Assemble;
      RecipientsTotal(accounts, init, feeDest, policy, asset);
      var before := Assemble(accounts, init, feeDest, policy).value.recipients;
      var added := Adds(accounts, o, feeDest, policy);
      if added == [] {
        assert before + added == before;
      } else {
        TotalSnoc(before, added[0], asset);
        assert added == [added[0]];
      }
    }
  }

  lemma AddsAt(accounts: seq<Account>, o: PlanOut, feeDest: Script, policy: Asset, script: Script, asset: Asset)
    ensures PaidAt(Adds(accounts, o, feeDest, policy), script, asset)
            == match o
               case FeeChange(amount, a) => if a != policy && script == feeDest && a == asset then amount else 0
               case Customer(account, _, amount, a) =>
                 (match Find(accounts, Idx(account))
                  case None => 0
                  case Some(acct) => if script == acct.dest && a == asset then amount else 0)
  {
    match o
    case FeeChange(amount, a) =>
      PaidAtOne(TxOut(feeDest, a, amount), script, asset);
    case Customer(account, _, amount, a) =>
      if Find(accounts, Idx(account)).Some? {
        PaidAtOne(TxOut(Find(accounts, Idx(account)).value.dest, a, amount), script, asset);
      }
  }

  /** What the gathered recipients pay a customer's destination is what is planned for that customer. */
  lemma {:induction false} RecipientsAt(accounts: seq<Account>, outs: seq<PlanOut>, feeDest: Script, policy: Asset,
                                        acct: Account, asset: Asset)
    requires Assemble(accounts, outs, feeDest, policy).Some?
    requires acct in accounts && acct.dest != feeDest
    requires forall a, b :: a in accounts && b in accounts && a != b ==> a.idx != b.idx && a.dest != b.dest
    ensures PaidAt(Assemble(accounts, outs, feeDest, policy).value.recipients, acct.dest, asset)
            == PlannedFor(outs, acct.idx, asset)
  {
    if outs != [] {
      var init, o := outs[..|outs| - 1], outs[|outs| - 1];
      RecipientsSnoc(accounts, outs, feeDest, policy);
      hide Assemble;
      RecipientsAt(accounts, init, feeDest, policy, acct, asset);
      PaidAtConcat(Assemble(accounts, init, feeDest, policy).value.recipients, Adds(accounts, o, feeDest, policy), acct.dest, asset);
      AddsAt(accounts, o, feeDest, policy, acct.dest, asset);
      hide PaidAt;
      hide Adds;
    }
  }

  /** What the gathered recipients pay the fee destination: its planned non-policy change and nothing else. */
  lemma {:induction false} RecipientsAtFee(accounts: seq<Account>, outs: seq<PlanOut>, feeDest: Script, policy: Asset, asset: Asset)
    requires Assemble(accounts, outs, feeDest, policy).Some?
    requires forall a :: a in accounts && Pays(outs, a.idx) ==> a.dest != feeDest
    ensures PaidAt(Assemble(accounts, outs, feeDest, policy).value.recipients, feeDest, asset)
            == if asset != policy then PlannedFeeChange(outs, asset) else 0
  {
    if outs != [] {
      var init, o := outs[..|outs| - 1], outs[|outs| - 1];
      forall idx ensures Pays(outs, idx) <==> Pays(init, idx) || (o.Customer? && Idx(o.account) == idx) {
        PaysSnoc(outs, idx);
      }
      RecipientsSnoc(accounts, outs, feeDest, policy);
      hide Assemble;
      hide Pays;
      RecipientsAtFee(accounts, init, feeDest, policy, asset);
      PaidAtConcat(Assemble(accounts, init, feeDest, policy).value.recipients, Adds(accounts, o, feeDest, policy), feeDest, asset);
      AddsAt(accounts, o, feeDest, policy, feeDest, asset);
      hide PaidAt;
      hide Adds;
    }
  }

  /** No recipient pays a script that is neither the fee destination nor an account's. */
  lemma {:induction false} RecipientsElsewhere(accounts: seq<Account>, outs: seq<PlanOut>, feeDest: Script, policy: Asset, script: Script)
    requires Assemble(accounts, outs, feeDest, policy).Some?
    requires forall a :: a in accounts ==> a.dest != script
    requires script != feeDest || forall o :: o in outs && o.FeeChange? ==> o.asset == policy
    ensures forall r :: r in Assemble(accounts, outs, feeDest, policy).value.recipients ==> r.script != script
  {
    if outs != [] {
      RecipientsElsewhere(accounts, outs[..|outs| - 1], feeDest, policy, script);
    }
  }

  function Gathered(s: Setup, k: nat): Option<Assembly>
    requires Ready(s) && k < |s.plan|
  {
    Assemble(s.accounts, s.plan[k].outputs, FeeDest(s, s.plan[k]), s.policy)
  }

  /** The customers' inputs are worth what the plan pays them, in every asset. */
  lemma CustomersBalance(s: Setup, l: Ledger, k: nat, asset: Asset)
    requires GoodAccounts(s, l) && GoodPlan(s) && k < |s.plan| && Gathered(s, k).Some?
    ensures Total(Gathered(s, k).value.recipients, asset)
            == Held(Gathered(s, k).value.coins, asset)
               + (if asset != s.policy then PlannedFeeChange(s.plan[k].outputs, asset) else 0)
  {
    hide Pays;
    hide Live;
    hide Apart;
    var outs, feeDest := s.plan[k].outputs, FeeDest(s, s.plan[k]);
    GatheredAccounts(s.accounts, outs, feeDest, s.policy);
    RecipientsTotal(s.accounts, outs, feeDest, s.policy, asset);
    PlannedByAccount(outs, Gathered(s, k).value.added, asset);
    CoinsOfHeld(s.accounts, outs, Gathered(s, k).value.added, asset);
  }

  // ---------------------------------------------------------------------------
  // The plan as a chained sweep
  // ---------------------------------------------------------------------------

  /** The fee account's own coins for plan entry `k`: the seed first, everything else in the final one. */
  function OwnFeeCoins(s: Setup, k: nat): seq<Coin>
    requires Ready(s) && k < |s.plan|
  {
    if s.plan[k].isFeeFinal then Fee(s).coins[if k == 0 then 0 else 1..]
    else if k == 0 then [Fee(s).coins[0]]
    else []
  }

  function Legs(s: Setup): (r: seq<Leg>)
    requires Ready(s)
    ensures |r| == |s.plan|
    ensures forall k :: 0 <= k < |r| ==> r[k] == Leg(s.plan[k].outputs, OwnFeeCoins(s, k), s.plan[k].isFeeFinal)
  {
    seq(|s.plan|, k requires 0 <= k < |s.plan| => Leg(s.plan[k].outputs, OwnFeeCoins(s, k), s.plan[k].isFeeFinal))
  }

  function SceneOf(s: Setup): Scene
    requires Ready(s)
  {
    Scene(s.accounts, Fee(s), s.policy, s.feeOld, Legs(s))
  }

  /** What the loop variables make the fee account contribute to entry `k` is its share of the chain. */
  lemma ShareOfChain(s: Setup, l: Ledger, log: seq<Broadcast>, k: nat)
    requires GoodAccounts(s, l) && GoodPlan(s) && k < |s.plan| && k == |log|
    requires k > 0 ==> ChangeCoin(s.feeOld, log[k - 1].tx).Some?
    ensures FeeInputs(s, s.plan[k], if k == 0 then None else ChangeCoin(s.feeOld, log[k - 1].tx), k > 0)
            == FeeShare(SceneOf(s), log, k)
  {
    assert Fee(s).coins[0..] == Fee(s).coins;
  }

  lemma SceneIsGood(s: Setup, l: Ledger)
    requires GoodAccounts(s, l) && GoodPlan(s)
    ensures GoodScene(SceneOf(s), l) && GoodLegs(SceneOf(s))
  {
    hide Pays;
    hide Live;
    hide Apart;
    hide Assemble;
    hide OwnFeeCoins;
    hide AllFeeCoins;
    hide GoodPlan;
    LegsAreGood(s);
  }

  lemma LegsAreGood(s: Setup)
    requires Ready(s) && GoodPlan(s)
    ensures GoodLegs(SceneOf(s))
  {
    hide Pays;
    hide OwnFeeCoins;
    hide AllFeeCoins;
    if s.plan != [] {
      AllOwnFeeCoins(s, |s.plan|);
      assert Legs(s)[..|s.plan|] == Legs(s);
    }
  }

  lemma {:induction false} AllOwnFeeCoins(s: Setup, m: nat)
    requires Ready(s) && GoodPlan(s) && m <= |s.plan|
    ensures AllFeeCoins(Legs(s)[..m])
            == if m == 0 then [] else if m < |s.plan| then Fee(s).coins[..1] else Fee(s).coins
  {
    hide AllFeeCoins;
    hide Pays;
    hide PlannedFor;
    hide PlannedFeeChange;
    hide Held;
    NoFeeCoins();
    if m > 0 {
      AllOwnFeeCoins(s, m - 1);
      AllFeeCoinsSnoc(Legs(s), m);
      assert s.plan[m - 1].isFeeFinal <==> m == |s.plan|;
      assert Fee(s).coins == Fee(s).coins[..1] + Fee(s).coins[1..] && Fee(s).coins[0..] == Fee(s).coins;
    }
  }

  lemma NoFeeCoins()
    ensures AllFeeCoins([]) == []
  {
  }

  /** Between the first and the last transaction the chain carries the seed. */
  lemma FeeInIsSeed(s: Setup, l: Ledger, m: nat, asset: Asset)
    requires GoodAccounts(s, l) && GoodPlan(s) && 0 < m < |s.plan|
    ensures FeeIn(SceneOf(s), m, asset) == if asset == s.policy then Fee(s).coins[0].out.value else 0
  {
    FeeInIsAll(SceneOf(s), m, asset);
    AllOwnFeeCoins(s, m);
    assert Fee(s).coins[..1] == [Fee(s).coins[0]];
    HeldOne(Fee(s).coins[0], asset);
  }

  lemma FinalIsLast(s: Setup, l: Ledger, k: nat)
    requires GoodAccounts(s, l) && GoodPlan(s) && k < |s.plan|
    ensures s.plan[k].isFeeFinal <==> k == |s.plan| - 1
    ensures k > 0 ==> !s.plan[0].isFeeFinal
    ensures Fee(s) in s.accounts && Fee(s).idx == s.feeIdx
  {
  }

  // ---------------------------------------------------------------------------
  // What the executor delivers for the next transaction
  // ---------------------------------------------------------------------------

  /** The fee account's own coins for an entry hold no asset but the policy one until the final transaction. */
  lemma OwnFeeCoinsHeld(s: Setup, k: nat, asset: Asset)
    requires Ready(s) && k < |s.plan| && asset != s.policy
    requires |s.plan| > 1 ==> Fee(s).coins[0].out.asset == s.policy
    requires s.plan[k].isFeeFinal <==> k == |s.plan| - 1
    ensures Held(OwnFeeCoins(s, k), asset) == if s.plan[k].isFeeFinal then Held(Fee(s).coins, asset) else 0
  {
    var coins := Fee(s).coins;
    assert coins == [coins[0]] + coins[1..] && coins[0..] == coins;
    HeldConcat([coins[0]], coins[1..], asset);
    HeldOne(coins[0], asset);
    assert Outs([]) == [];
  }

  lemma ShareInAsset(s: Setup, l: Ledger, log: seq<Broadcast>, asset: Asset)
    requires GoodAccounts(s, l) && GoodPlan(s) && |log| < |s.plan| && FeeState(SceneOf(s), l, log)
    requires asset != s.policy
    ensures Held(FeeShare(SceneOf(s), log, |log|), asset)
            == if s.plan[|log|].isFeeFinal then Held(Fee(s).coins, asset) else 0
  {
    hide Live;
    hide Apart;
    hide Pays;
    hide FeeState;
    hide FeeShare;
    hide OwnFeeCoins;
    FeeShareValue(SceneOf(s), l, log, asset);
    OwnFeeCoinsHeld(s, |log|, asset);
  }

  /** What the builder is given balances in every non-policy asset, so its contract applies. */
  lemma NextBalance(s: Setup, l: Ledger, log: seq<Broadcast>)
    requires GoodAccounts(s, l) && GoodPlan(s) && |log| < |s.plan| && FeeState(SceneOf(s), l, log)
    requires Gathered(s, |log|).Some?
    ensures var a := Gathered(s, |log|).value;
            var share := FeeShare(SceneOf(s), log, |log|);
            && Balanced(a.coins + share, a.recipients, s.policy)
            && Held(a.coins + share, s.policy) == Total(a.recipients, s.policy) + Held(share, s.policy)
  {
    hide Live;
    hide Apart;
    hide Pays;
    hide FeeState;
    hide FeeShare;
    var m := |log|;
    var a := Gathered(s, m).value;
    var share := FeeShare(SceneOf(s), log, m);
    forall asset ensures asset != s.policy ==> Held(a.coins + share, asset) == Total(a.recipients, asset)
      ensures asset == s.policy ==> Held(a.coins + share, asset) == Total(a.recipients, asset) + Held(share, asset)
    {
      CustomersBalance(s, l, m, asset);
      HeldConcat(a.coins, share, asset);
      if asset != s.policy {
        ShareInAsset(s, l, log, asset);
        if !s.plan[m].isFeeFinal {
          NoFeeChange(s.plan[m].outputs, s.policy, asset);
        }
      }
    }
  }

  /** The inputs given to the builder: distinct, some, and exactly the planned ones. */
  lemma NextInputs(s: Setup, l: Ledger, log: seq<Broadcast>)
    requires GoodAccounts(s, l) && GoodPlan(s) && |log| < |s.plan| && Progress(SceneOf(s), l, log)
    requires Gathered(s, |log|).Some?
    ensures var coins := Gathered(s, |log|).value.coins + FeeShare(SceneOf(s), log, |log|);
            && Distinct(Points(coins))
            && coins != []
            && (forall op :: Holds(coins, op) <==> Touched(SceneOf(s), log, op))
  {
    var sc, m := SceneOf(s), |log|;
    var a := Gathered(s, m).value;
    var share := FeeShare(sc, log, m);
    SceneIsGood(s, l);
    FeeNow(sc, l, log);
    ShareOfChain(s, l, log, m);
    assert share != [];
    hide Pays;
    hide Progress;
    hide FeeState;
    hide FeeShare;
    GatheredAccounts(s.accounts, s.plan[m].outputs, FeeDest(s, s.plan[m]), s.policy);
    CoinsOfPoints(s.accounts, a.added);
    forall op ensures Holds(a.coins, op) <==> CustomerPoint(sc, m, op) {
    }
    HoldsConcat(a.coins, share);
    FeeShareFacts(sc, l, log);
    forall op | Holds(a.coins, op) ensures !Holds(share, op) {
      CustomersLive(sc, l, log, op);
    }
    DistinctPointsConcat(a.coins, share);
  }

  /** The outputs of a built transaction, script by script. */
  lemma PaidByBuilt(recipients: seq<TxOut>, drain: Script, policy: Asset, b: Built, script: Script, asset: Asset)
    requires multiset(b.tx.outputs)
             == multiset(recipients + [TxOut(drain, policy, b.change), TxOut(NO_SCRIPT, policy, b.fee)])
    ensures PaidAt(b.tx.outputs, script, asset)
            == PaidAt(recipients, script, asset)
               + (if script == drain && asset == policy then b.change else 0)
               + (if script == NO_SCRIPT && asset == policy then b.fee else 0)
  {
    var change, fee := TxOut(drain, policy, b.change), TxOut(NO_SCRIPT, policy, b.fee);
    PaidAtPermutation(b.tx.outputs, recipients + [change, fee], script, asset);
    PaidAtConcat(recipients, [change, fee], script, asset);
    assert [change, fee] == [change] + [fee];
    PaidAtConcat([change], [fee], script, asset);
    PaidAtOne(change, script, asset);
    PaidAtOne(fee, script, asset);
  }

  /** A transaction pays a customer its whole balance if its plan entry pays that customer, and nothing otherwise. */
  lemma PaidToCustomer(s: Setup, l: Ledger, k: nat, coins: seq<Coin>, b: Built, acct: Account, asset: Asset)
    requires GoodAccounts(s, l) && GoodPlan(s) && k < |s.plan| && Gathered(s, k).Some?
    requires Funded(coins, Gathered(s, k).value.recipients, FeeDest(s, s.plan[k]), s.policy, b)
    requires acct in s.accounts && acct != Fee(s)
    ensures PaidAt(b.tx.outputs, acct.dest, asset)
            == if Pays(s.plan[k].outputs, acct.idx) then Held(acct.coins, asset) else 0
  {
    hide Live;
    hide Apart;
    hide Pays;
    var drain := FeeDest(s, s.plan[k]);
    PaidByBuilt(Gathered(s, k).value.recipients, drain, s.policy, b, acct.dest, asset);
    RecipientsAt(s.accounts, s.plan[k].outputs, drain, s.policy, acct, asset);
    if !Pays(s.plan[k].outputs, acct.idx) {
      NotPlanned(s.plan[k].outputs, acct.idx, asset);
    }
  }

  /** An intermediate transaction pays the fee account's new address nothing, and its only output at the old
      address is the change. */
  lemma IntermediateFee(s: Setup, l: Ledger, k: nat, coins: seq<Coin>, b: Built, asset: Asset)
    requires GoodAccounts(s, l) && GoodPlan(s) && k < |s.plan| - 1 && Gathered(s, k).Some?
    requires Funded(coins, Gathered(s, k).value.recipients, s.feeOld, s.policy, b)
    ensures PaidAt(b.tx.outputs, Fee(s).dest, asset) == 0
    ensures ChangeCoin(s.feeOld, b.tx).Some?
    ensures ChangeCoin(s.feeOld, b.tx).value.out == TxOut(s.feeOld, s.policy, b.change)
  {
    hide Live;
    hide Apart;
    var recipients := Gathered(s, k).value.recipients;
    PaidByBuilt(recipients, s.feeOld, s.policy, b, Fee(s).dest, asset);
    RecipientsAt(s.accounts, s.plan[k].outputs, s.feeOld, s.policy, Fee(s), asset);
    NotPlanned(s.plan[k].outputs, s.feeIdx, asset);
    RecipientsElsewhere(s.accounts, s.plan[k].outputs, s.feeOld, s.policy, s.feeOld);
    var all := recipients + [TxOut(s.feeOld, s.policy, b.change), TxOut(NO_SCRIPT, s.policy, b.fee)];
    SamePermutation(b.tx.outputs, all);
    assert all[|recipients|] in b.tx.outputs;
    forall o | o in b.tx.outputs && o.script == s.feeOld ensures o == TxOut(s.feeOld, s.policy, b.change) {
      assert o in all;
    }
  }

  /** The final transaction pays the fee account's new address its change and its planned non-policy assets. */
  lemma FinalFee(s: Setup, l: Ledger, k: nat, coins: seq<Coin>, b: Built, asset: Asset)
    requires GoodAccounts(s, l) && GoodPlan(s) && k == |s.plan| - 1 && Gathered(s, k).Some?
    requires Funded(coins, Gathered(s, k).value.recipients, Fee(s).dest, s.policy, b)
    ensures PaidAt(b.tx.outputs, Fee(s).dest, asset)
            == if asset == s.policy then b.change else FeeIn(SceneOf(s), k + 1, asset)
  {
    hide Live;
    hide Apart;
    PaidByBuilt(Gathered(s, k).value.recipients, Fee(s).dest, s.policy, b, Fee(s).dest, asset);
    RecipientsAtFee(s.accounts, s.plan[k].outputs, Fee(s).dest, s.policy, asset);
    SceneIsGood(s, l);
    FeeInIsHeld(SceneOf(s), asset);
  }

  /** `b` is what the builder made of the inputs and recipients of the next plan entry. */
  ghost predicate BuiltNext(s: Setup, log: seq<Broadcast>, b: Built, entry: Broadcast)
    requires Ready(s)
  {
    && |log| < |s.plan| && Gathered(s, |log|).Some?
    && Funded(Gathered(s, |log|).value.coins + FeeShare(SceneOf(s), log, |log|), Gathered(s, |log|).value.recipients,
              FeeDest(s, s.plan[|log|]), s.policy, b)
    && entry.tx == b.tx && entry.fee == b.fee
  }

  lemma NextSpends(s: Setup, l: Ledger, log: seq<Broadcast>, b: Built, entry: Broadcast)
    requires GoodAccounts(s, l) && GoodPlan(s) && Progress(SceneOf(s), l, log) && BuiltNext(s, log, b, entry)
    ensures entry.tx.inputs != [] && Distinct(entry.tx.inputs)
    ensures forall op :: op in entry.tx.inputs <==> Touched(SceneOf(s), log, op)
    ensures b.change + b.fee == Held(FeeShare(SceneOf(s), log, |log|), s.policy)
  {
    hide Pays;
    hide Progress;
    hide FeeState;
    hide Touched;
    hide FeeShare;
    FeeNow(SceneOf(s), l, log);
    var coins := Gathered(s, |log|).value.coins + FeeShare(SceneOf(s), log, |log|);
    NextInputs(s, l, log);
    NextBalance(s, l, log);
    SamePermutation(entry.tx.inputs, Points(coins));
    HoldsPoints(coins);
  }

  /** A transaction built from the next plan entry delivers what the chained sweep asks of it. */
  lemma NextDelivers(s: Setup, l: Ledger, log: seq<Broadcast>, b: Built, entry: Broadcast)
    requires Ready(s) && GoodAccounts(s, l) && GoodPlan(s) && Progress(SceneOf(s), l, log) && BuiltNext(s, log, b, entry)
    ensures Delivers(SceneOf(s), log, entry, b.change)
  {
    hide Pays;
    hide Progress;
    hide Touched;
    hide Funded;
    hide FeeShare;
    hide GoodAccounts;
    hide GoodPlan;
    var sc, m := SceneOf(s), |log|;
    var coins := Gathered(s, m).value.coins + FeeShare(sc, log, m);
    FinalIsLast(s, l, m);
    NextSpends(s, l, log, b, entry);
    forall a, asset | a in s.accounts && a != Fee(s)
      ensures PaidAt(entry.tx.outputs, a.dest, asset) == if Pays(s.plan[m].outputs, a.idx) then Held(a.coins, asset) else 0
    {
      PaidToCustomer(s, l, m, coins, b, a, asset);
    }
    forall asset
      ensures s.plan[m].isFeeFinal ==>
        PaidAt(entry.tx.outputs, Fee(s).dest, asset) == if asset == s.policy then b.change else FeeIn(sc, m + 1, asset)
      ensures !s.plan[m].isFeeFinal ==> PaidAt(entry.tx.outputs, Fee(s).dest, asset) == 0
    {
      if s.plan[m].isFeeFinal {
        FinalFee(s, l, m, coins, b, asset);
      } else {
        IntermediateFee(s, l, m, coins, b, asset);
      }
    }
    if !s.plan[m].isFeeFinal {
      IntermediateFee(s, l, m, coins, b, s.policy);
    }
  }

  // ---------------------------------------------------------------------------
  // Whole runs
  // ---------------------------------------------------------------------------

  /** The executor's loop variables after `k` plan entries: a change is chained exactly between two
      transactions, and the seed counts as used exactly when a transaction other than the final one has run. */
  ghost predicate LoopVariables(s: Setup, r: Run, k: nat)
    requires Ready(s) && k <= |s.plan|
  {
    r.error.None? ==>
      && |r.log| == k
      && r.chained == (if 0 < k < |s.plan| then ChangeCoin(s.feeOld, r.log[k - 1].tx) else None)
      && (r.chained.Some? <==> 0 < k < |s.plan|)
      && (r.feeSeedUsed <==> k > 0 && !s.plan[0].isFeeFinal)
  }

  function NextCoins(s: Setup, r: Run, k: nat): seq<Coin>
    requires Ready(s) && k < |s.plan| && Gathered(s, k).Some?
  {
    Gathered(s, k).value.coins + FeeInputs(s, s.plan[k], r.chained, r.feeSeedUsed)
  }

  function NextBuilt(s: Setup, r: Run, k: nat): Option<Built>
    requires Ready(s) && k < |s.plan| && Gathered(s, k).Some?
  {
    s.env.build(k, NextCoins(s, r, k), Gathered(s, k).value.recipients, FeeDest(s, s.plan[k]))
  }

  /** The two ways a step that has something to spend can end. */
  lemma StepShape(s: Setup, r: Run, k: nat)
    requires Ready(s) && k < |s.plan| && r.error.None?
    requires Gathered(s, k).Some? ==> NextCoins(s, r, k) != []
    ensures Step(s, r, k).log == r.log ==> Step(s, r, k).error.Some?
    ensures Step(s, r, k).log != r.log ==>
              && Gathered(s, k).Some? && NextBuilt(s, r, k).Some?
              && |Step(s, r, k).log| == |r.log| + 1
              && var entry, b := Step(s, r, k).log[|r.log|], NextBuilt(s, r, k).value;
              && Step(s, r, k).log == r.log + [entry]
              && entry.tx == b.tx && entry.fee == b.fee && entry.isFeeFinal == s.plan[k].isFeeFinal
              && (Step(s, r, k).error.None? ==>
                    && Step(s, r, k).chained == (if s.plan[k].isFeeFinal then None else ChangeCoin(s.feeOld, b.tx))
                    && (s.plan[k].isFeeFinal || ChangeCoin(s.feeOld, b.tx).Some?)
                    && Step(s, r, k).feeSeedUsed == (r.feeSeedUsed || (!s.plan[k].isFeeFinal && r.chained.None?)))
  {
  }

  lemma NextShare(s: Setup, l: Ledger, r: Run, k: nat)
    requires GoodAccounts(s, l) && GoodPlan(s) && k < |s.plan|
    requires r.error.None? && LoopVariables(s, r, k)
    ensures |r.log| == k && FeeInputs(s, s.plan[k], r.chained, r.feeSeedUsed) == FeeShare(SceneOf(s), r.log, k)
  {
    hide Pays;
    hide Live;
    hide Apart;
    assert k > 0 ==> !s.plan[0].isFeeFinal;
    ShareOfChain(s, l, r.log, k);
  }

  lemma StepProgress(s: Setup, l: Ledger, r: Run, k: nat)
    requires Ready(s) && GoodAccounts(s, l) && GoodPlan(s) && Sound(l) && BuilderContract(s) && k < |s.plan|
    requires r.error.None? && Progress(SceneOf(s), l, r.log) && LoopVariables(s, r, k)
    ensures Progress(SceneOf(s), l, Step(s, r, k).log)
    ensures LoopVariables(s, Step(s, r, k), k + 1)
  {
    hide GoodAccounts;
    hide GoodPlan;
    hide GoodScene;
    hide GoodLegs;
    hide Progress;
    hide Step;
    hide BuilderContract;
    hide FeeShare;
    hide FeeInputs;
    hide Delivers;
    hide Funded;
    hide Touched;
    hide ChangeCoin;
    hide Assemble;
    FinalIsLast(s, l, k);
    SceneIsGood(s, l);
    NextShare(s, l, r, k);
    if Gathered(s, k).Some? {
      NextInputs(s, l, r.log);
    }
    StepShape(s, r, k);
    if Step(s, r, k).log != r.log {
      NextFunded(s, l, r, k);
      NextDelivers(s, l, r.log, NextBuilt(s, r, k).value, Step(s, r, k).log[|r.log|]);
      NextProgress(SceneOf(s), l, r.log, Step(s, r, k).log[|r.log|], NextBuilt(s, r, k).value.change);
    }
  }

  lemma NextFunded(s: Setup, l: Ledger, r: Run, k: nat)
    requires GoodAccounts(s, l) && GoodPlan(s) && BuilderContract(s) && k < |s.plan| && k == |r.log|
    requires Progress(SceneOf(s), l, r.log)
    requires FeeInputs(s, s.plan[k], r.chained, r.feeSeedUsed) == FeeShare(SceneOf(s), r.log, k)
    requires Gathered(s, k).Some? && NextBuilt(s, r, k).Some?
    ensures Funded(Gathered(s, k).value.coins + FeeShare(SceneOf(s), r.log, k), Gathered(s, k).value.recipients,
                   FeeDest(s, s.plan[k]), s.policy, NextBuilt(s, r, k).value)
  {
    FeeNow(SceneOf(s), l, r.log);
    NextBalance(s, l, r.log);
    hide GoodAccounts;
    hide GoodPlan;
    hide FeeState;
    hide Progress;
    hide Funded;
    hide Balanced;
  }

  /** The state of every account after any number of plan entries, whether or not the run has stopped. */
  lemma {:induction false} RunProgress(s: Setup, l: Ledger, k: nat)
    requires GoodAccounts(s, l) && GoodPlan(s) && Sound(l) && BuilderContract(s) && k <= |s.plan|
    ensures Progress(SceneOf(s), l, RunTo(s, k).log)
    ensures LoopVariables(s, RunTo(s, k), k)
  {
    hide Step;
    hide BuilderContract;
    hide Progress;
    hide GoodPlan;
    if k == 0 {
      SceneIsGood(s, l);
      Beginning(SceneOf(s), l);
    } else {
      RunProgress(s, l, k - 1);
      if RunTo(s, k - 1).error.Some? {
        ErrorStops(s, k - 1, k);
      } else {
        StepProgress(s, l, RunTo(s, k - 1), k - 1);
      }
    }
  }

  lemma ExecuteIsRunTo(s: Setup)
    requires Ready(s)
    ensures Execute(s) == RunTo(s, |s.plan|)
  {
  }

  /** No outpoint is spent twice across all the broadcasts of a run, however it ends. */
  lemma NoOutpointSpentTwice(s: Setup, l: Ledger, k: nat)
    requires GoodAccounts(s, l) && GoodPlan(s) && Sound(l) && BuilderContract(s) && k <= |s.plan|
    ensures ValidLog(l, Txs(RunTo(s, k).log))
    ensures Distinct(AllInputs(Txs(RunTo(s, k).log)))
  {
    RunProgress(s, l, k);
    NoDoubleSpend(l, Txs(RunTo(s, k).log));
  }

  /** A run that finishes has broadcast every planned transaction, chains nothing further, and has spent, once
      each, exactly the coins of the planned accounts and every intermediate change. */
  lemma CompletedRun(s: Setup, l: Ledger)
    requires GoodAccounts(s, l) && GoodPlan(s) && Sound(l) && BuilderContract(s)
    requires s.plan != [] && Execute(s).error.None?
    ensures |Execute(s).log| == |s.plan| && Execute(s).chained.None?
    ensures Distinct(AllInputs(Txs(Execute(s).log)))
    ensures forall op :: op in AllInputs(Txs(Execute(s).log))
                         <==> PlannedPoint(SceneOf(s), op) || IntermediateChange(SceneOf(s), Execute(s).log, op)
  {
    ExecuteIsRunTo(s);
    RunProgress(s, l, |s.plan|);
    SceneIsGood(s, l);
    hide RunTo;
    hide Execute;
    hide Progress;
    hide GoodAccounts;
    hide GoodPlan;
    hide GoodScene;
    hide GoodLegs;
    CompleteLog(SceneOf(s), l, Execute(s).log);
  }

  /** Conservation per asset over a finished run: every planned customer holds at its new address what it held
      before, and the fee account holds what it held less the fees of all broadcasts, from the policy asset. */
  lemma Conservation(s: Setup, l: Ledger, asset: Asset)
    requires GoodAccounts(s, l) && GoodPlan(s) && Sound(l) && BuilderContract(s)
    requires s.plan != [] && Execute(s).error.None?
    ensures forall a :: a in s.accounts && a != Fee(s) ==>
      Received(Execute(s).log, a.dest, asset)
      == if PaidBefore(SceneOf(s), |s.plan|, a.idx) then Held(a.coins, asset) else 0
    ensures Received(Execute(s).log, Fee(s).dest, asset)
            == Held(Fee(s).coins, asset) - (if asset == s.policy then FeesPaid(Execute(s).log) else 0)
  {
    ExecuteIsRunTo(s);
    RunProgress(s, l, |s.plan|);
    SceneIsGood(s, l);
    hide RunTo;
    hide Execute;
    hide Progress;
    hide GoodAccounts;
    hide GoodPlan;
    hide GoodScene;
    hide GoodLegs;
    CompleteLogConserves(SceneOf(s), l, Execute(s).log, asset);
  }

  /** Safety on every prefix: wherever the run stops, each customer is wholly at the new federation or wholly at
      the old one; the fee account's new address is untouched until the final transaction is broadcast; between
      the two, what is left of the seed sits unspent at the fee account's old address; and nothing that reached
      a new address has been spent again. */
  lemma PrefixSafety(s: Setup, l: Ledger, k: nat)
    requires GoodAccounts(s, l) && GoodPlan(s) && Sound(l) && BuilderContract(s) && k <= |s.plan|
    ensures |RunTo(s, k).log| <= k
    ensures Safe(SceneOf(s), l, RunTo(s, k).log)
    ensures 0 < |RunTo(s, k).log| < |s.plan| ==>
              FeeIn(SceneOf(s), |RunTo(s, k).log|, s.policy) == Fee(s).coins[0].out.value
  {
    RunProgress(s, l, k);
    LogLength(s, k);
    SceneIsGood(s, l);
    var log := RunTo(s, k).log;
    if 0 < |log| < |s.plan| {
      FeeInIsSeed(s, l, |log|, s.policy);
    }
    hide RunTo;
    hide Safe;
    hide Progress;
    hide GoodAccounts;
    hide GoodPlan;
    hide GoodScene;
    hide GoodLegs;
    ProgressIsSafe(SceneOf(s), l, log);
  }

  lemma {:induction false} LogLength(s: Setup, k: nat)
    requires Ready(s) && k <= |s.plan|
    ensures |RunTo(s, k).log| <= k
    ensures k > 0 ==> |RunTo(s, k - 1).log| <= |RunTo(s, k).log| <= |RunTo(s, k - 1).log| + 1
  {
    hide Step;
    if k > 0 {
      LogLength(s, k - 1);
      StepLength(s, RunTo(s, k - 1), k - 1);
    }
  }

  lemma StepLength(s: Setup, r: Run, k: nat)
    requires Ready(s) && k < |s.plan|
    ensures |r.log| <= |Step(s, r, k).log| <= |r.log| + 1
  {
    hide Assemble;
    hide FeeInputs;
    hide Owned;
    hide ChangeCoin;
  }
}
