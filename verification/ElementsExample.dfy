/** The hypotheses of the Elements theorems can be met together: a fee account and one customer, a chained plan of
    two transactions, and a builder that keeps its contract. */
module ElementsExample {
  import opened Wrappers
  import opened Ledger
  import opened SweepPlan
  import opened ChainedSweep
  import opened ElementsMigration
  import opened ElementsRuns

  const SEED := Coin(OutPoint(Known(1), 0), TxOut(5, 0, 1000))
  const HELD := Coin(OutPoint(Known(2), 0), TxOut(6, 0, 500))
  const PAYER := Account(0, [SEED], 10)
  const CUSTOMER := Account(1, [HELD], 11)
  const FIRST := PlanTx([Customer(1, 11, 500, 0)], false)
  const LAST := PlanTx([FeeChange(998, 0)], true)

  function HonestBuild(coins: seq<Coin>, recipients: seq<TxOut>, drain: Script): Option<Built> {
    if Held(coins, 0) <= Total(recipients, 0) then None
    else
      var change := Held(coins, 0) - Total(recipients, 0) - 1;
      Some(Built(Tx(Points(coins), recipients + [TxOut(drain, 0, change), TxOut(NO_SCRIPT, 0, 1)]), change, 1))
  }

  function Example(): Setup {
    Setup([PAYER, CUSTOMER], [FIRST, LAST], 0, 0, 5,
          Env((k: nat, coins: seq<Coin>, recipients: seq<TxOut>, drain: Script) => HonestBuild(coins, recipients, drain), k => true, k => true, k => true))
  }

  function Chain(): Ledger {
    Ledger(map[SEED.op := SEED.out, HELD.op := HELD.out], {})
  }

  lemma HonestOnce(coins: seq<Coin>, recipients: seq<TxOut>, drain: Script)
    requires HonestBuild(coins, recipients, drain).Some?
    ensures Funded(coins, recipients, drain, 0, HonestBuild(coins, recipients, drain).value)
  {
  }

  lemma Honest()
    ensures BuilderContract(Example())
  {
    hide HonestBuild;
    hide Funded;
    forall coins, recipients, drain | HonestBuild(coins, recipients, drain).Some?
      ensures Funded(coins, recipients, drain, 0, HonestBuild(coins, recipients, drain).value)
    {
      HonestOnce(coins, recipients, drain);
    }
  }

  lemma Members()
    ensures forall a :: a in Example().accounts <==> a == PAYER || a == CUSTOMER
    ensures forall c :: c in PAYER.coins <==> c == SEED
    ensures forall c :: c in CUSTOMER.coins <==> c == HELD
  {
    assert Example().accounts[0] == PAYER && Example().accounts[1] == CUSTOMER;
  }

  lemma CoinsAreOwn()
    ensures OwnCoins(Example().accounts)
    ensures Live(Chain(), PAYER.coins) && Live(Chain(), CUSTOMER.coins) && Sound(Chain())
  {
    Members();
    assert Points([SEED]) == [SEED.op] && Points([HELD]) == [HELD.op];
  }

  lemma AccountsAreGood()
    ensures Ready(Example()) && Fee(Example()) == PAYER
    ensures GoodAccounts(Example(), Chain()) && Sound(Chain())
  {
    hide OwnCoins;
    hide Live;
    hide Sound;
    Members();
    CoinsAreOwn();
    assert Find(Example().accounts, 0) == Some(PAYER);
  }

  lemma FirstPays(asset: Asset)
    ensures PlannedFor(FIRST.outputs, 1, asset) == Held(CUSTOMER.coins, asset)
    ensures forall idx :: Pays(FIRST.outputs, idx) <==> idx == 1
  {
    assert FIRST.outputs == [] + [Customer(1, 11, 500, 0)];
    assert PlannedFor([], 1, asset) == 0;
    assert FIRST.outputs[..0] == [];
    HeldOne(HELD, asset);
    assert FIRST.outputs[0] in FIRST.outputs;
  }

  lemma LastPays(asset: Asset)
    ensures asset != 0 ==> PlannedFeeChange(LAST.outputs, asset) == Held(PAYER.coins, asset)
    ensures forall idx :: !Pays(LAST.outputs, idx)
  {
    assert LAST.outputs[..0] == [];
    HeldOne(SEED, asset);
  }

  lemma PlanIsGood()
    ensures Ready(Example()) && GoodPlan(Example())
  {
    var s := Example();
    AccountsAreGood();
    hide Pays;
    hide PlannedFor;
    hide PlannedFeeChange;
    hide Held;
    assert s.plan[0] == FIRST && s.plan[1] == LAST;
    Members();
    forall asset
      ensures PlannedFor(FIRST.outputs, 1, asset) == Held(CUSTOMER.coins, asset)
      ensures asset != 0 ==> PlannedFeeChange(LAST.outputs, asset) == Held(PAYER.coins, asset)
    {
      FirstPays(asset);
      LastPays(asset);
    }
    FirstPays(0);
    LastPays(0);
    forall k, a, asset | 0 <= k < |s.plan| && a in s.accounts && Pays(s.plan[k].outputs, a.idx)
      ensures PlannedFor(s.plan[k].outputs, a.idx, asset) == Held(a.coins, asset)
    {
      assert k == 0 && a == CUSTOMER;
    }
  }

  lemma HypothesesCanBeMet()
    ensures Ready(Example()) && GoodAccounts(Example(), Chain()) && Sound(Chain())
    ensures GoodPlan(Example()) && BuilderContract(Example())
    ensures |Example().plan| == 2
  {
    hide GoodPlan;
    hide BuilderContract;
    hide GoodAccounts;
    AccountsAreGood();
    PlanIsGood();
    Honest();
  }
}
