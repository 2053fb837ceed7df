/** The hypotheses of the Bitcoin theorems can be met together: a fee account and one customer, a chained plan of
    two transactions, wallets that describe their UTXOs truly and a builder that keeps its contract. */
module BitcoinExample {
  import opened Wrappers
  import opened Ledger
  import opened SweepPlan
  import opened ChainedSweep
  import opened BitcoinMigration
  import opened BitcoinRuns

  const SEED := Coin(OutPoint(Known(1), 0), TxOut(5, 0, 1000))
  const HELD := Coin(OutPoint(Known(2), 0), TxOut(6, 0, 500))
  const PAYER := Account(0, [SEED], 10)
  const CUSTOMER := Account(1, [HELD], 11)
  const FIRST := PlanTx([HELD.op, SEED.op], [Customer(1, 11, 500, 0), FeeChange(999, 0)], false)
  const LAST := PlanTx([OutPoint(ZERO_TXID, 0)], [FeeChange(998, 0)], true)

  function HonestBuild(coins: seq<Coin>, recipients: seq<TxOut>, drain: Script): Option<Built> {
    if Held(coins, BTC) <= Total(recipients, BTC) then None
    else
      var change := Held(coins, BTC) - Total(recipients, BTC) - 1;
      Some(Built(Tx(Points(coins), recipients + [TxOut(drain, BTC, change)]), change, 1))
  }

  function Build(): (nat, seq<Coin>, seq<TxOut>, Option<Script>) -> Option<Built> {
    (k: nat, coins: seq<Coin>, recipients: seq<TxOut>, drain: Option<Script>) =>
      if drain.None? then None else HonestBuild(coins, recipients, drain.value)
  }

  function Describe(): (int, OutPoint) -> Option<TxOut> {
    (wi: int, op: OutPoint) => if op in Chain().live then Some(Chain().live[op]) else None
  }

  function Example(): Setup {
    Setup([PAYER, CUSTOMER], [0, 1], [FIRST, LAST], PAYER, 0, 5,
          Env(Describe(), Build(), k => true, k => true, k => true, k => true))
  }

  function Chain(): Ledger {
    Ledger(map[SEED.op := SEED.out, HELD.op := HELD.out], {})
  }

  lemma HonestOnce(coins: seq<Coin>, recipients: seq<TxOut>, drain: Script)
    requires HonestBuild(coins, recipients, drain).Some?
    ensures Funded(coins, recipients, drain, HonestBuild(coins, recipients, drain).value)
  {
  }

  lemma Honest()
    ensures BuilderContract(Example())
  {
    hide HonestBuild;
    hide Funded;
    forall coins, recipients, drain | HonestBuild(coins, recipients, drain).Some?
      ensures Funded(coins, recipients, drain, HonestBuild(coins, recipients, drain).value)
    {
      HonestOnce(coins, recipients, drain);
    }
  }

  lemma Members()
    ensures forall a :: a in Example().accounts <==> a == PAYER || a == CUSTOMER
    ensures forall c :: c in PAYER.coins <==> c == SEED
    ensures forall c :: c in CUSTOMER.coins <==> c == HELD
  {
    assert Example().accounts[0] == PAYER && Example().accounts[1] == CUSTOMER;
  }

  lemma CoinsAreOwn()
    ensures OwnCoins(Example().accounts)
    ensures Live(Chain(), PAYER.coins) && Live(Chain(), CUSTOMER.coins) && Sound(Chain())
  {
    Members();
    assert Points([SEED]) == [SEED.op] && Points([HELD]) == [HELD.op];
  }

  lemma AccountsAreGood()
    ensures GoodAccounts(Example(), Chain()) && TrueInputs(Example(), Chain()) && Sound(Chain())
  {
    hide OwnCoins;
    hide Live;
    hide Sound;
    Members();
    CoinsAreOwn();
    assert Example().wallets[0] == 0 && Example().wallets[1] == 1;
  }

  lemma FirstPays(asset: Asset)
    ensures PlannedFor(FIRST.outputs, 1, asset) == Held(CUSTOMER.coins, asset)
    ensures forall idx :: Pays(FIRST.outputs, idx) <==> idx == 1
  {
    var outs := FIRST.outputs;
    var one := [Customer(1, 11, 500, 0)];
    assert outs[..1] == one && one[..0] == [];
    assert PlannedFor(one, 1, asset) == if asset == 0 then 500 else 0;
    assert PlannedFor(outs, 1, asset) == PlannedFor(one, 1, asset);
    HeldOne(HELD, asset);
    assert outs[0] in outs;
  }

  lemma SourcesAreGood()
    ensures GoodSources(Example(), FIRST) && GoodSources(Example(), LAST)
    ensures HasPlaceholder(LAST.sources) && !HasPlaceholder(FIRST.sources)
  {
    FirstPays(0);
    var one := [HELD.op];
    assert FIRST.sources[..1] == one && one[..0] == [];
    assert RealSources(one) == [HELD.op];
    assert RealSources(FIRST.sources) == RealSources(one) + [SEED.op];
    assert LAST.sources[..0] == [];
    assert RealSources(LAST.sources) == [];
    assert forall op :: op in FIRST.sources <==> op == HELD.op || op == SEED.op;
    assert HELD in CUSTOMER.coins && SEED in PAYER.coins;
    assert Holds(CUSTOMER.coins, HELD.op) && Holds(PAYER.coins, SEED.op);
    assert Example().accounts[1] == CUSTOMER && CUSTOMER in Example().accounts;
    assert LAST.sources[0] in LAST.sources;
    assert forall idx :: !Pays(LAST.outputs, idx);
    assert forall a :: a in Example().accounts && Pays(FIRST.outputs, a.idx) ==> a == CUSTOMER;
  }

  lemma OutputsAreGood()
    ensures GoodOutputs(Example(), FIRST.outputs) && GoodOutputs(Example(), LAST.outputs)
  {
    hide PlannedFor;
    hide Held;
    var s := Example();
    forall asset ensures PlannedFor(FIRST.outputs, 1, asset) == Held(CUSTOMER.coins, asset) {
      FirstPays(asset);
    }
    FirstPays(0);
    assert FIRST.outputs[1] in FIRST.outputs && LAST.outputs[0] in LAST.outputs;
    assert forall a :: a in s.accounts && a.idx == 1 ==> a == CUSTOMER;
    assert s.accounts[1] == CUSTOMER;
    assert Find(s.accounts[1..], 1) == Some(CUSTOMER);
  }

  lemma HypothesesCanBeMet()
    ensures GoodAccounts(Example(), Chain()) && TrueInputs(Example(), Chain()) && Sound(Chain())
    ensures GoodPlan(Example()) && BuilderContract(Example())
    ensures |Example().plan| == 2
  {
    hide BuilderContract;
    hide GoodAccounts;
    hide GoodSources;
    hide GoodOutputs;
    hide TrueInputs;
    hide HasPlaceholder;
    AccountsAreGood();
    Honest();
    SourcesAreGood();
    OutputsAreGood();
    FirstPays(0);
    var s := Example();
    assert s.plan[0] == FIRST && s.plan[1] == LAST;
    assert forall c :: c in s.fee.coins ==> c == SEED && c.op in s.plan[0].sources;
    assert SEED.op !in LAST.sources;
  }
}
