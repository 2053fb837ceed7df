/** What every run of the Bitcoin executor does to the ledger: the same theorems as for the Elements executor,
    over a plan that names its source outpoints. */
module BitcoinRuns {
  import opened Wrappers
  import opened Ledger
  import opened SweepPlan
  import opened ChainedSweep
  import opened BitcoinMigration

  // ---------------------------------------------------------------------------
  // Hypotheses: the accounts, the plan, the wallets and the builder
  // ---------------------------------------------------------------------------

  /** Funded accounts, each with a wallet, its own live coins and its own destination. */
  ghost predicate GoodAccounts(s: Setup, l: Ledger) {
    && s.fee in s.accounts
    && OwnCoins(s.accounts)
    && (forall a :: a in s.accounts ==> a.dest != s.feeOld && Live(l, a.coins) && a.idx in s.wallets)
    && (forall a, b :: a in s.accounts && b in s.accounts && a != b ==> a.dest != b.dest)
    && (forall a, c :: a in s.accounts && c in a.coins ==> c.out.asset == BTC && c.op.txid != ZERO_TXID)
  }

  ghost predicate Real(sources: seq<OutPoint>, op: OutPoint) {
    op in sources && op.txid != ZERO_TXID
  }

  /** The coins a plan entry's sources are to name: those of the accounts it pays, whole, and some of the fee
      account's. */
  ghost predicate GoodSources(s: Setup, txp: PlanTx) {
    && Distinct(RealSources(txp.sources))
    && (forall op :: Real(txp.sources, op) ==>
          Holds(s.fee.coins, op) || exists a :: a in s.accounts && Pays(txp.outputs, a.idx) && Holds(a.coins, op))
    && (forall a, c :: a in s.accounts && Pays(txp.outputs, a.idx) && c in a.coins ==> c.op in txp.sources)
  }

  ghost predicate ToOwnAddress(accounts: seq<Account>, outs: seq<PlanOut>) {
    forall o :: o in outs && o.Customer? ==>
      && o.asset == BTC && o.account < 0x8000_0000
      && Find(accounts, o.account).Some? && o.address == Find(accounts, o.account).value.dest
  }

  /** The planner pays each customer's whole balance to its own destination, in bitcoin, and returns the rest to
      the fee account. */
  ghost predicate GoodOutputs(s: Setup, outs: seq<PlanOut>) {
    && ReturnsChange(outs)
    && !Pays(outs, s.fee.idx)
    && ToOwnAddress(s.accounts, outs)
    && (forall a, asset :: a in s.accounts && Pays(outs, a.idx) ==> PlannedFor(outs, a.idx, asset) == Held(a.coins, asset))
  }

  /** Final exactly in the last transaction, a placeholder in every one but the first, no customer paid twice,
      every fee coin brought in once. */
  ghost predicate GoodPlan(s: Setup) {
    && (forall k :: 0 <= k < |s.plan| ==> (s.plan[k].isFeeFinal <==> k == |s.plan| - 1))
    && (forall k :: 0 <= k < |s.plan| ==> (HasPlaceholder(s.plan[k].sources) <==> k > 0))
    && (forall k :: 0 <= k < |s.plan| ==> GoodSources(s, s.plan[k]) && GoodOutputs(s, s.plan[k].outputs))
    && (forall j, k, idx :: 0 <= j < k < |s.plan| ==> !(Pays(s.plan[j].outputs, idx) && Pays(s.plan[k].outputs, idx)))
    && (forall j, k, c :: 0 <= j < k < |s.plan| && c in s.fee.coins ==>
          !(c.op in s.plan[j].sources && c.op in s.plan[k].sources))
    && (s.plan != [] ==> forall c :: c in s.fee.coins ==> exists k :: 0 <= k < |s.plan| && c.op in s.plan[k].sources)
  }

  /** A wallet that describes a UTXO describes it as the ledger has it. */
  ghost predicate TrueInputs(s: Setup, l: Ledger) {
    forall wi, op :: op in l.live && s.env.input(wi, op).Some? ==> s.env.input(wi, op).value == l.live[op]
  }

  /** The builder's contract: exactly the given coins, exactly the given recipients, the remainder to the drain
      script and a positive fee out of it. */
  ghost predicate Funded(coins: seq<Coin>, recipients: seq<TxOut>, drain: Script, b: Built) {
    && multiset(b.tx.inputs) == multiset(Points(coins))
    && multiset(b.tx.outputs) == multiset(recipients + [TxOut(drain, BTC, b.change)])
    && Held(coins, BTC) == Total(recipients, BTC) + b.change + b.fee
    && b.fee > 0
  }

  ghost predicate BuilderContract(s: Setup) {
    forall k, coins, recipients, drain: Script ::
      s.env.build(k, coins, recipients, Some(drain)).Some? ==>
      Funded(coins, recipients, drain, s.env.build(k, coins, recipients, Some(drain)).value)
  }

  // ---------------------------------------------------------------------------
  // Sources and owners
  // ---------------------------------------------------------------------------

  function RealSources(sources: seq<OutPoint>): seq<OutPoint> {
    if sources == [] then []
    else
      var r, op := RealSources(sources[..|sources| - 1]), sources[|sources| - 1];
      if op.txid == ZERO_TXID then r else r + [op]
  }

  lemma {:induction false} RealSourcesAre(sources: seq<OutPoint>)
    ensures forall op :: op in RealSources(sources) <==> Real(sources, op)
  {
    if sources != [] {
      var init, last := sources[..|sources| - 1], sources[|sources| - 1];
      RealSourcesAre(init);
      assert sources == init + [last];
    }
  }

  /** Every captured UTXO of an account with a wallet has an owner. */
  lemma {:induction false} OwnersKnow(accounts: seq<Account>, wallets: seq<int>, op: OutPoint)
    ensures op in Owners(accounts, wallets)
            <==> exists a :: a in accounts && a.idx in wallets && Holds(a.coins, op)
  {
    hide Holds;
    if accounts != [] {
      var init, a := accounts[..|accounts| - 1], accounts[|accounts| - 1];
      OwnersKnow(init, wallets, op);
      assert accounts == init + [a];
      if a.idx in wallets {
        OwnedAt(Owners(init, wallets), a.coins, WalletOf(wallets, a.idx).value, op);
      }
    }
  }

  lemma HeldIsOwned(s: Setup, l: Ledger, a: Account, op: OutPoint)
    requires GoodAccounts(s, l) && a in s.accounts && Holds(a.coins, op)
    ensures op in Owners(s.accounts, s.wallets) && op in l.live && op.txid != ZERO_TXID
  {
    OwnersKnow(s.accounts, s.wallets, op);
  }

  lemma DescribedTruly(s: Setup, l: Ledger, wi: int, op: OutPoint)
    requires TrueInputs(s, l) && op in l.live && s.env.input(wi, op).Some?
    ensures s.env.input(wi, op).value == l.live[op]
  {
  }

  /** When every real source has an owner, none is passed over. */
  lemma {:induction false} ResolvesAll(s: Setup, l: Ledger, owners: map<OutPoint, int>, sources: seq<OutPoint>)
    requires TrueInputs(s, l)
    requires forall op :: op in RealSources(sources) ==> op in owners && op in l.live
    requires Resolve(owners, s.env.input, sources).Some?
    ensures var coins := Resolve(owners, s.env.input, sources).value;
            Points(coins) == RealSources(sources) && Live(l, coins)
  {
    hide Live;
    hide Points;
    if sources == [] {
      assert Points([]) == [] && Live(l, []) by {
        ResolvedNothing(l);
      }
    } else {
      var init, op := sources[..|sources| - 1], sources[|sources| - 1];
      assert forall x :: x in RealSources(init) ==> x in RealSources(sources);
      ResolvesAll(s, l, owners, init);
      if op.txid != ZERO_TXID {
        assert op in RealSources(sources);
        DescribedTruly(s, l, owners[op], op);
        ResolvedOne(l, Resolve(owners, s.env.input, init).value, op);
      }
    }
  }

  lemma ResolvedNothing(l: Ledger)
    ensures Points([]) == [] && Live(l, [])
  {
  }

  lemma ResolvedOne(l: Ledger, coins: seq<Coin>, op: OutPoint)
    requires Live(l, coins) && op in l.live
    ensures Points(coins + [Coin(op, l.live[op])]) == Points(coins) + [op]
    ensures Live(l, coins + [Coin(op, l.live[op])])
  {
  }

  // ---------------------------------------------------------------------------
  // Recipients
  // ---------------------------------------------------------------------------

  lemma {:induction false} RecipientsTotal(outs: seq<PlanOut>)
    requires forall o :: o in outs && o.Customer? ==> o.asset == BTC
    ensures Total(Recipients(outs), BTC) == PlannedForAll(outs, BTC)
  {
    if outs != [] {
      var init, o := outs[..|outs| - 1], outs[|outs| - 1];
      RecipientsTotal(init);
      if o.Customer? {
        TotalSnoc(Recipients(init), TxOut(o.address, BTC, o.amount), BTC);
      }
    }
  }

  /** What the recipients pay an account's destination is what is planned for that account. */
  lemma {:induction false} RecipientsAt(accounts: seq<Account>, outs: seq<PlanOut>, acct: Account, asset: Asset)
    requires ToOwnAddress(accounts, outs) && acct in accounts
    requires forall a, b :: a in accounts && b in accounts && a != b ==> a.idx != b.idx && a.dest != b.dest
    ensures PaidAt(Recipients(outs), acct.dest, asset) == PlannedFor(outs, acct.idx, asset)
  {
    if outs != [] {
      var init, o := outs[..|outs| - 1], outs[|outs| - 1];
      RecipientsAt(accounts, init, acct, asset);
      if o.Customer? {
        var r := TxOut(o.address, BTC, o.amount);
        assert (Recipients(init) + [r])[..|Recipients(init)|] == Recipients(init);
      }
    }
  }

  lemma {:induction false} RecipientsElsewhere(accounts: seq<Account>, outs: seq<PlanOut>, script: Script)
    requires ToOwnAddress(accounts, outs) && forall a :: a in accounts ==> a.dest != script
    ensures forall r :: r in Recipients(outs) ==> r.script != script
  {
    if outs != [] {
      RecipientsElsewhere(accounts, outs[..|outs| - 1], script);
    }
  }

  lemma {:induction false} OnlyBitcoin(coins: seq<Coin>, asset: Asset)
    requires asset != BTC && forall c :: c in coins ==> c.out.asset == BTC
    ensures Held(coins, asset) == 0
  {
    if coins == [] {
      assert Outs([]) == [];
    } else {
      var init, c := coins[..|coins| - 1], coins[|coins| - 1];
      assert coins == init + [c];
      OnlyBitcoin(init, asset);
      HeldConcat(init, [c], asset);
      HeldOne(c, asset);
    }
  }

  // ---------------------------------------------------------------------------
  // The plan as a chained sweep
  // ---------------------------------------------------------------------------

  /** The coins of `coins` that `sources` names. */
  function Named(coins: seq<Coin>, sources: seq<OutPoint>): seq<Coin> {
    if coins == [] then []
    else
      var r, c := Named(coins[..|coins| - 1], sources), coins[|coins| - 1];
      if c.op in sources then r + [c] else r
  }

  lemma {:induction false} NamedAre(coins: seq<Coin>, sources: seq<OutPoint>, c: Coin)
    ensures multiset(Named(coins, sources))[c] == if c.op in sources then multiset(coins)[c] else 0
  {
    if coins != [] {
      var init, last := coins[..|coins| - 1], coins[|coins| - 1];
      assert coins == init + [last];
      NamedAre(init, sources, c);
    }
  }

  lemma NamedHolds(coins: seq<Coin>, sources: seq<OutPoint>)
    ensures forall c :: c in Named(coins, sources) <==> c in coins && c.op in sources
    ensures forall op :: Holds(Named(coins, sources), op) <==> Holds(coins, op) && op in sources
  {
    forall c ensures c in Named(coins, sources) <==> c in coins && c.op in sources {
      NamedAre(coins, sources, c);
      assert c in Named(coins, sources) <==> multiset(Named(coins, sources))[c] > 0;
      assert c in coins <==> multiset(coins)[c] > 0;
    }
    forall op ensures Holds(Named(coins, sources), op) <==> Holds(coins, op) && op in sources {
      if Holds(coins, op) && op in sources {
        var c :| c in coins && c.op == op;
        assert c in Named(coins, sources);
      }
    }
  }

  function Legs(s: Setup): (r: seq<Leg>)
    ensures |r| == |s.plan|
    ensures forall k :: 0 <= k < |r| ==>
      r[k] == Leg(s.plan[k].outputs, Named(s.fee.coins, s.plan[k].sources), s.plan[k].isFeeFinal)
  {
    seq(|s.plan|, k requires 0 <= k < |s.plan| =>
      Leg(s.plan[k].outputs, Named(s.fee.coins, s.plan[k].sources), s.plan[k].isFeeFinal))
  }

  function SceneOf(s: Setup): Scene {
    Scene(s.accounts, s.fee, BTC, s.feeOld, Legs(s))
  }

  ghost predicate NamedBefore(s: Setup, m: nat, op: OutPoint)
    requires m <= |s.plan|
  {
    exists k :: 0 <= k < m && op in s.plan[k].sources
  }

  lemma NamedBeforeSnoc(s: Setup, m: nat, op: OutPoint)
    requires 0 < m <= |s.plan|
    ensures NamedBefore(s, m, op) <==> NamedBefore(s, m - 1, op) || op in s.plan[m - 1].sources
  {
  }

  lemma NotNamedTwice(s: Setup, m: nat, c: Coin)
    requires 0 < m <= |s.plan|
    requires forall j, k :: 0 <= j < k < |s.plan| && c in s.fee.coins ==>
      !(c.op in s.plan[j].sources && c.op in s.plan[k].sources)
    ensures c in s.fee.coins && NamedBefore(s, m - 1, c.op) ==> c.op !in s.plan[m - 1].sources
  {
  }

  lemma {:induction false} FeeCoinsNamed(s: Setup, m: nat, c: Coin)
    requires m <= |s.plan|
    requires forall j, k :: 0 <= j < k < |s.plan| && c in s.fee.coins ==>
      !(c.op in s.plan[j].sources && c.op in s.plan[k].sources)
    ensures multiset(AllFeeCoins(Legs(s)[..m]))[c] == if NamedBefore(s, m, c.op) then multiset(s.fee.coins)[c] else 0
  {
    if m > 0 {
      FeeCoinsNamed(s, m - 1, c);
      AllFeeCoinsSnoc(Legs(s), m);
      NamedAre(s.fee.coins, s.plan[m - 1].sources, c);
      assert c !in s.fee.coins ==> multiset(s.fee.coins)[c] == 0;
      NamedBeforeSnoc(s, m, c.op);
      hide NamedBefore;
      hide AllFeeCoins;
      hide Named;
      var before := AllFeeCoins(Legs(s)[..m - 1]);
      assert multiset(before + Legs(s)[m - 1].feeCoins)[c] == multiset(before)[c] + multiset(Legs(s)[m - 1].feeCoins)[c];
      assert c in s.fee.coins && NamedBefore(s, m - 1, c.op) ==> c.op !in s.plan[m - 1].sources by {
        NotNamedTwice(s, m, c);
      }
    }
  }

  /** Every fee coin is brought in once over the whole plan. */
  lemma AllNamedOnce(s: Setup)
    requires GoodPlan(s) && s.plan != []
    ensures multiset(AllFeeCoins(Legs(s))) == multiset(s.fee.coins)
  {
    hide Named;
    hide AllFeeCoins;
    hide GoodSources;
    hide GoodOutputs;
    assert Legs(s)[..|s.plan|] == Legs(s);
    forall c ensures multiset(AllFeeCoins(Legs(s)))[c] == multiset(s.fee.coins)[c] {
      FeeCoinsNamed(s, |s.plan|, c);
      assert c in s.fee.coins <==> multiset(s.fee.coins)[c] > 0;
    }
  }

  lemma SceneIsGood(s: Setup, l: Ledger)
    requires GoodAccounts(s, l) && GoodPlan(s)
    ensures GoodScene(SceneOf(s), l) && GoodLegs(SceneOf(s))
  {
    hide GoodPlan;
    hide Live;
    hide OwnCoins;
    hide GoodLegs;
    LegsAreGood(s);
  }

  lemma LegsAreGood(s: Setup)
    requires GoodPlan(s)
    ensures GoodLegs(SceneOf(s))
  {
    hide Pays;
    hide Named;
    hide AllFeeCoins;
    hide GoodSources;
    hide GoodOutputs;
    forall k | 0 <= k < |s.plan| ensures !Pays(s.plan[k].outputs, s.fee.idx) {
      FeeNotPaid(s, k);
    }
    if s.plan != [] {
      AllNamedOnce(s);
    }
  }

  lemma FeeNotPaid(s: Setup, k: nat)
    requires GoodPlan(s) && k < |s.plan|
    ensures !Pays(s.plan[k].outputs, s.fee.idx)
  {
    assert GoodOutputs(s, s.plan[k].outputs);
  }

  // ---------------------------------------------------------------------------
  // What the executor delivers for the next transaction
  // ---------------------------------------------------------------------------

  /** The coins an entry is to spend: those of the accounts it pays, then the fee coins it names. */
  function Wanted(s: Setup, k: nat): seq<Coin>
    requires k < |s.plan|
  {
    CoinsOf(s.accounts, PaidList(s.plan[k].outputs)) + Named(s.fee.coins, s.plan[k].sources)
  }

  function Resolved(s: Setup, k: nat): Option<seq<Coin>>
    requires k < |s.plan|
  {
    Resolve(Owners(s.accounts, s.wallets), s.env.input, s.plan[k].sources)
  }

  lemma PaidAreFound(s: Setup, l: Ledger, k: nat)
    requires GoodAccounts(s, l) && GoodPlan(s) && k < |s.plan|
    ensures forall idx :: Pays(s.plan[k].outputs, idx) ==> Find(s.accounts, idx).Some? && idx != s.fee.idx
  {
    assert GoodOutputs(s, s.plan[k].outputs);
  }

  /** The customers' part of the wanted coins. */
  lemma CustomersWanted(s: Setup, l: Ledger, k: nat)
    requires GoodAccounts(s, l) && GoodPlan(s) && k < |s.plan|
    ensures var customers := CoinsOf(s.accounts, PaidList(s.plan[k].outputs));
            && Distinct(Points(customers)) && Apart(customers, s.fee.coins)
            && forall op :: Holds(customers, op) <==> CustomerPoint(SceneOf(s), k, op)
  {
    hide Pays;
    hide GoodPlan;
    hide Holds;
    hide Live;
    PaidAreFound(s, l, k);
    PaidListIs(s.plan[k].outputs);
    CoinsOfPoints(s.accounts, PaidList(s.plan[k].outputs));
  }

  lemma LiveHolds(l: Ledger, coins: seq<Coin>, accounts: seq<Account>)
    requires forall a :: a in accounts ==> Live(l, a.coins)
    requires forall c :: c in coins ==> exists a :: a in accounts && c in a.coins
    ensures Live(l, coins)
  {
  }

  lemma {:induction false} CoinsOfAreAccounts(accounts: seq<Account>, added: seq<int>)
    ensures forall c :: c in CoinsOf(accounts, added) ==> exists a :: a in accounts && c in a.coins
  {
    if added != [] {
      CoinsOfAreAccounts(accounts, added[..|added| - 1]);
    }
  }

  /** The wanted coins: live, each once, the fee account's apart from the customers'. */
  lemma WantedFacts(s: Setup, l: Ledger, k: nat)
    requires GoodAccounts(s, l) && GoodPlan(s) && k < |s.plan|
    ensures Live(l, Wanted(s, k)) && Distinct(Points(Wanted(s, k)))
    ensures forall op :: Holds(Wanted(s, k), op) ==> op in l.live
    ensures forall op :: Holds(Wanted(s, k), op)
                         <==> CustomerPoint(SceneOf(s), k, op) || Holds(Named(s.fee.coins, s.plan[k].sources), op)
  {
    hide Pays;
    hide GoodPlan;
    hide Named;
    hide CoinsOf;
    hide CustomerPoint;
    hide GoodLegs;
    hide GoodScene;
    var customers, named := CoinsOf(s.accounts, PaidList(s.plan[k].outputs)), Named(s.fee.coins, s.plan[k].sources);
    SceneIsGood(s, l);
    CustomersWanted(s, l, k);
    LegCoins(SceneOf(s), l, k);
    NamedHolds(s.fee.coins, s.plan[k].sources);
    HoldsConcat(customers, named);
    DistinctPointsConcat(customers, named);
    CoinsOfAreAccounts(s.accounts, PaidList(s.plan[k].outputs));
    LiveHolds(l, Wanted(s, k), s.accounts);
  }

  /** What the owner map and the wallets make of an entry's real sources is exactly the wanted coins. */
  lemma ResolvedIsWanted(s: Setup, l: Ledger, k: nat)
    requires GoodAccounts(s, l) && GoodPlan(s) && TrueInputs(s, l) && k < |s.plan| && Resolved(s, k).Some?
    ensures multiset(Resolved(s, k).value) == multiset(Wanted(s, k))
  {
    hide Pays;
    hide Named;
    hide Resolve;
    hide Owners;
    hide Wanted;
    hide CustomerPoint;
    hide TrueInputs;
    var sources := s.plan[k].sources;
    RealSourcesAre(sources);
    SourcesAreWanted(s, l, k);
    forall op | op in RealSources(sources) ensures op in Owners(s.accounts, s.wallets) && op in l.live {
      WantedIsOwned(s, l, k, op);
    }
    ResolvesAll(s, l, Owners(s.accounts, s.wallets), sources);
    HoldsPoints(Resolved(s, k).value);
    WantedFacts(s, l, k);
    SameCoins(l, Resolved(s, k).value, Wanted(s, k));
  }

  lemma SourcesAreWanted(s: Setup, l: Ledger, k: nat)
    requires GoodAccounts(s, l) && GoodPlan(s) && k < |s.plan|
    ensures Distinct(RealSources(s.plan[k].sources))
    ensures forall op :: Real(s.plan[k].sources, op) <==> Holds(Wanted(s, k), op)
  {
    hide Pays;
    hide Named;
    hide Wanted;
    var txp := s.plan[k];
    assert GoodSources(s, txp);
    WantedFacts(s, l, k);
    NamedHolds(s.fee.coins, txp.sources);
    forall op ensures Real(txp.sources, op)
                      <==> CustomerPoint(SceneOf(s), k, op) || Holds(Named(s.fee.coins, txp.sources), op)
    {
    }
  }

  lemma WantedIsOwned(s: Setup, l: Ledger, k: nat, op: OutPoint)
    requires GoodAccounts(s, l) && GoodPlan(s) && k < |s.plan| && Holds(Wanted(s, k), op)
    ensures op in Owners(s.accounts, s.wallets) && op in l.live
  {
    hide Pays;
    hide Named;
    hide Wanted;
    hide GoodPlan;
    WantedFacts(s, l, k);
    NamedHolds(s.fee.coins, s.plan[k].sources);
    if CustomerPoint(SceneOf(s), k, op) {
      var a :| a in s.accounts && Pays(s.plan[k].outputs, a.idx) && Holds(a.coins, op);
      HeldIsOwned(s, l, a, op);
    } else {
      HeldIsOwned(s, l, s.fee, op);
    }
  }

  /** The wanted coins are worth what the entry pays its customers plus the fee coins it names. */
  lemma WantedHeld(s: Setup, l: Ledger, k: nat)
    requires GoodAccounts(s, l) && GoodPlan(s) && k < |s.plan|
    ensures Held(Wanted(s, k), BTC)
            == Total(Recipients(s.plan[k].outputs), BTC) + Held(Named(s.fee.coins, s.plan[k].sources), BTC)
  {
    hide Pays;
    hide Named;
    hide CoinsOf;
    var outs := s.plan[k].outputs;
    assert GoodOutputs(s, outs);
    PaidAreFound(s, l, k);
    hide GoodPlan;
    hide GoodAccounts;
    PaidListIs(outs);
    CoinsOfHeld(s.accounts, outs, PaidList(outs), BTC);
    PlannedByAccount(outs, PaidList(outs), BTC);
    RecipientsTotal(outs);
    HeldConcat(CoinsOf(s.accounts, PaidList(outs)), Named(s.fee.coins, s.plan[k].sources), BTC);
  }

  function ChangeBefore(s: Setup, log: seq<Broadcast>): seq<Coin> {
    if log == [] then [] else Carry(ChangeCoin(s.feeOld, log[|log| - 1].tx))
  }

  /** The inputs given to the builder: each once, some, exactly the planned ones, and worth the recipients plus
      the fee account's share. */
  lemma NextInputs(s: Setup, l: Ledger, log: seq<Broadcast>)
    requires GoodAccounts(s, l) && GoodPlan(s) && TrueInputs(s, l) && |log| < |s.plan| && Progress(SceneOf(s), l, log)
    requires Resolved(s, |log|).Some?
    ensures var coins := ChangeBefore(s, log) + Resolved(s, |log|).value;
            && Distinct(Points(coins))
            && (forall op :: Holds(coins, op) <==> Touched(SceneOf(s), log, op))
            && Held(coins, BTC)
               == Total(Recipients(s.plan[|log|].outputs), BTC) + Held(FeeShare(SceneOf(s), log, |log|), BTC)
  {
    hide Pays;
    hide Progress;
    hide Wanted;
    hide Named;
    hide Resolved;
    hide CustomerPoint;
    hide GoodAccounts;
    hide GoodPlan;
    hide GoodScene;
    hide GoodLegs;
    var m, sc := |log|, SceneOf(s);
    var carry, named, coins := ChangeBefore(s, log), Named(s.fee.coins, s.plan[m].sources), Resolved(s, m).value;
    SceneIsGood(s, l);
    FeeShareFacts(sc, l, log);
    assert FeeShare(sc, log, m) == named + carry;
    ResolvedIsWanted(s, l, m);
    WantedFacts(s, l, m);
    WantedHeld(s, l, m);
    HeldPermutation(coins, Wanted(s, m), BTC);
    HeldConcat(carry, coins, BTC);
    HeldConcat(named, carry, BTC);
    InputPoints(s, l, log);
  }

  lemma InputPoints(s: Setup, l: Ledger, log: seq<Broadcast>)
    requires GoodAccounts(s, l) && GoodPlan(s) && TrueInputs(s, l) && |log| < |s.plan| && Progress(SceneOf(s), l, log)
    requires Resolved(s, |log|).Some?
    ensures var coins := ChangeBefore(s, log) + Resolved(s, |log|).value;
            && Distinct(Points(coins))
            && forall op :: Holds(coins, op) <==> Touched(SceneOf(s), log, op)
  {
    hide Pays;
    hide Holds;
    hide Progress;
    hide FeeState;
    hide Wanted;
    hide Named;
    hide Resolved;
    hide CustomerPoint;
    hide GoodAccounts;
    hide GoodPlan;
    var m := |log|;
    var carry, named, coins := ChangeBefore(s, log), Named(s.fee.coins, s.plan[m].sources), Resolved(s, m).value;
    CarryNow(s, l, log);
    ResolvedIsWanted(s, l, m);
    WantedFacts(s, l, m);
    SamePoints(coins, Wanted(s, m));
    HoldsConcat(carry, coins);
    HoldsConcat(named, carry);
    FreshAhead(l, carry, coins);
  }

  lemma CarryNow(s: Setup, l: Ledger, log: seq<Broadcast>)
    requires |log| < |s.plan| && Progress(SceneOf(s), l, log)
    ensures FeeShare(SceneOf(s), log, |log|) == Named(s.fee.coins, s.plan[|log|].sources) + ChangeBefore(s, log)
    ensures |ChangeBefore(s, log)| <= 1 && forall c :: c in ChangeBefore(s, log) ==> c.op !in l.live
  {
    hide Named;
    FeeNow(SceneOf(s), l, log);
  }

  lemma SamePoints(a: seq<Coin>, b: seq<Coin>)
    requires multiset(a) == multiset(b) && Distinct(Points(b))
    ensures Distinct(Points(a)) && forall op :: Holds(a, op) <==> Holds(b, op)
  {
    SamePermutation(a, b);
    SubsetDistinct(a, b);
  }

  lemma FreshAhead(l: Ledger, carry: seq<Coin>, coins: seq<Coin>)
    requires |carry| <= 1 && (forall c :: c in carry ==> c.op !in l.live)
    requires Distinct(Points(coins)) && forall op :: Holds(coins, op) ==> op in l.live
    ensures Distinct(Points(carry + coins))
  {
    if carry == [] {
      assert carry + coins == coins;
    } else {
      assert Points(carry) == [carry[0].op];
      DistinctPointsConcat(carry, coins);
    }
  }

  lemma PaidByBuilt(recipients: seq<TxOut>, drain: Script, b: Built, script: Script, asset: Asset)
    requires multiset(b.tx.outputs) == multiset(recipients + [TxOut(drain, BTC, b.change)])
    ensures PaidAt(b.tx.outputs, script, asset)
            == PaidAt(recipients, script, asset) + (if script == drain && asset == BTC then b.change else 0)
  {
    var change := TxOut(drain, BTC, b.change);
    PaidAtPermutation(b.tx.outputs, recipients + [change], script, asset);
    PaidAtConcat(recipients, [change], script, asset);
    PaidAtOne(change, script, asset);
  }

  /** A transaction pays an account other than the fee account its whole balance if its entry pays that account,
      and nothing otherwise. */
  lemma PaidToCustomer(s: Setup, l: Ledger, k: nat, coins: seq<Coin>, b: Built, acct: Account, asset: Asset)
    requires GoodAccounts(s, l) && GoodPlan(s) && k < |s.plan|
    requires Funded(coins, Recipients(s.plan[k].outputs), FeeDest(s, s.plan[k]), b)
    requires acct in s.accounts && acct != s.fee
    ensures PaidAt(b.tx.outputs, acct.dest, asset)
            == if Pays(s.plan[k].outputs, acct.idx) then Held(acct.coins, asset) else 0
  {
    hide Live;
    hide Apart;
    hide Pays;
    assert GoodOutputs(s, s.plan[k].outputs);
    PaidByBuilt(Recipients(s.plan[k].outputs), FeeDest(s, s.plan[k]), b, acct.dest, asset);
    RecipientsAt(s.accounts, s.plan[k].outputs, acct, asset);
    if !Pays(s.plan[k].outputs, acct.idx) {
      NotPlanned(s.plan[k].outputs, acct.idx, asset);
    }
  }

  /** Until the final transaction, the fee account's new address gets nothing and its old one only the change. */
  lemma IntermediateFee(s: Setup, l: Ledger, k: nat, coins: seq<Coin>, b: Built, asset: Asset)
    requires GoodAccounts(s, l) && GoodPlan(s) && k < |s.plan| - 1
    requires Funded(coins, Recipients(s.plan[k].outputs), s.feeOld, b)
    ensures PaidAt(b.tx.outputs, s.fee.dest, asset) == 0
    ensures ChangeCoin(s.feeOld, b.tx).Some?
    ensures ChangeCoin(s.feeOld, b.tx).value.out == TxOut(s.feeOld, BTC, b.change)
  {
    hide Live;
    hide Apart;
    hide Pays;
    var outs, change := s.plan[k].outputs, TxOut(s.feeOld, BTC, b.change);
    assert GoodOutputs(s, outs);
    PaidByBuilt(Recipients(outs), s.feeOld, b, s.fee.dest, asset);
    RecipientsAt(s.accounts, outs, s.fee, asset);
    NotPlanned(outs, s.fee.idx, asset);
    RecipientsElsewhere(s.accounts, outs, s.feeOld);
    var all := Recipients(outs) + [change];
    SamePermutation(b.tx.outputs, all);
    assert all[|all| - 1] in b.tx.outputs;
    forall o | o in b.tx.outputs && o.script == s.feeOld ensures o == change {
      assert o in all;
    }
  }

  /** The final transaction pays the fee account's new address the change and nothing else. */
  lemma FinalFee(s: Setup, l: Ledger, k: nat, coins: seq<Coin>, b: Built, asset: Asset)
    requires GoodAccounts(s, l) && GoodPlan(s) && k == |s.plan| - 1
    requires Funded(coins, Recipients(s.plan[k].outputs), s.fee.dest, b)
    ensures PaidAt(b.tx.outputs, s.fee.dest, asset) == if asset == BTC then b.change else FeeIn(SceneOf(s), k + 1, asset)
  {
    hide Live;
    hide Apart;
    hide Pays;
    var outs := s.plan[k].outputs;
    assert GoodOutputs(s, outs);
    PaidByBuilt(Recipients(outs), s.fee.dest, b, s.fee.dest, asset);
    RecipientsAt(s.accounts, outs, s.fee, asset);
    NotPlanned(outs, s.fee.idx, asset);
    if asset != BTC {
      SceneIsGood(s, l);
      FeeInIsHeld(SceneOf(s), asset);
      OnlyBitcoin(s.fee.coins, asset);
    }
  }

  /** `b` is what the builder made of the inputs and recipients of the next plan entry. */
  ghost predicate BuiltNext(s: Setup, log: seq<Broadcast>, b: Built, entry: Broadcast) {
    && |log| < |s.plan| && Resolved(s, |log|).Some?
    && Funded(ChangeBefore(s, log) + Resolved(s, |log|).value, Recipients(s.plan[|log|].outputs),
              FeeDest(s, s.plan[|log|]), b)
    && entry.tx == b.tx && entry.fee == b.fee
  }

  lemma NextSpends(s: Setup, l: Ledger, log: seq<Broadcast>, b: Built, entry: Broadcast)
    requires GoodAccounts(s, l) && GoodPlan(s) && TrueInputs(s, l) && Progress(SceneOf(s), l, log)
    requires BuiltNext(s, log, b, entry)
    ensures entry.tx.inputs != [] && Distinct(entry.tx.inputs)
    ensures forall op :: op in entry.tx.inputs <==> Touched(SceneOf(s), log, op)
    ensures b.change + b.fee == Held(FeeShare(SceneOf(s), log, |log|), BTC)
  {
    hide Pays;
    hide Progress;
    hide Touched;
    hide FeeShare;
    hide GoodAccounts;
    hide GoodPlan;
    var coins := ChangeBefore(s, log) + Resolved(s, |log|).value;
    NextInputs(s, l, log);
    SamePermutation(entry.tx.inputs, Points(coins));
    HoldsPoints(coins);
    assert Outs([]) == [];
  }

  lemma FinalIsLast(s: Setup, l: Ledger, k: nat)
    requires GoodAccounts(s, l) && GoodPlan(s) && k < |s.plan|
    ensures s.plan[k].isFeeFinal <==> k == |s.plan| - 1
    ensures HasPlaceholder(s.plan[k].sources) <==> k > 0
    ensures ReturnsChange(s.plan[k].outputs)
    ensures s.fee in s.accounts
  {
    assert GoodOutputs(s, s.plan[k].outputs);
  }

  /** A transaction built from the next plan entry delivers what the chained sweep asks of it. */
  lemma NextDelivers(s: Setup, l: Ledger, log: seq<Broadcast>, b: Built, entry: Broadcast)
    requires GoodAccounts(s, l) && GoodPlan(s) && TrueInputs(s, l) && Progress(SceneOf(s), l, log)
    requires BuiltNext(s, log, b, entry)
    ensures Delivers(SceneOf(s), log, entry, b.change)
  {
    hide Pays;
    hide Progress;
    hide Touched;
    hide Funded;
    hide FeeShare;
    hide GoodAccounts;
    hide GoodPlan;
    hide Resolved;
    var sc, m := SceneOf(s), |log|;
    var coins := ChangeBefore(s, log) + Resolved(s, m).value;
    FinalIsLast(s, l, m);
    NextSpends(s, l, log, b, entry);
    forall a, asset | a in s.accounts && a != s.fee
      ensures PaidAt(entry.tx.outputs, a.dest, asset) == if Pays(s.plan[m].outputs, a.idx) then Held(a.coins, asset) else 0
    {
      PaidToCustomer(s, l, m, coins, b, a, asset);
    }
    forall asset
      ensures s.plan[m].isFeeFinal ==>
        PaidAt(entry.tx.outputs, s.fee.dest, asset) == if asset == BTC then b.change else FeeIn(sc, m + 1, asset)
      ensures !s.plan[m].isFeeFinal ==> PaidAt(entry.tx.outputs, s.fee.dest, asset) == 0
    {
      if s.plan[m].isFeeFinal {
        FinalFee(s, l, m, coins, b, asset);
      } else {
        IntermediateFee(s, l, m, coins, b, asset);
      }
    }
    if !s.plan[m].isFeeFinal {
      IntermediateFee(s, l, m, coins, b, BTC);
    }
  }

  // ---------------------------------------------------------------------------
  // Whole runs
  // ---------------------------------------------------------------------------

  function NextBuilt(s: Setup, r: Run, k: nat): Option<Built>
    requires k < |s.plan| && Resolved(s, k).Some?
  {
    s.env.build(k, TakenChange(r, s.plan[k]) + Resolved(s, k).value, Recipients(s.plan[k].outputs), Drain(s, s.plan[k]))
  }

  /** What a step that broadcasts something has broadcast. */
  lemma StepShape(s: Setup, r: Run, k: nat)
    requires k < |s.plan| && Step(s, r, k).log != r.log
    ensures r.error.None? && (HasPlaceholder(s.plan[k].sources) ==> r.feeChange.Some?)
    ensures Resolved(s, k).Some? && NextBuilt(s, r, k).Some?
    ensures |Step(s, r, k).log| == |r.log| + 1
    ensures var entry, b := Step(s, r, k).log[|r.log|], NextBuilt(s, r, k).value;
            && Step(s, r, k).log == r.log + [entry]
            && entry.tx == b.tx && entry.fee == b.fee && entry.isFeeFinal == s.plan[k].isFeeFinal
            && entry.report == Report(s.plan[k].outputs)
            && entry.owner == SigningWallet(s, TakenChange(r, s.plan[k]), Resolved(s, k).value)
  {
    hide Recipients;
    hide Report;
    hide Drain;
    hide SigningWallet;
    hide ChangeCoin;
  }

  /** In a well-formed plan an entry consumes exactly the change of the broadcast just before it. */
  lemma ConsumesLastChange(s: Setup, l: Ledger, k: nat)
    requires GoodAccounts(s, l) && GoodPlan(s) && k < |s.plan| && RunTo(s, k).error.None?
    ensures |RunTo(s, k).log| == k
    ensures k > 0 && RunTo(s, k).feeChange.None? ==> Step(s, RunTo(s, k), k).log == RunTo(s, k).log
    ensures k == 0 || RunTo(s, k).feeChange.Some? ==>
      TakenChange(RunTo(s, k), s.plan[k]) == ChangeBefore(s, RunTo(s, k).log)
  {
    hide Step;
    hide RunTo;
    hide Captures;
    hide HasPlaceholder;
    hide GoodSources;
    hide GoodOutputs;
    hide ChangeCoin;
    FeeChangeOrigin(s, k);
    FinalIsLast(s, l, k);
    if k > 0 {
      NeverStale(s, k);
      if RunTo(s, k).feeChange.None? {
        NoChangeNoBroadcast(s, RunTo(s, k), k);
      }
    }
  }

  lemma NoChangeNoBroadcast(s: Setup, r: Run, k: nat)
    requires k < |s.plan| && HasPlaceholder(s.plan[k].sources) && r.feeChange.None?
    ensures Step(s, r, k).log == r.log
  {
  }

  lemma StepProgress(s: Setup, l: Ledger, k: nat)
    requires GoodAccounts(s, l) && GoodPlan(s) && TrueInputs(s, l) && BuilderContract(s) && Sound(l)
    requires k < |s.plan| && RunTo(s, k).error.None? && Progress(SceneOf(s), l, RunTo(s, k).log)
    ensures Progress(SceneOf(s), l, Step(s, RunTo(s, k), k).log)
  {
    hide Step;
    hide RunTo;
    hide GoodAccounts;
    hide GoodPlan;
    hide GoodScene;
    hide GoodLegs;
    hide TrueInputs;
    hide Progress;
    hide Resolved;
    hide Recipients;
    hide TakenChange;
    hide HasPlaceholder;
    hide Delivers;
    hide ChangeBefore;
    var r := RunTo(s, k);
    SceneIsGood(s, l);
    FinalIsLast(s, l, k);
    ConsumesLastChange(s, l, k);
    if Step(s, r, k).log != r.log {
      StepShape(s, r, k);
      var entry, b := Step(s, r, k).log[k], NextBuilt(s, r, k).value;
      NextDelivers(s, l, r.log, b, entry);
      NextProgress(SceneOf(s), l, r.log, entry, b.change);
    }
  }

  /** The state of every account after any number of plan entries, whether or not the run has stopped. */
  lemma {:induction false} RunProgress(s: Setup, l: Ledger, k: nat)
    requires GoodAccounts(s, l) && GoodPlan(s) && TrueInputs(s, l) && BuilderContract(s) && Sound(l) && k <= |s.plan|
    ensures Progress(SceneOf(s), l, RunTo(s, k).log)
    ensures |RunTo(s, k).log| <= k && (RunTo(s, k).error.None? ==> |RunTo(s, k).log| == k)
  {
    hide Step;
    hide BuilderContract;
    hide TrueInputs;
    hide Progress;
    hide GoodPlan;
    hide GoodAccounts;
    FeeChangeOrigin(s, k);
    if k == 0 {
      SceneIsGood(s, l);
      Beginning(SceneOf(s), l);
    } else {
      RunProgress(s, l, k - 1);
      if RunTo(s, k - 1).error.Some? {
        ErrorStops(s, k - 1, k);
      } else {
        StepProgress(s, l, k - 1);
      }
    }
  }

  /** No outpoint is spent twice across all the broadcasts of a run, however it ends. */
  lemma NoOutpointSpentTwice(s: Setup, l: Ledger, k: nat)
    requires GoodAccounts(s, l) && GoodPlan(s) && TrueInputs(s, l) && BuilderContract(s) && Sound(l) && k <= |s.plan|
    ensures ValidLog(l, Txs(RunTo(s, k).log))
    ensures Distinct(AllInputs(Txs(RunTo(s, k).log)))
  {
    hide RunTo;
    RunProgress(s, l, k);
    NoDoubleSpend(l, Txs(RunTo(s, k).log));
  }

  /** A run that finishes has broadcast every planned transaction, keeps no fee change, and has spent, once each,
      exactly the coins of the planned accounts and every intermediate change. */
  lemma CompletedRun(s: Setup, l: Ledger)
    requires GoodAccounts(s, l) && GoodPlan(s) && TrueInputs(s, l) && BuilderContract(s) && Sound(l)
    requires s.plan != [] && RunTo(s, |s.plan|).error.None?
    ensures var r := RunTo(s, |s.plan|);
            && |r.log| == |s.plan| && r.feeChange.None?
            && Distinct(AllInputs(Txs(r.log)))
            && forall op :: op in AllInputs(Txs(r.log))
                            <==> PlannedPoint(SceneOf(s), op) || IntermediateChange(SceneOf(s), r.log, op)
  {
    hide RunTo;
    hide Progress;
    hide GoodAccounts;
    hide GoodPlan;
    hide GoodScene;
    hide GoodLegs;
    hide TrueInputs;
    hide BuilderContract;
    var n := |s.plan|;
    RunProgress(s, l, n);
    SceneIsGood(s, l);
    NothingKept(s, l);
    CompleteLog(SceneOf(s), l, RunTo(s, n).log);
  }

  lemma NothingKept(s: Setup, l: Ledger)
    requires GoodAccounts(s, l) && GoodPlan(s)
    requires s.plan != [] && RunTo(s, |s.plan|).error.None?
    ensures RunTo(s, |s.plan|).feeChange.None?
  {
    hide Step;
    hide HasPlaceholder;
    hide GoodSources;
    hide GoodOutputs;
    var n := |s.plan|;
    FinalIsLast(s, l, n - 1);
    StepEffect(s, RunTo(s, n - 1), n - 1);
    FeeChangeOrigin(s, n - 1);
  }

  /** Conservation over a finished run: every planned customer holds at its new address what it held before, and
      the fee account what it held less the fees of all broadcasts. */
  lemma Conservation(s: Setup, l: Ledger, asset: Asset)
    requires GoodAccounts(s, l) && GoodPlan(s) && TrueInputs(s, l) && BuilderContract(s) && Sound(l)
    requires s.plan != [] && RunTo(s, |s.plan|).error.None?
    ensures var log := RunTo(s, |s.plan|).log;
            && (forall a :: a in s.accounts && a != s.fee ==>
                  Received(log, a.dest, asset)
                  == if PaidBefore(SceneOf(s), |s.plan|, a.idx) then Held(a.coins, asset) else 0)
            && Received(log, s.fee.dest, asset) == Held(s.fee.coins, asset) - (if asset == BTC then FeesPaid(log) else 0)
  {
    hide RunTo;
    hide Progress;
    hide GoodAccounts;
    hide GoodPlan;
    hide GoodScene;
    hide GoodLegs;
    hide TrueInputs;
    hide BuilderContract;
    RunProgress(s, l, |s.plan|);
    SceneIsGood(s, l);
    CompleteLogConserves(SceneOf(s), l, RunTo(s, |s.plan|).log, asset);
  }

  /** Safety on every prefix, wherever the run stops. */
  lemma PrefixSafety(s: Setup, l: Ledger, k: nat)
    requires GoodAccounts(s, l) && GoodPlan(s) && TrueInputs(s, l) && BuilderContract(s) && Sound(l) && k <= |s.plan|
    ensures |RunTo(s, k).log| <= k
    ensures Safe(SceneOf(s), l, RunTo(s, k).log)
  {
    hide RunTo;
    hide Progress;
    hide GoodAccounts;
    hide GoodPlan;
    hide GoodScene;
    hide GoodLegs;
    hide TrueInputs;
    hide BuilderContract;
    hide Safe;
    RunProgress(s, l, k);
    SceneIsGood(s, l);
    ProgressIsSafe(SceneOf(s), l, RunTo(s, k).log);
  }
}
