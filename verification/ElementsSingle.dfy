/** The account-for-account form of the Elements migration: one transaction that spends every account's coins.
    It is the batched form of a one-entry plan, with its inputs in another order. */
module ElementsSingle {
  import opened Wrappers
  import opened Ledger
  import opened SweepPlan
  import opened ChainedSweep
  import opened ElementsMigration
  import opened ElementsRuns

  /** Every account's coins, account after account. */
  function AllCoins(accounts: seq<Account>): seq<Coin> {
    if accounts == [] then [] else AllCoins(accounts[..|accounts| - 1]) + accounts[|accounts| - 1].coins
  }

  function AllOwners(accounts: seq<Account>): map<OutPoint, int> {
    if accounts == [] then map[]
    else
      var a := accounts[|accounts| - 1];
      Owned(AllOwners(accounts[..|accounts| - 1]), a.coins, a.idx)
  }

  function Recipients(outs: seq<PlanOut>, feeDest: Script, policy: Asset): seq<TxOut> {
    if outs == [] then []
    else
      var r, o := Recipients(outs[..|outs| - 1], feeDest, policy), outs[|outs| - 1];
      match o
      case Customer(_, address, amount, asset) => r + [TxOut(address, asset, amount)]
      case FeeChange(amount, asset) => if asset != policy then r + [TxOut(feeDest, asset, amount)] else r
  }

  function Report(outs: seq<PlanOut>): seq<(int, nat)> {
    if outs == [] then []
    else
      var r, o := Report(outs[..|outs| - 1]), outs[|outs| - 1];
      if o.Customer? then r + [(Idx(o.account), o.amount)] else r
  }

  /** The run: one broadcast, or the error that stopped it. */
  function Single(s: Setup): Run {
    if s.plan == [] then Run([], None, false, Some(NoTransaction))
    else
      match Find(s.accounts, s.feeIdx)
      case None => Run([], None, false, Some(FeeAccountNotFunded))
      case Some(fee) =>
        var outs := s.plan[0].outputs;
        match s.env.build(0, AllCoins(s.accounts), Recipients(outs, fee.dest, s.policy), fee.dest)
        case None => Run([], None, false, Some(BuildFailed))
        case Some(b) =>
          if !s.env.finalizes(0) then Run([], None, false, Some(FinalizeFailed))
          else if !s.env.accepts(0) then Run([], None, false, Some(BroadcastRejected))
          else Run([Broadcast(b.tx, b.fee, AllOwners(s.accounts), Report(outs), false)], None, false, None)
  }

  method RunSingle(s: Setup) returns (r: Run)
    ensures r == Single(s)
  {
    r := Run([], None, false, None);
    if s.plan == [] {
      return r.(error := Some(NoTransaction));
    }
    var found := Find(s.accounts, s.feeIdx);
    if found.None? {
      return r.(error := Some(FeeAccountNotFunded));
    }
    var outs, feeDest := s.plan[0].outputs, found.value.dest;
    var recipients, report := [], [];
    for i := 0 to |outs|
      invariant recipients == Recipients(outs[..i], feeDest, s.policy) && report == Report(outs[..i])
    {
      assert outs[..i + 1][..i] == outs[..i];
      match outs[i] {
        case Customer(account, address, amount, asset) =>
          recipients := recipients + [TxOut(address, asset, amount)];
          report := report + [(Idx(account), amount)];
        case FeeChange(amount, asset) =>
          if asset != s.policy {
            recipients := recipients + [TxOut(feeDest, asset, amount)];
          }
      }
    }
    assert outs[..|outs|] == outs;
    var inputs, owner := [], map[];
    for i := 0 to |s.accounts|
      invariant inputs == AllCoins(s.accounts[..i]) && owner == AllOwners(s.accounts[..i])
    {
      assert s.accounts[..i + 1][..i] == s.accounts[..i];
      owner, inputs := PushCoins(owner, inputs, s.accounts[i].coins, s.accounts[i].idx);
    }
    assert s.accounts[..|s.accounts|] == s.accounts;
    var built := s.env.build(0, inputs, recipients, feeDest);
    if built.None? {
      return r.(error := Some(BuildFailed));
    }
    if !s.env.finalizes(0) {
      return r.(error := Some(FinalizeFailed));
    }
    if !s.env.accepts(0) {
      return r.(error := Some(BroadcastRejected));
    }
    return r.(log := [Broadcast(built.value.tx, built.value.fee, owner, report, false)]);
  }

  // ---------------------------------------------------------------------------
  // Hypotheses
  // ---------------------------------------------------------------------------

  /** The one-entry plan of the batched form. */
  function Batch(s: Setup): Setup
    requires s.plan != []
  {
    s.(plan := [PlanTx(s.plan[0].outputs, true)])
  }

  /** The planner's side: the plan of one final entry is a good plan, it pays every account but the fee account,
      each at its own address, and no account is listed twice. */
  ghost predicate GoodSingle(s: Setup, l: Ledger) {
    && s.plan != [] && GoodAccounts(Batch(s), l) && GoodPlan(Batch(s))
    && (forall a :: a in s.accounts && a != Fee(Batch(s)) ==> Pays(s.plan[0].outputs, a.idx))
    && ToAccounts(s.accounts, s.plan[0].outputs)
    && (forall i, j :: 0 <= i < j < |s.accounts| ==> s.accounts[i] != s.accounts[j])
  }

  ghost predicate ToAccounts(accounts: seq<Account>, outs: seq<PlanOut>) {
    forall o :: o in outs && o.Customer? ==>
      Find(accounts, Idx(o.account)).Some? && o.address == Find(accounts, Idx(o.account)).value.dest
  }

  // ---------------------------------------------------------------------------
  // The single form gathers what the batched form gathers
  // ---------------------------------------------------------------------------

  lemma {:induction false} SameRecipients(accounts: seq<Account>, outs: seq<PlanOut>, feeDest: Script, policy: Asset)
    requires ToAccounts(accounts, outs)
    ensures Assemble(accounts, outs, feeDest, policy).Some?
    ensures Assemble(accounts, outs, feeDest, policy).value.recipients == Recipients(outs, feeDest, policy)
    ensures Assemble(accounts, outs, feeDest, policy).value.report == Report(outs)
  {
    if outs != [] {
      var init, o := outs[..|outs| - 1], outs[|outs| - 1];
      SameRecipients(accounts, init, feeDest, policy);
      assert o in outs;
    }
  }

  /** All coins, each once: exactly the accounts' coins. */
  lemma {:induction false} AllCoinsFacts(accounts: seq<Account>, l: Ledger)
    requires OwnCoins(accounts) && forall a :: a in accounts ==> Live(l, a.coins)
    requires forall i, j :: 0 <= i < j < |accounts| ==> accounts[i] != accounts[j]
    ensures Distinct(Points(AllCoins(accounts))) && Live(l, AllCoins(accounts))
    ensures forall op :: Holds(AllCoins(accounts), op) <==> exists a :: a in accounts && Holds(a.coins, op)
  {
    hide Holds;
    if accounts == [] {
      assert Points([]) == [];
      NoCoins();
    } else {
      var init, a := accounts[..|accounts| - 1], accounts[|accounts| - 1];
      AllCoinsFacts(init, l);
      assert accounts == init + [a];
      HoldsConcat(AllCoins(init), a.coins);
      DistinctPointsConcat(AllCoins(init), a.coins);
    }
  }

  lemma NoCoins()
    ensures forall op :: !Holds([], op)
  {
  }

  /** The inputs of the single form are those of the batched form, in another order. */
  lemma SameInputs(s: Setup, l: Ledger)
    requires GoodSingle(s, l)
    ensures Gathered(Batch(s), 0).Some?
    ensures multiset(AllCoins(s.accounts))
            == multiset(Gathered(Batch(s), 0).value.coins + FeeShare(SceneOf(Batch(s)), [], 0))
  {
    var b := Batch(s);
    SameRecipients(s.accounts, s.plan[0].outputs, Fee(b).dest, s.policy);
    SceneIsGood(b, l);
    Beginning(SceneOf(b), l);
    NextInputs(b, l, []);
    AllCoinsFacts(s.accounts, l);
    var coins := Gathered(b, 0).value.coins + FeeShare(SceneOf(b), [], 0);
    BatchCoins(s, l);
    hide Progress;
    hide Live;
    SameCoins(l, AllCoins(s.accounts), coins);
  }

  /** What the batched form would spend: every account's coins, all live. */
  lemma BatchCoins(s: Setup, l: Ledger)
    requires GoodSingle(s, l) && Gathered(Batch(s), 0).Some?
    ensures var coins := Gathered(Batch(s), 0).value.coins + FeeShare(SceneOf(Batch(s)), [], 0);
            && Live(l, coins)
            && forall op :: Touched(SceneOf(Batch(s)), [], op) <==> exists a :: a in s.accounts && Holds(a.coins, op)
  {
    hide Pays;
    var b := Batch(s);
    var sc := SceneOf(b);
    var outs := s.plan[0].outputs;
    assert Fee(b).coins[0..] == Fee(b).coins;
    assert FeeShare(sc, [], 0) == Fee(b).coins;
    GatheredAccounts(s.accounts, outs, Fee(b).dest, s.policy);
    GatheredLive(s.accounts, Gathered(b, 0).value.added, l);
    forall op ensures Touched(sc, [], op) <==> exists a :: a in s.accounts && Holds(a.coins, op) {
      if a :| a in s.accounts && Holds(a.coins, op) {
        assert a == Fee(b) || Pays(outs, a.idx);
      }
    }
  }

  lemma {:induction false} GatheredLive(accounts: seq<Account>, added: seq<int>, l: Ledger)
    requires forall a :: a in accounts ==> Live(l, a.coins)
    ensures Live(l, CoinsOf(accounts, added))
  {
    if added != [] {
      GatheredLive(accounts, added[..|added| - 1], l);
    }
  }

  /** What the single transaction was funded with is what the batched one would have been. */
  lemma FundedEither(a: seq<Coin>, b: seq<Coin>, recipients: seq<TxOut>, drain: Script, policy: Asset, built: Built)
    requires multiset(a) == multiset(b)
    ensures Balanced(a, recipients, policy) <==> Balanced(b, recipients, policy)
    ensures Funded(a, recipients, drain, policy, built) <==> Funded(b, recipients, drain, policy, built)
  {
    forall asset ensures Held(a, asset) == Held(b, asset) {
      HeldPermutation(a, b, asset);
    }
    PointsCount(a, b);
    PointsCount(b, a);
    assert multiset(Points(a)) == multiset(Points(b));
  }

  // ---------------------------------------------------------------------------
  // The run
  // ---------------------------------------------------------------------------

  lemma SingleDelivers(s: Setup, l: Ledger)
    requires GoodSingle(s, l) && BuilderContract(s) && Single(s).error.None?
    ensures |Single(s).log| == 1
    ensures Progress(SceneOf(Batch(s)), l, [])
    ensures exists change :: Delivers(SceneOf(Batch(s)), [], Single(s).log[0], change)
  {
    hide Progress;
    hide FeeState;
    hide Delivers;
    hide Funded;
    hide Balanced;
    hide GoodSingle;
    hide GoodAccounts;
    hide GoodPlan;
    hide FeeShare;
    SingleParts(s, l);
    var b := Batch(s);
    var sc := SceneOf(b);
    SceneIsGood(b, l);
    Beginning(sc, l);
    SameInputs(s, l);
    FeeNow(sc, l, []);
    NextBalance(b, l, []);
    SingleBuilt(s, l);
    NextDelivers(b, l, [], SingleBuild(s).value, Single(s).log[0]);
  }

  function SingleBuild(s: Setup): Option<Built>
    requires s.plan != [] && Ready(Batch(s))
  {
    s.env.build(0, AllCoins(s.accounts), Recipients(s.plan[0].outputs, Fee(Batch(s)).dest, s.policy), Fee(Batch(s)).dest)
  }

  /** The single transaction was built as the batched form would have had it built. */
  lemma SingleBuilt(s: Setup, l: Ledger)
    requires GoodSingle(s, l) && BuilderContract(s) && Single(s).error.None? && Gathered(Batch(s), 0).Some?
    requires Balanced(Gathered(Batch(s), 0).value.coins + FeeShare(SceneOf(Batch(s)), [], 0),
                      Gathered(Batch(s), 0).value.recipients, s.policy)
    ensures SingleBuild(s).Some? && |Single(s).log| == 1
    ensures BuiltNext(Batch(s), [], SingleBuild(s).value, Single(s).log[0])
  {
    hide Funded;
    hide Balanced;
    hide GoodAccounts;
    hide GoodPlan;
    hide FeeShare;
    hide Pays;
    SingleParts(s, l);
    var b := Batch(s);
    var drain := Fee(b).dest;
    SameRecipients(s.accounts, s.plan[0].outputs, drain, s.policy);
    SameInputs(s, l);
    SingleShape(s);
    FundedEither(AllCoins(s.accounts), Gathered(b, 0).value.coins + FeeShare(SceneOf(b), [], 0),
                 Recipients(s.plan[0].outputs, drain, s.policy), drain, s.policy, SingleBuild(s).value);
  }

  lemma SingleShape(s: Setup)
    requires s.plan != [] && Ready(Batch(s)) && Single(s).error.None?
    ensures SingleBuild(s).Some? && |Single(s).log| == 1
    ensures Single(s).log[0].tx == SingleBuild(s).value.tx && Single(s).log[0].fee == SingleBuild(s).value.fee
  {
  }

  /** The single transaction spends every account's coins exactly once, gives every customer in every asset what it
      held, and the fee account what it held less the fee. */
  lemma SingleConserves(s: Setup, l: Ledger, asset: Asset)
    requires GoodSingle(s, l) && BuilderContract(s) && Sound(l) && Single(s).error.None?
    ensures var log := Single(s).log;
            && |log| == 1 && ValidLog(l, Txs(log)) && Distinct(log[0].tx.inputs)
            && (forall op :: op in log[0].tx.inputs <==> exists a :: a in s.accounts && Holds(a.coins, op))
            && (forall a :: a in s.accounts && a != Fee(Batch(s)) ==> Received(log, a.dest, asset) == Held(a.coins, asset))
            && Received(log, Fee(Batch(s)).dest, asset)
               == Held(Fee(Batch(s)).coins, asset) - (if asset == s.policy then log[0].fee else 0)
  {
    hide Progress;
    hide Single;
    hide GoodSingle;
    hide GoodScene;
    hide GoodLegs;
    hide BuilderContract;
    hide Touched;
    SingleProgress(s, l);
    var sc := SceneOf(Batch(s));
    SceneIsGood(Batch(s), l);
    CompleteLogConserves(sc, l, Single(s).log, asset);
    BatchCoins(s, l);
    FeesOfOne(Single(s).log);
    AllPaid(s, l);
  }

  lemma SingleProgress(s: Setup, l: Ledger)
    requires GoodSingle(s, l) && BuilderContract(s) && Sound(l) && Single(s).error.None?
    ensures s.plan != [] && Ready(Batch(s)) && GoodAccounts(Batch(s), l) && GoodPlan(Batch(s))
    ensures Gathered(Batch(s), 0).Some?
    ensures var log := Single(s).log;
            && |log| == 1 && Progress(SceneOf(Batch(s)), l, log)
            && ValidLog(l, Txs(log)) && Distinct(log[0].tx.inputs)
            && forall op :: op in log[0].tx.inputs <==> Touched(SceneOf(Batch(s)), [], op)
  {
    hide Single;
    hide Touched;
    hide BuilderContract;
    hide GoodSingle;
    hide Delivers;
    hide Progress;
    hide GoodAccounts;
    hide GoodPlan;
    hide GoodScene;
    hide GoodLegs;
    SingleParts(s, l);
    SingleDelivers(s, l);
    SameInputs(s, l);
    SceneIsGood(Batch(s), l);
    OneMore(SceneOf(Batch(s)), l, Single(s).log);
  }

  lemma SingleParts(s: Setup, l: Ledger)
    requires GoodSingle(s, l)
    ensures s.plan != [] && Ready(Batch(s)) && GoodAccounts(Batch(s), l) && GoodPlan(Batch(s))
  {
  }

  lemma OneMore(sc: Scene, l: Ledger, log: seq<Broadcast>)
    requires GoodScene(sc, l) && GoodLegs(sc) && Sound(l) && Progress(sc, l, []) && |sc.legs| > 0 && |log| == 1
    requires exists change :: Delivers(sc, [], log[0], change)
    ensures Progress(sc, l, log) && ValidLog(l, Txs(log))
    ensures Distinct(log[0].tx.inputs) && forall op :: op in log[0].tx.inputs <==> Touched(sc, [], op)
  {
    hide Progress;
    hide GoodScene;
    hide GoodLegs;
    hide Touched;
    var change :| Delivers(sc, [], log[0], change);
    assert [] + [log[0]] == log;
    NextProgress(sc, l, [], log[0], change);
    OneIsValid(sc, l, log);
  }

  lemma OneIsValid(sc: Scene, l: Ledger, log: seq<Broadcast>)
    requires Progress(sc, l, log)
    ensures ValidLog(l, Txs(log))
  {
  }

  lemma FeesOfOne(log: seq<Broadcast>)
    requires |log| == 1
    ensures FeesPaid(log) == log[0].fee
  {
    assert FeesPaid(log[..0]) == 0;
  }

  lemma AllPaid(s: Setup, l: Ledger)
    requires GoodSingle(s, l)
    ensures forall a :: a in s.accounts && a != Fee(Batch(s)) ==> PaidBefore(SceneOf(Batch(s)), 1, a.idx)
  {
    hide Pays;
    forall a | a in s.accounts && a != Fee(Batch(s)) ensures PaidBefore(SceneOf(Batch(s)), 1, a.idx) {
      assert Pays(SceneOf(Batch(s)).legs[0].outputs, a.idx);
    }
  }
}
