/** When the Elements executor broadcasts a plan entry, what stops it, and when a whole run finishes, in terms of the
    calls it makes: to the builder, the finalizer, the node and the unblinder. */
module ElementsFinish {
  import opened Wrappers
  import opened Ledger
  import opened SweepPlan
  import opened ChainedSweep
  import opened ElementsMigration
  import opened ElementsRuns

  ghost predicate Known(accounts: seq<Account>, idx: int) {
    exists a :: a in accounts && a.idx == idx
  }

  /** Every customer a plan entry pays is a funded account. */
  ghost predicate AllFunded(accounts: seq<Account>, outs: seq<PlanOut>) {
    forall o :: o in outs && o.Customer? ==> Known(accounts, Idx(o.account))
  }

  lemma FoundIff(accounts: seq<Account>, idx: int)
    ensures Find(accounts, idx).Some? <==> Known(accounts, idx)
  {
  }

  lemma AllFundedSnoc(accounts: seq<Account>, outs: seq<PlanOut>)
    requires outs != []
    ensures var o := outs[|outs| - 1];
            AllFunded(accounts, outs) <==> AllFunded(accounts, outs[..|outs| - 1]) && (o.Customer? ==> Known(accounts, Idx(o.account)))
  {
    hide Known;
    assert forall p :: p in outs <==> p in outs[..|outs| - 1] || p == outs[|outs| - 1];
  }

  lemma {:induction false} GatheredIff(accounts: seq<Account>, outs: seq<PlanOut>, feeDest: Script, policy: Asset)
    ensures Assemble(accounts, outs, feeDest, policy).Some? <==> AllFunded(accounts, outs)
  {
    if outs != [] {
      hide AllFunded;
      var o := outs[|outs| - 1];
      AllFundedSnoc(accounts, outs);
      GatheredIff(accounts, outs[..|outs| - 1], feeDest, policy);
      if o.Customer? {
        FoundIff(accounts, Idx(o.account));
      }
      hide Known;
    }
  }

  // ---------------------------------------------------------------------------
  // One entry
  // ---------------------------------------------------------------------------

  /** The entry has something to spend, and the builder makes a transaction of it. */
  ghost predicate Buildable(s: Setup, r: Run, k: nat)
    requires Ready(s) && k < |s.plan|
  {
    Gathered(s, k).Some? && NextCoins(s, r, k) != [] && NextBuilt(s, r, k).Some?
  }

  /** Every call up to and including the broadcast succeeds. */
  ghost predicate Goes(s: Setup, r: Run, k: nat)
    requires Ready(s) && k < |s.plan|
  {
    Buildable(s, r, k) && s.env.finalizes(k) && s.env.accepts(k)
  }

  /** The first thing that goes wrong with an entry, if any. */
  ghost predicate StopsWith(s: Setup, r: Run, k: nat, e: Error)
    requires Ready(s) && k < |s.plan|
  {
    match e
    case MissingAccount => !AllFunded(s.accounts, s.plan[k].outputs)
    case BuildFailed => Gathered(s, k).Some? && NextCoins(s, r, k) != [] && NextBuilt(s, r, k).None?
    case FinalizeFailed => Buildable(s, r, k) && !s.env.finalizes(k)
    case BroadcastRejected => Buildable(s, r, k) && s.env.finalizes(k) && !s.env.accepts(k)
    case ChangeNotFound =>
      Goes(s, r, k) && !s.plan[k].isFeeFinal && ChangeCoin(s.feeOld, NextBuilt(s, r, k).value.tx).None?
    case CaptureFailed =>
      Goes(s, r, k) && !s.plan[k].isFeeFinal && ChangeCoin(s.feeOld, NextBuilt(s, r, k).value.tx).Some? && !s.env.unblinds(k)
    case _ => false
  }

  /** While a run has no error, its log grows by the built transaction at an entry if and only if every customer is
      funded, there is something to spend, the builder builds, the transaction finalizes and the node accepts it;
      otherwise the log stays as it was. */
  lemma BroadcastIff(s: Setup, k: nat)
    requires Ready(s) && k < |s.plan| && RunTo(s, k).error.None?
    ensures var r, r' := RunTo(s, k), RunTo(s, k + 1);
            && (|r'.log| == |r.log| + 1 <==>
                  && Gathered(s, k).Some? && NextCoins(s, r, k) != [] && NextBuilt(s, r, k).Some?
                  && s.env.finalizes(k) && s.env.accepts(k))
            && (Gathered(s, k).Some? <==> AllFunded(s.accounts, s.plan[k].outputs))
            && (|r'.log| == |r.log| + 1 ==>
                  && r'.log[..|r.log|] == r.log
                  && r'.log[|r.log|].tx == NextBuilt(s, r, k).value.tx && r'.log[|r.log|].fee == NextBuilt(s, r, k).value.fee
                  && r'.log[|r.log|].isFeeFinal == s.plan[k].isFeeFinal)
            && (|r'.log| != |r.log| + 1 ==> r'.log == r.log)
  {
    hide AllFunded;
    hide FeeInputs;
    hide Owned;
    hide ChangeCoin;
    GatheredIff(s.accounts, s.plan[k].outputs, FeeDest(s, s.plan[k]), s.policy);
  }

  /** An entry that is not broadcast stops the run, unless it had nothing to spend; so does a change that cannot be
      found or unblinded.  The error names the first thing that went wrong. */
  lemma StepStopsIff(s: Setup, k: nat, e: Error)
    requires Ready(s) && k < |s.plan| && RunTo(s, k).error.None?
    ensures RunTo(s, k + 1).error == Some(e) <==> StopsWith(s, RunTo(s, k), k, e)
  {
    GatheredIs(s, k);
    StepErrors(s, RunTo(s, k), k, e);
  }

  lemma GatheredIs(s: Setup, k: nat)
    requires Ready(s) && k < |s.plan|
    ensures Gathered(s, k).Some? <==> AllFunded(s.accounts, s.plan[k].outputs)
  {
    GatheredIff(s.accounts, s.plan[k].outputs, FeeDest(s, s.plan[k]), s.policy);
  }

  lemma StepErrors(s: Setup, r: Run, k: nat, e: Error)
    requires Ready(s) && k < |s.plan| && r.error.None?
    requires Gathered(s, k).Some? <==> AllFunded(s.accounts, s.plan[k].outputs)
    ensures Step(s, r, k).error == Some(e) <==> StopsWith(s, r, k, e)
  {
    hide AllFunded;
    hide Assemble;
    hide FeeInputs;
    hide Owned;
    hide ChangeCoin;
  }

  // ---------------------------------------------------------------------------
  // Whole runs
  // ---------------------------------------------------------------------------

  /** Entry `k` is reached without an error and is where the run stops. */
  ghost predicate StopsAt(s: Setup, k: nat, e: Error)
    requires Ready(s)
  {
    k < |s.plan| && RunTo(s, k).error.None? && StopsWith(s, RunTo(s, k), k, e)
  }

  lemma {:induction false} FirstStop(s: Setup, n: nat, e: Error)
    requires Ready(s) && n <= |s.plan|
    ensures RunTo(s, n).error == Some(e) <==> exists k: nat :: k < n && StopsAt(s, k, e)
    ensures forall k: nat :: k < n && StopsAt(s, k, e) ==> RunTo(s, n) == RunTo(s, k + 1)
  {
    hide StopsWith;
    hide Step;
    if n > 0 {
      FirstStop(s, n - 1, e);
      if RunTo(s, n - 1).error.None? {
        StepStopsIff(s, n - 1, e);
        assert StopsAt(s, n - 1, e) <==> RunTo(s, n).error == Some(e);
      } else {
        ErrorStops(s, n - 1, n);
      }
      forall k: nat | k < n && StopsAt(s, k, e) ensures RunTo(s, n) == RunTo(s, k + 1) {
        StepStopsIff(s, k, e);
        ErrorStops(s, k + 1, n);
      }
    }
  }

  /** How any run ends: with an error exactly when the fee account is unknown or has no coins, or some entry is reached
      and cannot be carried through; then nothing after that entry is broadcast. */
  lemma StoppedIff(s: Setup, e: Error)
    ensures Execute(s).error == Some(e) <==>
      || (e == FeeAccountNotFunded && forall a :: a in s.accounts ==> a.idx != s.feeIdx)
      || (e == NoFeeUtxos && Find(s.accounts, s.feeIdx).Some? && Find(s.accounts, s.feeIdx).value.coins == [])
      || (Ready(s) && exists k: nat :: StopsAt(s, k, e))
    ensures !Ready(s) ==> Execute(s).log == []
    ensures Ready(s) ==> forall k: nat :: StopsAt(s, k, e) ==> Execute(s).log == RunTo(s, k + 1).log
  {
    hide StopsWith;
    hide RunTo;
    if Ready(s) {
      ExecuteIsRunTo(s);
      FirstStop(s, |s.plan|, e);
    }
  }

  /** A call at entry `k` that makes the run of a good plan go on. */
  ghost predicate CallsSucceed(s: Setup, r: Run, k: nat)
    requires Ready(s) && k < |s.plan|
  {
    && AllFunded(s.accounts, s.plan[k].outputs)
    && Gathered(s, k).Some? && NextBuilt(s, r, k).Some?
    && s.env.finalizes(k) && s.env.accepts(k)
    && (k < |s.plan| - 1 ==> s.env.unblinds(k))
  }

  lemma GoesOn(s: Setup, l: Ledger, k: nat)
    requires Ready(s) && GoodAccounts(s, l) && GoodPlan(s) && Sound(l) && BuilderContract(s) && k < |s.plan| && RunTo(s, k).error.None?
    ensures RunTo(s, k + 1).error.None? <==> CallsSucceed(s, RunTo(s, k), k)
  {
    hide *;
    FinalIsLast(s, l, k);
    SomethingToSpend(s, l, k);
    ChangeIsThere(s, l, k);
    NothingStops(s, RunTo(s, k), k);
    NoErrorIff(s, k);
  }

  lemma SomethingToSpend(s: Setup, l: Ledger, k: nat)
    requires Ready(s) && GoodAccounts(s, l) && GoodPlan(s) && Sound(l) && BuilderContract(s) && k < |s.plan| && RunTo(s, k).error.None?
    ensures Gathered(s, k).Some? ==> NextCoins(s, RunTo(s, k), k) != []
  {
    hide RunTo;
    hide BuilderContract;
    hide Progress;
    hide FeeShare;
    hide FeeInputs;
    hide GoodAccounts;
    hide GoodPlan;
    hide Touched;
    hide Points;
    RunProgress(s, l, k);
    NextShare(s, l, RunTo(s, k), k);
    if Gathered(s, k).Some? {
      NextInputs(s, l, RunTo(s, k).log);
    }
  }

  /** The change of an intermediate transaction is always found. */
  lemma ChangeIsThere(s: Setup, l: Ledger, k: nat)
    requires Ready(s) && GoodAccounts(s, l) && GoodPlan(s) && Sound(l) && BuilderContract(s) && k < |s.plan| && RunTo(s, k).error.None?
    ensures Gathered(s, k).Some? && NextBuilt(s, RunTo(s, k), k).Some? && k < |s.plan| - 1 ==>
      ChangeCoin(s.feeOld, NextBuilt(s, RunTo(s, k), k).value.tx).Some?
  {
    hide RunTo;
    hide BuilderContract;
    hide Progress;
    hide FeeShare;
    hide FeeInputs;
    hide GoodAccounts;
    hide GoodPlan;
    hide Funded;
    hide NextBuilt;
    hide ChangeCoin;
    var r := RunTo(s, k);
    RunProgress(s, l, k);
    NextShare(s, l, r, k);
    FinalIsLast(s, l, k);
    if Gathered(s, k).Some? && NextBuilt(s, r, k).Some? && k < |s.plan| - 1 {
      NextFunded(s, l, r, k);
      IntermediateFee(s, l, k, NextCoins(s, r, k), NextBuilt(s, r, k).value, s.policy);
    }
  }

  lemma NothingStops(s: Setup, r: Run, k: nat)
    requires Ready(s) && k < |s.plan| && (s.plan[k].isFeeFinal <==> k == |s.plan| - 1)
    requires Gathered(s, k).Some? ==> NextCoins(s, r, k) != []
    requires Gathered(s, k).Some? && NextBuilt(s, r, k).Some? && k < |s.plan| - 1 ==>
      ChangeCoin(s.feeOld, NextBuilt(s, r, k).value.tx).Some?
    ensures CallsSucceed(s, r, k) <==> forall e :: !StopsWith(s, r, k, e)
  {
    hide Gathered;
    hide NextCoins;
    hide NextBuilt;
    hide ChangeCoin;
    hide AllFunded;
    GatheredIs(s, k);
    if forall e :: !StopsWith(s, r, k, e) {
      assert !StopsWith(s, r, k, MissingAccount) && !StopsWith(s, r, k, BuildFailed);
      assert !StopsWith(s, r, k, FinalizeFailed) && !StopsWith(s, r, k, BroadcastRejected);
      assert !StopsWith(s, r, k, CaptureFailed);
    }
  }

  lemma NoErrorIff(s: Setup, k: nat)
    requires Ready(s) && k < |s.plan| && RunTo(s, k).error.None?
    ensures RunTo(s, k + 1).error.None? <==> forall e :: !StopsWith(s, RunTo(s, k), k, e)
  {
    hide StopsWith;
    hide Step;
    forall e ensures RunTo(s, k + 1).error == Some(e) <==> StopsWith(s, RunTo(s, k), k, e) {
      StepStopsIff(s, k, e);
    }
    if RunTo(s, k + 1).error.Some? {
      assert StopsWith(s, RunTo(s, k), k, RunTo(s, k + 1).error.value);
    }
  }

  /** A run of a good plan gets to entry `n` without an error if and only if every call before it succeeds. */
  lemma {:induction false} ReachesIff(s: Setup, l: Ledger, n: nat)
    requires Ready(s) && GoodAccounts(s, l) && GoodPlan(s) && Sound(l) && BuilderContract(s) && n <= |s.plan|
    ensures RunTo(s, n).error.None? <==> forall k: nat :: k < n ==> CallsSucceed(s, RunTo(s, k), k)
  {
    hide Step;
    hide CallsSucceed;
    hide BuilderContract;
    hide GoodAccounts;
    hide GoodPlan;
    if n > 0 {
      ReachesIff(s, l, n - 1);
      if RunTo(s, n - 1).error.None? {
        GoesOn(s, l, n - 1);
      } else {
        ErrorStops(s, n - 1, n);
      }
    }
  }

  /** A run of a good plan finishes, with every entry broadcast, if and only if every customer is funded, every build,
      finalization and broadcast succeeds, and every change but the last is unblinded. */
  lemma FinishesIff(s: Setup, l: Ledger)
    requires Ready(s) && GoodAccounts(s, l) && GoodPlan(s) && Sound(l) && BuilderContract(s)
    ensures Execute(s).error.None? <==> forall k: nat :: k < |s.plan| ==> CallsSucceed(s, RunTo(s, k), k)
    ensures Execute(s).error.None? ==> |Execute(s).log| == |s.plan|
  {
    hide CallsSucceed;
    ExecuteIsRunTo(s);
    ReachesIff(s, l, |s.plan|);
    RunProgress(s, l, |s.plan|);
  }
}
