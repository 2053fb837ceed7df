/** When the Bitcoin executor broadcasts a plan entry, what stops it, and when a whole run finishes, in terms of the
    calls it makes: to the wallets, the builder, the signers, the finalizer, the node, and to rebuild a change. */
module BitcoinFinish {
  import opened Wrappers
  import opened Ledger
  import opened SweepPlan
  import opened ChainedSweep
  import opened BitcoinMigration
  import opened BitcoinRuns

  /** Every real source with an owner is described by its owner's wallet. */
  ghost predicate Described(owners: map<OutPoint, int>, input: (int, OutPoint) -> Option<TxOut>, sources: seq<OutPoint>) {
    forall op :: op in sources && op.txid != ZERO_TXID && op in owners ==> input(owners[op], op).Some?
  }

  lemma {:induction false} ResolvesIff(owners: map<OutPoint, int>, input: (int, OutPoint) -> Option<TxOut>, sources: seq<OutPoint>)
    ensures Resolve(owners, input, sources).Some? <==> Described(owners, input, sources)
  {
    if sources != [] {
      ResolvesIff(owners, input, sources[..|sources| - 1]);
      assert forall op :: op in sources <==> op in sources[..|sources| - 1] || op == sources[|sources| - 1];
    }
  }

  // ---------------------------------------------------------------------------
  // One entry
  // ---------------------------------------------------------------------------

  /** A placeholder, if the entry has one, has a kept change to stand for, and the builder makes a transaction. */
  ghost predicate Buildable(s: Setup, r: Run, k: nat)
    requires k < |s.plan|
  {
    && (HasPlaceholder(s.plan[k].sources) ==> r.feeChange.Some?)
    && Resolved(s, k).Some? && NextBuilt(s, r, k).Some?
  }

  /** The first thing that goes wrong with an entry, if any. */
  ghost predicate StopsWith(s: Setup, r: Run, k: nat, e: Error)
    requires k < |s.plan|
  {
    var noChange := HasPlaceholder(s.plan[k].sources) && r.feeChange.None?;
    match e
    case NoChainedChange => noChange
    case InputNotFound => !noChange && !Described(Owners(s.accounts, s.wallets), s.env.input, s.plan[k].sources)
    case BuildFailed => !noChange && Resolved(s, k).Some? && NextBuilt(s, r, k).None?
    case SigningFailed => Buildable(s, r, k) && !s.env.signs(k)
    case FinalizeFailed => Buildable(s, r, k) && s.env.signs(k) && !s.env.finalizes(k)
    case BroadcastRejected => Buildable(s, r, k) && s.env.signs(k) && s.env.finalizes(k) && !s.env.accepts(k)
  }

  lemma ResolvedIs(s: Setup, k: nat)
    requires k < |s.plan|
    ensures Resolved(s, k).Some? <==> Described(Owners(s.accounts, s.wallets), s.env.input, s.plan[k].sources)
  {
    ResolvesIff(Owners(s.accounts, s.wallets), s.env.input, s.plan[k].sources);
  }

  /** While a run has no error, its log grows by the built transaction at an entry if and only if a placeholder has a kept
      change, every owned source is described, the builder builds, all signers sign, the transaction finalizes and the
      node accepts it; otherwise the run stops there with the log as it was. */
  lemma BroadcastIff(s: Setup, k: nat)
    requires k < |s.plan| && RunTo(s, k).error.None?
    ensures var r, r' := RunTo(s, k), RunTo(s, k + 1);
            && (|r'.log| == |r.log| + 1 <==>
                  && (HasPlaceholder(s.plan[k].sources) ==> r.feeChange.Some?)
                  && Resolved(s, k).Some? && NextBuilt(s, r, k).Some?
                  && s.env.signs(k) && s.env.finalizes(k) && s.env.accepts(k))
            && (Resolved(s, k).Some? <==> Described(Owners(s.accounts, s.wallets), s.env.input, s.plan[k].sources))
            && (|r'.log| == |r.log| + 1 ==>
                  && r'.error.None? && r'.log[..|r.log|] == r.log
                  && r'.log[|r.log|].tx == NextBuilt(s, r, k).value.tx && r'.log[|r.log|].fee == NextBuilt(s, r, k).value.fee
                  && r'.log[|r.log|].isFeeFinal == s.plan[k].isFeeFinal)
            && (|r'.log| != |r.log| + 1 ==> r'.error.Some? && r'.log == r.log && RunTo(s, |s.plan|) == r')
  {
    hide Described;
    hide Step;
    hide NextBuilt;
    hide Resolved;
    hide HasPlaceholder;
    ResolvedIs(s, k);
    StepBroadcasts(s, RunTo(s, k), k);
    if RunTo(s, k + 1).error.Some? {
      ErrorStops(s, k + 1, |s.plan|);
    }
  }

  /** The entry goes through up to the broadcast. */
  ghost predicate Goes(s: Setup, r: Run, k: nat)
    requires k < |s.plan|
  {
    Buildable(s, r, k) && s.env.signs(k) && s.env.finalizes(k) && s.env.accepts(k)
  }

  lemma StepBroadcasts(s: Setup, r: Run, k: nat)
    requires k < |s.plan| && r.error.None?
    ensures !Goes(s, r, k) ==> Step(s, r, k).error.Some? && Step(s, r, k).log == r.log
    ensures Goes(s, r, k) ==>
      var r', b := Step(s, r, k), NextBuilt(s, r, k).value;
      && r'.error.None? && |r'.log| == |r.log| + 1 && r'.log[..|r.log|] == r.log
      && r'.log[|r.log|].tx == b.tx && r'.log[|r.log|].fee == b.fee
      && r'.log[|r.log|].isFeeFinal == s.plan[k].isFeeFinal
  {
    hide Resolve;
    hide Recipients;
    hide Report;
    hide Drain;
    hide Owners;
    hide SigningWallet;
    hide ChangeCoin;
    hide HasPlaceholder;
  }

  /** The error names the first thing that went wrong. */
  lemma StepStopsIff(s: Setup, k: nat, e: Error)
    requires k < |s.plan| && RunTo(s, k).error.None?
    ensures RunTo(s, k + 1).error == Some(e) <==> StopsWith(s, RunTo(s, k), k, e)
  {
    ResolvedIs(s, k);
    StepErrors(s, RunTo(s, k), k, e);
  }

  lemma StepErrors(s: Setup, r: Run, k: nat, e: Error)
    requires k < |s.plan| && r.error.None?
    requires Resolved(s, k).Some? <==> Described(Owners(s.accounts, s.wallets), s.env.input, s.plan[k].sources)
    ensures Step(s, r, k).error == Some(e) <==> StopsWith(s, r, k, e)
  {
    hide Described;
    hide Resolve;
    hide Recipients;
    hide Report;
    hide Drain;
    hide SigningWallet;
    hide ChangeCoin;
    hide HasPlaceholder;
  }

  // ---------------------------------------------------------------------------
  // Whole runs
  // ---------------------------------------------------------------------------

  /** Entry `k` is reached without an error and is where the run stops. */
  ghost predicate StopsAt(s: Setup, k: nat, e: Error) {
    k < |s.plan| && RunTo(s, k).error.None? && StopsWith(s, RunTo(s, k), k, e)
  }

  /** How any run ends: with an error exactly when some entry is reached and cannot be carried through; then nothing
      from that entry on is broadcast. */
  lemma {:induction false} StoppedIff(s: Setup, n: nat, e: Error)
    requires n <= |s.plan|
    ensures RunTo(s, n).error == Some(e) <==> exists k: nat :: k < n && StopsAt(s, k, e)
    ensures forall k: nat :: k < n && StopsAt(s, k, e) ==> RunTo(s, n).log == RunTo(s, k).log
  {
    hide StopsWith;
    hide Step;
    if n > 0 {
      StoppedIff(s, n - 1, e);
      if RunTo(s, n - 1).error.None? {
        StepStopsIff(s, n - 1, e);
        assert StopsAt(s, n - 1, e) <==> RunTo(s, n).error == Some(e);
      } else {
        ErrorStops(s, n - 1, n);
      }
      forall k: nat | k < n && StopsAt(s, k, e) ensures RunTo(s, n).log == RunTo(s, k).log {
        StepStopsIff(s, k, e);
        BroadcastIff(s, k);
        ErrorStops(s, k + 1, n);
      }
    }
  }

  /** The calls that take the run of a good plan past entry `k`: those of the entry, and rebuilding the change of the
      broadcast before it. */
  ghost predicate CallsSucceed(s: Setup, r: Run, k: nat)
    requires k < |s.plan|
  {
    && Described(Owners(s.accounts, s.wallets), s.env.input, s.plan[k].sources)
    && Resolved(s, k).Some? && NextBuilt(s, r, k).Some?
    && s.env.signs(k) && s.env.finalizes(k) && s.env.accepts(k)
    && (k > 0 ==> s.env.rebuilds(k - 1))
  }

  /** In a good plan an entry after the first finds its change kept exactly when it could be rebuilt. */
  lemma ChangeKeptIff(s: Setup, l: Ledger, k: nat)
    requires GoodAccounts(s, l) && GoodPlan(s) && TrueInputs(s, l) && BuilderContract(s) && Sound(l)
    requires 0 < k < |s.plan| && RunTo(s, k).error.None?
    ensures HasPlaceholder(s.plan[k].sources) && (RunTo(s, k).feeChange.Some? <==> s.env.rebuilds(k - 1))
  {
    hide Step;
    hide RunTo;
    hide ChangeCoin;
    hide HasPlaceholder;
    hide GoodSources;
    hide GoodOutputs;
    hide GoodAccounts;
    hide BuilderContract;
    hide TrueInputs;
    RunProgress(s, l, k);
    FinalIsLast(s, l, k);
    FinalIsLast(s, l, k - 1);
    NeverStale(s, k);
    FeeChangeOrigin(s, k - 1);
    EntryIsFinal(s, k);
    ChangeOfLast(s, l, RunTo(s, k).log);
  }

  lemma EntryIsFinal(s: Setup, k: nat)
    requires 0 < k <= |s.plan| && RunTo(s, k).error.None?
    ensures |RunTo(s, k).log| == k && RunTo(s, k).log[k - 1].isFeeFinal == s.plan[k - 1].isFeeFinal
  {
    hide Step;
    FeeChangeOrigin(s, k - 1);
    StepEffect(s, RunTo(s, k - 1), k - 1);
  }

  lemma ChangeOfLast(s: Setup, l: Ledger, log: seq<Broadcast>)
    requires 0 < |log| < |s.plan| && Progress(SceneOf(s), l, log)
    ensures ChangeCoin(s.feeOld, log[|log| - 1].tx).Some?
  {
  }

  lemma GoesOn(s: Setup, l: Ledger, k: nat)
    requires GoodAccounts(s, l) && GoodPlan(s) && TrueInputs(s, l) && BuilderContract(s) && Sound(l)
    requires k < |s.plan| && RunTo(s, k).error.None?
    ensures RunTo(s, k + 1).error.None? <==> CallsSucceed(s, RunTo(s, k), k)
  {
    hide RunTo;
    hide Described;
    hide HasPlaceholder;
    hide GoodAccounts;
    hide GoodPlan;
    hide BuilderContract;
    hide TrueInputs;
    hide NextBuilt;
    hide Resolved;
    BroadcastIff(s, k);
    FinalIsLast(s, l, k);
    if k > 0 {
      ChangeKeptIff(s, l, k);
    }
  }

  /** A run of a good plan gets to entry `n` without an error if and only if every call before it succeeds. */
  lemma {:induction false} ReachesIff(s: Setup, l: Ledger, n: nat)
    requires GoodAccounts(s, l) && GoodPlan(s) && TrueInputs(s, l) && BuilderContract(s) && Sound(l) && n <= |s.plan|
    ensures RunTo(s, n).error.None? <==> forall k: nat :: k < n ==> CallsSucceed(s, RunTo(s, k), k)
  {
    hide Step;
    hide CallsSucceed;
    hide GoodAccounts;
    hide GoodPlan;
    hide BuilderContract;
    hide TrueInputs;
    if n > 0 {
      ReachesIff(s, l, n - 1);
      if RunTo(s, n - 1).error.None? {
        GoesOn(s, l, n - 1);
      } else {
        ErrorStops(s, n - 1, n);
      }
    }
  }

  /** A run of a good plan finishes, with every entry broadcast, if and only if every source is described, every build,
      signature, finalization and broadcast succeeds, and every change but the last is rebuilt. */
  lemma FinishesIff(s: Setup, l: Ledger)
    requires GoodAccounts(s, l) && GoodPlan(s) && TrueInputs(s, l) && BuilderContract(s) && Sound(l)
    ensures RunTo(s, |s.plan|).error.None? <==> forall k: nat :: k < |s.plan| ==> CallsSucceed(s, RunTo(s, k), k)
    ensures RunTo(s, |s.plan|).error.None? ==> |RunTo(s, |s.plan|).log| == |s.plan|
  {
    hide CallsSucceed;
    hide RunTo;
    ReachesIff(s, l, |s.plan|);
    RunProgress(s, l, |s.plan|);
  }
}
