/** What the executor records beside the ledger: who owns each input it asks to be signed, and which broadcast
    carried each account across, the txid the completion stamp writes on the account's version rows. */
module ElementsEnact {
  import opened Wrappers
  import opened Ledger
  import opened SweepPlan
  import opened ChainedSweep
  import opened ElementsMigration
  import opened ElementsRuns
  import opened SweepTxids
  import FederationVersions
  import MigrationStatus
  import ScopedSigning

  // ---------------------------------------------------------------------------
  // Owners and reports of one plan entry
  // ---------------------------------------------------------------------------

  /** The report of a plan entry names exactly the customers it pays. */
  lemma {:induction false} ReportIsPaid(accounts: seq<Account>, outs: seq<PlanOut>, feeDest: Script, policy: Asset, idx: int)
    requires Assemble(accounts, outs, feeDest, policy).Some?
    ensures Reports(Assemble(accounts, outs, feeDest, policy).value.report, idx) <==> Pays(outs, idx)
  {
    hide Reports;
    hide Pays;
    if outs == [] {
      ReportsNobody(idx);
      PaysNobody();
    } else {
      var init, o := outs[..|outs| - 1], outs[|outs| - 1];
      ReportIsPaid(accounts, init, feeDest, policy, idx);
      PaysSnoc(outs, idx);
      if o.Customer? {
        ReportsSnoc(Assemble(accounts, init, feeDest, policy).value.report, (Idx(o.account), o.amount), idx);
      }
    }
  }

  /** The amounts reported for a customer are those planned for it. */
  lemma {:induction false} ReportAmounts(accounts: seq<Account>, outs: seq<PlanOut>, feeDest: Script, policy: Asset, idx: int)
    requires Assemble(accounts, outs, feeDest, policy).Some?
    ensures ReportedAmount(Assemble(accounts, outs, feeDest, policy).value.report, idx) == PlannedAmount(outs, idx)
  {
    if outs != [] {
      var init, o := outs[..|outs| - 1], outs[|outs| - 1];
      ReportAmounts(accounts, init, feeDest, policy, idx);
      if o.Customer? {
        ReportedSnoc(Assemble(accounts, init, feeDest, policy).value.report, (Idx(o.account), o.amount), idx);
      }
    }
  }

  /** The owner recorded for a gathered coin is the account that holds it, and only gathered coins have one. */
  lemma {:induction false} GatheredOwner(accounts: seq<Account>, outs: seq<PlanOut>, feeDest: Script, policy: Asset, op: OutPoint)
    requires Assemble(accounts, outs, feeDest, policy).Some? && OwnCoins(accounts)
    ensures var a := Assemble(accounts, outs, feeDest, policy).value;
            && (op in a.owner <==> Holds(a.coins, op))
            && (forall b :: b in accounts && Holds(b.coins, op) && op in a.owner ==> a.owner[op] == b.idx)
  {
    hide Holds;
    if outs == [] {
      HoldsNothing(op);
    } else {
      var init, o := outs[..|outs| - 1], outs[|outs| - 1];
      GatheredOwner(accounts, init, feeDest, policy, op);
      var a0 := Assemble(accounts, init, feeDest, policy).value;
      if o.Customer? && Idx(o.account) !in a0.added {
        var acct := Find(accounts, Idx(o.account)).value;
        OwnedAt(a0.owner, acct.coins, acct.idx, op);
        HoldsConcat(a0.coins, acct.coins);
        assert forall b :: b in accounts && Holds(b.coins, op) && Holds(acct.coins, op) ==> b == acct;
      }
    }
  }

  lemma HoldsNothing(op: OutPoint)
    ensures !Holds([], op)
  {
  }

  // ---------------------------------------------------------------------------
  // Every broadcast of a run
  // ---------------------------------------------------------------------------

  /** Broadcast `j` carries the report and the owners gathered for plan entry `j`. */
  ghost predicate Annotated(s: Setup, log: seq<Broadcast>, j: nat)
    requires Ready(s) && j < |log| && j < |s.plan|
  {
    && Gathered(s, j).Some?
    && log[j].report == Gathered(s, j).value.report
    && log[j].owner == Owned(Gathered(s, j).value.owner, FeeShare(SceneOf(s), log, j), s.feeIdx)
  }

  lemma StepAnnotates(s: Setup, r: Run, k: nat)
    requires Ready(s) && k < |s.plan| && k == |r.log| && r.error.None?
    ensures Step(s, r, k).log == r.log || AnnotatedStep(s, r, k, Step(s, r, k).log)
  {
    hide FeeInputs;
    hide Owned;
    hide ChangeCoin;
  }

  ghost predicate AnnotatedStep(s: Setup, r: Run, k: nat, log: seq<Broadcast>)
    requires Ready(s) && k < |s.plan|
  {
    && |log| == |r.log| + 1 && log[..|r.log|] == r.log
    && Gathered(s, k).Some?
    && log[|r.log|].report == Gathered(s, k).value.report
    && log[|r.log|].owner
       == Owned(Gathered(s, k).value.owner, FeeInputs(s, s.plan[k], r.chained, r.feeSeedUsed), s.feeIdx)
  }

  lemma AnnotationsGrow(s: Setup, r: Run, k: nat, log: seq<Broadcast>)
    requires Ready(s) && k < |s.plan| && k == |r.log| && AnnotatedStep(s, r, k, log)
    requires FeeInputs(s, s.plan[k], r.chained, r.feeSeedUsed) == FeeShare(SceneOf(s), r.log, k)
    requires forall j :: 0 <= j < k ==> Annotated(s, r.log, j)
    ensures |log| == k + 1 && forall j :: 0 <= j < |log| ==> Annotated(s, log, j)
  {
    hide Gathered;
    hide FeeInputs;
    hide FeeShare;
    forall j | 0 <= j < |log| ensures Annotated(s, log, j) {
      ShareOfPrefix(SceneOf(s), log, k, j);
      assert j < k ==> log[j] == r.log[j] && Annotated(s, r.log, j);
    }
  }

  lemma ShareOfPrefix(sc: Scene, log: seq<Broadcast>, m: nat, j: nat)
    requires j <= m <= |log| && j < |sc.legs|
    ensures FeeShare(sc, log, j) == FeeShare(sc, log[..m], j)
  {
  }

  lemma {:induction false} RunAnnotated(s: Setup, l: Ledger, k: nat)
    requires Ready(s) && GoodAccounts(s, l) && GoodPlan(s) && Sound(l) && BuilderContract(s) && k <= |s.plan|
    ensures |RunTo(s, k).log| <= k
    ensures forall j :: 0 <= j < |RunTo(s, k).log| ==> Annotated(s, RunTo(s, k).log, j)
  {
    hide Step;
    hide BuilderContract;
    hide GoodPlan;
    hide GoodAccounts;
    hide Progress;
    hide Annotated;
    hide AnnotatedStep;
    hide FeeShare;
    LogLength(s, k);
    if k > 0 {
      RunAnnotated(s, l, k - 1);
      RunProgress(s, l, k - 1);
      var r := RunTo(s, k - 1);
      if r.error.None? {
        NextShare(s, l, r, k - 1);
        StepAnnotates(s, r, k - 1);
        if RunTo(s, k).log != r.log {
          AnnotationsGrow(s, r, k - 1, RunTo(s, k).log);
        }
      } else {
        ErrorStops(s, k - 1, k);
      }
    }
  }

  /** Every input of every broadcast has an owner on record, and it is the account that holds the coin: the fee
      account for its own coins and the chained change, the customer for a customer's. */
  lemma OwnersAreHolders(s: Setup, l: Ledger, k: nat, j: nat, op: OutPoint)
    requires GoodAccounts(s, l) && GoodPlan(s) && Sound(l) && BuilderContract(s) && k <= |s.plan|
    requires j < |RunTo(s, k).log| && op in RunTo(s, k).log[j].tx.inputs
    ensures var log := RunTo(s, k).log;
            && op in log[j].owner
            && (Holds(Fee(s).coins, op) || IntermediateChange(SceneOf(s), log, op) ==> log[j].owner[op] == s.feeIdx)
            && (forall a :: a in s.accounts && Holds(a.coins, op) ==> log[j].owner[op] == a.idx)
  {
    RunProgress(s, l, k);
    RunAnnotated(s, l, k);
    hide RunTo;
    hide BuilderContract;
    hide Progress;
    hide Annotated;
    SpendsAt(s, l, RunTo(s, k).log, j);
    OwnerOfInput(s, l, RunTo(s, k).log, j, op);
  }

  /** Together with scoped signing: every input of every broadcast gets exactly the signatures of the account
      whose coin it spends, the fee account's for a chained change. */
  lemma HolderSigns(s: Setup, l: Ledger, k: nat, j: nat, inp: ScopedSigning.Input, signers: seq<ScopedSigning.Account>,
                    idx: int)
    requires GoodAccounts(s, l) && GoodPlan(s) && Sound(l) && BuilderContract(s) && k <= |s.plan|
    requires j < |RunTo(s, k).log| && inp.prevout in RunTo(s, k).log[j].tx.inputs
    requires || (idx == s.feeIdx && IntermediateChange(SceneOf(s), RunTo(s, k).log, inp.prevout))
             || exists a :: a in s.accounts && a.idx == idx && Holds(a.coins, inp.prevout)
    requires ScopedSigning.Find(signers, idx).Some?
    ensures ScopedSigning.OwnerSignatures(inp, RunTo(s, k).log[j].owner, signers)
            == ScopedSigning.Signatures(inp.derivations, ScopedSigning.Find(signers, idx).value.signers)
  {
    OwnersAreHolders(s, l, k, j, inp.prevout);
    hide RunTo;
    hide GoodAccounts;
    hide GoodPlan;
    hide BuilderContract;
    hide ScopedSigning.Signatures;
  }

  lemma SpendsAt(s: Setup, l: Ledger, log: seq<Broadcast>, j: nat)
    requires Ready(s) && Progress(SceneOf(s), l, log) && j < |log|
    ensures |log| <= |s.plan| && SpendsPlanned(SceneOf(s), log, j)
  {
  }

  lemma OwnerOfInput(s: Setup, l: Ledger, log: seq<Broadcast>, j: nat, op: OutPoint)
    requires GoodAccounts(s, l) && GoodPlan(s) && Sound(l) && Progress(SceneOf(s), l, log)
    requires j < |log| && j < |s.plan| && op in log[j].tx.inputs
    requires SpendsPlanned(SceneOf(s), log, j) && Annotated(s, log, j)
    ensures op in log[j].owner
    ensures Holds(Fee(s).coins, op) || IntermediateChange(SceneOf(s), log, op) ==> log[j].owner[op] == s.feeIdx
    ensures forall a :: a in s.accounts && Holds(a.coins, op) ==> log[j].owner[op] == a.idx
  {
    hide Progress;
    hide GoodPlan;
    hide Pays;
    hide Holds;
    hide IntermediateChange;
    hide FeeShare;
    hide Gathered;
    hide Live;
    var a, share := Gathered(s, j).value, FeeShare(SceneOf(s), log, j);
    SceneIsGood(s, l);
    OwnedAt(a.owner, share, s.feeIdx, op);
    GatheredHolds(s, l, j, op);
    NotACustomers(s, l, op);
    IntermediateIsNew(SceneOf(s), l, log, op);
    if Holds(share, op) {
      SharePoint(SceneOf(s), l, log, j, op);
    }
  }

  lemma GatheredHolds(s: Setup, l: Ledger, j: nat, op: OutPoint)
    requires GoodAccounts(s, l) && j < |s.plan| && Gathered(s, j).Some?
    ensures var a := Gathered(s, j).value;
            && (op in a.owner <==> CustomerPoint(SceneOf(s), j, op))
            && (forall b :: b in s.accounts && Holds(b.coins, op) && op in a.owner ==> a.owner[op] == b.idx)
  {
    hide Holds;
    hide Live;
    hide CustomerPoint;
    GatheredOwner(s.accounts, s.plan[j].outputs, FeeDest(s, s.plan[j]), s.policy, op);
    CustomerPointsGathered(s, l, j, op);
  }

  lemma CustomerPointsGathered(s: Setup, l: Ledger, j: nat, op: OutPoint)
    requires GoodAccounts(s, l) && j < |s.plan| && Gathered(s, j).Some?
    ensures Holds(Gathered(s, j).value.coins, op) <==> CustomerPoint(SceneOf(s), j, op)
  {
    hide Pays;
    hide Live;
    hide Holds;
    var a := Gathered(s, j).value;
    GatheredAccounts(s.accounts, s.plan[j].outputs, FeeDest(s, s.plan[j]), s.policy);
    CoinsOfPoints(s.accounts, a.added);
  }

  /** A coin of the fee account is no customer's, and a coin the ledger did not know is nobody's. */
  lemma NotACustomers(s: Setup, l: Ledger, op: OutPoint)
    requires GoodAccounts(s, l)
    ensures Fee(s) in s.accounts && Fee(s).idx == s.feeIdx
    ensures Holds(Fee(s).coins, op) ==> forall a :: a in s.accounts && Holds(a.coins, op) ==> a == Fee(s)
    ensures op !in l.live ==> forall a :: a in s.accounts ==> !Holds(a.coins, op)
  {
  }

  // ---------------------------------------------------------------------------
  // The sweep txid of each account
  // ---------------------------------------------------------------------------

  lemma AnnotatedReport(s: Setup, log: seq<Broadcast>, j: nat, idx: int)
    requires Ready(s) && j < |log| && j < |s.plan| && Annotated(s, log, j)
    ensures Reports(log[j].report, idx) <==> Pays(s.plan[j].outputs, idx)
  {
    ReportIsPaid(s.accounts, s.plan[j].outputs, FeeDest(s, s.plan[j]), s.policy, idx);
  }

  /** Wherever a run stops, the txid on record for an account is that of the broadcast that carried its whole
      balance; an account has one exactly when such a broadcast was made, and the fee account never. */
  lemma RecordedSweepPays(s: Setup, l: Ledger, k: nat, a: Account)
    requires Ready(s) && GoodAccounts(s, l) && GoodPlan(s) && Sound(l) && BuilderContract(s) && k <= |s.plan|
    requires a in s.accounts
    ensures var log := RunTo(s, k).log;
            && |log| <= k
            && (a.idx in Recorded(log) <==> PaidBefore(SceneOf(s), |log|, a.idx))
            && (a.idx in Recorded(log) ==>
                  a != Fee(s) && exists j: nat :: Carries(log, j, a) && Recorded(log)[a.idx] == Hash(log[j].tx))
  {
    hide Reports;
    hide RunTo;
    hide BuilderContract;
    hide GoodAccounts;
    hide GoodPlan;
    hide GoodScene;
    hide GoodLegs;
    hide Annotated;
    hide Progress;
    RunProgress(s, l, k);
    RunAnnotated(s, l, k);
    SceneIsGood(s, l);
    var log := RunTo(s, k).log;
    forall j | 0 <= j < |log| ensures Reports(log[j].report, a.idx) <==> Pays(s.plan[j].outputs, a.idx) {
      AnnotatedReport(s, log, j, a.idx);
    }
    RecordedSweepCarries(SceneOf(s), l, log, a);
  }

  /** The completion stamp after a finished run: every older version of a paid customer's wallet is complete and
      names a broadcast that carried the customer's whole balance; the fee account's get a bare flip. */
  lemma StampedWithPayingSweep(s: Setup, l: Ledger, a: Account, render: Txid -> string,
                               rows: FederationVersions.Rows, v: FederationVersions.Version,
                               ws: seq<(FederationVersions.WalletRef, int)>, k: nat, sweeps: map<int, string>)
    requires Ready(s) && GoodAccounts(s, l) && GoodPlan(s) && Sound(l) && BuilderContract(s)
    requires s.plan != [] && Execute(s).error.None? && a in s.accounts
    requires sweeps == map i | i in Recorded(Execute(s).log) :: render(Recorded(Execute(s).log)[i])
    requires k < |ws| && ws[k] == (v.wallet, a.idx) && !MigrationStatus.IsLatest(rows, v)
    requires forall i, j :: 0 <= i < j < |ws| ==> ws[i].0 != ws[j].0
    ensures var stamped := MigrationStatus.EnactedRow(rows, v, ws, sweeps);
            && stamped.status == FederationVersions.Complete
            && (PaidBefore(SceneOf(s), |s.plan|, a.idx) ==>
                  exists j: nat :: Carries(Execute(s).log, j, a) && stamped.sweep == Some(render(Hash(Execute(s).log[j].tx))))
            && (a == Fee(s) ==> stamped.sweep == v.sweep)
  {
    hide Execute;
    hide RunTo;
    hide BuilderContract;
    hide GoodAccounts;
    hide GoodPlan;
    hide Carries;
    ExecuteIsRunTo(s);
    CompletedRun(s, l);
    RecordedSweepPays(s, l, |s.plan|, a);
    StampNamesTheSweep(Execute(s).log, a, render, sweeps, rows, v, ws, k);
  }
}
