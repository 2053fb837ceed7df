/** What the account-for-account form records beside the ledger, who owns each input and which txid each account is
    stamped with, and what stops it. */
module SingleEnact {
  import opened Wrappers
  import opened Ledger
  import opened SweepPlan
  import opened ChainedSweep
  import opened ElementsMigration
  import opened ElementsRuns
  import opened ElementsSingle
  import opened SweepTxids
  import FederationVersions
  import MigrationStatus
  import ScopedSigning

  // ---------------------------------------------------------------------------
  // Owners
  // ---------------------------------------------------------------------------

  /** The owner recorded for a coin is the account that holds it, and only the accounts' coins have one. */
  lemma {:induction false} OwnerIsHolder(accounts: seq<Account>, op: OutPoint)
    requires OwnCoins(accounts)
    ensures op in AllOwners(accounts) <==> exists a :: a in accounts && Holds(a.coins, op)
    ensures forall a :: a in accounts && Holds(a.coins, op) ==> AllOwners(accounts)[op] == a.idx
  {
    hide Holds;
    if accounts != [] {
      var init, last := accounts[..|accounts| - 1], accounts[|accounts| - 1];
      assert forall a :: a in accounts <==> a in init || a == last;
      OwnerIsHolder(init, op);
      OwnedAt(AllOwners(init), last.coins, last.idx, op);
    }
  }

  lemma SingleEntry(s: Setup)
    requires s.plan != [] && Single(s).error.None?
    ensures |Single(s).log| == 1
    ensures Single(s).log[0].owner == AllOwners(s.accounts)
    ensures Single(s).log[0].report == Report(s.plan[0].outputs)
    ensures !Single(s).log[0].isFeeFinal
  {
  }

  /** Every input of the single transaction has as recorded owner the account whose coin it is. */
  lemma SingleOwners(s: Setup, l: Ledger, op: OutPoint)
    requires GoodSingle(s, l) && BuilderContract(s) && Sound(l) && Single(s).error.None?
    ensures |Single(s).log| == 1
    ensures op in Single(s).log[0].tx.inputs ==>
      && op in Single(s).log[0].owner
      && (exists a :: a in s.accounts && Holds(a.coins, op))
      && forall a :: a in s.accounts && Holds(a.coins, op) ==> Single(s).log[0].owner[op] == a.idx
  {
    hide Single;
    hide BuilderContract;
    SingleParts(s, l);
    SingleConserves(s, l, s.policy);
    SingleEntry(s);
    OwnerIsHolder(s.accounts, op);
  }

  /** With scoped signing every input gets exactly the signatures of the account whose coin it spends. */
  lemma SingleHolderSigns(s: Setup, l: Ledger, inp: ScopedSigning.Input, signers: seq<ScopedSigning.Account>, a: Account)
    requires GoodSingle(s, l) && BuilderContract(s) && Sound(l) && Single(s).error.None? && |Single(s).log| == 1
    requires inp.prevout in Single(s).log[0].tx.inputs && a in s.accounts && Holds(a.coins, inp.prevout)
    requires ScopedSigning.Find(signers, a.idx).Some?
    ensures ScopedSigning.OwnerSignatures(inp, Single(s).log[0].owner, signers)
            == ScopedSigning.Signatures(inp.derivations, ScopedSigning.Find(signers, a.idx).value.signers)
  {
    SingleOwners(s, l, inp.prevout);
    hide Single;
    hide GoodSingle;
    hide BuilderContract;
    hide ScopedSigning.Signatures;
  }

  // ---------------------------------------------------------------------------
  // The report and the recorded txid
  // ---------------------------------------------------------------------------

  /** The report names exactly the customers the entry pays. */
  lemma {:induction false} SingleReportIsPaid(outs: seq<PlanOut>, idx: int)
    ensures Reports(Report(outs), idx) <==> Pays(outs, idx)
  {
    hide Reports;
    hide Pays;
    if outs == [] {
      ReportsNobody(idx);
      PaysNobody();
    } else {
      var init, o := outs[..|outs| - 1], outs[|outs| - 1];
      SingleReportIsPaid(init, idx);
      PaysSnoc(outs, idx);
      if o.Customer? {
        ReportsSnoc(Report(init), (Idx(o.account), o.amount), idx);
      }
    }
  }

  lemma {:induction false} SingleReportAmounts(outs: seq<PlanOut>, idx: int)
    ensures ReportedAmount(Report(outs), idx) == PlannedAmount(outs, idx)
  {
    if outs != [] {
      var init, o := outs[..|outs| - 1], outs[|outs| - 1];
      SingleReportAmounts(init, idx);
      if o.Customer? {
        ReportedSnoc(Report(init), (Idx(o.account), o.amount), idx);
      }
    }
  }

  /** Every customer is recorded with the txid of the single transaction, which carries its whole balance; the fee
      account is not recorded. */
  lemma SingleRecorded(s: Setup, l: Ledger, a: Account)
    requires GoodSingle(s, l) && BuilderContract(s) && Sound(l) && Single(s).error.None? && a in s.accounts
    ensures s.plan != [] && Ready(Batch(s)) && |Single(s).log| == 1
    ensures var log := Single(s).log;
            && (a.idx in Recorded(log) <==> a != Fee(Batch(s)))
            && (a.idx in Recorded(log) ==> Carries(log, 0, a) && Recorded(log)[a.idx] == Hash(log[0].tx))
  {
    hide Reports;
    hide Pays;
    hide Single;
    hide GoodSingle;
    hide GoodScene;
    hide GoodLegs;
    hide Progress;
    hide BuilderContract;
    hide PaidBefore;
    hide Carries;
    SingleParts(s, l);
    var sc, log := SceneOf(Batch(s)), Single(s).log;
    SingleProgress(s, l);
    SceneIsGood(Batch(s), l);
    SingleEntry(s);
    SingleReportIsPaid(s.plan[0].outputs, a.idx);
    AllPaid(s, l);
    RecordedSweepCarries(sc, l, log, a);
    if a.idx in Recorded(log) {
      OnlyCarrier(log, a);
    } else {
      hide Recorded;
    }
  }

  lemma OnlyCarrier(log: seq<Broadcast>, a: Account)
    requires |log| == 1 && a.idx in Recorded(log)
    requires exists j: nat :: Carries(log, j, a) && Recorded(log)[a.idx] == Hash(log[j].tx)
    ensures Carries(log, 0, a) && Recorded(log)[a.idx] == Hash(log[0].tx)
  {
    hide Recorded;
    var j: nat :| Carries(log, j, a) && Recorded(log)[a.idx] == Hash(log[j].tx);
    assert j == 0;
  }

  /** The completion stamp after the single transaction: every older version of a customer's wallet is complete and
      names it; the fee account's get a bare flip. */
  lemma StampedWithSingle(s: Setup, l: Ledger, a: Account, render: Txid -> string,
                          rows: FederationVersions.Rows, v: FederationVersions.Version,
                          ws: seq<(FederationVersions.WalletRef, int)>, k: nat, sweeps: map<int, string>)
    requires GoodSingle(s, l) && BuilderContract(s) && Sound(l) && Single(s).error.None? && a in s.accounts
    requires sweeps == map i | i in Recorded(Single(s).log) :: render(Recorded(Single(s).log)[i])
    requires k < |ws| && ws[k] == (v.wallet, a.idx) && !MigrationStatus.IsLatest(rows, v)
    requires forall i, j :: 0 <= i < j < |ws| ==> ws[i].0 != ws[j].0
    ensures s.plan != [] && Ready(Batch(s)) && |Single(s).log| == 1
    ensures var stamped := MigrationStatus.EnactedRow(rows, v, ws, sweeps);
            && stamped.status == FederationVersions.Complete
            && stamped.sweep == if a == Fee(Batch(s)) then v.sweep else Some(render(Hash(Single(s).log[0].tx)))
  {
    hide Single;
    hide GoodSingle;
    hide BuilderContract;
    hide Recorded;
    hide Carries;
    SingleRecorded(s, l, a);
    MigrationStatus.EnactedIsComplete(rows, v, ws, k, sweeps);
  }

  // ---------------------------------------------------------------------------
  // When it goes through
  // ---------------------------------------------------------------------------

  /** It broadcasts one transaction if and only if there is a plan and a fee account and the build, the finalization and
      the broadcast succeed; otherwise nothing, and the error names the first thing that went wrong. */
  lemma SingleIff(s: Setup)
    ensures Single(s).error.None? ==> |Single(s).log| == 1
    ensures Single(s).error.Some? ==> Single(s).log == []
    ensures var found := Find(s.accounts, s.feeIdx);
            var ready := s.plan != [] && found.Some?;
            var build := if ready
                         then s.env.build(0, AllCoins(s.accounts), Recipients(s.plan[0].outputs, found.value.dest, s.policy), found.value.dest)
                         else None;
            && (Single(s).error.None? <==> build.Some? && s.env.finalizes(0) && s.env.accepts(0))
            && (Single(s).error == Some(NoTransaction) <==> s.plan == [])
            && (Single(s).error == Some(FeeAccountNotFunded) <==> s.plan != [] && found.None?)
            && (Single(s).error == Some(BuildFailed) <==> ready && build.None?)
            && (Single(s).error == Some(FinalizeFailed) <==> build.Some? && !s.env.finalizes(0))
            && (Single(s).error == Some(BroadcastRejected) <==> build.Some? && s.env.finalizes(0) && !s.env.accepts(0))
  {
  }
}
