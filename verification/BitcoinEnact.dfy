/** What the Bitcoin executor records beside the ledger: the wallet that signs each input, and which broadcast
    carried each account across. */
module BitcoinEnact {
  import opened Wrappers
  import opened Ledger
  import opened SweepPlan
  import opened ChainedSweep
  import opened BitcoinMigration
  import opened BitcoinRuns
  import opened SweepTxids
  import FederationVersions
  import MigrationStatus

  // ---------------------------------------------------------------------------
  // Owners and reports of one plan entry
  // ---------------------------------------------------------------------------

  /** The report of a plan entry names exactly the customers it pays. */
  lemma {:induction false} ReportIsPaid(accounts: seq<Account>, outs: seq<PlanOut>, idx: int)
    requires ToOwnAddress(accounts, outs)
    ensures Reports(Report(outs), idx) <==> Pays(outs, idx)
  {
    hide Reports;
    hide Pays;
    if outs == [] {
      ReportsNobody(idx);
      PaysNobody();
    } else {
      var init, o := outs[..|outs| - 1], outs[|outs| - 1];
      ReportIsPaid(accounts, init, idx);
      PaysSnoc(outs, idx);
      if o.Customer? {
        ReportsSnoc(Report(init), (o.account, o.amount), idx);
      }
    }
  }

  /** The amounts reported for a customer are those planned for it. */
  lemma {:induction false} ReportAmounts(accounts: seq<Account>, outs: seq<PlanOut>, idx: int)
    requires ToOwnAddress(accounts, outs)
    ensures ReportedAmount(Report(outs), idx) == PlannedAmount(outs, idx)
  {
    if outs != [] {
      var init, o := outs[..|outs| - 1], outs[|outs| - 1];
      ReportAmounts(accounts, init, idx);
      if o.Customer? {
        ReportedSnoc(Report(init), (o.account, o.amount), idx);
      }
    }
  }

  lemma {:induction false} SigningAt(start: map<OutPoint, int>, owners: map<OutPoint, int>, coins: seq<Coin>, op: OutPoint)
    ensures op in Signing(start, owners, coins) <==> op in start || (op in owners && Holds(coins, op))
    ensures op in owners && Holds(coins, op) ==> Signing(start, owners, coins)[op] == owners[op]
    ensures op in start && !Holds(coins, op) ==> Signing(start, owners, coins)[op] == start[op]
  {
    if coins != [] {
      var init, c := coins[..|coins| - 1], coins[|coins| - 1];
      SigningAt(start, owners, init, op);
      assert coins == init + [c];
      HoldsConcat(init, [c]);
      assert Holds([c], op) <==> c.op == op by {
        if c.op == op {
          assert c in [c];
        }
      }
    }
  }

  /** The owner map sends every captured UTXO to its account's wallet. */
  lemma {:induction false} OwnerOf(accounts: seq<Account>, wallets: seq<int>, a: Account, op: OutPoint)
    requires a in accounts && a.idx in wallets && Holds(a.coins, op)
    requires forall b, c :: b in accounts && c in accounts && b != c ==> Apart(b.coins, c.coins)
    ensures op in Owners(accounts, wallets) && Owners(accounts, wallets)[op] == WalletOf(wallets, a.idx).value
  {
    hide Holds;
    var init, last := accounts[..|accounts| - 1], accounts[|accounts| - 1];
    if last.idx in wallets {
      OwnedAt(Owners(init, wallets), last.coins, WalletOf(wallets, last.idx).value, op);
    }
    if last != a {
      OwnerOf(init, wallets, a, op);
    }
  }

  // ---------------------------------------------------------------------------
  // Every broadcast of a run
  // ---------------------------------------------------------------------------

  /** Broadcast `j` carries the report of plan entry `j` and the signing wallets of its inputs. */
  ghost predicate Annotated(s: Setup, log: seq<Broadcast>, j: nat)
    requires j < |log| && j < |s.plan|
  {
    && Resolved(s, j).Some?
    && log[j].report == Report(s.plan[j].outputs)
    && log[j].owner == SigningWallet(s, ChangeBefore(s, log[..j]), Resolved(s, j).value)
  }

  lemma {:induction false} RunAnnotated(s: Setup, l: Ledger, k: nat)
    requires GoodAccounts(s, l) && GoodPlan(s) && k <= |s.plan|
    ensures |RunTo(s, k).log| <= k
    ensures forall j :: 0 <= j < |RunTo(s, k).log| ==> Annotated(s, RunTo(s, k).log, j)
  {
    hide Step;
    hide GoodPlan;
    hide GoodAccounts;
    hide TakenChange;
    hide Resolved;
    hide Report;
    hide SigningWallet;
    hide ChangeBefore;
    FeeChangeOrigin(s, k);
    if k > 0 {
      RunAnnotated(s, l, k - 1);
      var r, log := RunTo(s, k - 1), RunTo(s, k).log;
      if r.error.None? {
        ConsumesLastChange(s, l, k - 1);
        FinalIsLast(s, l, k - 1);
        if log != r.log {
          StepShape(s, r, k - 1);
          assert log[..k - 1] == r.log;
          forall j | 0 <= j < k ensures Annotated(s, log, j) {
            assert log[..j] == r.log[..j];
            assert j < k - 1 ==> Annotated(s, r.log, j);
          }
        }
      } else {
        ErrorStops(s, k - 1, k);
      }
    }
  }

  /** Every input of every broadcast has a signing wallet on record: its holder's, the fee account's for the
      chained change. */
  lemma InputsHaveTheirWallet(s: Setup, l: Ledger, k: nat, j: nat, op: OutPoint)
    requires GoodAccounts(s, l) && GoodPlan(s) && TrueInputs(s, l) && BuilderContract(s) && Sound(l) && k <= |s.plan|
    requires WalletOf(s.wallets, s.fee.idx) == Some(s.feeWallet)
    requires j < |RunTo(s, k).log| && op in RunTo(s, k).log[j].tx.inputs
    ensures var log := RunTo(s, k).log;
            && op in log[j].owner
            && (IntermediateChange(SceneOf(s), log, op) ==> log[j].owner[op] == s.feeWallet)
            && (forall a :: a in s.accounts && Holds(a.coins, op) ==> Some(log[j].owner[op]) == WalletOf(s.wallets, a.idx))
  {
    hide RunTo;
    hide BuilderContract;
    hide TrueInputs;
    hide GoodAccounts;
    hide GoodPlan;
    hide Annotated;
    hide Progress;
    RunProgress(s, l, k);
    RunAnnotated(s, l, k);
    WalletOfInput(s, l, RunTo(s, k).log, j, op);
  }

  lemma WalletOfInput(s: Setup, l: Ledger, log: seq<Broadcast>, j: nat, op: OutPoint)
    requires GoodAccounts(s, l) && GoodPlan(s) && Sound(l) && TrueInputs(s, l) && Progress(SceneOf(s), l, log)
    requires WalletOf(s.wallets, s.fee.idx) == Some(s.feeWallet)
    requires j < |log| && j < |s.plan| && op in log[j].tx.inputs && Annotated(s, log, j)
    ensures op in log[j].owner
    ensures IntermediateChange(SceneOf(s), log, op) ==> log[j].owner[op] == s.feeWallet
    ensures forall a :: a in s.accounts && Holds(a.coins, op) ==> Some(log[j].owner[op]) == WalletOf(s.wallets, a.idx)
  {
    hide GoodPlan;
    hide Pays;
    hide Holds;
    hide Resolved;
    hide Owners;
    hide Signing;
    hide IntermediateChange;
    hide Wanted;
    hide Live;
    hide TrueInputs;
    var carry, coins := ChangeBefore(s, log[..j]), Resolved(s, j).value;
    var owners := Owners(s.accounts, s.wallets);
    SpendsCarryOrWanted(s, l, log, j, op);
    ResolvedIsWanted(s, l, j);
    WantedFacts(s, l, j);
    SamePoints(coins, Wanted(s, j));
    SigningAt(Owned(map[], carry, s.feeWallet), owners, coins, op);
    OwnedAt(map[], carry, s.feeWallet, op);
    IntermediateIsNew(SceneOf(s), l, log, op);
    NewIsNobodys(s, l, op);
    if Holds(coins, op) {
      WantedIsOwned(s, l, j, op);
    }
    forall a | a in s.accounts && Holds(a.coins, op) ensures Some(log[j].owner[op]) == WalletOf(s.wallets, a.idx) {
      HeldIsOwned(s, l, a, op);
      OwnerOf(s.accounts, s.wallets, a, op);
    }
  }

  lemma NewIsNobodys(s: Setup, l: Ledger, op: OutPoint)
    requires GoodAccounts(s, l)
    ensures op !in l.live ==> forall a :: a in s.accounts ==> !Holds(a.coins, op)
  {
  }

  /** An input is the chained change, unknown to the starting ledger, or one of the wanted coins, known to it. */
  lemma SpendsCarryOrWanted(s: Setup, l: Ledger, log: seq<Broadcast>, j: nat, op: OutPoint)
    requires GoodAccounts(s, l) && GoodPlan(s) && Sound(l) && Progress(SceneOf(s), l, log)
    requires j < |log| && j < |s.plan| && op in log[j].tx.inputs
    ensures Holds(ChangeBefore(s, log[..j]), op) || Holds(Wanted(s, j), op)
    ensures Holds(ChangeBefore(s, log[..j]), op) ==> op !in l.live
  {
    hide Pays;
    hide Holds;
    hide CustomerPoint;
    hide Wanted;
    hide Named;
    hide Progress;
    hide GoodPlan;
    hide GoodAccounts;
    WantedFacts(s, l, j);
    SpendsAt(s, l, log, j);
    HoldsConcat(Named(s.fee.coins, s.plan[j].sources), ChangeBefore(s, log[..j]));
    CarryIsNew(s, l, log, j, op);
  }

  lemma SpendsAt(s: Setup, l: Ledger, log: seq<Broadcast>, j: nat)
    requires Progress(SceneOf(s), l, log) && j < |log| && j < |s.plan|
    ensures ValidLog(l, Txs(log))
    ensures FeeShare(SceneOf(s), log, j) == Named(s.fee.coins, s.plan[j].sources) + ChangeBefore(s, log[..j])
    ensures forall op :: op in log[j].tx.inputs <==>
      CustomerPoint(SceneOf(s), j, op) || Holds(FeeShare(SceneOf(s), log, j), op)
  {
    hide CustomerPoint;
    hide CustomerState;
    hide FeeState;
    hide PaysPlanned;
    assert SpendsPlanned(SceneOf(s), log, j);
    assert j > 0 ==> log[..j][j - 1] == log[j - 1];
  }

  lemma CarryIsNew(s: Setup, l: Ledger, log: seq<Broadcast>, j: nat, op: OutPoint)
    requires Sound(l) && ValidLog(l, Txs(log)) && j < |log|
    ensures Holds(ChangeBefore(s, log[..j]), op) ==> op !in l.live
  {
    if j > 0 && Holds(ChangeBefore(s, log[..j]), op) {
      CreatedIsNew(l, Txs(log), j - 1);
    }
  }

  /** Wherever a run stops, the txid on record for an account is that of the broadcast that carried its whole
      balance; an account has one exactly when such a broadcast was made, and the fee account never. */
  lemma RecordedSweepPays(s: Setup, l: Ledger, k: nat, a: Account)
    requires GoodAccounts(s, l) && GoodPlan(s) && TrueInputs(s, l) && BuilderContract(s) && Sound(l) && k <= |s.plan|
    requires a in s.accounts
    ensures var log := RunTo(s, k).log;
            && |log| <= k
            && (a.idx in Recorded(log) <==> PaidBefore(SceneOf(s), |log|, a.idx))
            && (a.idx in Recorded(log) ==>
                  a != s.fee && exists j: nat :: Carries(log, j, a) && Recorded(log)[a.idx] == Hash(log[j].tx))
  {
    hide Reports;
    hide RunTo;
    hide BuilderContract;
    hide TrueInputs;
    hide GoodAccounts;
    hide GoodPlan;
    hide GoodScene;
    hide GoodLegs;
    hide Progress;
    hide Annotated;
    RunProgress(s, l, k);
    RunAnnotated(s, l, k);
    SceneIsGood(s, l);
    var log := RunTo(s, k).log;
    forall j | 0 <= j < |log| ensures Reports(log[j].report, a.idx) <==> Pays(s.plan[j].outputs, a.idx) {
      AnnotatedReport(s, log, j, a.idx);
    }
    RecordedSweepCarries(SceneOf(s), l, log, a);
  }

  lemma AnnotatedReport(s: Setup, log: seq<Broadcast>, j: nat, idx: int)
    requires GoodPlan(s) && j < |log| && j < |s.plan| && Annotated(s, log, j)
    ensures Reports(log[j].report, idx) <==> Pays(s.plan[j].outputs, idx)
  {
    assert GoodOutputs(s, s.plan[j].outputs);
    ReportIsPaid(s.accounts, s.plan[j].outputs, idx);
  }

  /** The completion stamp after a finished run: every older version of a paid customer's wallet is complete and
      names a broadcast that carried the customer's whole balance; the fee account's get a bare flip. */
  lemma StampedWithPayingSweep(s: Setup, l: Ledger, a: Account, render: Txid -> string,
                               rows: FederationVersions.Rows, v: FederationVersions.Version,
                               ws: seq<(FederationVersions.WalletRef, int)>, k: nat, sweeps: map<int, string>)
    requires GoodAccounts(s, l) && GoodPlan(s) && TrueInputs(s, l) && BuilderContract(s) && Sound(l)
    requires s.plan != [] && RunTo(s, |s.plan|).error.None? && a in s.accounts
    requires sweeps == map i | i in Recorded(RunTo(s, |s.plan|).log) :: render(Recorded(RunTo(s, |s.plan|).log)[i])
    requires k < |ws| && ws[k] == (v.wallet, a.idx) && !MigrationStatus.IsLatest(rows, v)
    requires forall i, j :: 0 <= i < j < |ws| ==> ws[i].0 != ws[j].0
    ensures var stamped, log := MigrationStatus.EnactedRow(rows, v, ws, sweeps), RunTo(s, |s.plan|).log;
            && stamped.status == FederationVersions.Complete
            && (PaidBefore(SceneOf(s), |s.plan|, a.idx) ==>
                  exists j: nat :: Carries(log, j, a) && stamped.sweep == Some(render(Hash(log[j].tx))))
            && (a == s.fee ==> stamped.sweep == v.sweep)
  {
    hide RunTo;
    hide BuilderContract;
    hide TrueInputs;
    hide GoodAccounts;
    hide GoodPlan;
    hide Carries;
    var n := |s.plan|;
    CompletedRun(s, l);
    RecordedSweepPays(s, l, n, a);
    StampNamesTheSweep(RunTo(s, n).log, a, render, sweeps, rows, v, ws, k);
  }
}
