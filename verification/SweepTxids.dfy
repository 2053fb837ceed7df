/** The txid recorded for each account: that of the broadcast whose report names it, the one the completion stamp
    writes on the account's version rows.  Shared by both executors. */
module SweepTxids {
  import opened Wrappers
  import opened Ledger
  import opened SweepPlan
  import opened ChainedSweep
  import FederationVersions
  import MigrationStatus

  ghost predicate Reports(report: seq<(int, nat)>, idx: int) {
    exists e :: e in report && e.0 == idx
  }

  lemma ReportsSnoc(report: seq<(int, nat)>, e: (int, nat), idx: int)
    ensures Reports(report + [e], idx) <==> Reports(report, idx) || e.0 == idx
  {
    if Reports(report, idx) {
      var f :| f in report && f.0 == idx;
      assert f in report + [e];
    }
    assert e in report + [e];
  }

  lemma ReportsNobody(idx: int)
    ensures !Reports([], idx)
  {
  }

  /** The amounts a report gives for an account, added up. */
  function ReportedAmount(report: seq<(int, nat)>, idx: int): nat {
    if report == [] then 0
    else
      var e := report[|report| - 1];
      ReportedAmount(report[..|report| - 1], idx) + (if e.0 == idx then e.1 else 0)
  }

  lemma ReportedSnoc(report: seq<(int, nat)>, e: (int, nat), idx: int)
    ensures ReportedAmount(report + [e], idx) == ReportedAmount(report, idx) + (if e.0 == idx then e.1 else 0)
  {
    assert (report + [e])[..|report|] == report;
  }

  function Noted(m: map<int, Txid>, report: seq<(int, nat)>, txid: Txid): map<int, Txid> {
    if report == [] then m else Noted(m, report[..|report| - 1], txid)[report[|report| - 1].0 := txid]
  }

  function Recorded(log: seq<Broadcast>): map<int, Txid> {
    if log == [] then map[]
    else Noted(Recorded(log[..|log| - 1]), log[|log| - 1].report, Hash(log[|log| - 1].tx))
  }

  /** Map each reported account to the txid of the broadcast that reported it, the last one winning. */
  method Collect(log: seq<Broadcast>) returns (m: map<int, Txid>)
    ensures m == Recorded(log)
  {
    m := map[];
    for j := 0 to |log|
      invariant m == Recorded(log[..j])
    {
      assert log[..j + 1][..j] == log[..j];
      ghost var before := m;
      var report := log[j].report;
      for i := 0 to |report|
        invariant m == Noted(before, report[..i], Hash(log[j].tx))
      {
        assert report[..i + 1][..i] == report[..i];
        m := m[report[i].0 := Hash(log[j].tx)];
      }
      assert report[..|report|] == report;
    }
    assert log[..|log|] == log;
  }

  lemma {:induction false} NotedAt(m: map<int, Txid>, report: seq<(int, nat)>, txid: Txid, idx: int)
    ensures idx in Noted(m, report, txid) <==> idx in m || Reports(report, idx)
    ensures Reports(report, idx) ==> Noted(m, report, txid)[idx] == txid
    ensures !Reports(report, idx) && idx in m ==> Noted(m, report, txid)[idx] == m[idx]
  {
    if report == [] {
      ReportsNobody(idx);
    } else {
      var init, e := report[..|report| - 1], report[|report| - 1];
      NotedAt(m, init, txid, idx);
      assert report == init + [e];
      ReportsSnoc(init, e, idx);
    }
  }

  /** The recorded txid of an account is that of the last broadcast that reports it. */
  lemma {:induction false} RecordedOf(log: seq<Broadcast>, idx: int, j: nat)
    requires j < |log| && Reports(log[j].report, idx)
    requires forall i :: j < i < |log| ==> !Reports(log[i].report, idx)
    ensures idx in Recorded(log) && Recorded(log)[idx] == Hash(log[j].tx)
  {
    var init, e := log[..|log| - 1], log[|log| - 1];
    NotedAt(Recorded(init), e.report, Hash(e.tx), idx);
    if j < |log| - 1 {
      RecordedOf(init, idx, j);
    }
  }

  lemma {:induction false} RecordedOnlyIfReported(log: seq<Broadcast>, idx: int)
    requires forall i :: 0 <= i < |log| ==> !Reports(log[i].report, idx)
    ensures idx !in Recorded(log)
  {
    if log != [] {
      var init, e := log[..|log| - 1], log[|log| - 1];
      NotedAt(Recorded(init), e.report, Hash(e.tx), idx);
      RecordedOnlyIfReported(init, idx);
    }
  }

  /** Every broadcast reports the customers its plan entry pays. */
  ghost predicate ReportsPaid(sc: Scene, log: seq<Broadcast>, idx: int) {
    forall j :: 0 <= j < |log| && j < |sc.legs| ==> (Reports(log[j].report, idx) <==> Pays(sc.legs[j].outputs, idx))
  }

  /** Broadcast `j` carries an account's whole balance to its new address, in every asset. */
  ghost predicate Carries(log: seq<Broadcast>, j: nat, a: Account) {
    j < |log| && forall asset :: PaidAt(log[j].tx.outputs, a.dest, asset) == Held(a.coins, asset)
  }

  /** After a chained sweep, complete or cut short, an account has a recorded txid exactly when a broadcast has
      paid it, and it is the txid of the broadcast that carried its whole balance; the fee account has none. */
  lemma {:induction false} RecordedSweepCarries(sc: Scene, l: Ledger, log: seq<Broadcast>, a: Account)
    requires GoodLegs(sc) && Progress(sc, l, log) && a in sc.accounts && ReportsPaid(sc, log, a.idx)
    ensures a.idx in Recorded(log) <==> PaidBefore(sc, |log|, a.idx)
    ensures a.idx in Recorded(log) ==>
      a != sc.fee && exists j: nat :: Carries(log, j, a) && Recorded(log)[a.idx] == Hash(log[j].tx)
  {
    hide Reports;
    hide Pays;
    hide CustomerState;
    hide FeeState;
    hide SpendsPlanned;
    if PaidBefore(sc, |log|, a.idx) {
      var j :| 0 <= j < |log| && Pays(sc.legs[j].outputs, a.idx);
      PaidOnce(sc, j, a.idx);
      RecordedOf(log, a.idx, j);
      assert PaysPlanned(sc, j, log[j]);
      assert Carries(log, j, a);
    } else {
      RecordedOnlyIfReported(log, a.idx);
    }
  }

  /** The completion stamp of an account's older version: complete, naming the broadcast that carried its balance
      when one is on record, with a bare flip otherwise. */
  lemma StampNamesTheSweep(log: seq<Broadcast>, a: Account, render: Txid -> string, sweeps: map<int, string>,
                           rows: FederationVersions.Rows, v: FederationVersions.Version,
                           ws: seq<(FederationVersions.WalletRef, int)>, k: nat)
    requires a.idx in Recorded(log) ==> exists j: nat :: Carries(log, j, a) && Recorded(log)[a.idx] == Hash(log[j].tx)
    requires sweeps == map i | i in Recorded(log) :: render(Recorded(log)[i])
    requires k < |ws| && ws[k] == (v.wallet, a.idx) && !MigrationStatus.IsLatest(rows, v)
    requires forall i, j :: 0 <= i < j < |ws| ==> ws[i].0 != ws[j].0
    ensures var stamped := MigrationStatus.EnactedRow(rows, v, ws, sweeps);
            && stamped.status == FederationVersions.Complete
            && (a.idx in Recorded(log) ==>
                  exists j: nat :: Carries(log, j, a) && stamped.sweep == Some(render(Hash(log[j].tx))))
            && (a.idx !in Recorded(log) ==> stamped.sweep == v.sweep)
  {
    hide Carries;
    hide Recorded;
    MigrationStatus.EnactedIsComplete(rows, v, ws, k, sweeps);
  }
}
