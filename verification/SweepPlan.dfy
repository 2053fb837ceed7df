/** What a sweep planner hands the executors: per-transaction outputs, and sums over them. */
module SweepPlan {
  import opened Wrappers
  import opened Ledger

  /** A funded account: its captured UTXOs at the old federation and its address at the new one. */
  datatype Account = Account(idx: int, coins: seq<Coin>, dest: Script)

  datatype PlanOut =
    | Customer(account: nat, address: Script, amount: nat, asset: Asset)
    | FeeChange(amount: nat, asset: Asset)

  /** The source converts the planner's `u32` with `i32::try_from(..).unwrap_or(0)`. */
  function Idx(account: nat): (r: int)
    ensures account <= 2_147_483_647 ==> r == account
    ensures account > 2_147_483_647 ==> r == 0
  {
    if account < 0x8000_0000 then account else 0
  }

  function Find(accounts: seq<Account>, idx: int): (r: Option<Account>)
    ensures r.Some? ==> r.value in accounts && r.value.idx == idx
    ensures r.None? ==> forall a :: a in accounts ==> a.idx != idx
  {
    if accounts == [] then None
    else if accounts[0].idx == idx then Some(accounts[0])
    else Find(accounts[1..], idx)
  }

  ghost predicate Pays(outs: seq<PlanOut>, idx: int) {
    exists o :: o in outs && o.Customer? && Idx(o.account) == idx
  }

  lemma PaysSnoc(outs: seq<PlanOut>, idx: int)
    requires outs != []
    ensures var o := outs[|outs| - 1];
            Pays(outs, idx) <==> Pays(outs[..|outs| - 1], idx) || (o.Customer? && Idx(o.account) == idx)
  {
    var init, o := outs[..|outs| - 1], outs[|outs| - 1];
    assert outs == init + [o];
    if Pays(outs, idx) {
      var p :| p in outs && p.Customer? && Idx(p.account) == idx;
      assert p in init || p == o;
    }
  }

  lemma PaysNobody()
    ensures forall idx :: !Pays([], idx)
  {
  }

  /** What `outs` plans to pay customer `idx` in `asset`. */
  function PlannedFor(outs: seq<PlanOut>, idx: int, asset: Asset): nat {
    if outs == [] then 0
    else
      var o := outs[|outs| - 1];
      PlannedFor(outs[..|outs| - 1], idx, asset)
      + (if o.Customer? && Idx(o.account) == idx && o.asset == asset then o.amount else 0)
  }

  /** What `outs` plans to pay all customers together in `asset`. */
  function PlannedForAll(outs: seq<PlanOut>, asset: Asset): nat {
    if outs == [] then 0
    else
      var o := outs[|outs| - 1];
      PlannedForAll(outs[..|outs| - 1], asset) + (if o.Customer? && o.asset == asset then o.amount else 0)
  }

  /** What `outs` plans to return to the fee account in `asset`. */
  function PlannedFeeChange(outs: seq<PlanOut>, asset: Asset): nat {
    if outs == [] then 0
    else
      var o := outs[|outs| - 1];
      PlannedFeeChange(outs[..|outs| - 1], asset) + (if o.FeeChange? && o.asset == asset then o.amount else 0)
  }

  /** What `outs` plans to pay customer `idx`, whatever the asset. */
  function PlannedAmount(outs: seq<PlanOut>, idx: int): nat {
    if outs == [] then 0
    else
      var o := outs[|outs| - 1];
      PlannedAmount(outs[..|outs| - 1], idx) + (if o.Customer? && Idx(o.account) == idx then o.amount else 0)
  }

  function SumPlanned(outs: seq<PlanOut>, added: seq<int>, asset: Asset): nat {
    if added == [] then 0
    else SumPlanned(outs, added[..|added| - 1], asset) + PlannedFor(outs, added[|added| - 1], asset)
  }

  lemma {:induction false} SumPlannedSnoc(outs: seq<PlanOut>, added: seq<int>, asset: Asset)
    requires outs != [] && Distinct(added)
    ensures var o := outs[|outs| - 1];
            SumPlanned(outs, added, asset) == SumPlanned(outs[..|outs| - 1], added, asset)
              + (if o.Customer? && o.asset == asset && Idx(o.account) in added then o.amount else 0)
    decreases |added|
  {
    if added != [] {
      var rest, x := added[..|added| - 1], added[|added| - 1];
      assert added == rest + [x];
      DistinctSplit(rest, [x]);
      assert x in [x];
      SumPlannedSnoc(outs, rest, asset);
    }
  }

  lemma {:induction false} SumPlannedOfNothing(added: seq<int>, asset: Asset)
    ensures SumPlanned([], added, asset) == 0
  {
    if added != [] {
      SumPlannedOfNothing(added[..|added| - 1], asset);
    }
  }

  /** Account by account, what is planned adds up to what is planned for all. */
  lemma {:induction false} PlannedByAccount(outs: seq<PlanOut>, added: seq<int>, asset: Asset)
    requires Distinct(added) && forall idx :: Pays(outs, idx) ==> idx in added
    ensures SumPlanned(outs, added, asset) == PlannedForAll(outs, asset)
    decreases |outs|
  {
    if outs == [] {
      SumPlannedOfNothing(added, asset);
    } else {
      forall idx | Pays(outs[..|outs| - 1], idx) ensures idx in added {
        PaysSnoc(outs, idx);
      }
      var o := outs[|outs| - 1];
      if o.Customer? {
        PaysSnoc(outs, Idx(o.account));
      }
      PlannedByAccount(outs[..|outs| - 1], added, asset);
      SumPlannedSnoc(outs, added, asset);
    }
  }

  lemma {:induction false} NotPlanned(outs: seq<PlanOut>, idx: int, asset: Asset)
    requires !Pays(outs, idx)
    ensures PlannedFor(outs, idx, asset) == 0
  {
    if outs != [] {
      PaysSnoc(outs, idx);
      NotPlanned(outs[..|outs| - 1], idx, asset);
    }
  }

  lemma {:induction false} NoFeeChange(outs: seq<PlanOut>, policy: Asset, asset: Asset)
    requires asset != policy && forall o :: o in outs && o.FeeChange? ==> o.asset == policy
    ensures PlannedFeeChange(outs, asset) == 0
  {
    if outs != [] {
      NoFeeChange(outs[..|outs| - 1], policy, asset);
    }
  }

  function CoinsOf(accounts: seq<Account>, added: seq<int>): seq<Coin> {
    if added == [] then []
    else
      CoinsOf(accounts, added[..|added| - 1])
      + (match Find(accounts, added[|added| - 1]) case None => [] case Some(a) => a.coins)
  }

  ghost predicate AddedPoint(accounts: seq<Account>, added: seq<int>, op: OutPoint) {
    exists a :: a in accounts && a.idx in added && Holds(a.coins, op)
  }

  lemma AddedPointSnoc(accounts: seq<Account>, rest: seq<int>, x: int, op: OutPoint)
    requires Find(accounts, x).Some?
    requires forall a, b :: a in accounts && b in accounts && a != b ==> a.idx != b.idx
    ensures AddedPoint(accounts, rest + [x], op)
            <==> AddedPoint(accounts, rest, op) || Holds(Find(accounts, x).value.coins, op)
  {
    if AddedPoint(accounts, rest + [x], op) {
      var a :| a in accounts && a.idx in rest + [x] && Holds(a.coins, op);
      assert a.idx in rest || a == Find(accounts, x).value;
    }
    if AddedPoint(accounts, rest, op) {
      var a :| a in accounts && a.idx in rest && Holds(a.coins, op);
      assert a.idx in rest + [x];
    }
    if Holds(Find(accounts, x).value.coins, op) {
      assert x in rest + [x];
    }
  }

  /** Accounts with their own indices and their own coins. */
  ghost predicate OwnCoins(accounts: seq<Account>) {
    && (forall a :: a in accounts ==> Distinct(Points(a.coins)))
    && (forall a, b :: a in accounts && b in accounts && a != b ==> a.idx != b.idx && Apart(a.coins, b.coins))
  }

  /** The coins of a list of accounts are distinct and are exactly theirs. */
  lemma {:induction false} CoinsOfPoints(accounts: seq<Account>, added: seq<int>)
    requires OwnCoins(accounts) && Distinct(added)
    requires forall idx :: idx in added ==> Find(accounts, idx).Some?
    ensures Distinct(Points(CoinsOf(accounts, added)))
    ensures forall op :: Holds(CoinsOf(accounts, added), op) <==> AddedPoint(accounts, added, op)
    decreases |added|
  {
    hide Holds;
    if added == [] {
      HoldsPoints([]);
      assert Points([]) == [];
    } else {
      var rest, x := added[..|added| - 1], added[|added| - 1];
      assert added == rest + [x];
      DistinctSplit(rest, [x]);
      CoinsOfPoints(accounts, rest);
      CoinsOfPointsSnoc(accounts, rest, x);
    }
  }

  lemma CoinsOfPointsSnoc(accounts: seq<Account>, rest: seq<int>, x: int)
    requires OwnCoins(accounts) && x !in rest && Find(accounts, x).Some?
    requires Distinct(Points(CoinsOf(accounts, rest)))
    requires forall op :: Holds(CoinsOf(accounts, rest), op) <==> AddedPoint(accounts, rest, op)
    ensures Distinct(Points(CoinsOf(accounts, rest) + Find(accounts, x).value.coins))
    ensures forall op :: Holds(CoinsOf(accounts, rest) + Find(accounts, x).value.coins, op)
                         <==> AddedPoint(accounts, rest + [x], op)
  {
    hide Holds;
    var a := Find(accounts, x).value;
    var before := CoinsOf(accounts, rest);
    HoldsConcat(before, a.coins);
    forall op ensures Holds(before + a.coins, op) <==> AddedPoint(accounts, rest + [x], op) {
      AddedPointSnoc(accounts, rest, x, op);
    }
    forall op ensures !(Holds(before, op) && Holds(a.coins, op)) {
      if AddedPoint(accounts, rest, op) {
        var b :| b in accounts && b.idx in rest && Holds(b.coins, op);
        assert b != a;
      }
    }
    DistinctPointsConcat(before, a.coins);
  }

  /** The accounts `outs` pays, in order of first appearance. */
  function PaidList(outs: seq<PlanOut>): seq<int> {
    if outs == [] then []
    else
      var r, o := PaidList(outs[..|outs| - 1]), outs[|outs| - 1];
      if o.Customer? && Idx(o.account) !in r then r + [Idx(o.account)] else r
  }

  lemma {:induction false} PaidListIs(outs: seq<PlanOut>)
    ensures Distinct(PaidList(outs))
    ensures forall idx :: idx in PaidList(outs) <==> Pays(outs, idx)
  {
    hide Pays;
    if outs == [] {
      PaysNobody();
    } else {
      var r, o := PaidList(outs[..|outs| - 1]), outs[|outs| - 1];
      PaidListIs(outs[..|outs| - 1]);
      forall idx ensures Pays(outs, idx) <==> idx in r || (o.Customer? && Idx(o.account) == idx) {
        PaysSnoc(outs, idx);
      }
      if o.Customer? && Idx(o.account) !in r {
        DistinctConcat(r, [Idx(o.account)]);
      }
    }
  }

  /** Accounts whose whole balance is planned hold together what is planned for them. */
  lemma {:induction false} CoinsOfHeld(accounts: seq<Account>, outs: seq<PlanOut>, added: seq<int>, asset: Asset)
    requires forall a :: a in accounts && Pays(outs, a.idx) ==> PlannedFor(outs, a.idx, asset) == Held(a.coins, asset)
    requires forall idx :: idx in added ==> Pays(outs, idx) && Find(accounts, idx).Some?
    ensures Held(CoinsOf(accounts, added), asset) == SumPlanned(outs, added, asset)
    decreases |added|
  {
    if added == [] {
      assert Outs([]) == [];
    } else {
      var rest, x := added[..|added| - 1], added[|added| - 1];
      CoinsOfHeld(accounts, outs, rest, asset);
      HeldConcat(CoinsOf(accounts, rest), Find(accounts, x).value.coins, asset);
    }
  }

  /** `owner` with every coin of `coins` claimed by `idx`. */
  function Owned(owner: map<OutPoint, int>, coins: seq<Coin>, idx: int): map<OutPoint, int> {
    if coins == [] then owner
    else Owned(owner, coins[..|coins| - 1], idx)[coins[|coins| - 1].op := idx]
  }

  lemma {:induction false} OwnedAt(owner: map<OutPoint, int>, coins: seq<Coin>, idx: int, op: OutPoint)
    ensures op in Owned(owner, coins, idx) <==> op in owner || Holds(coins, op)
    ensures Holds(coins, op) ==> Owned(owner, coins, idx)[op] == idx
    ensures !Holds(coins, op) && op in owner ==> Owned(owner, coins, idx)[op] == owner[op]
  {
    if coins != [] {
      var init, c := coins[..|coins| - 1], coins[|coins| - 1];
      OwnedAt(owner, init, idx, op);
      assert coins == init + [c];
      HoldsConcat(init, [c]);
      assert Holds([c], op) <==> c.op == op by {
        if c.op == op {
          assert c in [c];
        }
      }
    }
  }
}
