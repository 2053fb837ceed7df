/** The batched Elements federation-migration executor: one sweep transaction per plan entry, the fee
    account's change chained from each broadcast into the next, and the fee account itself crossing to the
    new federation only in the last transaction.

    `RunBatched` is the executor; `Execute` is the function it computes; the lemmas state what every run does
    to the ledger, whether it finishes or stops after any number of broadcasts. */
module ElementsMigration {
  import opened Wrappers
  import opened Ledger
  import opened SweepPlan
  import opened ChainedSweep

  /** The script of an explicit Elements fee output. */
  const NO_SCRIPT: Script := 0

  datatype PlanTx = PlanTx(outputs: seq<PlanOut>, isFeeFinal: bool)

  /** The calls the executor makes into code outside this repository, indexed by plan position. */
  datatype Env = Env(
    build: (nat, seq<Coin>, seq<TxOut>, Script) -> Option<Built>,
    finalizes: nat -> bool,
    accepts: nat -> bool,
    unblinds: nat -> bool)

  datatype Setup = Setup(
    accounts: seq<Account>, plan: seq<PlanTx>, feeIdx: int, policy: Asset, feeOld: Script, env: Env)

  datatype Error =
    | FeeAccountNotFunded | NoFeeUtxos | MissingAccount | BuildFailed | FinalizeFailed | BroadcastRejected
    | ChangeNotFound | CaptureFailed | NoTransaction

  /** The executor's variables, with everything broadcast so far. */
  datatype Run = Run(log: seq<Broadcast>, chained: Option<Coin>, feeSeedUsed: bool, error: Option<Error>)

  // ---------------------------------------------------------------------------
  // What one plan entry asks for
  // ---------------------------------------------------------------------------

  /** The inputs, recipients, report and input owners gathered from the outputs of one plan entry;
      `added` lists the accounts whose UTXOs are among the inputs. */
  datatype Assembly = Assembly(
    coins: seq<Coin>, recipients: seq<TxOut>, report: seq<(int, nat)>, owner: map<OutPoint, int>, added: seq<int>)

  function Assemble(accounts: seq<Account>, outs: seq<PlanOut>, feeDest: Script, policy: Asset): Option<Assembly> {
    if outs == [] then Some(Assembly([], [], [], map[], []))
    else
      match Assemble(accounts, outs[..|outs| - 1], feeDest, policy)
      case None => None
      case Some(a) =>
        match outs[|outs| - 1]
        case FeeChange(amount, asset) =>
          Some(if asset != policy then a.(recipients := a.recipients + [TxOut(feeDest, asset, amount)]) else a)
        case Customer(account, _, amount, asset) =>
          match Find(accounts, Idx(account))
          case None => None
          case Some(acct) =>
            Some(Pay(if Idx(account) in a.added then a else AddAccount(a, acct), acct, amount, asset))
  }

  function AddAccount(a: Assembly, acct: Account): Assembly {
    a.(coins := a.coins + acct.coins, owner := Owned(a.owner, acct.coins, acct.idx), added := a.added + [acct.idx])
  }

  function Pay(a: Assembly, acct: Account, amount: nat, asset: Asset): Assembly {
    a.(recipients := a.recipients + [TxOut(acct.dest, asset, amount)], report := a.report + [(acct.idx, amount)])
  }

  // ---------------------------------------------------------------------------
  // One step and a whole run
  // ---------------------------------------------------------------------------

  predicate Ready(s: Setup) {
    Find(s.accounts, s.feeIdx).Some? && Find(s.accounts, s.feeIdx).value.coins != []
  }

  function Fee(s: Setup): Account
    requires Ready(s)
  {
    Find(s.accounts, s.feeIdx).value
  }

  function FeeDest(s: Setup, txp: PlanTx): Script
    requires Ready(s)
  {
    if txp.isFeeFinal then Fee(s).dest else s.feeOld
  }

  /** The fee account's inputs to a transaction. */
  function FeeInputs(s: Setup, txp: PlanTx, chained: Option<Coin>, feeSeedUsed: bool): seq<Coin>
    requires Ready(s)
  {
    if txp.isFeeFinal then Fee(s).coins[if feeSeedUsed then 1 else 0..] + Carry(chained)
    else if chained.Some? then [chained.value]
    else [Fee(s).coins[0]]
  }

  function Step(s: Setup, r: Run, k: nat): Run
    requires Ready(s) && k < |s.plan|
  {
    var txp := s.plan[k];
    if r.error.Some? then r
    else
      match Assemble(s.accounts, txp.outputs, FeeDest(s, txp), s.policy)
      case None => r.(error := Some(MissingAccount))
      case Some(a) =>
        var feeCoins := FeeInputs(s, txp, r.chained, r.feeSeedUsed);
        var seedUsed := r.feeSeedUsed || (!txp.isFeeFinal && r.chained.None?);
        var r0 := Run(r.log, None, seedUsed, None);
        if a.coins + feeCoins == [] then r0
        else
          match s.env.build(k, a.coins + feeCoins, a.recipients, FeeDest(s, txp))
          case None => r0.(error := Some(BuildFailed))
          case Some(b) =>
            if !s.env.finalizes(k) then r0.(error := Some(FinalizeFailed))
            else if !s.env.accepts(k) then r0.(error := Some(BroadcastRejected))
            else
              var owner := Owned(a.owner, feeCoins, s.feeIdx);
              Capture(s, r0.(log := r.log + [Broadcast(b.tx, b.fee, owner, a.report, txp.isFeeFinal)]), k)
  }

  /** After a broadcast that is not the final one, the fee account's change becomes the next chained input. */
  function Capture(s: Setup, r: Run, k: nat): Run
    requires r.log != []
  {
    var b := r.log[|r.log| - 1];
    if b.isFeeFinal then r
    else if ChangeCoin(s.feeOld, b.tx).None? then r.(error := Some(ChangeNotFound))
    else if !s.env.unblinds(k) then r.(error := Some(CaptureFailed))
    else r.(chained := ChangeCoin(s.feeOld, b.tx))
  }

  /** The run after the first `k` plan entries. */
  function RunTo(s: Setup, k: nat): Run
    requires Ready(s) && k <= |s.plan|
  {
    if k == 0 then Run([], None, false, None) else Step(s, RunTo(s, k - 1), k - 1)
  }

  function Execute(s: Setup): Run {
    match Find(s.accounts, s.feeIdx)
    case None => Run([], None, false, Some(FeeAccountNotFunded))
    case Some(fee) => if fee.coins == [] then Run([], None, false, Some(NoFeeUtxos)) else RunTo(s, |s.plan|)
  }

  lemma {:induction false} ErrorStops(s: Setup, k: nat, n: nat)
    requires Ready(s) && k <= n <= |s.plan| && RunTo(s, k).error.Some?
    ensures RunTo(s, n) == RunTo(s, k)
  {
    hide Step;
    if k < n {
      ErrorStops(s, k, n - 1);
      StepStops(s, RunTo(s, k), n - 1);
    }
  }

  lemma StepStops(s: Setup, r: Run, k: nat)
    requires Ready(s) && k < |s.plan| && r.error.Some?
    ensures Step(s, r, k) == r
  {
  }

  // ---------------------------------------------------------------------------
  // The executor
  // ---------------------------------------------------------------------------

  /** Add one account's coins to the inputs and record it as their owner. */
  method PushCoins(owner: map<OutPoint, int>, inputs: seq<Coin>, coins: seq<Coin>, idx: int)
    returns (owner': map<OutPoint, int>, inputs': seq<Coin>)
    ensures owner' == Owned(owner, coins, idx) && inputs' == inputs + coins
  {
    owner', inputs' := owner, inputs;
    for i := 0 to |coins|
      invariant owner' == Owned(owner, coins[..i], idx)
      invariant inputs' == inputs + coins[..i]
    {
      assert coins[..i + 1][..i] == coins[..i];
      owner' := owner'[coins[i].op := idx];
      inputs' := inputs' + [coins[i]];
    }
    assert coins[..|coins|] == coins;
  }

  method Gather(accounts: seq<Account>, outs: seq<PlanOut>, feeDest: Script, policy: Asset)
    returns (r: Option<Assembly>)
    ensures r == Assemble(accounts, outs, feeDest, policy)
  {
    var inputs: seq<Coin> := [];
    var recipients: seq<TxOut> := [];
    var report: seq<(int, nat)> := [];
    var owner: map<OutPoint, int> := map[];
    var added: seq<int> := [];
    for i := 0 to |outs|
      invariant Assemble(accounts, outs[..i], feeDest, policy)
             == Some(Assembly(inputs, recipients, report, owner, added))
    {
      assert outs[..i + 1][..i] == outs[..i];
      match outs[i] {
        case Customer(account, _, amount, asset) =>
          var idx := Idx(account);
          var found := Find(accounts, idx);
          if found.None? {
            NoneStays(accounts, outs, i + 1, feeDest, policy);
            return None;
          }
          if idx !in added {
            added := added + [idx];
            owner, inputs := PushCoins(owner, inputs, found.value.coins, idx);
          }
          recipients := recipients + [TxOut(found.value.dest, asset, amount)];
          report := report + [(idx, amount)];
        case FeeChange(amount, asset) =>
          if asset != policy {
            recipients := recipients + [TxOut(feeDest, asset, amount)];
          }
      }
    }
    assert outs[..|outs|] == outs;
    return Some(Assembly(inputs, recipients, report, owner, added));
  }

  lemma {:induction false} NoneStays(accounts: seq<Account>, outs: seq<PlanOut>, i: nat, feeDest: Script, policy: Asset)
    requires i <= |outs| && Assemble(accounts, outs[..i], feeDest, policy).None?
    ensures Assemble(accounts, outs, feeDest, policy).None?
    decreases |outs|
  {
    if i == |outs| {
      assert outs[..i] == outs;
    } else {
      assert outs[..|outs| - 1][..i] == outs[..i];
      NoneStays(accounts, outs[..|outs| - 1], i, feeDest, policy);
    }
  }

  /** The fee account's share of a transaction: what remains of its UTXOs in the final one; the chained
      change, or the seed that starts the chain, in every other. */
  method PushFeeInputs(s: Setup, txp: PlanTx, chained: Option<Coin>, feeSeedUsed: bool,
                       owner: map<OutPoint, int>, inputs: seq<Coin>)
    returns (owner': map<OutPoint, int>, inputs': seq<Coin>, feeSeedUsed': bool)
    requires Ready(s)
    ensures inputs' == inputs + FeeInputs(s, txp, chained, feeSeedUsed)
    ensures owner' == Owned(owner, FeeInputs(s, txp, chained, feeSeedUsed), s.feeIdx)
    ensures feeSeedUsed' == (feeSeedUsed || (!txp.isFeeFinal && chained.None?))
  {
    var feeCoins := Fee(s).coins;
    owner', inputs', feeSeedUsed' := owner, inputs, feeSeedUsed;
    if txp.isFeeFinal {
      var start := if feeSeedUsed then 1 else 0;
      var rest := feeCoins[start..];
      owner', inputs' := PushCoins(owner', inputs', rest, s.feeIdx);
      if chained.Some? {
        OwnedSnoc(owner, rest, chained.value, s.feeIdx);
        owner', inputs' := owner'[chained.value.op := s.feeIdx], inputs' + [chained.value];
      } else {
        assert rest + [] == rest;
      }
    } else if chained.Some? {
      OwnedSnoc(owner, [], chained.value, s.feeIdx);
      owner', inputs' := owner'[chained.value.op := s.feeIdx], inputs' + [chained.value];
    } else {
      OwnedSnoc(owner, [], feeCoins[0], s.feeIdx);
      owner', inputs' := owner'[feeCoins[0].op := s.feeIdx], inputs' + [feeCoins[0]];
      feeSeedUsed' := true;
    }
  }

  lemma OwnedSnoc(owner: map<OutPoint, int>, coins: seq<Coin>, c: Coin, idx: int)
    ensures Owned(owner, coins + [c], idx) == Owned(owner, coins, idx)[c.op := idx]
    ensures coins == [] ==> coins + [c] == [c]
  {
    assert (coins + [c])[..|coins + [c]| - 1] == coins;
  }

  /** The body of the executor's loop: build, sign, finalize and broadcast one sweep transaction. */
  method Sweep(s: Setup, r: Run, k: nat) returns (r': Run)
    requires Ready(s) && k < |s.plan| && r.error.None?
    ensures r' == Step(s, r, k)
  {
    var txp := s.plan[k];
    var feeDest := FeeDest(s, txp);
    var gathered := Gather(s.accounts, txp.outputs, feeDest, s.policy);
    if gathered.None? {
      return r.(error := Some(MissingAccount));
    }
    var a := gathered.value;
    var owner, inputs, feeSeedUsed := PushFeeInputs(s, txp, r.chained, r.feeSeedUsed, a.owner, a.coins);
    var log, chained := r.log, None;
    if inputs == [] {
      return Run(log, chained, feeSeedUsed, None);
    }
    var built := s.env.build(k, inputs, a.recipients, feeDest);
    if built.None? {
      return Run(log, chained, feeSeedUsed, Some(BuildFailed));
    }
    if !s.env.finalizes(k) {
      return Run(log, chained, feeSeedUsed, Some(FinalizeFailed));
    }
    if !s.env.accepts(k) {
      return Run(log, chained, feeSeedUsed, Some(BroadcastRejected));
    }
    var tx := built.value.tx;
    log := log + [Broadcast(tx, built.value.fee, owner, a.report, txp.isFeeFinal)];
    if !txp.isFeeFinal {
      var vout := FirstAt(tx.outputs, s.feeOld);
      if vout.None? {
        return Run(log, chained, feeSeedUsed, Some(ChangeNotFound));
      }
      if !s.env.unblinds(k) {
        return Run(log, chained, feeSeedUsed, Some(CaptureFailed));
      }
      chained := Some(Coin(OutPoint(Hash(tx), vout.value), tx.outputs[vout.value]));
    }
    return Run(log, chained, feeSeedUsed, None);
  }

  method Walk(s: Setup) returns (r: Run)
    requires Ready(s)
    ensures r == RunTo(s, |s.plan|)
  {
    hide Step;
    r := Run([], None, false, None);
    var k := 0;
    while k < |s.plan| && r.error.None?
      invariant k <= |s.plan| && r == RunTo(s, k)
    {
      r := Sweep(s, r, k);
      k := k + 1;
    }
    if r.error.Some? {
      ErrorStops(s, k, |s.plan|);
    }
  }

  /** Look the fee account up, then walk the plan, stopping at the first failure. */
  method RunBatched(s: Setup) returns (r: Run)
    ensures r == Execute(s)
  {
    r := Run([], None, false, None);
    var found := Find(s.accounts, s.feeIdx);
    if found.None? {
      return r.(error := Some(FeeAccountNotFunded));
    }
    if found.value.coins == [] {
      return r.(error := Some(NoFeeUtxos));
    }
    r := Walk(s);
  }
}
