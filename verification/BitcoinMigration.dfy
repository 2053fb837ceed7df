/** The Bitcoin federation-migration executor.  Its plan names source outpoints; from the second transaction on
    one of them is a placeholder with a zero txid, resolved with the fee-change data kept from an earlier
    broadcast.

    `RunPlan` is the executor, `RunTo` the function it computes; what it keeps between broadcasts is stated for
    every plan, well formed or not. */
module BitcoinMigration {
  import opened Wrappers
  import opened Ledger
  import opened SweepPlan
  import opened ChainedSweep

  const BTC: Asset := 0
  const ZERO_TXID: Txid := Known(0)

  datatype PlanTx = PlanTx(sources: seq<OutPoint>, outputs: seq<PlanOut>, isFeeFinal: bool)

  /** The calls the executor makes into code outside this file: a wallet's description of one of its UTXOs, the
      BDK builder, signing, finalizing, broadcasting, and rebuilding the change as an input of the old descriptor. */
  datatype Env = Env(
    input: (int, OutPoint) -> Option<TxOut>,
    build: (nat, seq<Coin>, seq<TxOut>, Option<Script>) -> Option<Built>,
    signs: nat -> bool,
    finalizes: nat -> bool,
    accepts: nat -> bool,
    rebuilds: nat -> bool)

  /** `wallets` lists the account index of every loaded wallet; `feeWallet` is the fee account's position in it. */
  datatype Setup = Setup(
    accounts: seq<Account>, wallets: seq<int>, plan: seq<PlanTx>, fee: Account, feeWallet: nat, feeOld: Script, env: Env)

  datatype Error =
    | NoChainedChange | InputNotFound | BuildFailed | SigningFailed | FinalizeFailed | BroadcastRejected

  /** The executor's variables, with everything broadcast so far. */
  datatype Run = Run(log: seq<Broadcast>, feeChange: Option<Coin>, error: Option<Error>)

  // ---------------------------------------------------------------------------
  // Who owns what
  // ---------------------------------------------------------------------------

  /** The wallet of an account, the last one loaded winning. */
  function WalletOf(wallets: seq<int>, idx: int): (r: Option<nat>)
    ensures r.Some? ==> r.value < |wallets| && wallets[r.value] == idx && forall j :: r.value < j < |wallets| ==> wallets[j] != idx
    ensures r.None? <==> idx !in wallets
  {
    if wallets == [] then None
    else if wallets[|wallets| - 1] == idx then Some(|wallets| - 1)
    else WalletOf(wallets[..|wallets| - 1], idx)
  }

  /** The owning wallet of every captured UTXO whose account has a wallet. */
  function Owners(accounts: seq<Account>, wallets: seq<int>): map<OutPoint, int> {
    if accounts == [] then map[]
    else
      var a := accounts[|accounts| - 1];
      var rest := Owners(accounts[..|accounts| - 1], wallets);
      match WalletOf(wallets, a.idx)
      case None => rest
      case Some(wi) => Owned(rest, a.coins, wi)
  }

  method BuildOwners(accounts: seq<Account>, wallets: seq<int>) returns (owners: map<OutPoint, int>)
    ensures owners == Owners(accounts, wallets)
  {
    owners := map[];
    for i := 0 to |accounts|
      invariant owners == Owners(accounts[..i], wallets)
    {
      assert accounts[..i + 1][..i] == accounts[..i];
      var wi := WalletOf(wallets, accounts[i].idx);
      if wi.Some? {
        owners := Claim(owners, accounts[i].coins, wi.value);
      }
    }
    assert accounts[..|accounts|] == accounts;
  }

  method Claim(owner: map<OutPoint, int>, coins: seq<Coin>, idx: int) returns (r: map<OutPoint, int>)
    ensures r == Owned(owner, coins, idx)
  {
    r := owner;
    for i := 0 to |coins|
      invariant r == Owned(owner, coins[..i], idx)
    {
      assert coins[..i + 1][..i] == coins[..i];
      r := r[coins[i].op := idx];
    }
    assert coins[..|coins|] == coins;
  }

  // ---------------------------------------------------------------------------
  // What one plan entry asks for
  // ---------------------------------------------------------------------------

  predicate HasPlaceholder(sources: seq<OutPoint>) {
    exists op :: op in sources && op.txid == ZERO_TXID
  }

  /** The real sources with an owner, described by their wallets; a source without an owner is passed over. */
  function Resolve(owners: map<OutPoint, int>, input: (int, OutPoint) -> Option<TxOut>, sources: seq<OutPoint>): Option<seq<Coin>> {
    if sources == [] then Some([])
    else
      var op := sources[|sources| - 1];
      match Resolve(owners, input, sources[..|sources| - 1])
      case None => None
      case Some(coins) =>
        if op.txid == ZERO_TXID || op !in owners then Some(coins)
        else match input(owners[op], op)
          case None => None
          case Some(out) => Some(coins + [Coin(op, out)])
  }

  function Recipients(outs: seq<PlanOut>): seq<TxOut> {
    if outs == [] then []
    else
      var r, o := Recipients(outs[..|outs| - 1]), outs[|outs| - 1];
      if o.Customer? then r + [TxOut(o.address, BTC, o.amount)] else r
  }

  function Report(outs: seq<PlanOut>): seq<(int, nat)> {
    if outs == [] then []
    else
      var r, o := Report(outs[..|outs| - 1]), outs[|outs| - 1];
      if o.Customer? then r + [(o.account, o.amount)] else r
  }

  predicate ReturnsChange(outs: seq<PlanOut>) {
    exists o :: o in outs && o.FeeChange?
  }

  function FeeDest(s: Setup, txp: PlanTx): Script {
    if txp.isFeeFinal then s.fee.dest else s.feeOld
  }

  function Drain(s: Setup, txp: PlanTx): Option<Script> {
    if ReturnsChange(txp.outputs) then Some(FeeDest(s, txp)) else None
  }

  /** The wallet that signs each input: the fee account's for the chained change, the owner's for the rest. */
  function SigningWallet(s: Setup, carry: seq<Coin>, coins: seq<Coin>): map<OutPoint, int> {
    Signing(Owned(map[], carry, s.feeWallet), Owners(s.accounts, s.wallets), coins)
  }

  function Signing(start: map<OutPoint, int>, owners: map<OutPoint, int>, coins: seq<Coin>): map<OutPoint, int> {
    if coins == [] then start
    else
      var op, m := coins[|coins| - 1].op, Signing(start, owners, coins[..|coins| - 1]);
      if op in owners then m[op := owners[op]] else m
  }

  // ---------------------------------------------------------------------------
  // One step and a whole run
  // ---------------------------------------------------------------------------

  /** The chained change a plan entry consumes. */
  function TakenChange(r: Run, txp: PlanTx): seq<Coin> {
    if HasPlaceholder(txp.sources) then Carry(r.feeChange) else []
  }

  function Step(s: Setup, r: Run, k: nat): Run
    requires k < |s.plan|
  {
    var txp := s.plan[k];
    var carry := TakenChange(r, txp);
    if r.error.Some? then r
    else if HasPlaceholder(txp.sources) && r.feeChange.None? then r.(error := Some(NoChainedChange))
    else
      var r0 := if HasPlaceholder(txp.sources) then r.(feeChange := None) else r;
      match Resolve(Owners(s.accounts, s.wallets), s.env.input, txp.sources)
      case None => r0.(error := Some(InputNotFound))
      case Some(coins) =>
        match s.env.build(k, carry + coins, Recipients(txp.outputs), Drain(s, txp))
        case None => r0.(error := Some(BuildFailed))
        case Some(b) =>
          if !s.env.signs(k) then r0.(error := Some(SigningFailed))
          else if !s.env.finalizes(k) then r0.(error := Some(FinalizeFailed))
          else if !s.env.accepts(k) then r0.(error := Some(BroadcastRejected))
          else
            var entry := Broadcast(b.tx, b.fee, SigningWallet(s, carry, coins), Report(txp.outputs), txp.isFeeFinal);
            Capture(s, r0.(log := r0.log + [entry]), k)
  }

  /** Whether the change of an accepted broadcast becomes the fee-change data: a final transaction has none, and
      a change that cannot be rebuilt only draws a warning. */
  predicate Captures(s: Setup, b: Broadcast, k: nat) {
    !b.isFeeFinal && ChangeCoin(s.feeOld, b.tx).Some? && s.env.rebuilds(k)
  }

  function Capture(s: Setup, r: Run, k: nat): Run
    requires r.log != []
  {
    var b := r.log[|r.log| - 1];
    if Captures(s, b, k) then r.(feeChange := ChangeCoin(s.feeOld, b.tx)) else r
  }

  /** The run after the first `k` plan entries. */
  function RunTo(s: Setup, k: nat): Run
    requires k <= |s.plan|
  {
    if k == 0 then Run([], None, None) else Step(s, RunTo(s, k - 1), k - 1)
  }

  lemma {:induction false} ErrorStops(s: Setup, k: nat, n: nat)
    requires k <= n <= |s.plan| && RunTo(s, k).error.Some?
    ensures RunTo(s, n) == RunTo(s, k)
  {
    if k < n {
      ErrorStops(s, k, n - 1);
    }
  }

  // ---------------------------------------------------------------------------
  // The executor
  // ---------------------------------------------------------------------------

  method CollectInputs(s: Setup, owners: map<OutPoint, int>, sources: seq<OutPoint>, carry: seq<Coin>)
    returns (coins: Option<seq<Coin>>, walletOf: map<OutPoint, int>)
    requires owners == Owners(s.accounts, s.wallets)
    ensures coins == Resolve(owners, s.env.input, sources)
    ensures coins.Some? ==> walletOf == SigningWallet(s, carry, coins.value)
  {
    var found: seq<Coin> := [];
    walletOf := Claim(map[], carry, s.feeWallet);
    for i := 0 to |sources|
      invariant Resolve(owners, s.env.input, sources[..i]) == Some(found)
      invariant walletOf == SigningWallet(s, carry, found)
    {
      assert sources[..i + 1][..i] == sources[..i];
      var op := sources[i];
      if op.txid != ZERO_TXID && op in owners {
        var out := s.env.input(owners[op], op);
        if out.None? {
          NoneStays(owners, s.env.input, sources, i + 1);
          return None, walletOf;
        }
        assert (found + [Coin(op, out.value)])[..|found|] == found;
        found := found + [Coin(op, out.value)];
        walletOf := walletOf[op := owners[op]];
      }
    }
    assert sources[..|sources|] == sources;
    return Some(found), walletOf;
  }

  lemma {:induction false} NoneStays(owners: map<OutPoint, int>, input: (int, OutPoint) -> Option<TxOut>, sources: seq<OutPoint>, i: nat)
    requires i <= |sources| && Resolve(owners, input, sources[..i]).None?
    ensures Resolve(owners, input, sources).None?
    decreases |sources|
  {
    if i == |sources| {
      assert sources[..i] == sources;
    } else {
      assert sources[..|sources| - 1][..i] == sources[..i];
      NoneStays(owners, input, sources[..|sources| - 1], i);
    }
  }

  /** The builder calls of one plan entry: an exact recipient per customer, the drain for any fee change. */
  method CollectOutputs(s: Setup, txp: PlanTx)
    returns (recipients: seq<TxOut>, drain: Option<Script>, report: seq<(int, nat)>)
    ensures recipients == Recipients(txp.outputs) && drain == Drain(s, txp) && report == Report(txp.outputs)
    ensures drain.Some? <==> exists o :: o in txp.outputs && o.FeeChange?
    ensures drain.Some? ==> drain.value == if txp.isFeeFinal then s.fee.dest else s.feeOld
  {
    recipients, drain, report := [], None, [];
    var outs := txp.outputs;
    for i := 0 to |outs|
      invariant recipients == Recipients(outs[..i]) && report == Report(outs[..i])
      invariant drain == if ReturnsChange(outs[..i]) then Some(FeeDest(s, txp)) else None
    {
      assert outs[..i + 1] == outs[..i] + [outs[i]];
      match outs[i] {
        case Customer(account, address, amount, _) =>
          recipients := recipients + [TxOut(address, BTC, amount)];
          report := report + [(account, amount)];
        case FeeChange(_, _) =>
          assert outs[i] in outs[..i + 1];
          drain := Some(if txp.isFeeFinal then s.fee.dest else s.feeOld);
      }
    }
    assert outs[..|outs|] == outs;
  }

  /** Scan the outputs for the fee account's old script, stopping at the first. */
  method FindChange(tx: Tx, feeOld: Script) returns (c: Option<Coin>)
    ensures c == ChangeCoin(feeOld, tx)
  {
    for vout := 0 to |tx.outputs|
      invariant forall i :: 0 <= i < vout ==> tx.outputs[i].script != feeOld
    {
      if tx.outputs[vout].script == feeOld {
        return Some(Coin(OutPoint(Hash(tx), vout), tx.outputs[vout]));
      }
    }
    return None;
  }

  /** The body of the executor's loop. */
  method Sweep(s: Setup, owners: map<OutPoint, int>, r: Run, k: nat) returns (r': Run)
    requires owners == Owners(s.accounts, s.wallets) && k < |s.plan| && r.error.None?
    ensures r' == Step(s, r, k)
  {
    var txp := s.plan[k];
    var feeChange, carry := r.feeChange, [];
    if HasPlaceholder(txp.sources) {
      if feeChange.None? {
        return r.(error := Some(NoChainedChange));
      }
      carry := [feeChange.value];
      feeChange := None;
    }
    var coins, walletOf := CollectInputs(s, owners, txp.sources, carry);
    if coins.None? {
      return Run(r.log, feeChange, Some(InputNotFound));
    }
    var recipients, drain, report := CollectOutputs(s, txp);
    var built := s.env.build(k, carry + coins.value, recipients, drain);
    if built.None? {
      return Run(r.log, feeChange, Some(BuildFailed));
    }
    if !s.env.signs(k) {
      return Run(r.log, feeChange, Some(SigningFailed));
    }
    if !s.env.finalizes(k) {
      return Run(r.log, feeChange, Some(FinalizeFailed));
    }
    if !s.env.accepts(k) {
      return Run(r.log, feeChange, Some(BroadcastRejected));
    }
    var tx := built.value.tx;
    if !txp.isFeeFinal {
      var c := FindChange(tx, s.feeOld);
      if c.Some? && s.env.rebuilds(k) {
        feeChange := c;
      }
    }
    return Run(r.log + [Broadcast(tx, built.value.fee, walletOf, report, txp.isFeeFinal)], feeChange, None);
  }

  /** Walk the plan, stopping at the first failure. */
  method RunPlan(s: Setup) returns (r: Run)
    ensures r == RunTo(s, |s.plan|)
  {
    hide Step;
    r := Run([], None, None);
    var owners := BuildOwners(s.accounts, s.wallets);
    var k := 0;
    while k < |s.plan| && r.error.None?
      invariant k <= |s.plan| && r == RunTo(s, k)
    {
      r := Sweep(s, owners, r, k);
      k := k + 1;
    }
    if r.error.Some? {
      ErrorStops(s, k, |s.plan|);
    }
  }

  // ---------------------------------------------------------------------------
  // Where the fee-change data comes from, whatever the plan
  // ---------------------------------------------------------------------------

  /** `c` is the change captured from broadcast `j`, and since then no entry before `k` consumed it or captured
      another. */
  ghost predicate CapturedAt(s: Setup, log: seq<Broadcast>, j: nat, k: nat, c: Coin) {
    && j < k <= |s.plan| && k <= |log|
    && Captures(s, log[j], j) && ChangeCoin(s.feeOld, log[j].tx) == Some(c)
    && forall i :: j < i < k ==> !HasPlaceholder(s.plan[i].sources) && !Captures(s, log[i], i)
  }

  /** What a step that does not stop the run does to its variables. */
  lemma StepEffect(s: Setup, r: Run, k: nat)
    requires k < |s.plan|
    ensures r.log <= Step(s, r, k).log && |Step(s, r, k).log| <= |r.log| + 1
    ensures Step(s, r, k).error.None? ==>
      && r.error.None?
      && |Step(s, r, k).log| == |r.log| + 1
      && var entry := Step(s, r, k).log[|r.log|];
      && entry.isFeeFinal == s.plan[k].isFeeFinal
      && Step(s, r, k).feeChange == (if Captures(s, entry, k) then ChangeCoin(s.feeOld, entry.tx)
                                     else if HasPlaceholder(s.plan[k].sources) then None
                                     else r.feeChange)
  {
    hide Resolve;
    hide Recipients;
    hide Report;
    hide Drain;
    hide Owners;
    hide SigningWallet;
    hide ChangeCoin;
  }

  /** After `k` entries: one broadcast per entry unless the run has stopped; fee-change data, when present, was
      captured from a broadcast and has not been consumed since. */
  lemma {:induction false} FeeChangeOrigin(s: Setup, k: nat)
    requires k <= |s.plan|
    ensures |RunTo(s, k).log| <= k
    ensures RunTo(s, k).error.None? ==> |RunTo(s, k).log| == k
    ensures RunTo(s, k).error.None? && RunTo(s, k).feeChange.Some? ==>
      exists j: nat :: CapturedAt(s, RunTo(s, k).log, j, k, RunTo(s, k).feeChange.value)
  {
    hide Step;
    hide ChangeCoin;
    hide HasPlaceholder;
    hide Captures;
    if k > 0 {
      var r, r' := RunTo(s, k - 1), RunTo(s, k);
      FeeChangeOrigin(s, k - 1);
      StepEffect(s, r, k - 1);
      if r'.error.None? && r'.feeChange.Some? {
        if Captures(s, r'.log[k - 1], k - 1) {
          assert CapturedAt(s, r'.log, k - 1, k, r'.feeChange.value);
        } else {
          var j: nat :| CapturedAt(s, r.log, j, k - 1, r.feeChange.value);
          assert forall i :: 0 <= i < k - 1 ==> r'.log[i] == r.log[i];
          assert CapturedAt(s, r'.log, j, k, r'.feeChange.value);
        }
      }
    }
  }

  /** When every entry but the first carries a placeholder, the change consumed by an entry is that of the
      broadcast just before it: never an earlier one, and never twice. */
  lemma {:induction false} NeverStale(s: Setup, k: nat)
    requires 0 < k <= |s.plan|
    requires forall i :: 0 < i < k ==> HasPlaceholder(s.plan[i].sources)
    requires RunTo(s, k).error.None?
    ensures |RunTo(s, k).log| == k
    ensures RunTo(s, k).feeChange
            == if Captures(s, RunTo(s, k).log[k - 1], k - 1) then ChangeCoin(s.feeOld, RunTo(s, k).log[k - 1].tx) else None
  {
    hide Step;
    hide ChangeCoin;
    hide HasPlaceholder;
    hide Captures;
    FeeChangeOrigin(s, k);
    FeeChangeOrigin(s, k - 1);
    StepEffect(s, RunTo(s, k - 1), k - 1);
    if k == 1 {
      assert RunTo(s, 0).feeChange.None?;
    } else {
      assert HasPlaceholder(s.plan[k - 1].sources);
    }
  }

  /** A placeholder is resolved or the run stops without touching the ledger again. */
  lemma ResolvedOrStopped(s: Setup, k: nat)
    requires k < |s.plan| && RunTo(s, k).error.None? && HasPlaceholder(s.plan[k].sources)
    ensures RunTo(s, k).feeChange.None? ==>
      RunTo(s, |s.plan|).error == Some(NoChainedChange) && RunTo(s, |s.plan|).log == RunTo(s, k).log
    ensures RunTo(s, k + 1).error.None? ==> TakenChange(RunTo(s, k), s.plan[k]) == [RunTo(s, k).feeChange.value]
  {
    if RunTo(s, k).feeChange.None? {
      ErrorStops(s, k + 1, |s.plan|);
    }
  }
}
