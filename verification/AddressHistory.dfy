/** The history of one Bitcoin address over all federation-version wallets. */
module AddressHistory {
  import opened Wrappers
  import opened Ledger
  import Sorting

  const U32_MAX: nat := 0xFFFF_FFFF

  /** A transaction of a wallet's view: confirmed at a height, or still in the mempool. */
  datatype WalletTx = WalletTx(txid: Txid, outputs: seq<TxOut>, height: Option<nat>)

  /** One version wallet: its transactions, and which of its own outputs are spent. */
  datatype View = View(txs: seq<WalletTx>, spent: map<OutPoint, bool>)

  datatype Receipt = Receipt(op: OutPoint, amount: nat, height: Option<nat>, confirmations: nat, spent: bool)

  datatype Activity = Activity(total: nat, unspent: nat, receipts: seq<Receipt>)

  function Confirmations(tip: nat, height: Option<nat>): nat {
    if height.None? then 0
    else
      var deep := if tip > height.value then tip - height.value else 0;
      if deep < U32_MAX then deep + 1 else U32_MAX
  }

  /** What a receipt says: the output's value, the transaction's height, whether the wallet has it spent, and its depth
      under a tip: 1 at the tip, one more for every block below, never more than 32 bits hold, 0 when unconfirmed. */
  ghost predicate Truthful(view: View, wtx: WalletTx, vout: nat, tip: nat, r: Receipt)
    requires vout < |wtx.outputs|
  {
    && r.op.txid == wtx.txid && r.op.vout == vout
    && r.amount == wtx.outputs[vout].value && r.height == wtx.height
    && (r.spent <==> r.op in view.spent && view.spent[r.op])
    && (wtx.height.None? ==> r.confirmations == 0)
    && (wtx.height.Some? && wtx.height.value >= tip ==> r.confirmations == 1)
    && (wtx.height.Some? && wtx.height.value < tip && tip - wtx.height.value < 0xFFFF_FFFF ==>
          r.confirmations == tip - wtx.height.value + 1)
    && (wtx.height.Some? && tip - wtx.height.value >= 0xFFFF_FFFF ==> r.confirmations == 0xFFFF_FFFF)
  }

  /** One block deeper, one confirmation more. */
  lemma DeeperByOne(tip: nat, height: nat)
    requires height < tip && tip - height < 0xFFFF_FFFF
    ensures Confirmations(tip, Some(tip)) == 1
    ensures Confirmations(tip, Some(height)) == Confirmations(tip, Some(height + 1)) + 1
    ensures Confirmations(tip, None) == 0
  {
  }

  function ReceiptOf(view: View, wtx: WalletTx, vout: nat, tip: nat): Receipt
    requires vout < |wtx.outputs|
  {
    var op := OutPoint(wtx.txid, vout);
    Receipt(op, wtx.outputs[vout].value, wtx.height, Confirmations(tip, wtx.height),
            if op in view.spent then view.spent[op] else false)
  }

  function Received(rs: seq<Receipt>): nat {
    if rs == [] then 0 else Received(rs[..|rs| - 1]) + rs[|rs| - 1].amount
  }

  function Unspent(rs: seq<Receipt>): nat {
    if rs == [] then 0
    else Unspent(rs[..|rs| - 1]) + (if rs[|rs| - 1].spent then 0 else rs[|rs| - 1].amount)
  }

  /** An output of one of the first `n` transactions of the view, and of the first `m` outputs of the next one,
      that pays `spk`. */
  ghost predicate PaysUpTo(view: View, spk: Script, n: nat, m: nat, op: OutPoint)
    requires n <= |view.txs| && (m > 0 ==> n < |view.txs| && m <= |view.txs[n].outputs|)
  {
    || (exists t, o :: 0 <= t < n && 0 <= o < |view.txs[t].outputs| && view.txs[t].outputs[o].script == spk
                       && op == OutPoint(view.txs[t].txid, o))
    || (exists o :: 0 <= o < m && view.txs[n].outputs[o].script == spk && op == OutPoint(view.txs[n].txid, o))
  }

  ghost predicate Pays(view: View, spk: Script, op: OutPoint) {
    PaysUpTo(view, spk, |view.txs|, 0, op)
  }

  /** `r` is the receipt of an output of this view. */
  ghost predicate From(view: View, spk: Script, tip: nat, r: Receipt) {
    exists t, o :: 0 <= t < |view.txs| && 0 <= o < |view.txs[t].outputs| && view.txs[t].outputs[o].script == spk
                   && r == ReceiptOf(view, view.txs[t], o, tip) && Truthful(view, view.txs[t], o, tip, r)
  }

  datatype Acc = Acc(seen: set<OutPoint>, activity: Activity)

  /** Each outpoint once, and totals that are those of the receipts. */
  ghost predicate Consistent(acc: Acc) {
    var rs := acc.activity.receipts;
    && (forall op :: op in acc.seen <==> HasOp(rs, op))
    && (forall i, j :: 0 <= i < j < |rs| ==> rs[i].op != rs[j].op)
    && acc.activity.total == Received(rs)
    && acc.activity.unspent == Unspent(rs)
  }

  /** What looking at one output does. */
  function Look(acc: Acc, r: Receipt): Acc {
    if r.op in acc.seen then acc
    else
      var a := acc.activity;
      Acc(acc.seen + {r.op},
          Activity(a.total + r.amount, if r.spent then a.unspent else a.unspent + r.amount, a.receipts + [r]))
  }

  lemma LookTotals(rs: seq<Receipt>, r: Receipt)
    ensures Received(rs + [r]) == Received(rs) + r.amount
    ensures Unspent(rs + [r]) == Unspent(rs) + (if r.spent then 0 else r.amount)
  {
    assert (rs + [r])[..|rs|] == rs;
  }

  ghost predicate HasOp(rs: seq<Receipt>, op: OutPoint) {
    exists i :: 0 <= i < |rs| && rs[i].op == op
  }

  lemma HasOpSnoc(rs: seq<Receipt>, r: Receipt, op: OutPoint)
    ensures HasOp(rs + [r], op) <==> HasOp(rs, op) || op == r.op
  {
    var rs' := rs + [r];
    if HasOp(rs, op) {
      var i :| 0 <= i < |rs| && rs[i].op == op;
      assert rs'[i].op == op;
    }
    assert rs'[|rs|].op == r.op;
  }

  lemma LookKeeps(acc: Acc, r: Receipt)
    requires Consistent(acc)
    ensures Consistent(Look(acc, r))
    ensures r.op in Look(acc, r).seen
  {
    if r.op !in acc.seen {
      var rs := acc.activity.receipts;
      LookTotals(rs, r);
      forall op ensures HasOp(rs + [r], op) <==> HasOp(rs, op) || op == r.op {
        HasOpSnoc(rs, r, op);
      }
      assert !HasOp(rs, r.op);
    }
  }

  /** What one view adds to what the earlier views left. */
  ghost predicate Scanned(view: View, spk: Script, tip: nat, n: nat, m: nat, before: Acc, after: Acc)
    requires n <= |view.txs| && (m > 0 ==> n < |view.txs| && m <= |view.txs[n].outputs|)
  {
    && Consistent(after)
    && (forall op :: op in after.seen <==> op in before.seen || PaysUpTo(view, spk, n, m, op))
    && before.activity.receipts <= after.activity.receipts
    && (forall i :: |before.activity.receipts| <= i < |after.activity.receipts| ==>
          From(view, spk, tip, after.activity.receipts[i]) && after.activity.receipts[i].op !in before.seen)
  }

  lemma LookScans(view: View, spk: Script, tip: nat, n: nat, m: nat, before: Acc, acc: Acc)
    requires n < |view.txs| && m < |view.txs[n].outputs| && Scanned(view, spk, tip, n, m, before, acc)
    ensures Scanned(view, spk, tip, n, m + 1, before,
                    if view.txs[n].outputs[m].script == spk then Look(acc, ReceiptOf(view, view.txs[n], m, tip)) else acc)
  {
    hide Consistent;
    hide From;
    hide PaysUpTo;
    hide ReceiptOf;
    var r := ReceiptOf(view, view.txs[n], m, tip);
    LookKeeps(acc, r);
    forall op ensures PaysUpTo(view, spk, n, m + 1, op)
                      <==> PaysUpTo(view, spk, n, m, op)
                           || (view.txs[n].outputs[m].script == spk && op == OutPoint(view.txs[n].txid, m))
    {
      PaysNext(view, spk, n, m, op);
    }
    ReceiptIsFrom(view, spk, tip, n, m);
  }

  lemma PaysNext(view: View, spk: Script, n: nat, m: nat, op: OutPoint)
    requires n < |view.txs| && m < |view.txs[n].outputs|
    ensures PaysUpTo(view, spk, n, m + 1, op)
            <==> PaysUpTo(view, spk, n, m, op)
                 || (view.txs[n].outputs[m].script == spk && op == OutPoint(view.txs[n].txid, m))
  {
  }

  lemma ReceiptIsFrom(view: View, spk: Script, tip: nat, n: nat, m: nat)
    requires n < |view.txs| && m < |view.txs[n].outputs|
    ensures ReceiptOf(view, view.txs[n], m, tip).op == OutPoint(view.txs[n].txid, m)
    ensures view.txs[n].outputs[m].script == spk ==> From(view, spk, tip, ReceiptOf(view, view.txs[n], m, tip))
  {
  }

  lemma TxDone(view: View, spk: Script, n: nat, op: OutPoint)
    requires n < |view.txs|
    ensures PaysUpTo(view, spk, n, |view.txs[n].outputs|, op) <==> PaysUpTo(view, spk, n + 1, 0, op)
  {
  }

  // ---------------------------------------------------------------------------
  // The order in which receipts are found
  // ---------------------------------------------------------------------------

  /** Receipts after the first `m` outputs of a transaction, `rs` being those found before it. */
  ghost function FoundInTx(view: View, n: nat, spk: Script, tip: nat, rs: seq<Receipt>, m: nat): seq<Receipt>
    requires n < |view.txs| && m <= |view.txs[n].outputs|
  {
    if m == 0 then rs
    else
      var found, r := FoundInTx(view, n, spk, tip, rs, m - 1), ReceiptOf(view, view.txs[n], m - 1, tip);
      if view.txs[n].outputs[m - 1].script == spk && !HasOp(found, r.op) then found + [r] else found
  }

  ghost function FoundInView(view: View, spk: Script, tip: nat, rs: seq<Receipt>, n: nat): seq<Receipt>
    requires n <= |view.txs|
  {
    if n == 0 then rs
    else FoundInTx(view, n - 1, spk, tip, FoundInView(view, spk, tip, rs, n - 1), |view.txs[n - 1].outputs|)
  }

  /** All receipts in the order found: wallet after wallet, transaction after transaction, output after output. */
  ghost function Found(views: seq<View>, spk: Script, tip: nat): seq<Receipt> {
    if views == [] then []
    else FoundInView(views[|views| - 1], spk, tip, Found(views[..|views| - 1], spk, tip), |views[|views| - 1].txs|)
  }

  lemma SeenIsFound(acc: Acc, op: OutPoint)
    requires Consistent(acc)
    ensures op in acc.seen <==> HasOp(acc.activity.receipts, op)
  {
  }

  method ScanTx(view: View, n: nat, spk: Script, tip: nat, ghost before: Acc, acc: Acc) returns (acc': Acc)
    requires n < |view.txs| && Scanned(view, spk, tip, n, 0, before, acc)
    ensures Scanned(view, spk, tip, n + 1, 0, before, acc')
    ensures acc'.activity.receipts
            == FoundInTx(view, n, spk, tip, acc.activity.receipts, |view.txs[n].outputs|)
  {
    hide HasOp;
    hide Scanned;
    hide PaysUpTo;
    hide Consistent;
    acc' := acc;
    var wtx := view.txs[n];
    for vout := 0 to |wtx.outputs|
      invariant Scanned(view, spk, tip, n, vout, before, acc')
      invariant acc'.activity.receipts == FoundInTx(view, n, spk, tip, acc.activity.receipts, vout)
    {
      ScannedIsConsistent(view, spk, tip, n, vout, before, acc');
      SeenIsFound(acc', OutPoint(wtx.txid, vout));
      LookScans(view, spk, tip, n, vout, before, acc');
      if wtx.outputs[vout].script == spk {
        var op := OutPoint(wtx.txid, vout);
        if op !in acc'.seen {
          var spent := if op in view.spent then view.spent[op] else false;
          var amount, a := wtx.outputs[vout].value, acc'.activity;
          var r := Receipt(op, amount, wtx.height, Confirmations(tip, wtx.height), spent);
          acc' := Acc(acc'.seen + {op},
                      Activity(a.total + amount, if spent then a.unspent else a.unspent + amount, a.receipts + [r]));
        }
      }
    }
    ScannedTx(view, spk, tip, n, before, acc');
  }

  lemma ScannedIsConsistent(view: View, spk: Script, tip: nat, n: nat, m: nat, before: Acc, acc: Acc)
    requires n < |view.txs| && m <= |view.txs[n].outputs| && Scanned(view, spk, tip, n, m, before, acc)
    ensures Consistent(acc)
  {
  }

  lemma ScannedTx(view: View, spk: Script, tip: nat, n: nat, before: Acc, acc: Acc)
    requires n < |view.txs| && Scanned(view, spk, tip, n, |view.txs[n].outputs|, before, acc)
    ensures Scanned(view, spk, tip, n + 1, 0, before, acc)
  {
    forall op ensures PaysUpTo(view, spk, n, |view.txs[n].outputs|, op) <==> PaysUpTo(view, spk, n + 1, 0, op) {
      TxDone(view, spk, n, op);
    }
  }

  method ScanView(view: View, spk: Script, tip: nat, acc: Acc) returns (acc': Acc)
    requires Consistent(acc)
    ensures Scanned(view, spk, tip, |view.txs|, 0, acc, acc')
    ensures acc'.activity.receipts == FoundInView(view, spk, tip, acc.activity.receipts, |view.txs|)
  {
    acc' := acc;
    for n := 0 to |view.txs|
      invariant Scanned(view, spk, tip, n, 0, acc, acc')
      invariant acc'.activity.receipts == FoundInView(view, spk, tip, acc.activity.receipts, n)
    {
      acc' := ScanTx(view, n, spk, tip, acc, acc');
    }
  }

  /** `r` is the receipt that the first wallet to contain its output gives. */
  ghost predicate FromFirst(views: seq<View>, spk: Script, tip: nat, r: Receipt) {
    exists v :: 0 <= v < |views| && From(views[v], spk, tip, r) && forall u :: 0 <= u < v ==> !Pays(views[u], spk, r.op)
  }

  ghost predicate PaysSome(views: seq<View>, spk: Script, op: OutPoint) {
    exists v :: 0 <= v < |views| && Pays(views[v], spk, op)
  }

  /** Everything a history says of the views: each output that pays the address exactly once, as the first wallet
      with it has it. */
  ghost predicate Complete(views: seq<View>, spk: Script, tip: nat, acc: Acc) {
    && Consistent(acc)
    && (forall op :: op in acc.seen <==> PaysSome(views, spk, op))
    && (forall r :: r in acc.activity.receipts ==> FromFirst(views, spk, tip, r))
  }

  lemma ViewDone(views: seq<View>, view: View, spk: Script, tip: nat, before: Acc, after: Acc)
    requires Complete(views, spk, tip, before) && Scanned(view, spk, tip, |view.txs|, 0, before, after)
    ensures Complete(views + [view], spk, tip, after)
  {
    hide Consistent;
    hide From;
    hide PaysUpTo;
    var all := views + [view];
    assert all[|views|] == view;
    forall op ensures PaysSome(all, spk, op) <==> PaysSome(views, spk, op) || Pays(view, spk, op) {
      if PaysSome(views, spk, op) {
        var v :| 0 <= v < |views| && Pays(views[v], spk, op);
        assert all[v] == views[v];
      }
      if Pays(view, spk, op) {
        assert Pays(all[|views|], spk, op);
      }
      if PaysSome(all, spk, op) {
        var v :| 0 <= v < |all| && Pays(all[v], spk, op);
        assert v < |views| ==> views[v] == all[v];
      }
    }
    forall r | r in after.activity.receipts ensures FromFirst(all, spk, tip, r) {
      if r in before.activity.receipts {
        var v :| 0 <= v < |views| && From(views[v], spk, tip, r) && forall u :: 0 <= u < v ==> !Pays(views[u], spk, r.op);
        assert all[v] == views[v];
        assert forall u :: 0 <= u < v ==> all[u] == views[u];
      } else {
        var i :| 0 <= i < |after.activity.receipts| && after.activity.receipts[i] == r;
        assert i >= |before.activity.receipts|;
        assert From(all[|views|], spk, tip, r);
        assert !PaysSome(views, spk, r.op);
        assert forall u :: 0 <= u < |views| ==> all[u] == views[u];
      }
    }
  }

  function SortKey(r: Receipt): nat {
    if r.height.Some? then r.height.value else U32_MAX
  }

  /** The history of an address: totals that are those of the listed receipts, every output that pays the address
      listed once, confirmed receipts in height order before the unconfirmed, those at the same height as found. */
  method History(views: seq<View>, spk: Script, tip: nat) returns (a: Activity)
    ensures a.total == Received(a.receipts) && a.unspent == Unspent(a.receipts)
    ensures forall i, j :: 0 <= i < j < |a.receipts| ==> a.receipts[i].op != a.receipts[j].op
    ensures forall op :: PaysSome(views, spk, op) <==> exists r :: r in a.receipts && r.op == op
    ensures forall r :: r in a.receipts ==> FromFirst(views, spk, tip, r)
    ensures Sorting.SortedBy(a.receipts, SortKey)
    ensures forall i, j :: 0 <= i < j < |a.receipts| && a.receipts[j].height.Some? ==>
      if a.receipts[i].height.Some? then a.receipts[i].height.value <= a.receipts[j].height.value
      else a.receipts[j].height.value >= 0xFFFF_FFFF
    ensures forall k :: Sorting.WithKey(a.receipts, SortKey, k) == Sorting.WithKey(Found(views, spk, tip), SortKey, k)
  {
    var acc := Acc({}, Activity(0, 0, []));
    for v := 0 to |views|
      invariant Complete(views[..v], spk, tip, acc) && acc.activity.receipts == Found(views[..v], spk, tip)
    {
      assert views[..v + 1] == views[..v] + [views[v]] && views[..v + 1][..v] == views[..v];
      var next := ScanView(views[v], spk, tip, acc);
      ViewDone(views[..v], views[v], spk, tip, acc, next);
      acc := next;
    }
    assert views[..|views|] == views;
    var sorted := Sorting.Sort(acc.activity.receipts, SortKey);
    SameHistory(acc, sorted);
    a := acc.activity.(receipts := sorted);
  }

  lemma SameHistory(acc: Acc, sorted: seq<Receipt>)
    requires Consistent(acc) && multiset(sorted) == multiset(acc.activity.receipts)
    ensures acc.activity.total == Received(sorted) && acc.activity.unspent == Unspent(sorted)
    ensures forall i, j :: 0 <= i < j < |sorted| ==> sorted[i].op != sorted[j].op
    ensures forall r :: r in sorted <==> r in acc.activity.receipts
    ensures forall op :: op in acc.seen <==> exists r :: r in sorted && r.op == op
  {
    var rs := acc.activity.receipts;
    SamePermutation(sorted, rs);
    TotalsPermute(sorted, rs);
    forall op ensures op in acc.seen <==> exists r :: r in sorted && r.op == op {
      if op in acc.seen {
        var i :| 0 <= i < |rs| && rs[i].op == op;
        assert rs[i] in sorted;
      }
      if r :| r in sorted && r.op == op {
        var i :| 0 <= i < |rs| && rs[i] == r;
      }
    }
    forall i, j | 0 <= i < j < |sorted| ensures sorted[i].op != sorted[j].op {
      if sorted[i].op == sorted[j].op {
        SameOpSameReceipt(rs, sorted[i], sorted[j]);
        TwiceIn(sorted, i, j);
        OnceIn(rs, sorted[i]);
      }
    }
  }

  lemma SameOpSameReceipt(rs: seq<Receipt>, a: Receipt, b: Receipt)
    requires forall i, j :: 0 <= i < j < |rs| ==> rs[i].op != rs[j].op
    requires a in rs && b in rs && a.op == b.op
    ensures a == b
  {
    var i :| 0 <= i < |rs| && rs[i] == a;
    var j :| 0 <= j < |rs| && rs[j] == b;
    assert i == j;
  }

  lemma TwiceIn(s: seq<Receipt>, i: nat, j: nat)
    requires i < j < |s| && s[i] == s[j]
    ensures multiset(s)[s[i]] >= 2
  {
    assert s == s[..j] + s[j..];
    assert s[i] in s[..j] && s[j] in s[j..];
  }

  lemma {:induction false} OnceIn(rs: seq<Receipt>, r: Receipt)
    requires forall i, j :: 0 <= i < j < |rs| ==> rs[i].op != rs[j].op
    ensures multiset(rs)[r] <= 1
  {
    if rs != [] {
      var init, last := rs[..|rs| - 1], rs[|rs| - 1];
      assert rs == init + [last];
      OnceIn(init, r);
      assert forall i :: 0 <= i < |init| ==> init[i] == rs[i] && init[i].op != last.op;
      assert multiset(init)[last] == 0;
    }
  }

  lemma {:induction false} TotalsConcat(a: seq<Receipt>, b: seq<Receipt>)
    ensures Received(a + b) == Received(a) + Received(b) && Unspent(a + b) == Unspent(a) + Unspent(b)
  {
    if b == [] {
      assert a + b == a;
    } else {
      assert (a + b)[..|a + b| - 1] == a + b[..|b| - 1];
      TotalsConcat(a, b[..|b| - 1]);
    }
  }

  lemma {:induction false} TotalsPermute(a: seq<Receipt>, b: seq<Receipt>)
    requires multiset(a) == multiset(b)
    ensures Received(a) == Received(b) && Unspent(a) == Unspent(b)
    decreases |a|
  {
    if a == [] {
      assert |multiset(b)| == 0;
    } else {
      hide Received;
      hide Unspent;
      var i := MatchFirst(a, b);
      TotalsPermute(a[1..], b[..i] + b[i + 1..]);
      TotalsConcat([a[0]], a[1..]);
      TotalsConcat(b[..i], [b[i]] + b[i + 1..]);
      TotalsConcat([b[i]], b[i + 1..]);
      TotalsConcat(b[..i], b[i + 1..]);
    }
  }
}
