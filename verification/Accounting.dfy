/** The accounting tables: balances by script and by asset, the asset tabs, a Bitcoin address's history, and the
    planner preview's synthetic UTXOs. */
module Accounting {
  import opened Ledger

  function Sum(values: seq<nat>): nat {
    if values == [] then 0 else Sum(values[..|values| - 1]) + values[|values| - 1]
  }

  lemma SumSnoc(values: seq<nat>, v: nat)
    ensures Sum(values + [v]) == Sum(values) + v
  {
    assert (values + [v])[..|values|] == values;
  }

  // ---------------------------------------------------------------------------
  // Synthetic UTXOs
  // ---------------------------------------------------------------------------

  lemma Quotient(total: nat, n: nat)
    requires n > 0
    ensures total == (total / n) * n + total % n && total % n < n
  {
  }

  lemma OneMore(each: nat, i: nat)
    ensures each * (i + 1) == each * i + each
  {
  }

  /** Split a total into `count` parts, at least one: they add up exactly, never grow, and differ by at most one. */
  method SyntheticUtxos(total: nat, count: nat) returns (parts: seq<nat>)
    ensures |parts| == if count == 0 then 1 else count
    ensures Sum(parts) == total
    ensures forall i, j :: 0 <= i < j < |parts| ==> parts[j] <= parts[i] <= parts[j] + 1
  {
    var n := if count == 0 then 1 else count;
    var each := total / n;
    Quotient(total, n);
    var rem := total - each * n;
    ghost var extra, base := rem, 0;
    parts := [];
    for i := 0 to n
      invariant |parts| == i && base == each * i
      invariant rem == if i < extra then extra - i else 0
      invariant forall j :: 0 <= j < i ==> parts[j] == each + (if j < extra then 1 else 0)
      invariant Sum(parts) == base + (extra - rem)
    {
      var v := each;
      if rem > 0 {
        v := v + 1;
        rem := rem - 1;
      }
      SumSnoc(parts, v);
      OneMore(each, i);
      parts := parts + [v];
      base := base + each;
    }
  }

  // ---------------------------------------------------------------------------
  // Balances by script
  // ---------------------------------------------------------------------------

  datatype Captured = Captured(out: TxOut, spent: bool)

  type Table = map<Script, nat>

  /** The received and unspent tables of one asset, or of all. */
  datatype Balances = Balances(received: Table, unspent: Table)

  function Entry(t: Table, spk: Script): nat {
    if spk in t then t[spk] else 0
  }

  function Add(t: Table, spk: Script, value: nat): Table {
    t[spk := Entry(t, spk) + value]
  }

  function ReceivedAt(utxos: seq<Captured>, spk: Script): nat {
    if utxos == [] then 0
    else
      var u := utxos[|utxos| - 1];
      ReceivedAt(utxos[..|utxos| - 1], spk) + (if u.out.script == spk then u.out.value else 0)
  }

  function UnspentAt(utxos: seq<Captured>, spk: Script): nat {
    if utxos == [] then 0
    else
      var u := utxos[|utxos| - 1];
      UnspentAt(utxos[..|utxos| - 1], spk) + (if u.out.script == spk && !u.spent then u.out.value else 0)
  }

  function OfAsset(utxos: seq<Captured>, asset: Asset): seq<Captured> {
    if utxos == [] then []
    else
      var rest, u := OfAsset(utxos[..|utxos| - 1], asset), utxos[|utxos| - 1];
      if u.out.asset == asset then rest + [u] else rest
  }

  /** The tables say, for every script, what filtering and summing the UTXOs says, and list exactly the scripts
      paid (left unspent). */
  ghost predicate Tabulates(b: Balances, utxos: seq<Captured>) {
    && (forall spk :: Entry(b.received, spk) == ReceivedAt(utxos, spk))
    && (forall spk :: Entry(b.unspent, spk) == UnspentAt(utxos, spk))
    && (forall spk :: spk in b.received <==> exists u :: u in utxos && u.out.script == spk)
    && (forall spk :: spk in b.unspent <==> exists u :: u in utxos && u.out.script == spk && !u.spent)
  }

  function Counted(b: Balances, u: Captured): Balances {
    Balances(Add(b.received, u.out.script, u.out.value),
             if u.spent then b.unspent else Add(b.unspent, u.out.script, u.out.value))
  }

  lemma CountOne(b: Balances, utxos: seq<Captured>, u: Captured)
    requires Tabulates(b, utxos)
    ensures Tabulates(Counted(b, u), utxos + [u])
  {
    assert (utxos + [u])[..|utxos|] == utxos;
    assert forall x :: x in utxos + [u] <==> x in utxos || x == u;
  }

  method BalancesBySpk(utxos: seq<Captured>) returns (b: Balances)
    ensures Tabulates(b, utxos)
    ensures forall spk :: Entry(b.unspent, spk) <= Entry(b.received, spk)
  {
    b := Balances(map[], map[]);
    for i := 0 to |utxos|
      invariant Tabulates(b, utxos[..i])
    {
      assert utxos[..i + 1] == utxos[..i] + [utxos[i]];
      CountOne(b, utxos[..i], utxos[i]);
      var received := Add(b.received, utxos[i].out.script, utxos[i].out.value);
      var unspent := b.unspent;
      if !utxos[i].spent {
        unspent := Add(unspent, utxos[i].out.script, utxos[i].out.value);
      }
      b := Balances(received, unspent);
    }
    assert utxos[..|utxos|] == utxos;
    forall spk ensures Entry(b.unspent, spk) <= Entry(b.received, spk) {
      UnspentWithinReceived(utxos, spk);
    }
  }

  /** What the tables sum: value after value, of the script's UTXOs and of those among them that are unspent. */
  lemma {:induction false} SumsAdd(a: seq<Captured>, b: seq<Captured>, spk: Script)
    ensures ReceivedAt(a + b, spk) == ReceivedAt(a, spk) + ReceivedAt(b, spk)
    ensures UnspentAt(a + b, spk) == UnspentAt(a, spk) + UnspentAt(b, spk)
    ensures |b| == 1 ==>
      && ReceivedAt(b, spk) == (if b[0].out.script == spk then b[0].out.value else 0)
      && UnspentAt(b, spk) == (if b[0].out.script == spk && !b[0].spent then b[0].out.value else 0)
  {
    if b == [] {
      assert a + b == a;
    } else {
      assert (a + b)[..|a + b| - 1] == a + b[..|b| - 1];
      SumsAdd(a, b[..|b| - 1], spk);
    }
  }

  lemma {:induction false} UnspentWithinReceived(utxos: seq<Captured>, spk: Script)
    ensures UnspentAt(utxos, spk) <= ReceivedAt(utxos, spk)
  {
    if utxos != [] {
      UnspentWithinReceived(utxos[..|utxos| - 1], spk);
    }
  }

  ghost predicate TabulatesPerAsset(m: map<Asset, Balances>, utxos: seq<Captured>) {
    && (forall asset :: asset in m <==> exists u :: u in utxos && u.out.asset == asset)
    && (forall asset :: asset in m ==> Tabulates(m[asset], OfAsset(utxos, asset)))
  }

  lemma OfAssetSnoc(utxos: seq<Captured>, u: Captured, asset: Asset)
    ensures OfAsset(utxos + [u], asset) == if u.out.asset == asset then OfAsset(utxos, asset) + [u] else OfAsset(utxos, asset)
  {
    assert (utxos + [u])[..|utxos|] == utxos;
  }

  lemma CountOneAsset(m: map<Asset, Balances>, utxos: seq<Captured>, u: Captured, b: Balances)
    requires TabulatesPerAsset(m, utxos)
    requires b == if u.out.asset in m then m[u.out.asset] else Balances(map[], map[])
    ensures TabulatesPerAsset(m[u.out.asset := Counted(b, u)], utxos + [u])
  {
    hide Tabulates;
    hide OfAsset;
    hide Counted;
    var m' := m[u.out.asset := Counted(b, u)];
    if u.out.asset !in m {
      NoneOfAsset(utxos, u.out.asset);
      EmptyTabulates();
    }
    CountOne(b, OfAsset(utxos, u.out.asset), u);
    forall asset | asset in m' ensures Tabulates(m'[asset], OfAsset(utxos + [u], asset)) {
      OfAssetSnoc(utxos, u, asset);
    }
    forall asset ensures asset in m' <==> exists x :: x in utxos + [u] && x.out.asset == asset {
      if asset == u.out.asset {
        assert u in utxos + [u];
      } else if asset in m {
        var x :| x in utxos && x.out.asset == asset;
        assert x in utxos + [u];
      }
    }
  }

  lemma EmptyTabulates()
    ensures Tabulates(Balances(map[], map[]), [])
  {
  }

  lemma {:induction false} NoneOfAsset(utxos: seq<Captured>, asset: Asset)
    requires forall u :: u in utxos ==> u.out.asset != asset
    ensures OfAsset(utxos, asset) == []
  {
    if utxos != [] {
      NoneOfAsset(utxos[..|utxos| - 1], asset);
    }
  }

  method BalancesBySpkPerAsset(utxos: seq<Captured>) returns (m: map<Asset, Balances>)
    ensures TabulatesPerAsset(m, utxos)
  {
    m := map[];
    for i := 0 to |utxos|
      invariant TabulatesPerAsset(m, utxos[..i])
    {
      var u := utxos[i];
      assert utxos[..i + 1] == utxos[..i] + [u];
      var entry := if u.out.asset in m then m[u.out.asset] else Balances(map[], map[]);
      CountOneAsset(m, utxos[..i], u, entry);
      var received := Add(entry.received, u.out.script, u.out.value);
      var unspent := entry.unspent;
      if !u.spent {
        unspent := Add(unspent, u.out.script, u.out.value);
      }
      m := m[u.out.asset := Balances(received, unspent)];
    }
    assert utxos[..|utxos|] == utxos;
  }

  // ---------------------------------------------------------------------------
  // The asset tabs
  // ---------------------------------------------------------------------------

  predicate IsLeast(a: Asset, s: set<Asset>) {
    a in s && forall b :: b in s ==> a <= b
  }

  lemma {:induction false} LeastMember(s: set<Asset>) returns (a: Asset)
    requires s != {}
    ensures IsLeast(a, s)
    decreases s
  {
    var x :| x in s;
    var rest := s - {x};
    if rest == {} {
      a := x;
      assert s <= {x};
    } else {
      var y := LeastMember(rest);
      a := if y <= x then y else x;
      assert s <= rest + {x};
    }
  }

  lemma AboveLeast(s: set<Asset>, k: Asset)
    requires IsLeast(k, s)
    ensures forall a :: a in s - {k} ==> k < a
  {
    forall a | a in s - {k} ensures k < a {
      assert a in s && a !in {k};
    }
  }

  /** The tabs of a set of assets: the policy asset first, then every other asset once, in increasing order. */
  ghost predicate Tabs(assets: seq<Asset>, keys: set<Asset>, policy: Asset) {
    && assets != [] && assets[0] == policy
    && (forall a :: a in assets <==> a == policy || a in keys)
    && (forall i, j :: 1 <= i < j < |assets| ==> assets[i] < assets[j])
    && (forall i :: 1 <= i < |assets| ==> assets[i] != policy)
  }

  method OrderedAssets(perAsset: map<Asset, Balances>, policy: Asset) returns (assets: seq<Asset>)
    ensures Tabs(assets, perAsset.Keys, policy)
  {
    assets := [policy];
    var keys := perAsset.Keys;
    var todo := keys;
    while todo != {}
      invariant todo <= keys && Tabs(assets, keys - todo, policy)
      invariant forall a :: a in todo && |assets| > 1 ==> assets[|assets| - 1] < a
      decreases todo
    {
      ghost var least := LeastMember(todo);
      var k :| k in todo && IsLeast(k, todo);
      NextTab(assets, keys - todo, policy, k);
      if k != policy {
        assets := assets + [k];
      }
      assert keys - (todo - {k}) == (keys - todo) + {k};
      AboveLeast(todo, k);
      todo := todo - {k};
    }
    assert keys - todo == keys;
  }

  lemma NextTab(assets: seq<Asset>, keys: set<Asset>, policy: Asset, k: Asset)
    requires Tabs(assets, keys, policy) && (|assets| > 1 ==> assets[|assets| - 1] < k)
    ensures Tabs(if k == policy then assets else assets + [k], keys + {k}, policy)
  {
    forall i | 1 <= i < |assets| ensures assets[i] < k {
      assert i < |assets| - 1 ==> assets[i] < assets[|assets| - 1];
    }
  }

  function SumOver(m: map<Asset, Balances>, assets: seq<Asset>, spk: Script, unspent: bool): nat {
    if assets == [] then 0
    else
      var a := assets[|assets| - 1];
      SumOver(m, assets[..|assets| - 1], spk, unspent)
      + (if a in m then Entry(if unspent then m[a].unspent else m[a].received, spk) else 0)
  }

  function AssetTotal(utxos: seq<Captured>, assets: seq<Asset>, spk: Script, unspent: bool): nat {
    if assets == [] then 0
    else
      var part := OfAsset(utxos, assets[|assets| - 1]);
      AssetTotal(utxos, assets[..|assets| - 1], spk, unspent)
      + (if unspent then UnspentAt(part, spk) else ReceivedAt(part, spk))
  }

  lemma {:induction false} AssetTotalSnoc(utxos: seq<Captured>, assets: seq<Asset>, spk: Script, unspent: bool)
    requires utxos != [] && Distinct(assets)
    ensures var u := utxos[|utxos| - 1];
            AssetTotal(utxos, assets, spk, unspent) == AssetTotal(utxos[..|utxos| - 1], assets, spk, unspent)
              + (if u.out.asset in assets && u.out.script == spk && !(unspent && u.spent) then u.out.value else 0)
    decreases |assets|
  {
    if assets != [] {
      var rest, a := assets[..|assets| - 1], assets[|assets| - 1];
      var u, init := utxos[|utxos| - 1], utxos[..|utxos| - 1];
      assert assets == rest + [a];
      DistinctSplit(rest, [a]);
      assert a in [a];
      AssetTotalSnoc(utxos, rest, spk, unspent);
      if u.out.asset == a {
        assert OfAsset(utxos, a) == OfAsset(init, a) + [u];
        assert (OfAsset(init, a) + [u])[..|OfAsset(init, a)|] == OfAsset(init, a);
      }
    }
  }

  lemma {:induction false} AssetTotalEmpty(assets: seq<Asset>, spk: Script, unspent: bool)
    ensures AssetTotal([], assets, spk, unspent) == 0
  {
    if assets != [] {
      AssetTotalEmpty(assets[..|assets| - 1], spk, unspent);
    }
  }

  lemma {:induction false} AssetTotalIsAll(utxos: seq<Captured>, assets: seq<Asset>, spk: Script, unspent: bool)
    requires Distinct(assets) && forall u :: u in utxos ==> u.out.asset in assets
    ensures AssetTotal(utxos, assets, spk, unspent) == if unspent then UnspentAt(utxos, spk) else ReceivedAt(utxos, spk)
    decreases |utxos|
  {
    if utxos == [] {
      AssetTotalEmpty(assets, spk, unspent);
    } else {
      AssetTotalIsAll(utxos[..|utxos| - 1], assets, spk, unspent);
      AssetTotalSnoc(utxos, assets, spk, unspent);
    }
  }

  lemma {:induction false} SumOverIsAssetTotal(m: map<Asset, Balances>, utxos: seq<Captured>, assets: seq<Asset>, spk: Script, unspent: bool)
    requires TabulatesPerAsset(m, utxos)
    ensures SumOver(m, assets, spk, unspent) == AssetTotal(utxos, assets, spk, unspent)
  {
    if assets != [] {
      SumOverIsAssetTotal(m, utxos, assets[..|assets| - 1], spk, unspent);
      var a := assets[|assets| - 1];
      if a in m {
        assert Tabulates(m[a], OfAsset(utxos, a));
      } else {
        NoneOfAsset(utxos, a);
      }
    }
  }

  lemma {:induction false} IncreasingIsDistinct(s: seq<Asset>)
    requires forall i, j :: 0 <= i < j < |s| ==> s[i] != s[j]
    ensures Distinct(s)
  {
    if s != [] {
      var init, a := s[..|s| - 1], s[|s| - 1];
      assert s == init + [a];
      IncreasingIsDistinct(init);
      DistinctConcat(init, [a]);
    }
  }

  /** Summed over the asset tabs, the per-asset tables are the plain one, received and unspent. */
  lemma TabsAddUp(b: Balances, m: map<Asset, Balances>, utxos: seq<Captured>, assets: seq<Asset>, policy: Asset, spk: Script)
    requires Tabulates(b, utxos) && TabulatesPerAsset(m, utxos)
    requires Tabs(assets, m.Keys, policy)
    ensures SumOver(m, assets, spk, false) == Entry(b.received, spk)
    ensures SumOver(m, assets, spk, true) == Entry(b.unspent, spk)
  {
    IncreasingIsDistinct(assets);
    SumOverIsAssetTotal(m, utxos, assets, spk, false);
    SumOverIsAssetTotal(m, utxos, assets, spk, true);
    AssetTotalIsAll(utxos, assets, spk, false);
    AssetTotalIsAll(utxos, assets, spk, true);
  }
}
