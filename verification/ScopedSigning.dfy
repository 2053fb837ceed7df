/** Index-scoped signing of a shared PSET / PSBT.

    Every account of the old federation is signed by the same tokens, so all accounts show the same master
    fingerprints and differ only by account path.  A signer signs every input whose derivation map shows its
    fingerprint; the executor therefore empties the derivation maps of the inputs an account does not own,
    lets the account's signers run, and puts the maps back. */
module ScopedSigning {
  import opened Wrappers
  import opened Ledger

  type Fingerprint = nat
  type Path = nat
  type PubKey = nat

  /** A signature: which token made it and along which account path. */
  datatype Sig = Sig(fingerprint: Fingerprint, path: Path)

  type Derivations = map<PubKey, Fingerprint>

  datatype Input = Input(prevout: OutPoint, derivations: Derivations, sigs: set<Sig>)

  /** A token bound to one account path; `works` is whether its calls succeed. */
  datatype Signer = Signer(fingerprint: Fingerprint, path: Path, works: bool)

  datatype Account = Account(idx: int, signers: seq<Signer>)

  predicate Shows(d: Derivations, fp: Fingerprint) {
    exists k :: k in d && d[k] == fp
  }

  /** What one signer does to one input. */
  function SignedBy(inp: Input, s: Signer): Input {
    if s.works && Shows(inp.derivations, s.fingerprint)
    then inp.(sigs := inp.sigs + {Sig(s.fingerprint, s.path)})
    else inp
  }

  /** The signatures a list of signers leaves on an input that shows `d`. */
  function Signatures(d: Derivations, signers: seq<Signer>): set<Sig> {
    set s | s in signers && s.works && Shows(d, s.fingerprint) :: Sig(s.fingerprint, s.path)
  }

  function Find(accounts: seq<Account>, idx: int): Option<Account> {
    if accounts == [] then None
    else if accounts[0].idx == idx then Some(accounts[0])
    else Find(accounts[1..], idx)
  }

  /** The signatures an input is meant to get: its owner's, or none when it has no known owner. */
  function OwnerSignatures(inp: Input, owner: map<OutPoint, int>, accounts: seq<Account>): set<Sig> {
    if inp.prevout !in owner then {}
    else match Find(accounts, owner[inp.prevout])
      case None => {}
      case Some(a) => Signatures(inp.derivations, a.signers)
  }

  // ---------------------------------------------------------------------------
  // The steps of one account's turn
  // ---------------------------------------------------------------------------

  /** One signer runs over the whole PSET. */
  method SignPset(inputs: array<Input>, s: Signer)
    modifies inputs
    ensures forall i :: 0 <= i < inputs.Length ==> inputs[i] == SignedBy(old(inputs[i]), s)
  {
    for i := 0 to inputs.Length
      invariant forall j :: 0 <= j < i ==> inputs[j] == SignedBy(old(inputs[j]), s)
      invariant forall j :: i <= j < inputs.Length ==> inputs[j] == old(inputs[j])
    {
      inputs[i] := SignedBy(inputs[i], s);
    }
  }

  /** The positions of the inputs whose previous output is in `owned`. */
  method OwnedIndices(inputs: array<Input>, owned: set<OutPoint>) returns (indices: seq<nat>)
    ensures forall i :: i in indices <==> 0 <= i < inputs.Length && inputs[i].prevout in owned
  {
    indices := [];
    for i := 0 to inputs.Length
      invariant forall j :: j in indices <==> 0 <= j < i && inputs[j].prevout in owned
    {
      if inputs[i].prevout in owned {
        indices := indices + [i];
      }
    }
  }

  /** Take the derivation maps of every input outside `indices`, leaving them empty. */
  method TakeOthers(inputs: array<Input>, indices: seq<nat>) returns (saved: seq<(nat, Derivations)>)
    modifies inputs
    ensures forall i :: 0 <= i < inputs.Length ==>
      inputs[i] == if i in indices then old(inputs[i]) else old(inputs[i]).(derivations := map[])
    ensures forall k :: 0 <= k < |saved| ==>
      saved[k].0 < inputs.Length && saved[k].0 !in indices && saved[k].1 == old(inputs[saved[k].0]).derivations
    ensures forall i :: 0 <= i < inputs.Length && i !in indices ==> exists k :: 0 <= k < |saved| && saved[k].0 == i
  {
    saved := [];
    for i := 0 to inputs.Length
      invariant forall j :: 0 <= j < i ==>
        inputs[j] == if j in indices then old(inputs[j]) else old(inputs[j]).(derivations := map[])
      invariant forall j :: i <= j < inputs.Length ==> inputs[j] == old(inputs[j])
      invariant forall k :: 0 <= k < |saved| ==>
        saved[k].0 < i && saved[k].0 !in indices && saved[k].1 == old(inputs[saved[k].0]).derivations
      invariant forall j :: 0 <= j < i && j !in indices ==> exists k :: 0 <= k < |saved| && saved[k].0 == j
    {
      if i !in indices {
        ghost var before := saved;
        saved := saved + [(i, inputs[i].derivations)];
        inputs[i] := inputs[i].(derivations := map[]);
        assert saved[|before|].0 == i;
        assert forall j :: 0 <= j < i && j !in indices ==>
          exists k :: 0 <= k < |before| && before[k].0 == j && saved[k].0 == j;
      }
    }
  }

  /** Put the saved derivation maps back. */
  method Restore(inputs: array<Input>, saved: seq<(nat, Derivations)>)
    requires forall k :: 0 <= k < |saved| ==> saved[k].0 < inputs.Length
    requires forall j, k :: 0 <= j < |saved| && 0 <= k < |saved| && saved[j].0 == saved[k].0 ==> saved[j].1 == saved[k].1
    modifies inputs
    ensures forall k :: 0 <= k < |saved| ==>
      inputs[saved[k].0] == old(inputs[saved[k].0]).(derivations := saved[k].1)
    ensures forall i :: 0 <= i < inputs.Length && (forall k :: 0 <= k < |saved| ==> saved[k].0 != i) ==>
      inputs[i] == old(inputs[i])
  {
    for n := 0 to |saved|
      invariant forall k :: 0 <= k < n ==>
        inputs[saved[k].0] == old(inputs[saved[k].0]).(derivations := saved[k].1)
      invariant forall i :: 0 <= i < inputs.Length && (forall k :: 0 <= k < n ==> saved[k].0 != i) ==>
        inputs[i] == old(inputs[i])
    {
      var i := saved[n].0;
      inputs[i] := inputs[i].(derivations := saved[n].1);
    }
  }

  /** What an account's signers do to one input of the scoped PSET, with its derivation map back in place. */
  function ScopedSigned(inp: Input, signers: seq<Signer>, owned: bool): Input {
    if owned then inp.(sigs := inp.sigs + Signatures(inp.derivations, signers)) else inp
  }

  lemma SignaturesSnoc(d: Derivations, signers: seq<Signer>, s: Signer)
    ensures Signatures(d, signers + [s])
            == Signatures(d, signers) + (if s.works && Shows(d, s.fingerprint) then {Sig(s.fingerprint, s.path)} else {})
  {
    assert forall x :: x in signers + [s] <==> x in signers || x == s;
  }

  lemma NothingToSign(signers: seq<Signer>)
    ensures Signatures(map[], signers) == {}
  {
    assert forall s :: s in signers ==> !Shows(map[], s.fingerprint);
  }

  /** Run an account's signers one after the other. */
  method RunSigners(inputs: array<Input>, signers: seq<Signer>)
    modifies inputs
    ensures forall i :: 0 <= i < inputs.Length ==>
      inputs[i] == old(inputs[i]).(sigs := old(inputs[i]).sigs + Signatures(old(inputs[i]).derivations, signers))
  {
    for n := 0 to |signers|
      invariant forall i :: 0 <= i < inputs.Length ==>
        inputs[i] == old(inputs[i]).(sigs := old(inputs[i]).sigs + Signatures(old(inputs[i]).derivations, signers[..n]))
    {
      assert signers[..n + 1] == signers[..n] + [signers[n]];
      forall i | 0 <= i < inputs.Length {
        SignaturesSnoc(old(inputs[i]).derivations, signers[..n], signers[n]);
      }
      SignPset(inputs, signers[n]);
    }
    assert signers[..|signers|] == signers;
  }

  /** Sign only the inputs at `indices` with one account's signers; every derivation map is as it was. */
  method SignIndices(inputs: array<Input>, indices: seq<nat>, signers: seq<Signer>)
    modifies inputs
    ensures forall i :: 0 <= i < inputs.Length ==> inputs[i] == ScopedSigned(old(inputs[i]), signers, i in indices)
  {
    var saved := TakeOthers(inputs, indices);
    label taken:
    RunSigners(inputs, signers);
    NothingToSign(signers);
    assert forall i :: 0 <= i < inputs.Length && i !in indices ==> inputs[i] == old(inputs[i]).(derivations := map[]);
    Restore(inputs, saved);
    forall i | 0 <= i < inputs.Length ensures inputs[i] == ScopedSigned(old(inputs[i]), signers, i in indices) {
      if i !in indices {
        var k :| 0 <= k < |saved| && saved[k].0 == i;
        assert inputs[i] == old(inputs[i]).(derivations := saved[k].1);
      }
    }
  }

  /** The signers that run before the first failure. */
  function Working(signers: seq<Signer>): (r: seq<Signer>)
    ensures r <= signers && (forall s :: s in r ==> s.works) && (|r| < |signers| ==> !signers[|r|].works)
  {
    if signers == [] || !signers[0].works then [] else [signers[0]] + Working(signers[1..])
  }

  lemma {:induction false} WorkingIs(signers: seq<Signer>, n: nat)
    requires n <= |signers| && (forall k :: 0 <= k < n ==> signers[k].works) && (n < |signers| ==> !signers[n].works)
    ensures Working(signers) == signers[..n]
  {
    if n > 0 {
      WorkingIs(signers[1..], n - 1);
    }
  }

  /** The Bitcoin form stops at a signing error before the restore, so the other inputs are left without their
      derivation maps; on success it does what the Elements form does. */
  method SignMigrationInputs(inputs: array<Input>, indices: seq<nat>, signers: seq<Signer>) returns (ok: bool)
    modifies inputs
    ensures ok <==> forall s :: s in signers ==> s.works
    ensures forall i :: 0 <= i < inputs.Length ==>
      inputs[i] == if i in indices then ScopedSigned(old(inputs[i]), Working(signers), true)
                   else if ok then old(inputs[i])
                   else old(inputs[i]).(derivations := map[])
  {
    var saved := TakeOthers(inputs, indices);
    NothingToSign(signers);
    var n := 0;
    while n < |signers| && signers[n].works
      invariant 0 <= n <= |signers|
      invariant forall k :: 0 <= k < n ==> signers[k].works
      invariant forall i :: 0 <= i < inputs.Length ==> inputs[i] == PartlySigned(old(inputs[i]), signers, n, i in indices)
    {
      forall i | 0 <= i < inputs.Length {
        OneMoreSigner(old(inputs[i]), signers, n, i in indices);
      }
      SignPset(inputs, signers[n]);
      n := n + 1;
    }
    WorkingIs(signers, n);
    if n < |signers| {
      assert signers[n] in signers;
      return false;
    }
    Restore(inputs, saved);
    forall i | 0 <= i < inputs.Length && i !in indices ensures inputs[i] == old(inputs[i]) {
      var k :| 0 <= k < |saved| && saved[k].0 == i;
      assert inputs[i] == old(inputs[i]).(derivations := saved[k].1);
    }
    return true;
  }

  /** An input while an account's signers run: its own ones signed so far, every other without its derivations. */
  function PartlySigned(inp: Input, signers: seq<Signer>, n: nat, owned: bool): Input
    requires n <= |signers|
  {
    if owned then inp.(sigs := inp.sigs + Signatures(inp.derivations, signers[..n])) else inp.(derivations := map[])
  }

  lemma OneMoreSigner(inp: Input, signers: seq<Signer>, n: nat, owned: bool)
    requires n < |signers| && signers[n].works
    ensures SignedBy(PartlySigned(inp, signers, n, owned), signers[n]) == PartlySigned(inp, signers, n + 1, owned)
  {
    assert signers[..n + 1] == signers[..n] + [signers[n]];
    SignaturesSnoc(inp.derivations, signers[..n], signers[n]);
    assert !Shows(map[], signers[n].fingerprint);
  }

  // ---------------------------------------------------------------------------
  // All accounts, in any order
  // ---------------------------------------------------------------------------

  /** The state of one input when the accounts in `done` have had their turn. */
  function AfterTurns(inp: Input, owner: map<OutPoint, int>, accounts: seq<Account>, done: set<int>): Input {
    if inp.prevout in owner && owner[inp.prevout] in done
    then inp.(sigs := inp.sigs + OwnerSignatures(inp, owner, accounts))
    else inp
  }

  /** The turn of one account. */
  method Turn(inputs: array<Input>, owner: map<OutPoint, int>, accounts: seq<Account>, acct: int)
    modifies inputs
    ensures forall i :: 0 <= i < inputs.Length ==>
      inputs[i] == AfterTurns(old(inputs[i]), owner, accounts, {acct})
  {
    var exec := Find(accounts, acct);
    if exec.None? {
      return;
    }
    var owned := set op | op in owner && owner[op] == acct;
    var indices := OwnedIndices(inputs, owned);
    SignIndices(inputs, indices, exec.value.signers);
  }

  lemma SomeMember(s: set<int>)
    ensures s == {} || exists x :: x in s
  {
    assert (forall x :: x !in s) ==> s == {};
  }

  /** After all accounts have signed, in whatever order the hash set yields them, every derivation map is what
      it was and every input carries exactly its own account's signatures in addition. */
  method SignScoped(inputs: array<Input>, owner: map<OutPoint, int>, accounts: seq<Account>)
    modifies inputs
    ensures forall i :: 0 <= i < inputs.Length ==>
      && inputs[i].prevout == old(inputs[i]).prevout
      && inputs[i].derivations == old(inputs[i]).derivations
      && inputs[i].sigs == old(inputs[i]).sigs + OwnerSignatures(old(inputs[i]), owner, accounts)
  {
    var involved := set op | op in owner :: owner[op];
    var todo := involved;
    while todo != {}
      invariant todo <= involved
      invariant forall i :: 0 <= i < inputs.Length ==>
        inputs[i] == AfterTurns(old(inputs[i]), owner, accounts, involved - todo)
      decreases todo
    {
      SomeMember(todo);
      var acct :| acct in todo;
      Turn(inputs, owner, accounts, acct);
      todo := todo - {acct};
      assert involved - todo == (involved - (todo + {acct})) + {acct};
    }
    assert involved - todo == involved;
  }

  ghost predicate InWallet(op: OutPoint, walletOf: map<OutPoint, int>, w: int) {
    op in walletOf && walletOf[op] == w
  }

  ghost predicate Listed(groups: map<int, seq<nat>>, w: int, i: nat) {
    w in groups && i in groups[w]
  }

  /** Every input with a known wallet is in that wallet's list, and in no other. */
  ghost predicate Grouped(groups: map<int, seq<nat>>, prevouts: seq<OutPoint>, walletOf: map<OutPoint, int>) {
    forall w, i: nat :: Listed(groups, w, i) <==> i < |prevouts| && InWallet(prevouts[i], walletOf, w)
  }

  /** The input positions of each wallet. */
  method GroupByWallet(prevouts: seq<OutPoint>, walletOf: map<OutPoint, int>) returns (groups: map<int, seq<nat>>)
    ensures Grouped(groups, prevouts, walletOf)
  {
    groups := map[];
    for n := 0 to |prevouts|
      invariant Grouped(groups, prevouts[..n], walletOf)
    {
      ghost var before := groups;
      if prevouts[n] in walletOf {
        var w := walletOf[prevouts[n]];
        groups := groups[w := (if w in groups then groups[w] else []) + [n]];
      }
      forall w, i: nat
        ensures Listed(groups, w, i) <==> i < n + 1 && InWallet(prevouts[i], walletOf, w)
      {
        assert Listed(before, w, i) <==> i < n && InWallet(prevouts[i], walletOf, w);
      }
    }
    assert prevouts[..|prevouts|] == prevouts;
  }

  /** The Bitcoin turn of every wallet, in whatever order the hash map yields them: when no signer fails, every
      derivation map is what it was and every input carries exactly its own wallet's signatures in addition. */
  method SignByWallet(inputs: array<Input>, walletOf: map<OutPoint, int>, groups: map<int, seq<nat>>,
                      signersOf: map<int, seq<Signer>>) returns (ok: bool)
    requires forall w, i: nat :: Listed(groups, w, i) <==> i < inputs.Length && InWallet(inputs[i].prevout, walletOf, w)
    requires groups.Keys <= signersOf.Keys
    modifies inputs
    ensures ok ==> forall i :: 0 <= i < inputs.Length ==>
      && inputs[i].prevout == old(inputs[i]).prevout
      && inputs[i].derivations == old(inputs[i]).derivations
      && (old(inputs[i]).prevout !in walletOf ==> inputs[i].sigs == old(inputs[i]).sigs)
      && (old(inputs[i]).prevout in walletOf ==>
            && walletOf[old(inputs[i]).prevout] in groups
            && inputs[i].sigs == old(inputs[i]).sigs
                                 + Signatures(old(inputs[i]).derivations, signersOf[walletOf[old(inputs[i]).prevout]]))
    ensures ok <==> forall w, g :: w in groups && g in signersOf[w] ==> g.works
  {
    var todo := groups.Keys;
    ok := true;
    while todo != {}
      invariant todo <= groups.Keys
      invariant forall i :: 0 <= i < inputs.Length ==>
        inputs[i] == WalletSigned(old(inputs[i]), walletOf, groups.Keys - todo, signersOf)
      invariant forall w, g :: w in groups.Keys - todo && g in signersOf[w] ==> g.works
      decreases todo
    {
      SomeMember(todo);
      var w :| w in todo;
      ok := SignMigrationInputs(inputs, groups[w], signersOf[w]);
      if !ok {
        return;
      }
      WorkingIs(signersOf[w], |signersOf[w]|);
      assert signersOf[w][..|signersOf[w]|] == signersOf[w];
      todo := todo - {w};
      forall i | 0 <= i < inputs.Length
        ensures inputs[i] == WalletSigned(old(inputs[i]), walletOf, groups.Keys - todo, signersOf)
      {
        assert Listed(groups, w, i) <==> InWallet(old(inputs[i]).prevout, walletOf, w);
      }
    }
    assert groups.Keys - todo == groups.Keys;
    forall i | 0 <= i < inputs.Length && old(inputs[i]).prevout in walletOf
      ensures walletOf[old(inputs[i]).prevout] in groups
    {
      assert InWallet(old(inputs[i]).prevout, walletOf, walletOf[old(inputs[i]).prevout]);
      assert Listed(groups, walletOf[old(inputs[i]).prevout], i);
    }
  }

  /** One input when the wallets in `done` have had their turn. */
  function WalletSigned(inp: Input, walletOf: map<OutPoint, int>, done: set<int>, signersOf: map<int, seq<Signer>>): Input
    requires done <= signersOf.Keys
  {
    if inp.prevout in walletOf && walletOf[inp.prevout] in done
    then inp.(sigs := inp.sigs + Signatures(inp.derivations, signersOf[walletOf[inp.prevout]]))
    else inp
  }

  /** None of the signatures an input gets is derived along another account's path. */
  lemma NoForeignPath(inp: Input, owner: map<OutPoint, int>, accounts: seq<Account>, pathOf: map<int, Path>)
    requires forall a, s :: a in accounts && s in a.signers ==> a.idx in pathOf && s.path == pathOf[a.idx]
    ensures forall g :: g in OwnerSignatures(inp, owner, accounts) ==>
      inp.prevout in owner && owner[inp.prevout] in pathOf && g.path == pathOf[owner[inp.prevout]]
  {
    if inp.prevout in owner {
      FindFinds(accounts, owner[inp.prevout]);
    }
  }

  lemma {:induction false} FindFinds(accounts: seq<Account>, idx: int)
    ensures Find(accounts, idx).Some? ==> Find(accounts, idx).value in accounts && Find(accounts, idx).value.idx == idx
    ensures Find(accounts, idx).None? <==> forall a :: a in accounts ==> a.idx != idx
  {
    if accounts != [] {
      FindFinds(accounts[1..], idx);
    }
  }

  /** Why the scoping is needed: without it, a second account that shows the same fingerprint adds a signature
      along its own path to an input it does not own. */
  lemma UnscopedMisderives(inp: Input, a: Signer, b: Signer)
    requires a.works && b.works && a.fingerprint == b.fingerprint && a.path != b.path
    requires Shows(inp.derivations, a.fingerprint)
    ensures Sig(b.fingerprint, b.path) in SignedBy(SignedBy(inp, a), b).sigs
    ensures Sig(a.fingerprint, a.path) in SignedBy(SignedBy(inp, a), b).sigs
  {
  }
}
