/** Reorg reconciliation: after a sync in which some wallet was rebuilt, every completed migration whose recorded
    sweep is in no wallet graph any more goes back to pending. */
module Reconciliation {
  import opened Wrappers
  import opened FederationVersions
  import opened MigrationStatus
  import WalletSync

  type Txid = WalletSync.Txid
  type Parser = string -> Option<Txid>

  const U32_MAX := 0xFFFF_FFFF

  // ---------------------------------------------------------------------------
  // What a pass does to one row
  // ---------------------------------------------------------------------------

  /** A completed migration of the wallet with a parseable recorded sweep. */
  predicate Tracked(v: Version, w: WalletRef, parse: Parser) {
    v.wallet == w && v.status == Complete && v.sweep.Some? && parse(v.sweep.value).Some?
  }

  predicate Vanished(v: Version, w: WalletRef, parse: Parser, present: set<Txid>) {
    Tracked(v, w, parse) && parse(v.sweep.value).value !in present
  }

  function ReconciledRow(v: Version, w: WalletRef, parse: Parser, present: set<Txid>): Version {
    if Vanished(v, w, parse, present) then v.(status := Pending, sweep := None) else v
  }

  ghost function VanishedRows(rows: Rows, w: WalletRef, parse: Parser, present: set<Txid>): set<nat> {
    set i: nat | i < |rows| && Vanished(rows[i], w, parse, present)
  }

  /** Every transaction in the view of some version wallet or of the primary one. */
  ghost function GraphTxids(versions: seq<WalletSync.VersionWallet>, inner: WalletSync.Graph): set<Txid> {
    (set i, t | 0 <= i < |versions| && t in versions[i].graph.txs :: t) + inner.txs
  }

  // ---------------------------------------------------------------------------
  // Candidates
  // ---------------------------------------------------------------------------

  datatype Candidate = Candidate(id: nat, txid: Txid, text: string)

  function CandidatesOf(versions: seq<Version>, w: WalletRef, parse: Parser): seq<Candidate> {
    if versions == [] then []
    else
      var rest, v := CandidatesOf(versions[..|versions| - 1], w, parse), versions[|versions| - 1];
      if Tracked(v, w, parse) then rest + [Candidate(v.id, parse(v.sweep.value).value, v.sweep.value)] else rest
  }

  method ListCandidates(versions: seq<Version>, w: WalletRef, parse: Parser) returns (cs: seq<Candidate>)
    requires forall v :: v in versions ==> v.wallet == w
    ensures cs == CandidatesOf(versions, w, parse)
  {
    cs := [];
    for i := 0 to |versions|
      invariant cs == CandidatesOf(versions[..i], w, parse)
    {
      assert versions[..i + 1][..i] == versions[..i];
      var v := versions[i];
      if v.status == Complete && v.sweep.Some? {
        var txid := parse(v.sweep.value);
        if txid.Some? {
          cs := cs + [Candidate(v.id, txid.value, v.sweep.value)];
        }
      }
    }
    assert versions[..|versions|] == versions;
  }

  /** Of `wanted`, the txids some wallet graph has. */
  method PresentIn(versions: seq<WalletSync.VersionWallet>, inner: WalletSync.Graph, wanted: set<Txid>)
    returns (present: set<Txid>)
    ensures present == wanted * GraphTxids(versions, inner)
  {
    present := {};
    for i := 0 to |versions|
      invariant forall t :: t in present <==> t in wanted && exists j :: 0 <= j < i && t in versions[j].graph.txs
    {
      present := present + wanted * versions[i].graph.txs;
    }
    present := present + wanted * inner.txs;
  }

  /** The candidates are the tracked versions, each once and as recorded. */
  ghost predicate Faithful(rows: Rows, w: WalletRef, parse: Parser, cs: seq<Candidate>) {
    && (forall c :: c in cs ==> exists i :: 0 <= i < |rows| && From(rows[i], w, parse, c))
    && (forall i :: 0 <= i < |rows| && Tracked(rows[i], w, parse) ==> Names(cs, rows[i].id))
    && (forall j, k :: 0 <= j < k < |cs| ==> cs[j].id != cs[k].id)
  }

  ghost predicate From(v: Version, w: WalletRef, parse: Parser, c: Candidate) {
    Tracked(v, w, parse) && c == Candidate(v.id, parse(v.sweep.value).value, v.sweep.value)
  }

  ghost predicate Names(cs: seq<Candidate>, id: nat) {
    exists j :: 0 <= j < |cs| && cs[j].id == id
  }

  ghost predicate FromOne(versions: seq<Version>, w: WalletRef, parse: Parser, c: Candidate) {
    exists v :: v in versions && From(v, w, parse, c)
  }

  lemma {:induction false} CandidatesFrom(versions: seq<Version>, w: WalletRef, parse: Parser)
    ensures forall c :: c in CandidatesOf(versions, w, parse) ==> FromOne(versions, w, parse, c)
    ensures forall v :: v in versions && Tracked(v, w, parse) ==> Names(CandidatesOf(versions, w, parse), v.id)
  {
    if versions != [] {
      var init, last := versions[..|versions| - 1], versions[|versions| - 1];
      CandidatesFrom(init, w, parse);
      var rest, cs := CandidatesOf(init, w, parse), CandidatesOf(versions, w, parse);
      assert versions == init + [last];
      forall c | c in cs ensures FromOne(versions, w, parse, c) {
        if c in rest {
          var v :| v in init && From(v, w, parse, c);
          assert v in versions;
        } else {
          assert From(last, w, parse, c);
        }
      }
      forall v | v in versions && Tracked(v, w, parse) ensures Names(cs, v.id) {
        if v in init {
          var j :| 0 <= j < |rest| && rest[j].id == v.id;
          assert cs[j] == rest[j];
        } else {
          assert cs[|cs| - 1].id == v.id;
        }
      }
    }
  }

  lemma {:induction false} CandidatesOnce(versions: seq<Version>, w: WalletRef, parse: Parser)
    requires forall i, j :: 0 <= i < j < |versions| ==> versions[i].id != versions[j].id
    ensures var cs := CandidatesOf(versions, w, parse); forall j, k :: 0 <= j < k < |cs| ==> cs[j].id != cs[k].id
  {
    if versions != [] {
      var init, last := versions[..|versions| - 1], versions[|versions| - 1];
      CandidatesOnce(init, w, parse);
      var rest := CandidatesOf(init, w, parse);
      forall j | 0 <= j < |rest| ensures rest[j].id != last.id {
        CandidateIsListed(init, w, parse, rest[j]);
        var m :| 0 <= m < |init| && init[m].id == rest[j].id;
        assert init[m] == versions[m];
      }
      var cs := CandidatesOf(versions, w, parse);
      assert cs == rest || (|cs| == |rest| + 1 && cs[..|rest|] == rest && cs[|rest|].id == last.id);
      forall j, k | 0 <= j < k < |cs| ensures cs[j].id != cs[k].id {
        assert cs[j] == rest[j];
        assert k < |rest| ==> cs[k] == rest[k];
      }
    }
  }

  lemma CandidateIsListed(versions: seq<Version>, w: WalletRef, parse: Parser, c: Candidate)
    requires c in CandidatesOf(versions, w, parse)
    ensures exists m :: 0 <= m < |versions| && versions[m].id == c.id
  {
    CandidatesFrom(versions, w, parse);
    hide CandidatesOf;
    var v :| v in versions && From(v, w, parse, c);
  }

  lemma ListedIds(rows: Rows, nextId: nat, w: WalletRef, versions: seq<Version>)
    requires Inv(rows, nextId) && Listed(rows, w, versions)
    ensures forall i, j :: 0 <= i < j < |versions| ==> versions[i].id != versions[j].id
  {
    if versions != [] {
      ListedIndices(rows, nextId, w, versions, |versions| - 1);
    }
    forall i, j | 0 <= i < j < |versions| ensures versions[i].id != versions[j].id {
      assert versions[i] in rows && versions[j] in rows;
      var m :| 0 <= m < |rows| && rows[m] == versions[i];
      var n :| 0 <= n < |rows| && rows[n] == versions[j];
      assert versions[i].index != versions[j].index;
    }
  }

  lemma CandidatesFaithful(rows: Rows, nextId: nat, w: WalletRef, versions: seq<Version>, parse: Parser)
    requires Inv(rows, nextId) && Listed(rows, w, versions)
    ensures Faithful(rows, w, parse, CandidatesOf(versions, w, parse))
  {
    hide CandidatesOf;
    ListedIds(rows, nextId, w, versions);
    CandidatesFrom(versions, w, parse);
    CandidatesOnce(versions, w, parse);
    var cs := CandidatesOf(versions, w, parse);
    forall c | c in cs ensures exists i :: 0 <= i < |rows| && From(rows[i], w, parse, c) {
      var v :| v in versions && From(v, w, parse, c);
      assert v in rows;
    }
  }

  // ---------------------------------------------------------------------------
  // One pass
  // ---------------------------------------------------------------------------

  /** The rows a pass has reverted after its first `k` candidates. */
  ghost function Done(rows: Rows, w: WalletRef, parse: Parser, present: set<Txid>, cs: seq<Candidate>, k: nat): set<nat>
    requires k <= |cs|
  {
    set i: nat | i < |rows| && Vanished(rows[i], w, parse, present) && exists j :: 0 <= j < k && cs[j].id == rows[i].id
  }

  /** What one more candidate adds: its own row when its sweep is absent, nothing otherwise. */
  lemma DoneSnoc(rows: Rows, nextId: nat, w: WalletRef, parse: Parser, present: set<Txid>, cs: seq<Candidate>, k: nat)
    returns (i: nat)
    requires Inv(rows, nextId) && Faithful(rows, w, parse, cs) && k < |cs|
    ensures i < |rows| && From(rows[i], w, parse, cs[k]) && i !in Done(rows, w, parse, present, cs, k)
    ensures forall m :: 0 <= m < |rows| ==> (rows[m].id == cs[k].id <==> m == i)
    ensures Done(rows, w, parse, present, cs, k + 1)
            == Done(rows, w, parse, present, cs, k) + (if cs[k].txid in present then {} else {i})
  {
    assert cs[k] in cs;
    i :| 0 <= i < |rows| && From(rows[i], w, parse, cs[k]);
    assert forall m :: 0 <= m < |rows| && m != i ==> rows[m].id != rows[i].id by {
      assert UniqueKeys(rows);
    }
    hide Inv;
    hide Faithful;
    assert Faithful(rows, w, parse, cs);
    DoneAdds(rows, w, parse, present, cs, k, i);
  }

  lemma DoneAdds(rows: Rows, w: WalletRef, parse: Parser, present: set<Txid>, cs: seq<Candidate>, k: nat, i: nat)
    requires Faithful(rows, w, parse, cs) && k < |cs| && i < |rows| && From(rows[i], w, parse, cs[k])
    requires forall m :: 0 <= m < |rows| && m != i ==> rows[m].id != rows[i].id
    ensures i !in Done(rows, w, parse, present, cs, k)
    ensures Done(rows, w, parse, present, cs, k + 1)
            == Done(rows, w, parse, present, cs, k) + (if cs[k].txid in present then {} else {i})
  {
    var before, after := Done(rows, w, parse, present, cs, k), Done(rows, w, parse, present, cs, k + 1);
    forall m: nat ensures m in after <==> m in before || (m == i && cs[k].txid !in present) {
      if m in before {
        var j :| 0 <= j < k && cs[j].id == rows[m].id;
        assert j < k + 1;
      }
      if m == i && cs[k].txid !in present {
        assert cs[k].id == rows[m].id;
      }
    }
  }

  lemma AllDone(rows: Rows, w: WalletRef, parse: Parser, present: set<Txid>, cs: seq<Candidate>)
    requires Faithful(rows, w, parse, cs)
    ensures Done(rows, w, parse, present, cs, |cs|) == VanishedRows(rows, w, parse, present)
    ensures Done(rows, w, parse, present, cs, 0) == {}
  {
  }

  /** A count kept in 32 bits. */
  function Saturated(n: nat): (r: nat)
    ensures n < 0x1_0000_0000 ==> r == n
    ensures n >= 0x1_0000_0000 ==> r == 0xFFFF_FFFF
  {
    if n < U32_MAX then n else U32_MAX
  }

  /** The rows that went from complete to pending. */
  ghost function TurnedPending(before: Rows, after: Rows): set<nat>
    requires |after| == |before|
  {
    set i: nat | i < |before| && before[i].status == Complete && after[i].status == Pending
  }

  /** What is reported: the number of rows that went from complete to pending, as long as it fits 32 bits. */
  ghost predicate CountsReverts(before: Rows, after: Rows, reverted: nat) {
    && |after| == |before|
    && (|TurnedPending(before, after)| < 0x1_0000_0000 ==> reverted == |TurnedPending(before, after)|)
    && (|TurnedPending(before, after)| >= 0x1_0000_0000 ==> reverted == 0xFFFF_FFFF)
  }

  lemma VanishedTurnPending(before: Rows, after: Rows, w: WalletRef, parse: Parser, present: set<Txid>)
    requires |after| == |before|
    requires forall i :: 0 <= i < |after| ==> after[i] == ReconciledRow(before[i], w, parse, present)
    ensures CountsReverts(before, after, Saturated(|VanishedRows(before, w, parse, present)|))
  {
    assert TurnedPending(before, after) == VanishedRows(before, w, parse, present);
  }

  /** The table when the rows `done` have been reverted. */
  ghost predicate RevertedAt(before: Rows, after: Rows, done: set<nat>) {
    |after| == |before|
    && forall i: nat :: i < |before| ==>
      after[i] == if i in done then before[i].(status := Pending, sweep := None) else before[i]
  }

  /** One guarded revert of a row not reverted before. */
  lemma RevertStep(before: Rows, rows: Rows, after: Rows, done: set<nat>, i: nat, id: nat, text: string)
    requires RevertedAt(before, rows, done) && i < |before| && i !in done
    requires forall m :: 0 <= m < |before| ==> (before[m].id == id <==> m == i)
    requires before[i].status == Complete && before[i].sweep == Some(text)
    requires Each(rows, after, v => RevertRow(v, id, text))
    ensures RevertedAt(before, after, done + {i})
    ensures exists v :: v in rows && Revertible(v, id, text)
  {
    assert rows[i] in rows && Revertible(rows[i], id, text);
    forall m: nat | m < |before|
      ensures after[m] == if m in done + {i} then before[m].(status := Pending, sweep := None) else before[m]
    {
      assert after[m] == RevertRow(rows[m], id, text);
      assert rows[m].id == before[m].id;
    }
  }

  /** The guarded reverts, candidate by candidate. */
  method RevertAbsent(t: Table, w: WalletRef, parse: Parser, present: set<Txid>, cs: seq<Candidate>)
    returns (reverted: nat)
    requires Inv(t.rows, t.nextId) && Faithful(t.rows, w, parse, cs)
    modifies t`rows
    ensures Inv(t.rows, t.nextId)
    ensures |t.rows| == |old(t.rows)|
    ensures forall i :: 0 <= i < |t.rows| ==> t.rows[i] == ReconciledRow(old(t.rows)[i], w, parse, present)
    ensures reverted == Saturated(|VanishedRows(old(t.rows), w, parse, present)|)
    ensures CountsReverts(old(t.rows), t.rows, reverted)
  {
    hide Inv;
    hide Faithful;
    hide Dense;
    hide RevertedAt;
    hide Done;
    hide Each;
    hide Revertible;
    ghost var before, done := t.rows, {};
    reverted := 0;
    AllDone(before, w, parse, present, cs);
    NothingReverted(before);
    for k := 0 to |cs|
      invariant Inv(t.rows, t.nextId) && done == Done(before, w, parse, present, cs, k)
      invariant RevertedAt(before, t.rows, done) && reverted == Saturated(|done|)
    {
      ghost var i := DoneSnoc(before, t.nextId, w, parse, present, cs, k);
      if cs[k].txid !in present {
        ghost var rows := t.rows;
        IdsStayApart(before, rows, t.nextId, done);
        var hit := t.ReconcileMigration(cs[k].id, cs[k].text);
        StatementKeeps(rows, t.nextId, Revert(cs[k].id, cs[k].text), t.rows, t.nextId);
        RevertStep(before, rows, t.rows, done, i, cs[k].id, cs[k].text);
        done := done + {i};
        if hit && reverted < U32_MAX {
          reverted := reverted + 1;
        }
      }
    }
    AllReverted(before, t.rows, w, parse, present);
    VanishedTurnPending(before, t.rows, w, parse, present);
  }

  lemma NothingReverted(rows: Rows)
    ensures RevertedAt(rows, rows, {})
  {
  }

  lemma AllReverted(before: Rows, after: Rows, w: WalletRef, parse: Parser, present: set<Txid>)
    requires RevertedAt(before, after, VanishedRows(before, w, parse, present))
    ensures |after| == |before|
    ensures forall i :: 0 <= i < |after| ==> after[i] == ReconciledRow(before[i], w, parse, present)
  {
  }

  lemma IdsStayApart(before: Rows, rows: Rows, nextId: nat, done: set<nat>)
    requires Inv(rows, nextId) && RevertedAt(before, rows, done)
    ensures forall i, j :: 0 <= i < j < |rows| ==> rows[i].id != rows[j].id
  {
  }

  lemma OnlyWantedMatter(rows: Rows, w: WalletRef, parse: Parser, cs: seq<Candidate>, present: set<Txid>, wanted: set<Txid>)
    requires Faithful(rows, w, parse, cs)
    requires wanted == set c | c in cs :: c.txid
    requires UniqueKeys(rows)
    ensures forall i :: 0 <= i < |rows| ==>
      (Vanished(rows[i], w, parse, wanted * present) <==> Vanished(rows[i], w, parse, present))
    ensures VanishedRows(rows, w, parse, wanted * present) == VanishedRows(rows, w, parse, present)
  {
    forall i | 0 <= i < |rows| && Tracked(rows[i], w, parse) ensures parse(rows[i].sweep.value).value in wanted {
      var j :| 0 <= j < |cs| && cs[j].id == rows[i].id;
      assert cs[j] in cs;
      var m :| 0 <= m < |rows| && From(rows[m], w, parse, cs[j]);
      assert m == i;
    }
  }

  /** One reconciliation pass.  Not armed, it does nothing.  Armed, it reverts precisely the completed migrations of
      this wallet whose parseable recorded sweep is in no version graph and not in the primary one, returns how
      many, and leaves every other row alone. */
  method Reconcile(t: Table, w: WalletRef, parse: Parser, reorgRebuilt: bool,
                   versions: seq<WalletSync.VersionWallet>, inner: WalletSync.Graph) returns (reverted: nat)
    requires Inv(t.rows, t.nextId)
    modifies t`rows
    ensures Inv(t.rows, t.nextId)
    ensures !reorgRebuilt ==> reverted == 0 && t.rows == old(t.rows)
    ensures CountsReverts(old(t.rows), t.rows, reverted)
    ensures reorgRebuilt ==>
      && |t.rows| == |old(t.rows)|
      && (forall i :: 0 <= i < |t.rows| ==>
            t.rows[i] == ReconciledRow(old(t.rows)[i], w, parse, GraphTxids(versions, inner)))
      && reverted == Saturated(|VanishedRows(old(t.rows), w, parse, GraphTxids(versions, inner))|)
  {
    NoneTurned(t.rows);
    if !reorgRebuilt {
      return 0;
    }
    var listed := t.List(w);
    var cs := ListCandidates(listed, w, parse);
    CandidatesFaithful(t.rows, t.nextId, w, listed, parse);
    if cs == [] {
      NothingVanished(t.rows, w, parse, GraphTxids(versions, inner));
      return 0;
    }
    var wanted := set c | c in cs :: c.txid;
    OnlyWantedMatter(t.rows, w, parse, cs, GraphTxids(versions, inner), wanted);
    var present := PresentIn(versions, inner, wanted);
    reverted := RevertAbsent(t, w, parse, present, cs);
  }

  lemma NoneTurned(rows: Rows)
    ensures CountsReverts(rows, rows, 0)
  {
    assert TurnedPending(rows, rows) == {};
  }

  lemma NothingVanished(rows: Rows, w: WalletRef, parse: Parser, present: set<Txid>)
    requires Faithful(rows, w, parse, [])
    ensures VanishedRows(rows, w, parse, present) == {}
    ensures forall i :: 0 <= i < |rows| ==> ReconciledRow(rows[i], w, parse, present) == rows[i]
  {
  }

  /** After a pass, complete with a parseable recorded sweep means the sweep is present; a second pass over the
      same graphs finds nothing. */
  lemma SecondPassFindsNothing(before: Rows, after: Rows, w: WalletRef, parse: Parser, present: set<Txid>)
    requires |after| == |before|
    requires forall i :: 0 <= i < |after| ==> after[i] == ReconciledRow(before[i], w, parse, present)
    ensures VanishedRows(after, w, parse, present) == {}
    ensures forall i :: 0 <= i < |after| && Tracked(after[i], w, parse) ==>
      after[i] == before[i] && parse(after[i].sweep.value).value in present
  {
  }
}
