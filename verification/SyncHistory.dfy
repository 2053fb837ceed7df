/** Histories of syncs: completed ones, ones that fail part of the way, and restarts.  The reconciliation gate is a
    single call's "some wallet was rebuilt", so a rebuild in a sync that then fails is forgotten; this module says
    over which histories no vanished sweep is missed, by what is known before the sync is made. */
module SyncHistory {
  import opened Wrappers
  import opened FederationVersions
  import opened MigrationStatus
  import opened Reconciliation
  import opened ReorgSync
  import W = WalletSync

  /** An attempt against a best chain leaves the first wallets, those it reached, with the given chains; it has
      completed when it reached them all, the primary one last.  A restart loads the primary wallet from its row and
      starts the version wallets afresh. */
  datatype Event =
    | Attempt(best: Chain, chains: seq<Chain>)
    | Restart(primary: Chain)

  /** The transactions in each wallet's view, and the version table. */
  datatype Moment = Moment(views: seq<set<Txid>>, rows: Rows)

  // ---------------------------------------------------------------------------
  // What is known of a history: chains, and which attempts completed
  // ---------------------------------------------------------------------------

  predicate LawfulEvent(before: seq<Chain>, e: Event) {
    e.Attempt? ==> |e.chains| <= |before| && forall j :: 0 <= j < |e.chains| ==> OnChain(e.chains[j], e.best)
  }

  predicate Completed(before: seq<Chain>, e: Event) {
    e.Attempt? && |e.chains| == |before|
  }

  /** The attempt reaches a wallet that holds an abandoned block. */
  ghost predicate Rebuilds(before: seq<Chain>, e: Event, j: nat) {
    e.Attempt? && j < |e.chains| && j < |before| && !OnChain(before[j], e.best)
  }

  ghost predicate RebuildsSome(before: seq<Chain>, e: Event) {
    exists j :: Rebuilds(before, e, j)
  }

  ghost predicate Armed(before: seq<Chain>, e: Event) {
    Completed(before, e) && RebuildsSome(before, e)
  }

  function ChainsAfter(before: seq<Chain>, e: Event): (r: seq<Chain>)
    ensures |r| == |before|
  {
    match e
    case Attempt(_, chains) => if |chains| <= |before| then chains + before[|chains|..] else before
    case Restart(primary) => if before == [] then [] else seq(|before| - 1, _ => map[]) + [primary]
  }

  /** The wallets' chains after a history. */
  function Chains(start: seq<Chain>, h: seq<Event>): (r: seq<Chain>)
    ensures |r| == |start|
  {
    if h == [] then start else ChainsAfter(Chains(start, h[..|h| - 1]), h[|h| - 1])
  }

  ghost predicate LawfulHistory(start: seq<Chain>, h: seq<Event>) {
    h == [] || (LawfulHistory(start, h[..|h| - 1]) && LawfulEvent(Chains(start, h[..|h| - 1]), h[|h| - 1]))
  }

  /** A rebuild has been forgotten: wallets were rebuilt by a failed attempt, or started afresh, and no completed
      attempt has rebuilt any since. */
  ghost predicate Owed(start: seq<Chain>, h: seq<Event>) {
    h != [] &&
    var init, e := h[..|h| - 1], h[|h| - 1];
    var before := Chains(start, init);
    if e.Restart? then true
    else if Completed(before, e) then Owed(start, init) && !RebuildsSome(before, e)
    else Owed(start, init) || RebuildsSome(before, e)
  }

  // ---------------------------------------------------------------------------
  // What happens in a history: transactions and version rows
  // ---------------------------------------------------------------------------

  ghost function AllTxids(views: seq<set<Txid>>): set<Txid> {
    set j, t | 0 <= j < |views| && t in views[j] :: t
  }

  /** What an event may do to the views: a wallet not rebuilt loses nothing, a wallet not reached stays as it was,
      a restart empties the version wallets. */
  ghost predicate Sees(before: seq<Chain>, e: Event, was: seq<set<Txid>>, views: seq<set<Txid>>) {
    && |was| == |before| && |views| == |before|
    && (match e
        case Attempt(_, chains) =>
          forall j :: 0 <= j < |before| ==>
            if j < |chains| then Rebuilds(before, e, j) || was[j] <= views[j] else views[j] == was[j]
        case Restart(_) => forall j :: 0 <= j < |before| - 1 ==> views[j] == {})
  }

  /** What an event does to the version table: an armed attempt reconciles, any other event leaves it alone. */
  ghost predicate Rewrites(before: seq<Chain>, e: Event, w: WalletRef, parse: Parser, was: Rows, now: Moment) {
    |now.rows| == |was|
    && forall i :: 0 <= i < |was| ==>
      now.rows[i] == if Armed(before, e) then ReconciledRow(was[i], w, parse, AllTxids(now.views)) else was[i]
  }

  ghost predicate Follows(start: seq<Chain>, h: seq<Event>, w: WalletRef, parse: Parser, was: Moment, now: Moment)
    requires h != []
  {
    var before := Chains(start, h[..|h| - 1]);
    Sees(before, h[|h| - 1], was.views, now.views) && Rewrites(before, h[|h| - 1], w, parse, was.rows, now)
  }

  /** `m` is where the history `h` may lead from `first`. */
  ghost predicate LeadsTo(start: seq<Chain>, h: seq<Event>, w: WalletRef, parse: Parser, first: Moment, m: Moment) {
    if h == [] then m == first
    else exists was :: LeadsTo(start, h[..|h| - 1], w, parse, first, was) && Follows(start, h, w, parse, was, m)
  }

  /** "Complete with a recorded sweep" means the sweep is in some wallet's view. */
  ghost predicate SweepsPresent(m: Moment, w: WalletRef, parse: Parser) {
    VanishedRows(m.rows, w, parse, AllTxids(m.views)) == {}
  }

  /** A wallet as loaded: a table with the version-history invariant, a version wallet per version, the primary one
      last; and no sweep missing. */
  ghost predicate Begins(start: seq<Chain>, w: WalletRef, parse: Parser, m: Moment) {
    && |m.views| == |start|
    && (exists nextId :: Inv(m.rows, nextId))
    && |start| == |Of(m.rows, w)| + 1
    && SweepsPresent(m, w, parse)
  }

  // ---------------------------------------------------------------------------
  // Not owed: nothing is missed
  // ---------------------------------------------------------------------------

  lemma NothingLost(before: seq<Chain>, e: Event, w: WalletRef, parse: Parser, was: Moment, now: Moment)
    requires Sees(before, e, was.views, now.views) && Rewrites(before, e, w, parse, was.rows, now)
    requires e.Attempt? && SweepsPresent(was, w, parse) && !RebuildsSome(before, e)
    ensures SweepsPresent(now, w, parse)
  {
    forall t | t in AllTxids(was.views) ensures t in AllTxids(now.views) {
      var j :| 0 <= j < |was.views| && t in was.views[j];
      assert !Rebuilds(before, e, j);
    }
    forall i: nat | i < |now.rows| ensures !Vanished(now.rows[i], w, parse, AllTxids(now.views)) {
      assert i !in VanishedRows(was.rows, w, parse, AllTxids(was.views));
    }
  }

  lemma Reconciles(before: seq<Chain>, e: Event, w: WalletRef, parse: Parser, was: Moment, now: Moment)
    requires Rewrites(before, e, w, parse, was.rows, now) && Armed(before, e)
    ensures SweepsPresent(now, w, parse)
  {
    SecondPassFindsNothing(was.rows, now.rows, w, parse, AllTxids(now.views));
  }

  /** A completed sync keeps every recorded sweep present. */
  lemma CompletedKeeps(before: seq<Chain>, e: Event, w: WalletRef, parse: Parser, was: Moment, now: Moment)
    requires Sees(before, e, was.views, now.views) && Rewrites(before, e, w, parse, was.rows, now)
    requires Completed(before, e) && SweepsPresent(was, w, parse)
    ensures SweepsPresent(now, w, parse)
  {
    if RebuildsSome(before, e) {
      Reconciles(before, e, w, parse, was, now);
    } else {
      NothingLost(before, e, w, parse, was, now);
    }
  }

  lemma {:induction false} NotOwedKeeps(start: seq<Chain>, h: seq<Event>, w: WalletRef, parse: Parser, first: Moment, m: Moment)
    requires LawfulHistory(start, h) && LeadsTo(start, h, w, parse, first, m)
    requires SweepsPresent(first, w, parse) && !Owed(start, h)
    ensures SweepsPresent(m, w, parse)
  {
    hide SweepsPresent;
    hide Sees;
    hide Rewrites;
    hide RebuildsSome;
    if h != [] {
      var init, e := h[..|h| - 1], h[|h| - 1];
      var was :| LeadsTo(start, init, w, parse, first, was) && Follows(start, h, w, parse, was, m);
      if Armed(Chains(start, init), e) {
        Reconciles(Chains(start, init), e, w, parse, was, m);
      } else {
        NotOwedKeeps(start, init, w, parse, first, was);
        NothingLost(Chains(start, init), e, w, parse, was, m);
      }
    }
  }

  // ---------------------------------------------------------------------------
  // Owed: a sweep may have been missed
  // ---------------------------------------------------------------------------

  /** A wallet's table with every version but the latest complete and swept by the same transaction. */
  function Swept(n: nat, w: WalletRef, text: string): (r: Rows)
    ensures |r| == n
    ensures forall i :: 0 <= i < n ==>
      r[i] == if i == n - 1 then Version(i, w, i, i, None, NotApplicable, None)
              else Version(i, w, i, i, None, Complete, Some(text))
  {
    seq(n, i requires 0 <= i < n =>
      if i == n - 1 then Version(i, w, i, i, None, NotApplicable, None)
      else Version(i, w, i, i, None, Complete, Some(text)))
  }

  lemma SweptSatisfiesInv(n: nat, w: WalletRef, text: string)
    ensures Inv(Swept(n, w, text), n) && |Of(Swept(n, w, text), w)| == n
  {
    var rows := Swept(n, w, text);
    AllOf(rows, w);
    forall v, k: nat | v in rows && k < v.index ensures Occupied(rows, v.wallet, k) {
      assert rows[k] in rows;
    }
    forall v | v in rows ensures RowOk(rows, v) {
      assert n > 0 && rows[n - 1] in rows;
    }
  }

  lemma {:induction false} AllOf(rows: Rows, w: WalletRef)
    requires forall v :: v in rows ==> v.wallet == w
    ensures |Of(rows, w)| == |rows|
  {
    if rows != [] {
      AllOf(rows[..|rows| - 1], w);
    }
  }

  /** Only wallet `j` has the transaction, or none has. */
  function OnlyAt(n: nat, j: nat, txid: Txid, there: bool): (r: seq<set<Txid>>)
    ensures |r| == n && forall i :: 0 <= i < n ==> r[i] == if there && i == j then {txid} else {}
  {
    seq(n, i requires 0 <= i < n => if there && i == j then {txid} else {})
  }

  lemma OnlyAtTxids(n: nat, j: nat, txid: Txid, there: bool)
    requires j < n
    ensures AllTxids(OnlyAt(n, j, txid, there)) == if there then {txid} else {}
  {
    var views := OnlyAt(n, j, txid, there);
    assert there ==> txid in views[j];
  }

  /** Whether wallet `j` has been reached since the last restart. */
  predicate ReachedSince(h: seq<Event>, j: nat) {
    h == [] ||
    match h[|h| - 1]
    case Restart(_) => false
    case Attempt(_, chains) => j < |chains| || ReachedSince(h[..|h| - 1], j)
  }

  function Sweep(n: nat, w: WalletRef, text: string, j: nat, txid: Txid, there: bool): Moment {
    Moment(OnlyAt(n + 1, j, txid, there), Swept(n, w, text))
  }

  /** As long as version wallet `j` finds the sweep whenever it is reached, no pass reverts anything. */
  lemma {:induction false} SweepStays(start: seq<Chain>, h: seq<Event>, w: WalletRef, parse: Parser, text: string, j: nat)
    requires LawfulHistory(start, h) && parse(text).Some? && j + 1 < |start|
    ensures var n, txid := |start| - 1, parse(text).value;
            LeadsTo(start, h, w, parse, Sweep(n, w, text, j, txid, true), Sweep(n, w, text, j, txid, ReachedSince(h, j)))
  {
    hide Swept;
    hide OnlyAt;
    if h != [] {
      var n, txid := |start| - 1, parse(text).value;
      var init, e := h[..|h| - 1], h[|h| - 1];
      SweepStays(start, init, w, parse, text, j);
      var was, now := Sweep(n, w, text, j, txid, ReachedSince(init, j)), Sweep(n, w, text, j, txid, ReachedSince(h, j));
      OnlyAtTxids(n + 1, j, txid, ReachedSince(h, j));
      assert Follows(start, h, w, parse, was, now);
    }
  }

  lemma SweptMissed(n: nat, w: WalletRef, parse: Parser, text: string, j: nat, there: bool)
    requires parse(text).Some? && n >= 2 && j <= n
    ensures SweepsPresent(Sweep(n, w, text, j, parse(text).value, there), w, parse) <==> there
  {
    var m := Sweep(n, w, text, j, parse(text).value, there);
    OnlyAtTxids(n + 1, j, parse(text).value, there);
    assert m.rows[0] == Version(0, w, 0, 0, None, Complete, Some(text));
    assert !there ==> 0 in VanishedRows(m.rows, w, parse, AllTxids(m.views));
  }

  /** With a rebuild forgotten, the history may have lost a sweep nobody has noticed. */
  lemma {:induction false} OwedMayMiss(start: seq<Chain>, h: seq<Event>, w: WalletRef, parse: Parser, text: string)
    returns (j: nat)
    requires LawfulHistory(start, h) && parse(text).Some? && |start| >= 3 && Owed(start, h)
    ensures j + 1 < |start|
    ensures var n, txid := |start| - 1, parse(text).value;
            LeadsTo(start, h, w, parse, Sweep(n, w, text, j, txid, true), Sweep(n, w, text, j, txid, false))
  {
    hide Swept;
    hide OnlyAt;
    var n, txid := |start| - 1, parse(text).value;
    var init, e := h[..|h| - 1], h[|h| - 1];
    var before := Chains(start, init);
    var now;
    if Owed(start, init) {
      j := OwedMayMiss(start, init, w, parse, text);
      now := Sweep(n, w, text, j, txid, false);
      assert Follows(start, h, w, parse, now, now);
    } else {
      j := 0;
      if e.Attempt? {
        j :| Rebuilds(before, e, j);
      }
      SweepStays(start, init, w, parse, text, j);
      now := Sweep(n, w, text, j, txid, false);
      assert Follows(start, h, w, parse, Sweep(n, w, text, j, txid, ReachedSince(init, j)), now);
    }
  }

  /** A wallet with one version has no completed migration, and no event makes one. */
  lemma OneVersionIsUntracked(rows: Rows, nextId: nat, w: WalletRef, parse: Parser, i: nat)
    requires Inv(rows, nextId) && |Of(rows, w)| <= 1 && i < |rows|
    ensures !Tracked(rows[i], w, parse)
  {
    OfMembers(rows, w);
    if rows[i].wallet == w {
      assert Of(rows, w) == [rows[i]] by {
        assert rows[i] in Of(rows, w);
      }
      forall u | u in rows && u.wallet == w ensures u == rows[i] {
        assert u in Of(rows, w);
      }
      assert IsLatest(rows, rows[i]);
      assert RowOk(rows, rows[i]);
    }
  }

  lemma {:induction false} UntrackedStay(start: seq<Chain>, h: seq<Event>, w: WalletRef, parse: Parser, first: Moment, m: Moment)
    requires LeadsTo(start, h, w, parse, first, m)
    requires forall i :: 0 <= i < |first.rows| ==> !Tracked(first.rows[i], w, parse)
    ensures m.rows == first.rows
  {
    if h != [] {
      var was :| LeadsTo(start, h[..|h| - 1], w, parse, first, was) && Follows(start, h, w, parse, was, m);
      UntrackedStay(start, h[..|h| - 1], w, parse, first, was);
      hide LeadsTo;
      hide Armed;
    }
  }

  lemma OneVersionMissesNothing(start: seq<Chain>, h: seq<Event>, w: WalletRef, parse: Parser, first: Moment, m: Moment)
    requires Begins(start, w, parse, first) && LeadsTo(start, h, w, parse, first, m) && |start| <= 2
    ensures SweepsPresent(m, w, parse)
  {
    hide Inv;
    hide LeadsTo;
    var nextId :| Inv(first.rows, nextId);
    forall i: nat | i < |first.rows| ensures !Tracked(first.rows[i], w, parse) {
      OneVersionIsUntracked(first.rows, nextId, w, parse, i);
    }
    UntrackedStay(start, h, w, parse, first, m);
  }

  lemma MissedWhenOwed(start: seq<Chain>, h: seq<Event>, w: WalletRef, parse: Parser, text: string) returns (first: Moment, m: Moment)
    requires LawfulHistory(start, h) && |start| >= 3 && parse(text).Some? && Owed(start, h)
    ensures Begins(start, w, parse, first) && LeadsTo(start, h, w, parse, first, m) && !SweepsPresent(m, w, parse)
  {
    var n, txid := |start| - 1, parse(text).value;
    var j := OwedMayMiss(start, h, w, parse, text);
    first, m := Sweep(n, w, text, j, txid, true), Sweep(n, w, text, j, txid, false);
    SweptSatisfiesInv(n, w, text);
    SweptMissed(n, w, parse, text, j, true);
    SweptMissed(n, w, parse, text, j, false);
  }

  /** Over every history of completed syncs, failed syncs and restarts that starts with no sweep missing: none is
      missing at its end, whatever the wallets found, if and only if no rebuild has been forgotten, which a caller
      knows before making the last sync (`OwedAfterCompleted`), or the wallet has never had a migration. */
  lemma SweepsPresentIff(start: seq<Chain>, h: seq<Event>, w: WalletRef, parse: Parser, text: string)
    requires LawfulHistory(start, h) && parse(text).Some?
    ensures (forall first, m :: Begins(start, w, parse, first) && LeadsTo(start, h, w, parse, first, m) ==>
               SweepsPresent(m, w, parse))
            <==> !Owed(start, h) || |start| <= 2
  {
    hide Owed;
    hide LeadsTo;
    hide SweepsPresent;
    hide Begins;
    if Owed(start, h) && |start| >= 3 {
      var first, m := MissedWhenOwed(start, h, w, parse, text);
    } else {
      forall first, m | Begins(start, w, parse, first) && LeadsTo(start, h, w, parse, first, m)
        ensures SweepsPresent(m, w, parse)
      {
        if |start| <= 2 {
          OneVersionMissesNothing(start, h, w, parse, first, m);
        } else {
          BeginsPresent(start, w, parse, first);
          NotOwedKeeps(start, h, w, parse, first, m);
        }
      }
    }
  }

  lemma BeginsPresent(start: seq<Chain>, w: WalletRef, parse: Parser, m: Moment)
    requires Begins(start, w, parse, m)
    ensures SweepsPresent(m, w, parse)
  {
  }

  ghost predicate AllOnChain(chains: seq<Chain>, best: Chain) {
    forall c :: c in chains ==> OnChain(c, best)
  }

  /** For a completed sync, decided before it is made: one is owed after it exactly when one was owed before and no
      wallet holds an abandoned block. */
  lemma OwedAfterCompleted(start: seq<Chain>, h: seq<Event>, e: Event)
    requires Completed(Chains(start, h), e)
    ensures Owed(start, h + [e]) <==> Owed(start, h) && AllOnChain(Chains(start, h), e.best)
  {
    hide OnChain;
    hide ChainsAfter;
    var before := Chains(start, h);
    assert (h + [e])[..|h|] == h;
    if !AllOnChain(before, e.best) {
      var c :| c in before && !OnChain(c, e.best);
      var j :| 0 <= j < |before| && before[j] == c;
      assert Rebuilds(before, e, j);
    }
  }

  // ---------------------------------------------------------------------------
  // The wallet's syncs are such attempts
  // ---------------------------------------------------------------------------

  ghost function ChainsOf(versions: seq<W.VersionWallet>, inner: W.Graph): (r: seq<Chain>)
    ensures |r| == |versions| + 1 && r[|versions|] == inner.chain
    ensures forall j :: 0 <= j < |versions| ==> r[j] == versions[j].graph.chain
  {
    seq(|versions|, j requires 0 <= j < |versions| => versions[j].graph.chain) + [inner.chain]
  }

  ghost function ViewsOf(versions: seq<W.VersionWallet>, inner: W.Graph): (r: seq<set<Txid>>)
    ensures |r| == |versions| + 1 && r[|versions|] == inner.txs
    ensures forall j :: 0 <= j < |versions| ==> r[j] == versions[j].graph.txs
  {
    seq(|versions|, j requires 0 <= j < |versions| => versions[j].graph.txs) + [inner.txs]
  }

  lemma ViewsAreGraphs(versions: seq<W.VersionWallet>, inner: W.Graph)
    ensures AllTxids(ViewsOf(versions, inner)) == GraphTxids(versions, inner)
  {
    var views := ViewsOf(versions, inner);
    forall t ensures t in AllTxids(views) <==> t in GraphTxids(versions, inner) {
      if t in inner.txs {
        assert t in views[|versions|];
      }
      if j :| 0 <= j < |versions| && t in versions[j].graph.txs {
        assert t in views[j];
      }
    }
  }

  /** What a sync reaches: the version wallets scanned and, once it has completed, the primary one. */
  ghost function AttemptOf(best: Chain, versions: seq<W.VersionWallet>, inner: W.Graph, reached: nat, completed: bool): Event
    requires reached <= |versions|
  {
    Attempt(best, ChainsOf(versions, inner)[..if completed then |versions| + 1 else reached])
  }

  lemma ScannedLawfully(before: seq<W.VersionWallet>, after: seq<W.VersionWallet>, inner: W.Graph, inner': W.Graph,
                        revealed: Option<nat>, backend: W.Backend, primary: W.Primary, best: Chain, reached: nat, completed: bool)
    requires Lawful(best, backend, primary) && W.ScannedUpTo(before, after, revealed, backend, reached)
    requires completed ==> reached == |before| && primary(inner).Some? && inner' == W.Scanned(inner, primary(inner).value)
    ensures forall j :: 0 <= j < reached ==> LawfullyScanned(best, before[j].graph, after[j].graph)
    ensures completed ==> LawfullyScanned(best, inner, inner')
  {
    hide OnChain;
    forall j | 0 <= j < reached ensures LawfullyScanned(best, before[j].graph, after[j].graph) {
      var scan := backend(j, W.RevealedTo(before[j], revealed));
      assert scan.Some?;
      assert LawfulScan(best, before[j].graph, after[j].graph, scan.value.rebuilt);
    }
    if completed {
      assert LawfulScan(best, inner, inner', primary(inner).value.rebuilt);
    }
  }

  ghost predicate LawfullyScanned(best: Chain, before: W.Graph, after: W.Graph) {
    exists rebuilt :: LawfulScan(best, before, after, rebuilt)
  }

  /** Which wallets an attempt moves, and that it moves them lawfully. */
  lemma AttemptMoves(before: seq<W.VersionWallet>, after: seq<W.VersionWallet>, inner: W.Graph, inner': W.Graph,
                     best: Chain, reached: nat, completed: bool)
    requires |before| == |after| && reached <= |before|
    requires forall j :: 0 <= j < reached ==> LawfullyScanned(best, before[j].graph, after[j].graph)
    requires forall j :: reached <= j < |before| ==>
      after[j].graph.chain == before[j].graph.chain && after[j].graph.txs == before[j].graph.txs
    requires completed ==> reached == |before| && LawfullyScanned(best, inner, inner')
    requires !completed ==> inner' == inner
    ensures var e := AttemptOf(best, after, inner', reached, completed);
            && LawfulEvent(ChainsOf(before, inner), e)
            && (Completed(ChainsOf(before, inner), e) <==> completed)
            && ChainsOf(after, inner') == ChainsAfter(ChainsOf(before, inner), e)
            && Sees(ChainsOf(before, inner), e, ViewsOf(before, inner), ViewsOf(after, inner'))
  {
    hide OnChain;
  }

  /** From one state of the wallets to the next, as a lawful backend makes it. */
  lemma SyncIsAttempt(before: seq<W.VersionWallet>, after: seq<W.VersionWallet>, inner: W.Graph, inner': W.Graph,
                      revealed: Option<nat>, backend: W.Backend, primary: W.Primary, best: Chain, reached: nat, completed: bool)
    requires Lawful(best, backend, primary) && W.ScannedUpTo(before, after, revealed, backend, reached)
    requires completed ==> reached == |before| && primary(inner).Some? && inner' == W.Scanned(inner, primary(inner).value)
    requires !completed ==> inner' == inner
    ensures var e := AttemptOf(best, after, inner', reached, completed);
            && LawfulEvent(ChainsOf(before, inner), e)
            && (Completed(ChainsOf(before, inner), e) <==> completed)
            && ChainsOf(after, inner') == ChainsAfter(ChainsOf(before, inner), e)
            && Sees(ChainsOf(before, inner), e, ViewsOf(before, inner), ViewsOf(after, inner'))
            && (completed ==> (Armed(ChainsOf(before, inner), e) <==> AnyRebuilt(before, revealed, backend, primary(inner).value)))
  {
    hide LawfulScan;
    hide LawfulEvent;
    hide ChainsAfter;
    hide Sees;
    hide Lawful;
    hide LawfullyScanned;
    ScannedLawfully(before, after, inner, inner', revealed, backend, primary, best, reached, completed);
    AttemptMoves(before, after, inner, inner', best, reached, completed);
    if completed {
      ArmedIs(before, after, inner, inner', revealed, backend, primary, best);
    }
  }

  lemma ArmedIs(before: seq<W.VersionWallet>, after: seq<W.VersionWallet>, inner: W.Graph, inner': W.Graph,
                revealed: Option<nat>, backend: W.Backend, primary: W.Primary, best: Chain)
    requires Lawful(best, backend, primary) && W.ScannedUpTo(before, after, revealed, backend, |before|)
    requires primary(inner).Some? && inner' == W.Scanned(inner, primary(inner).value)
    ensures RebuildsSome(ChainsOf(before, inner), AttemptOf(best, after, inner', |before|, true))
            <==> AnyRebuilt(before, revealed, backend, primary(inner).value)
  {
    hide OnChain;
    var e, chains := AttemptOf(best, after, inner', |before|, true), ChainsOf(before, inner);
    assert LawfulScan(best, inner, inner', primary(inner).value.rebuilt);
    forall j: nat | j < |before|
      ensures Rebuilds(chains, e, j) <==> backend(j, W.RevealedTo(before[j], revealed)).value.rebuilt
    {
      assert backend(j, W.RevealedTo(before[j], revealed)).Some?;
    }
    assert Rebuilds(chains, e, |before|) <==> primary(inner).value.rebuilt;
    if primary(inner).value.rebuilt {
      assert Rebuilds(chains, e, |before|);
    } else if j :| 0 <= j < |before| && backend(j, W.RevealedTo(before[j], revealed)).value.rebuilt {
      assert Rebuilds(chains, e, j);
    }
  }

  /** Every sync of a wallet against a lawful backend is an attempt: it moves chains, views and rows as one does. */
  method Sync(u: W.UserWallet, t: Table, w: WalletRef, parse: Parser, nodeless: bool, backend: W.Backend, primary: W.Primary,
              tip: nat, ghost best: Chain) returns (reverted: Option<nat>, ghost e: Event)
    requires u.Valid() && Inv(t.rows, t.nextId) && Lawful(best, backend, primary)
    modifies u, t`rows
    ensures u.Valid() && Inv(t.rows, t.nextId)
    ensures var before := old(ChainsOf(u.versions, u.inner));
            && e.Attempt? && e.best == best && LawfulEvent(before, e)
            && (reverted.Some? <==> Completed(before, e))
            && ChainsOf(u.versions, u.inner) == ChainsAfter(before, e)
            && Sees(before, e, old(ViewsOf(u.versions, u.inner)), ViewsOf(u.versions, u.inner))
            && Rewrites(before, e, w, parse, old(t.rows), Moment(ViewsOf(u.versions, u.inner), t.rows))
  {
    hide Inv;
    hide Lawful;
    hide Sees;
    ghost var versions, inner := u.versions, u.inner;
    ghost var reached;
    reverted, reached := SyncWallet(u, t, w, parse, nodeless, backend, primary, tip);
    e := AttemptOf(best, u.versions, u.inner, reached, reverted.Some?);
    SyncIsAttempt(versions, u.versions, inner, u.inner, W.AtScan(nodeless, inner.revealed), backend, primary, best,
                  reached, reverted.Some?);
    ViewsAreGraphs(u.versions, u.inner);
  }

  /** A restart loads the wallet from its row: the version wallets start empty, the primary one as stored. */
  method Reload(u: W.UserWallet) returns (v: W.UserWallet, ghost e: Event)
    requires u.Valid()
    ensures v.Valid() && fresh(v) && e == Restart(W.Load(u.row).chain)
    ensures ChainsOf(v.versions, v.inner) == ChainsAfter(ChainsOf(u.versions, u.inner), e)
    ensures Sees(ChainsOf(u.versions, u.inner), e, ViewsOf(u.versions, u.inner), ViewsOf(v.versions, v.inner))
  {
    v := new W.UserWallet(u.row, seq(|u.versions|, i requires 0 <= i < |u.versions| reads u => u.versions[i].descriptor), u.tip);
    e := Restart(W.Load(u.row).chain);
  }

  // ---------------------------------------------------------------------------
  // The completion stamp
  // ---------------------------------------------------------------------------

  /** The older versions of a wallet are stamped complete, by another process that tells the wallet nothing and may
      stop after any update; then the wallet syncs.  When the stamped sweep touches an address some wallet watches,
      no stamped row is reverted, and a sync that completes finds every recorded sweep present again. */
  method StampThenSync(u: W.UserWallet, t: Table, w: WalletRef, parse: Parser, sweep: string, budget: nat,
                       backend: W.Backend, primary: W.Primary, tip: nat,
                       ghost world: set<Activity>, ghost best: Chain, ghost own: W.Descriptor)
    returns (finished: bool, reverted: Option<nat>)
    requires u.Valid() && Inv(t.rows, t.nextId) && Promised(world, best, own, backend, primary)
    requires SweepsPresent(Moment(ViewsOf(u.versions, u.inner), t.rows), w, parse)
    requires parse(sweep).Some? ==> Reached(world, Shown(u.versions, u.inner, own), parse(sweep).value)
    modifies u, t
    ensures u.Valid() && Inv(t.rows, t.nextId) && |t.rows| == |old(t.rows)|
    ensures finished <==> budget >= OlderCount(old(t.rows), w)
    ensures forall i :: 0 <= i < |t.rows| && old(t.rows)[i].wallet == w && old(t.rows)[i].index < Least(budget, OlderCount(old(t.rows), w)) ==>
      t.rows[i] == StampedRow(old(t.rows)[i], Some(sweep))
    ensures finished ==> forall i :: 0 <= i < |t.rows| && old(t.rows)[i].wallet == w && !IsLatest(old(t.rows), old(t.rows)[i]) ==>
      && t.rows[i].status == Complete && t.rows[i].sweep == Some(sweep)
    ensures reverted.Some? ==> SweepsPresent(Moment(ViewsOf(u.versions, u.inner), t.rows), w, parse)
  {
    hide Inv;
    hide IsLatest;
    hide Promised;
    hide Reached;
    hide SyncedRow;
    hide AllTxids;
    hide Completes;
    hide AnyRebuilt;
    ghost var versions, inner, before := u.versions, u.inner, t.rows;
    var left;
    left, finished := StampWallet(t, w, Some(sweep), budget);
    ghost var stamped := t.rows;
    ViewsAreGraphs(versions, inner);
    StampedAreSeen(versions, inner, own, before, stamped, w, parse, sweep, world);
    ghost var reached;
    reverted, reached := SyncWallet(u, t, w, parse, true, backend, primary, tip);
    hide CountsReverts;
    forall i | 0 <= i < |stamped| && stamped[i].sweep == Some(sweep) ensures t.rows[i] == stamped[i] {
      ProtectedIsKept(world, best, own, backend, primary, versions, inner, stamped[i], w, parse);
    }
    if reverted.Some? {
      ViewsAreGraphs(u.versions, u.inner);
      SeenArePresent(world, best, own, backend, primary, versions, inner, stamped, t.rows, w, parse);
    }
  }

  /** A sweep the wallets have, or some wallet watches an address of. */
  ghost predicate Seen(world: set<Activity>, versions: seq<W.VersionWallet>, inner: W.Graph, own: W.Descriptor, txid: Txid) {
    txid in GraphTxids(versions, inner) || Reached(world, Shown(versions, inner, own), txid)
  }

  lemma StampedAreSeen(versions: seq<W.VersionWallet>, inner: W.Graph, own: W.Descriptor, before: Rows, stamped: Rows, w: WalletRef,
                       parse: Parser, sweep: string, world: set<Activity>)
    requires VanishedRows(before, w, parse, GraphTxids(versions, inner)) == {}
    requires |stamped| == |before|
    requires forall i :: 0 <= i < |before| ==> stamped[i] == before[i] || stamped[i] == StampedRow(before[i], Some(sweep))
    requires parse(sweep).Some? ==> Reached(world, Shown(versions, inner, own), parse(sweep).value)
    ensures forall i :: 0 <= i < |stamped| && Tracked(stamped[i], w, parse) ==>
      Seen(world, versions, inner, own, parse(stamped[i].sweep.value).value)
  {
    hide Reached;
    hide GraphTxids;
    forall i: nat | i < |stamped| && Tracked(stamped[i], w, parse)
      ensures Seen(world, versions, inner, own, parse(stamped[i].sweep.value).value)
    {
      assert i !in VanishedRows(before, w, parse, GraphTxids(versions, inner));
    }
  }

  /** A completed sync after which no tracked row has a sweep missing, when each was seen before it. */
  lemma SeenArePresent(world: set<Activity>, best: Chain, own: W.Descriptor, backend: W.Backend, primary: W.Primary,
                       versions: seq<W.VersionWallet>, inner: W.Graph, rows: Rows, after: Rows, w: WalletRef, parse: Parser)
    requires Promised(world, best, own, backend, primary) && Completes(versions, inner, inner.revealed, backend, primary)
    requires forall i :: 0 <= i < |rows| && Tracked(rows[i], w, parse) ==>
      Seen(world, versions, inner, own, parse(rows[i].sweep.value).value)
    requires |after| == |rows|
    requires forall i :: 0 <= i < |rows| ==> after[i] == SyncedRow(rows[i], w, parse, versions, inner, true, backend, primary)
    ensures VanishedRows(after, w, parse, GraphTxids(AllScanned(versions, inner.revealed, backend), W.Scanned(inner, primary(inner).value))) == {}
  {
    hide Promised;
    hide Reached;
    hide GraphTxids;
    hide AnyRebuilt;
    hide Quiet;
    hide Safe;
    hide W.Scanned;
    hide AllScanned;
    var shown := Shown(versions, inner, own);
    var found := GraphTxids(AllScanned(versions, inner.revealed, backend), W.Scanned(inner, primary(inner).value));
    QuietIsUnarmed(world, best, own, backend, primary, versions, inner);
    forall i: nat | i < |rows| ensures !Vanished(after[i], w, parse, found) {
      if Quiet(best, shown) && Tracked(rows[i], w, parse) {
        var txid := parse(rows[i].sweep.value).value;
        if !Reached(world, shown, txid) {
          QuietIsSafe(best, own, versions, inner, txid);
        }
        ReachedIsFound(world, best, own, backend, primary, versions, inner, txid);
      }
    }
  }

  lemma QuietIsSafe(best: Chain, own: W.Descriptor, versions: seq<W.VersionWallet>, inner: W.Graph, txid: Txid)
    requires Quiet(best, Shown(versions, inner, own)) && txid in GraphTxids(versions, inner)
    ensures Safe(best, Shown(versions, inner, own), txid)
  {
    hide OnChain;
    var shown := Shown(versions, inner, own);
    if txid in inner.txs {
      assert txid in shown[|versions|].graph.txs;
    } else {
      var i :| 0 <= i < |versions| && txid in versions[i].graph.txs;
      assert txid in shown[i].graph.txs;
    }
  }

  /** A forgotten rebuild, on the wallet itself.  The version wallets hold an abandoned block and the sweep; the
      primary wallet, behind the fork, holds neither.  A sync rebuilds the version wallets and fails on the primary
      one; the next sync completes, rebuilds nothing, and leaves the migration complete with its sweep gone. */
  method ForgottenRebuild(u: W.UserWallet, t: Table, w: WalletRef, parse: Parser, nodeless: bool, best: Chain, tip: nat,
                          ghost i: nat) returns (first: Option<nat>, second: Option<nat>)
    requires u.Valid() && Inv(t.rows, t.nextId) && |u.versions| == |Of(t.rows, w)|
    requires i < |t.rows| && Tracked(t.rows[i], w, parse)
    requires parse(t.rows[i].sweep.value).value in GraphTxids(u.versions, u.inner)
    requires OnChain(u.inner.chain, best) && parse(t.rows[i].sweep.value).value !in u.inner.txs
    requires forall j :: 0 <= j < |u.versions| && parse(t.rows[i].sweep.value).value in u.versions[j].graph.txs ==>
      !OnChain(u.versions[j].graph.chain, best)
    modifies u, t`rows
    ensures Lawful(best, LeastBackend({}, best), Unreachable())
    ensures Lawful(best, LeastBackend({}, best), LeastPrimary({}, best, 0))
    ensures first.None? && second == Some(0)
    ensures t.rows == old(t.rows) && i in VanishedRows(t.rows, w, parse, GraphTxids(u.versions, u.inner))
  {
    hide Inv;
    hide OnChain;
    hide SyncedRow;
    hide AnyRebuilt;
    hide LeastBackend;
    hide LeastPrimary;
    hide Lawful;
    hide Promised;
    hide AllScanned;
    hide W.ScannedUpTo;
    hide W.Scanned;
    hide Unreachable;
    NeverReached(u.inner);
    LeastIsPromised({}, best, 0);
    PromisedIsLawful({}, best, 0, LeastBackend({}, best), LeastPrimary({}, best, 0));
    ghost var txid := parse(t.rows[i].sweep.value).value;
    ghost var versions, inner := u.versions, u.inner;
    ghost var reached1, reached2;
    first, reached1 := SyncWallet(u, t, w, parse, nodeless, LeastBackend({}, best), Unreachable(), tip);
    ghost var mid := u.versions;
    EmptiedOrKept(versions, mid, W.AtScan(nodeless, inner.revealed), best, reached1);
    NoneRebuilt(mid, inner, nodeless, best);
    second, reached2 := SyncWallet(u, t, w, parse, nodeless, LeastBackend({}, best), LeastPrimary({}, best, 0), tip);
    EmptiedOrKept(mid, u.versions, W.AtScan(nodeless, inner.revealed), best, reached2);
    assert txid !in GraphTxids(u.versions, u.inner);
  }

  lemma PromisedIsLawful(world: set<Activity>, best: Chain, own: W.Descriptor, backend: W.Backend, primary: W.Primary)
    requires Promised(world, best, own, backend, primary)
    ensures Lawful(best, backend, primary)
  {
  }

  lemma NeverReached(inner: W.Graph)
    ensures Unreachable()(inner).None?
  {
  }

  /** Nothing is rebuilt, so no row is touched, when no wallet holds an abandoned block. */
  lemma NoneRebuilt(versions: seq<W.VersionWallet>, inner: W.Graph, nodeless: bool, best: Chain)
    requires OnChain(inner.chain, best) && forall j :: 0 <= j < |versions| ==> OnChain(versions[j].graph.chain, best)
    ensures var revealed := W.AtScan(nodeless, inner.revealed);
            && (forall j :: 0 <= j < |versions| ==> LeastBackend({}, best)(j, W.RevealedTo(versions[j], revealed)).Some?)
            && LeastPrimary({}, best, 0)(inner).Some?
            && W.Scanned(inner, LeastPrimary({}, best, 0)(inner).value).txs == inner.txs
            && !AnyRebuilt(versions, revealed, LeastBackend({}, best), LeastPrimary({}, best, 0)(inner).value)
    ensures forall v, w, parse :: SyncedRow(v, w, parse, versions, inner, nodeless, LeastBackend({}, best), LeastPrimary({}, best, 0)) == v
  {
    hide OnChain;
    LeastMain({}, best, 0, inner);
  }

  lemma EmptiedOrKept(before: seq<W.VersionWallet>, after: seq<W.VersionWallet>, revealed: Option<nat>, best: Chain, reached: nat)
    requires W.ScannedUpTo(before, after, revealed, LeastBackend({}, best), reached)
    ensures reached == |before| && |after| == |before|
    ensures forall j :: 0 <= j < |before| ==>
      && OnChain(after[j].graph.chain, best)
      && after[j].graph.txs == (if OnChain(before[j].graph.chain, best) then before[j].graph.txs else {})
      && (LeastBackend({}, best)(j, W.RevealedTo(before[j], revealed)).value.rebuilt <==> !OnChain(before[j].graph.chain, best))
  {
    forall j: nat | j < |before| ensures LeastBackend({}, best)(j, W.RevealedTo(before[j], revealed)).Some? {
    }
  }
}
