/** The height-to-hash index and the walk that rewrites it on a tip switch (bitcoin-spv/src/lib.rs). */
module CanonicalIndex {
  import opened Wrappers
  import opened Bytes
  import opened SpvTypes
  import opened HeaderTree

  const MAX_REORG_DEPTH: nat := 20

  type Index = map<nat, Digest>

  predicate Points(index: Index, height: nat, hash: Digest) { height in index && index[height] == hash }

  /**
   * The walk of a tip switch: from `hash` down to the first header the index
   * already points at, re-pointing each height passed, at most 20 of them.
   */
  function Rewrite(index: Index, headers: Headers, hash: Digest, rewritten: nat): Result<Index, SpvError>
    requires hash in headers
    decreases MAX_REORG_DEPTH - rewritten
  {
    var entry := headers[hash];
    if Points(index, entry.height, hash) then
      Ok(index)
    else if rewritten >= MAX_REORG_DEPTH then
      Err(ReorgTooDeep)
    else if entry.prev !in headers then
      Err(UnknownParent)
    else
      Rewrite(index[entry.height := hash], headers, entry.prev, rewritten + 1)
  }

  /** The height the walk stops at: the highest one where the index already holds the path's header. */
  ghost function StopHeight(index: Index, headers: Headers, root: Digest, base: nat, hash: Digest): (s: nat)
    requires Linked(headers, root, base) && hash in headers && Points(index, base, root)
    ensures base <= s <= headers[hash].height
    ensures Points(index, s, AncestorAt(headers, root, base, hash, s))
    ensures forall k | s < k <= headers[hash].height ::
              !Points(index, k, AncestorAt(headers, root, base, hash, k))
    decreases headers[hash].height
  {
    DescendsFromRoot(headers, root, base, hash);
    if Points(index, headers[hash].height, hash) then
      headers[hash].height
    else
      assert LinkedTo(headers, base, hash);
      StopHeight(index, headers, root, base, headers[hash].prev)
  }

  /** `after` is `index` with the heights from `stop` (excluded) to `hash`'s re-pointed at its ancestors. */
  ghost predicate Repointed(index: Index, after: Index, headers: Headers, root: Digest, base: nat, hash: Digest, stop: nat)
    requires Linked(headers, root, base) && hash in headers && base <= stop
  {
    && (forall k | stop < k <= headers[hash].height ::
          Points(after, k, AncestorAt(headers, root, base, hash, k)))
    && (forall k: nat | k <= stop || headers[hash].height < k ::
          (k in after <==> k in index) && (k in index ==> after[k] == index[k]))
  }

  /** Writing a height above the walk's path does not move where it stops. */
  lemma {:induction false} StopIgnoresAbove(index: Index, headers: Headers, root: Digest, base: nat, hash: Digest, k: nat, d: Digest)
    requires Linked(headers, root, base) && hash in headers && Points(index, base, root) && headers[hash].height < k
    ensures Points(index[k := d], base, root)
    ensures StopHeight(index[k := d], headers, root, base, hash) == StopHeight(index, headers, root, base, hash)
    decreases headers[hash].height
  {
    DescendsFromRoot(headers, root, base, hash);
    if !Points(index, headers[hash].height, hash) {
      assert LinkedTo(headers, base, hash);
      StopIgnoresAbove(index, headers, root, base, headers[hash].prev, k, d);
    }
  }

  /**
   * What the walk does, for every tree and index that points at the
   * checkpoint: it succeeds exactly when the stop height is within the
   * remaining budget, fails only as too deep, and then re-points exactly the
   * heights above the stop height at the new tip's ancestors.
   */
  lemma {:induction false} RewriteMeaning(index: Index, headers: Headers, root: Digest, base: nat, hash: Digest, rewritten: nat)
    requires Linked(headers, root, base) && hash in headers && Points(index, base, root)
    requires rewritten <= MAX_REORG_DEPTH
    ensures var stop := StopHeight(index, headers, root, base, hash);
            var r := Rewrite(index, headers, hash, rewritten);
            && (r.Ok? <==> headers[hash].height - stop <= MAX_REORG_DEPTH - rewritten)
            && (r.Err? ==> r.error == ReorgTooDeep)
            && (r.Ok? ==> Repointed(index, r.value, headers, root, base, hash, stop))
    decreases headers[hash].height
  {
    DescendsFromRoot(headers, root, base, hash);
    var e := headers[hash];
    if !Points(index, e.height, hash) {
      assert LinkedTo(headers, base, hash);
      if rewritten < MAX_REORG_DEPTH {
        var index' := index[e.height := hash];
        StopIgnoresAbove(index, headers, root, base, e.prev, e.height, hash);
        RewriteMeaning(index', headers, root, base, e.prev, rewritten + 1);
        var r := Rewrite(index', headers, e.prev, rewritten + 1);
        if r.Ok? {
          RepointedStep(index, r.value, headers, root, base, hash, StopHeight(index, headers, root, base, hash));
        }
      }
    }
  }

  lemma RepointedStep(index: Index, after: Index, headers: Headers, root: Digest, base: nat, hash: Digest, stop: nat)
    requires Linked(headers, root, base) && hash in headers && hash != root && LinkedTo(headers, base, hash)
    requires base <= stop < headers[hash].height
    requires Repointed(index[headers[hash].height := hash], after, headers, root, base, headers[hash].prev, stop)
    ensures Repointed(index, after, headers, root, base, hash, stop)
  {
    var top := headers[hash].height;
    forall k | stop < k <= top
      ensures Points(after, k, AncestorAt(headers, root, base, hash, k))
    {
      if k < top {
        assert AncestorAt(headers, root, base, hash, k) == AncestorAt(headers, root, base, headers[hash].prev, k);
      }
    }
  }

  // ------------------------------------------------------ index invariants

  /** Every indexed hash is stored at its height, and the checkpoint is indexed. */
  ghost predicate IndexSound(index: Index, headers: Headers, root: Digest, base: nat)
  {
    && Points(index, base, root)
    && forall k :: k in index ==> index[k] in headers && headers[index[k]].height == k
  }

  /** From the checkpoint to the tip, the index holds exactly the tip's ancestors. */
  ghost predicate IndexExact(index: Index, headers: Headers, root: Digest, base: nat, tip: Digest)
    requires Linked(headers, root, base) && tip in headers
  {
    forall k | base <= k <= headers[tip].height :: Points(index, k, AncestorAt(headers, root, base, tip, k))
  }

  /** No indexed header outweighs `work`. */
  ghost predicate IndexWithin(index: Index, headers: Headers, work: nat)
    requires forall k :: k in index ==> index[k] in headers
  {
    forall k :: k in index ==> headers[index[k]].chainwork <= work
  }

  /** An entry left behind above the old tip that lies on the new tip's path. */
  ghost predicate StaleMatch(index: Index, headers: Headers, root: Digest, base: nat, oldHeight: nat, tip: Digest)
    requires Linked(headers, root, base) && tip in headers && base <= oldHeight
  {
    exists k | oldHeight < k <= headers[tip].height :: Points(index, k, AncestorAt(headers, root, base, tip, k))
  }

  lemma RepointedSound(index: Index, after: Index, headers: Headers, root: Digest, base: nat, powLimit: U256, tip: Digest, stop: nat)
    requires Consensus(headers, root, base, powLimit) && tip in headers && IndexSound(index, headers, root, base)
    requires base <= stop <= headers[tip].height && Repointed(index, after, headers, root, base, tip, stop)
    ensures IndexSound(after, headers, root, base)
    ensures forall work: nat :: IndexWithin(index, headers, work) && headers[tip].chainwork >= work
              ==> IndexWithin(after, headers, headers[tip].chainwork)
  {
    forall k | k in after
      ensures after[k] in headers && headers[after[k]].height == k
      ensures (k in index && after[k] == index[k]) || headers[after[k]].chainwork <= headers[tip].chainwork
    {
      if stop < k <= headers[tip].height {
        assert Points(after, k, AncestorAt(headers, root, base, tip, k));
        AncestorWork(headers, root, base, powLimit, tip, k);
      }
    }
  }

  /**
   * The index after a switch from `best` to a heavier `tip`, when it was exact
   * before: exact again if and only if no stale entry above the old tip lies
   * on the new tip's path.
   */
  lemma SwitchKeepsIndex(index: Index, after: Index, headers: Headers, root: Digest, base: nat, powLimit: U256,
                         best: Digest, tip: Digest, stop: nat)
    requires Consensus(headers, root, base, powLimit) && best in headers && tip in headers
    requires IndexSound(index, headers, root, base) && IndexExact(index, headers, root, base, best)
    requires IndexWithin(index, headers, headers[best].chainwork) && base <= headers[best].height
    requires stop == StopHeight(index, headers, root, base, tip)
    requires Repointed(index, after, headers, root, base, tip, stop)
    ensures IndexExact(after, headers, root, base, tip)
       <==> !StaleMatch(index, headers, root, base, headers[best].height, tip)
  {
    var oldHeight := headers[best].height;
    if StaleMatch(index, headers, root, base, oldHeight, tip) {
      // The stale entry at the stop height weighs no more than the old tip,
      // so the old tip cannot be its ancestor; yet the index still holds it.
      var e := AncestorAt(headers, root, base, tip, stop);
      assert Points(index, stop, e) && stop > oldHeight;
      assert Points(index, oldHeight, AncestorAt(headers, root, base, best, oldHeight));
      AncestorCompose(headers, root, base, tip, oldHeight, stop);
      AncestorWork(headers, root, base, powLimit, e, oldHeight);
      assert !Points(after, oldHeight, AncestorAt(headers, root, base, tip, oldHeight));
    } else {
      assert stop <= oldHeight;
      forall k | base <= k <= headers[tip].height
        ensures Points(after, k, AncestorAt(headers, root, base, tip, k))
      {
        if k <= stop {
          assert Points(index, stop, AncestorAt(headers, root, base, best, stop));
          AncestorCompose(headers, root, base, tip, k, stop);
          AncestorCompose(headers, root, base, best, k, stop);
          assert Points(index, k, AncestorAt(headers, root, base, best, k));
        }
      }
    }
  }

  /**
   * With an exact index and no stale entry on the new path, the walk stops at
   * the fork point and nowhere else: the two tips have the same ancestor there
   * and different ones at every height above it that both reach.
   */
  lemma StopsAtTheFork(index: Index, headers: Headers, root: Digest, base: nat, best: Digest, tip: Digest)
    requires Linked(headers, root, base) && best in headers && tip in headers && base <= headers[best].height
    requires Points(index, base, root) && IndexExact(index, headers, root, base, best)
    requires !StaleMatch(index, headers, root, base, headers[best].height, tip)
    ensures var stop := StopHeight(index, headers, root, base, tip);
            && base <= stop <= headers[best].height && stop <= headers[tip].height
            && AncestorAt(headers, root, base, tip, stop) == AncestorAt(headers, root, base, best, stop)
            && forall k | stop < k <= headers[best].height && k <= headers[tip].height ::
                 AncestorAt(headers, root, base, tip, k) != AncestorAt(headers, root, base, best, k)
  {
    var stop := StopHeight(index, headers, root, base, tip);
    assert stop <= headers[best].height by {
      assert Points(index, stop, AncestorAt(headers, root, base, tip, stop));
    }
    assert Points(index, stop, AncestorAt(headers, root, base, best, stop));
    forall k | stop < k <= headers[best].height && k <= headers[tip].height
      ensures AncestorAt(headers, root, base, tip, k) != AncestorAt(headers, root, base, best, k)
    {
      assert Points(index, k, AncestorAt(headers, root, base, best, k));
    }
  }
}
