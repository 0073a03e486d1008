/** The tree of stored headers: links, ancestors and accumulated work (bitcoin-spv/src/lib.rs). */
module HeaderTree {
  import opened Wrappers
  import opened Bytes
  import opened SpvTypes
  import opened Difficulty

  type Headers = map<Digest, HeaderEntry>

  /** `h` hangs one height above a stored parent, strictly above the checkpoint. */
  ghost predicate LinkedTo(headers: Headers, base: nat, h: Digest)
    requires h in headers
  {
    var e := headers[h];
    e.prev in headers && e.height == headers[e.prev].height + 1 && base < e.height
  }

  /** Every stored header but the checkpoint `root` (at height `base`) is linked to its parent. */
  ghost predicate Linked(headers: Headers, root: Digest, base: nat)
  {
    && root in headers && headers[root].height == base
    && forall h {:trigger LinkedTo(headers, base, h)} :: h in headers && h != root ==> LinkedTo(headers, base, h)
  }

  /** The ancestor of `h` at height `k` (or `h` itself when it is no higher). */
  ghost function AncestorAt(headers: Headers, root: Digest, base: nat, h: Digest, k: nat): (a: Digest)
    requires Linked(headers, root, base) && h in headers && base <= k
    ensures a in headers
    ensures k <= headers[h].height ==> headers[a].height == k
    decreases headers[h].height
  {
    if headers[h].height <= k then h
    else
      assert LinkedTo(headers, base, h);
      AncestorAt(headers, root, base, headers[h].prev, k)
  }

  /** Every stored header descends from the checkpoint. */
  lemma {:induction false} DescendsFromRoot(headers: Headers, root: Digest, base: nat, h: Digest)
    requires Linked(headers, root, base) && h in headers
    ensures AncestorAt(headers, root, base, h, base) == root
    ensures base <= headers[h].height
    decreases headers[h].height
  {
    if h != root {
      assert LinkedTo(headers, base, h);
      DescendsFromRoot(headers, root, base, headers[h].prev);
    }
  }

  lemma {:induction false} AncestorCompose(headers: Headers, root: Digest, base: nat, h: Digest, k: nat, l: nat)
    requires Linked(headers, root, base) && h in headers && base <= k <= l
    ensures AncestorAt(headers, root, base, AncestorAt(headers, root, base, h, l), k)
         == AncestorAt(headers, root, base, h, k)
    decreases headers[h].height
  {
    if headers[h].height > l {
      assert LinkedTo(headers, base, h);
      AncestorCompose(headers, root, base, headers[h].prev, k, l);
    }
  }

  /** `more` holds every header of `headers`, unchanged. */
  ghost predicate Extends(headers: Headers, more: Headers)
  {
    forall h :: h in headers ==> h in more && more[h] == headers[h]
  }

  /** Storing more headers changes no ancestor of a header already stored. */
  lemma {:induction false} AncestorStable(headers: Headers, more: Headers, root: Digest, base: nat, h: Digest, k: nat)
    requires Linked(headers, root, base) && Linked(more, root, base) && Extends(headers, more)
    requires h in headers && base <= k
    ensures AncestorAt(more, root, base, h, k) == AncestorAt(headers, root, base, h, k)
    decreases headers[h].height
  {
    if headers[h].height > k {
      assert LinkedTo(headers, base, h);
      AncestorStable(headers, more, root, base, headers[h].prev, k);
    }
  }

  // ------------------------------------------------------ consensus rules

  /** The work one header's bits stand for. */
  function WorkOf(bits: U32): (w: nat)
    ensures BitsToTarget(bits).Ok? ==> w >= 1
  {
    match BitsToTarget(bits)
    case Err(_) => 0
    case Ok(target) =>
      DecodedBelowMax(bits);
      WorkMeaning(target);
      WorkFromTarget(target)
  }

  /** A header obeys Bitcoin's rules given its stored parent. */
  ghost predicate Obeys(parent: HeaderEntry, h: Digest, e: HeaderEntry, powLimit: U256)
  {
    && BitsToTarget(e.bits).Ok? && LittleEndian(h) < BitsToTarget(e.bits).value
    && ExpectedBits(parent.bits, parent.time, parent.periodStart, e.height, powLimit) == Ok(e.bits)
    && e.periodStart == ChildPeriodStart(parent, e)
    && e.chainwork == parent.chainwork + WorkOf(e.bits)
  }

  /** The checkpoint's record carries no work and a target within the limit. */
  ghost predicate SoundRoot(e: HeaderEntry, powLimit: U256)
  {
    e.chainwork == 0 && BitsToTarget(e.bits).Ok? && BitsToTarget(e.bits).value <= powLimit
  }

  ghost predicate Consensus(headers: Headers, root: Digest, base: nat, powLimit: U256)
  {
    && Linked(headers, root, base)
    && SoundRoot(headers[root], powLimit)
    && forall h {:trigger LinkedTo(headers, base, h)} :: h in headers && h != root ==>
         LinkedTo(headers, base, h) && Obeys(headers[headers[h].prev], h, headers[h], powLimit)
  }

  /** No stored target is easier than the network's limit. */
  lemma {:induction false} TargetsWithinLimit(headers: Headers, root: Digest, base: nat, powLimit: U256, h: Digest)
    requires Consensus(headers, root, base, powLimit) && h in headers
    ensures BitsToTarget(headers[h].bits).Ok? && BitsToTarget(headers[h].bits).value <= powLimit
    decreases headers[h].height
  {
    if h != root {
      assert LinkedTo(headers, base, h);
      var parent := headers[headers[h].prev];
      TargetsWithinLimit(headers, root, base, powLimit, headers[h].prev);
      ExpectedBitsWithinLimit(parent.bits, parent.time, parent.periodStart, headers[h].height, powLimit);
    }
  }

  /** Every stored header but the checkpoint has a hash below its own target. */
  lemma MeetsTarget(headers: Headers, root: Digest, base: nat, powLimit: U256, h: Digest)
    requires Consensus(headers, root, base, powLimit) && h in headers && h != root
    ensures BitsToTarget(headers[h].bits).Ok? && LittleEndian(h) < BitsToTarget(headers[h].bits).value
  {
    assert LinkedTo(headers, base, h);
  }

  /** The hashes a block with these bits takes on average: floor(2^256 / (target + 1)). */
  function BlockWork(bits: U32): nat
  {
    if BitsToTarget(bits).Ok? then TWO_256 / (BitsToTarget(bits).value + 1) else 0
  }

  lemma WorkOfIsBlockWork(bits: U32)
    ensures WorkOf(bits) == BlockWork(bits)
  {
    hide BitsToTarget;
    hide WorkFromTarget;
    if BitsToTarget(bits).Ok? {
      DecodedBelowMax(bits);
      WorkMeaning(BitsToTarget(bits).value);
    }
  }

  /** Total work of the headers on the path from the checkpoint (excluded) to `h`. */
  ghost function PathWork(headers: Headers, root: Digest, base: nat, h: Digest): nat
    requires Linked(headers, root, base) && h in headers
    decreases headers[h].height
  {
    if h == root then 0
    else
      assert LinkedTo(headers, base, h);
      PathWork(headers, root, base, headers[h].prev) + BlockWork(headers[h].bits)
  }

  lemma {:induction false} ChainworkIsPathWork(headers: Headers, root: Digest, base: nat, powLimit: U256, h: Digest)
    requires Consensus(headers, root, base, powLimit) && h in headers
    ensures headers[h].chainwork == PathWork(headers, root, base, h)
    decreases headers[h].height
  {
    if h != root {
      assert LinkedTo(headers, base, h);
      ChainworkIsPathWork(headers, root, base, powLimit, headers[h].prev);
      WorkOfIsBlockWork(headers[h].bits);
    }
  }

  /** Work grows by at least one per height along every path. */
  lemma {:induction false} AncestorWork(headers: Headers, root: Digest, base: nat, powLimit: U256, h: Digest, k: nat)
    requires Consensus(headers, root, base, powLimit) && h in headers && base <= k <= headers[h].height
    ensures headers[AncestorAt(headers, root, base, h, k)].chainwork + (headers[h].height - k) <= headers[h].chainwork
    decreases headers[h].height
  {
    if headers[h].height > k {
      assert LinkedTo(headers, base, h);
      AncestorWork(headers, root, base, powLimit, headers[h].prev, k);
    }
  }

  /** A header outweighs its parent. */
  lemma ChildOutweighs(headers: Headers, root: Digest, base: nat, powLimit: U256, h: Digest)
    requires Consensus(headers, root, base, powLimit) && h in headers && h != root
    ensures LinkedTo(headers, base, h)
    ensures headers[headers[h].prev].chainwork < headers[h].chainwork
  {
    assert LinkedTo(headers, base, h);
  }

  /** Every header of the tree adds the same work `w` to its parent's. */
  ghost predicate UniformWork(headers: Headers, root: Digest, base: nat, w: nat)
  {
    && Linked(headers, root, base) && headers[root].chainwork == 0
    && forall h {:trigger LinkedTo(headers, base, h)} :: h in headers && h != root ==>
         LinkedTo(headers, base, h) && headers[h].chainwork == headers[headers[h].prev].chainwork + w
  }

  lemma EqualBitsUniform(headers: Headers, root: Digest, base: nat, powLimit: U256, bits: U32)
    requires Consensus(headers, root, base, powLimit)
    requires forall h :: h in headers ==> headers[h].bits == bits
    ensures UniformWork(headers, root, base, WorkOf(bits)) && WorkOf(bits) >= 1
  {
    assert headers[root].bits == bits;
    forall h | h in headers && h != root
      ensures LinkedTo(headers, base, h)
      ensures headers[h].chainwork == headers[headers[h].prev].chainwork + WorkOf(bits)
    {
      assert LinkedTo(headers, base, h);
    }
  }

  function Times(n: nat, w: nat): nat { if n == 0 then 0 else Times(n - 1, w) + w }

  lemma {:induction false} TimesGrows(m: nat, n: nat, w: nat)
    requires m < n && w >= 1
    ensures Times(m, w) < Times(n, w)
  {
    if m + 1 < n {
      TimesGrows(m, n - 1, w);
    }
  }

  lemma {:induction false} WorkIsLinear(headers: Headers, root: Digest, base: nat, w: nat, h: Digest)
    requires UniformWork(headers, root, base, w) && h in headers
    ensures base <= headers[h].height
    ensures headers[h].chainwork == Times(headers[h].height - base, w)
    decreases headers[h].height
  {
    if h != root {
      assert LinkedTo(headers, base, h);
      WorkIsLinear(headers, root, base, w, headers[h].prev);
    }
  }

  lemma LowerIsLighter(headers: Headers, root: Digest, base: nat, w: nat, a: Digest, b: Digest)
    requires UniformWork(headers, root, base, w) && w >= 1 && a in headers && b in headers
    requires headers[a].height < headers[b].height
    ensures headers[a].chainwork < headers[b].chainwork
  {
    WorkIsLinear(headers, root, base, w, a);
    WorkIsLinear(headers, root, base, w, b);
    TimesGrows(headers[a].height - base, headers[b].height - base, w);
  }

  /** First height of the difficulty period that `height` lies in. */
  function PeriodStartHeight(height: nat): (k: nat)
    ensures k <= height
  {
    height - height % RETARGET_INTERVAL
  }

  lemma PeriodStep(n: nat)
    requires n > 0
    ensures n % RETARGET_INTERVAL == 0 ==> PeriodStartHeight(n) == n
    ensures n % RETARGET_INTERVAL != 0 ==> PeriodStartHeight(n) == PeriodStartHeight(n - 1) < n
  {
  }

  /** What `periodStart` stands for, read off the tree. */
  ghost function PeriodStartTime(headers: Headers, root: Digest, base: nat, h: Digest): U32
    requires Linked(headers, root, base) && h in headers
  {
    var first := PeriodStartHeight(headers[h].height);
    if first > base then headers[AncestorAt(headers, root, base, h, first)].time else headers[root].periodStart
  }

  /** The rule every stored header follows for its period start. */
  ghost predicate PeriodRule(headers: Headers, root: Digest, base: nat)
  {
    && Linked(headers, root, base)
    && forall h {:trigger LinkedTo(headers, base, h)} :: h in headers && h != root ==>
         LinkedTo(headers, base, h) && headers[h].periodStart == ChildPeriodStart(headers[headers[h].prev], headers[h])
  }

  function ChildPeriodStart(parent: HeaderEntry, e: HeaderEntry): U32
  {
    if e.height % RETARGET_INTERVAL == 0 then e.time else parent.periodStart
  }

  lemma {:induction false} PeriodStartOfRule(headers: Headers, root: Digest, base: nat, h: Digest)
    requires PeriodRule(headers, root, base) && h in headers
    ensures headers[h].periodStart == PeriodStartTime(headers, root, base, h)
    decreases headers[h].height
  {
    if h == root {
      assert PeriodStartHeight(base) <= base;
    } else {
      assert LinkedTo(headers, base, h);
      PeriodStep(headers[h].height);
      if headers[h].height % RETARGET_INTERVAL != 0 {
        PeriodStartOfRule(headers, root, base, headers[h].prev);
      }
    }
  }

  /**
   * A header's period start is the time of its own ancestor at the first
   * height of its period, or the checkpoint's configured value while that
   * height is not above the checkpoint.
   */
  lemma PeriodStartMeaning(headers: Headers, root: Digest, base: nat, powLimit: U256, h: Digest)
    requires Consensus(headers, root, base, powLimit) && h in headers
    ensures headers[h].periodStart == PeriodStartTime(headers, root, base, h)
  {
    forall x | x in headers && x != root
      ensures LinkedTo(headers, base, x)
      ensures headers[x].periodStart == ChildPeriodStart(headers[headers[x].prev], headers[x])
    {
      assert LinkedTo(headers, base, x);
    }
    PeriodStartOfRule(headers, root, base, h);
  }

  /**
   * When the period before the boundary at `h` began: at the time of `h`'s own
   * ancestor 2016 heights below it, or the checkpoint's configured value while
   * that height is not above the checkpoint.
   */
  ghost function PeriodBegan(headers: Headers, root: Digest, base: nat, h: Digest): U32
    requires Linked(headers, root, base) && h in headers
  {
    var first := headers[h].height - 2016;
    if first > base then headers[AncestorAt(headers, root, base, h, first)].time else headers[root].periodStart
  }

  /**
   * The difficulty rule read off the tree. Inside a period a header carries
   * its parent's bits. At a boundary its target is just below the parent's,
   * scaled by the seconds between the period's first header and its last.
   */
  lemma BitsFollowRule(headers: Headers, root: Digest, base: nat, powLimit: U256, h: Digest)
    requires Consensus(headers, root, base, powLimit) && h in headers && h != root
    ensures LinkedTo(headers, base, h)
    ensures var e := headers[h]; var parent := headers[e.prev];
            && BitsToTarget(parent.bits).Ok? && BitsToTarget(e.bits).Ok?
            && (e.height % 2016 != 0 ==> e.bits == parent.bits)
            && (e.height % 2016 == 0 ==>
                  JustBelow(BitsToTarget(e.bits).value,
                            RetargetRule(BitsToTarget(parent.bits).value, parent.time - PeriodBegan(headers, root, base, h), powLimit)))
  {
    hide BitsToTarget;
    hide RetargetRule;
    hide JustBelow;
    hide ExpectedBits;
    assert LinkedTo(headers, base, h);
    var e := headers[h];
    var parent := headers[e.prev];
    TargetsWithinLimit(headers, root, base, powLimit, e.prev);
    PeriodStartMeaning(headers, root, base, powLimit, e.prev);
    RetargetFollowsRule(parent.bits, parent.time, parent.periodStart, e.height, powLimit);
    if e.height % 2016 == 0 {
      FirstOfPeriod(e.height);
      DescendsFromRoot(headers, root, base, e.prev);
    }
  }

  lemma FirstOfPeriod(height: nat)
    requires height > 0 && height % 2016 == 0
    ensures height >= 2016 && PeriodStartHeight(height - 1) == height - 2016
  {
  }

  // ------------------------------------------------------------- growth

  /** Adding one header that obeys the rules keeps the whole tree valid. */
  lemma ConsensusExtend(headers: Headers, root: Digest, base: nat, powLimit: U256, h: Digest, e: HeaderEntry)
    requires Consensus(headers, root, base, powLimit)
    requires h !in headers && e.prev in headers && e.height == headers[e.prev].height + 1
    requires Obeys(headers[e.prev], h, e, powLimit)
    ensures Consensus(headers[h := e], root, base, powLimit)
    ensures Extends(headers, headers[h := e])
  {
    hide Obeys;
    hide SoundRoot;
    var more := headers[h := e];
    DescendsFromRoot(headers, root, base, e.prev);
    forall x | x in more && x != root
      ensures LinkedTo(more, base, x) && Obeys(more[more[x].prev], x, more[x], powLimit)
    {
      if x != h {
        assert LinkedTo(headers, base, x);
      }
    }
  }

  lemma ConsensusRoot(root: Digest, e: HeaderEntry, powLimit: U256)
    requires SoundRoot(e, powLimit)
    ensures Consensus(map[root := e], root, e.height, powLimit)
  {
  }
}
