/** Concrete runs on which two natural expectations fail, because the code does not check their hypotheses. */
module Counterexamples {
  import opened Wrappers
  import opened Bytes
  import opened SpvTypes
  import opened Difficulty
  import opened HeaderTree
  import opened CanonicalIndex
  import opened LightClientSpec
  import opened ChainTheorems
  import opened LightClient
  import opened Merkle

  // ------------------------------------------------------------ the setting

  // Blocks are named by seven distinct digests, small enough to meet every
  // target used; 0 is the checkpoint. The steps are proved for any setting of
  // this kind and then used on a concrete one.

  datatype Setting = Setting(d: seq<Digest>, easy: U32, hard: U32, limit: U256)

  /** Name `i` meets both targets. */
  ghost predicate EasyEnough(c: Setting, i: nat)
    requires i < |c.d| && BitsToTarget(c.hard).Ok?
  {
    LittleEndian(c.d[i]) < c.limit && LittleEndian(c.d[i]) < BitsToTarget(c.hard).value
  }

  ghost predicate Fits(c: Setting)
  {
    && |c.d| == 7
    && (forall i, j | 0 <= i < j < 7 :: c.d[i] != c.d[j])
    && BitsToTarget(c.easy) == Ok(c.limit) && BitsToTarget(c.hard).Ok?
    && (forall i {:trigger EasyEnough(c, i)} | 0 <= i < 7 :: EasyEnough(c, i))
    && 2 * WorkOf(c.easy) < WorkOf(c.hard) < 3 * WorkOf(c.easy)
    && 100 * WorkOf(c.easy) < TWO_256
  }

  const SLOW_TIME: U32 := 1_209_600
  const FAST_TIME: U32 := 483_840
  const NOW: U64 := 5_000_000

  /** What the retarget rule asks for at height 2016 after a slow and after a fast period. */
  ghost predicate Retargets(c: Setting)
  {
    && ExpectedBits(c.easy, SLOW_TIME, 0, 2016, c.limit) == Ok(c.easy)
    && ExpectedBits(c.easy, FAST_TIME, 0, 2016, c.limit) == Ok(c.hard)
  }

  /** A header named `n` on the parent named `p`. */
  function Named(c: Setting, n: nat, p: nat, time: U32, bits: U32): Header
    requires n < |c.d| && p < |c.d|
  {
    Header(c.d[n], c.d[p], ZeroDigest(), time, bits)
  }

  function Record(parent: Digest, height: U32, time: U32, bits: U32, periodStart: U32, work: U256): HeaderEntry
  {
    HeaderEntry(parent, ZeroDigest(), height, bits, time, periodStart, work)
  }

  /** The record a named header gets when its bits are the expected ones. */
  lemma NamedEntry(parent: HeaderEntry, c: Setting, n: nat, p: nat, time: U32, bits: U32)
    requires Fits(c) && n < 7 && p < 7 && (bits == c.easy || bits == c.hard)
    requires ExpectedBits(parent.bits, parent.time, parent.periodStart, parent.height + 1, c.limit) == Ok(bits)
    requires parent.height < 3000 && time < NOW && parent.chainwork <= 90 * WorkOf(c.easy)
    ensures NewEntry(parent, Named(c, n, p, time, bits), c.limit, NOW)
         == Ok(Record(c.d[p], parent.height + 1, time, bits,
                      if (parent.height + 1) % RETARGET_INTERVAL == 0 then time else parent.periodStart,
                      parent.chainwork + WorkOf(bits)))
  {
    hide BitsToTarget;
    hide ExpectedBits;
    hide LittleEndian;
    assert EasyEnough(c, n);
  }

  /** Storing a named header inside a difficulty period. */
  lemma PlainStored(m: Headers, c: Setting, n: nat, p: nat, time: U32) returns (m': Headers)
    requires Fits(c) && n < 7 && p < 7 && c.d[n] !in m && c.d[p] in m
    requires var e := m[c.d[p]];
             e.bits == c.easy && e.height < 3000 && (e.height + 1) % RETARGET_INTERVAL != 0 && e.chainwork <= 90 * WorkOf(c.easy)
    requires time < NOW
    ensures c.d[n] in m'
    ensures var e, e' := m[c.d[p]], m'[c.d[n]];
            m' == m[c.d[n] := e'] && e'.prev == c.d[p] && e'.height == e.height + 1 && e'.bits == c.easy
            && e'.time == time && e'.periodStart == e.periodStart && e'.chainwork == e.chainwork + WorkOf(c.easy)
    ensures StoreHeader(m, Named(c, n, p, time, c.easy), c.limit, NOW) == Ok(m')
  {
    NamedEntry(m[c.d[p]], c, n, p, time, c.easy);
    m' := m[c.d[n] := NewEntry(m[c.d[p]], Named(c, n, p, time, c.easy), c.limit, NOW).value];
  }

  /** Storing a named header at height 2016, where the bits depend on the parent's time. */
  lemma BoundaryStored(m: Headers, c: Setting, n: nat, p: nat, time: U32, bits: U32) returns (m': Headers)
    requires Fits(c) && n < 7 && p < 7 && c.d[n] !in m && c.d[p] in m && (bits == c.easy || bits == c.hard)
    requires var e := m[c.d[p]];
             && e.height == 2015 && e.chainwork <= 90 * WorkOf(c.easy)
             && ExpectedBits(e.bits, e.time, e.periodStart, 2016, c.limit) == Ok(bits)
    requires time < NOW
    ensures c.d[n] in m'
    ensures var e, e' := m[c.d[p]], m'[c.d[n]];
            m' == m[c.d[n] := e'] && e'.prev == c.d[p] && e'.height == 2016 && e'.bits == bits
            && e'.chainwork == e.chainwork + WorkOf(bits)
    ensures StoreHeader(m, Named(c, n, p, time, bits), c.limit, NOW) == Ok(m')
  {
    NamedEntry(m[c.d[p]], c, n, p, time, bits);
    m' := m[c.d[n] := NewEntry(m[c.d[p]], Named(c, n, p, time, bits), c.limit, NOW).value];
  }

  lemma StoreOne(limit: U256, m: Headers, x: Header)
    ensures StoreAll(m, [x], limit, NOW) == StoreHeader(m, x, limit, NOW)
  {
    assert [x][..1 - 1] == [];
  }

  lemma StoreTwo(limit: U256, m: Headers, x: Header, y: Header, m1: Headers)
    requires StoreHeader(m, x, limit, NOW) == Ok(m1)
    ensures StoreAll(m, [x, y], limit, NOW) == StoreHeader(m1, y, limit, NOW)
  {
    StoreOne(limit, m, x);
    assert [x, y][..2 - 1] == [x];
  }

  lemma StoreThree(limit: U256, m: Headers, x: Header, y: Header, z: Header, m1: Headers, m2: Headers)
    requires StoreHeader(m, x, limit, NOW) == Ok(m1) && StoreHeader(m1, y, limit, NOW) == Ok(m2)
    ensures StoreAll(m, [x, y, z], limit, NOW) == StoreHeader(m2, z, limit, NOW)
  {
    StoreTwo(limit, m, x, y, m1);
    assert [x, y, z][..3 - 1] == [x, y];
  }

  lemma WalkStep(index: Index, headers: Headers, hash: Digest, n: nat, after: Index)
    requires hash in headers && headers[hash].prev in headers && n < MAX_REORG_DEPTH
    requires !Points(index, headers[hash].height, hash)
    requires Rewrite(index[headers[hash].height := hash], headers, headers[hash].prev, n + 1) == Ok(after)
    ensures Rewrite(index, headers, hash, n) == Ok(after)
  {
  }

  lemma WalkStop(index: Index, headers: Headers, hash: Digest, n: nat)
    requires hash in headers && Points(index, headers[hash].height, hash)
    ensures Rewrite(index, headers, hash, n) == Ok(index)
  {
  }

  /** A submission whose last header outweighs the tip. */
  lemma Switches(c: Setting, st: State, hs: seq<Header>, stored: Headers, after: Index, tip: Digest)
    requires BitsToTarget(c.easy) == Ok(c.limit) && st.config == Some(Config(0, c.easy)) && st.checkpoint.Some? && st.bestTip.Some?
    requires 1 <= |hs| <= 3 && tip == hs[|hs| - 1].hash && tip in stored
    requires StoreAll(st.headers, hs, c.limit, NOW) == Ok(stored)
    requires stored[tip].chainwork > st.bestTip.value.chainwork && Rewrite(st.canonical, stored, tip, 0) == Ok(after)
    ensures Apply(st, SubmitHeaders(hs, NOW))
         == st.(headers := stored, canonical := after,
                bestTip := Some(BestTip(tip, stored[tip].height, stored[tip].chainwork)))
  {
  }

  lemma Starts(c: Setting, height: U32) returns (st: State)
    requires Fits(c)
    ensures st == Apply(Deployed(0, c.easy), SetCheckpoint(0, CheckpointAt(c, height)))
    ensures st.config == Some(Config(0, c.easy)) && st.checkpoint == Some(CheckpointAt(c, height))
    ensures st.headers == map[c.d[0] := RootEntry(CheckpointAt(c, height))]
    ensures st.canonical == map[height as nat := c.d[0]] && st.bestTip == Some(BestTip(c.d[0], height, 0))
  {
    st := Apply(Deployed(0, c.easy), SetCheckpoint(0, CheckpointAt(c, height)));
  }

  function CheckpointAt(c: Setting, height: U32): Checkpoint
    requires |c.d| == 7
  {
    Checkpoint(height, c.d[0], c.easy, 0, 0)
  }

  // ------------------------------------------- the last header decides alone

  /** A child and a grandchild of the checkpoint, then a sibling of the child. */
  function NonContiguousVector(c: Setting): seq<Header>
    requires |c.d| == 7
  {
    [Named(c, 1, 0, 1, c.easy), Named(c, 2, 1, 2, c.easy), Named(c, 3, 0, 3, c.easy)]
  }

  function NonContiguousRun(c: Setting): seq<Call>
    requires |c.d| == 7
  {
    [SetCheckpoint(0, CheckpointAt(c, 100)), SubmitHeaders(NonContiguousVector(c), NOW)]
  }

  lemma NonContiguousPair(c: Setting, m0: Headers) returns (m1: Headers, m2: Headers)
    requires Fits(c) && m0 == map[c.d[0] := RootEntry(CheckpointAt(c, 100))]
    ensures StoreHeader(m0, Named(c, 1, 0, 1, c.easy), c.limit, NOW) == Ok(m1)
    ensures StoreHeader(m1, Named(c, 2, 1, 2, c.easy), c.limit, NOW) == Ok(m2)
    ensures m2.Keys == {c.d[0], c.d[1], c.d[2]} && m2[c.d[0]] == m0[c.d[0]] && m2[c.d[2]].chainwork == 2 * WorkOf(c.easy)
  {
    hide StoreHeader;
    hide ExpectedBits;
    hide Named;
    hide WorkOf;
    m1 := PlainStored(m0, c, 1, 0, 1);
    m2 := PlainStored(m1, c, 2, 1, 2);
  }

  lemma NonContiguousStored(c: Setting, m0: Headers) returns (m3: Headers)
    requires Fits(c) && m0 == map[c.d[0] := RootEntry(CheckpointAt(c, 100))]
    ensures StoreAll(m0, NonContiguousVector(c), c.limit, NOW) == Ok(m3)
    ensures c.d[0] in m3 && m3[c.d[0]] == RootEntry(CheckpointAt(c, 100))
    ensures c.d[2] in m3 && m3[c.d[2]].chainwork == 2 * WorkOf(c.easy)
    ensures c.d[3] in m3 && m3[c.d[3]].chainwork == WorkOf(c.easy) && m3[c.d[3]].height == 101 && m3[c.d[3]].prev == c.d[0]
  {
    var m1, m2 := NonContiguousPair(c, m0);
    m3 := PlainStored(m2, c, 3, 0, 3);
    StoreThree(c.limit, m0, Named(c, 1, 0, 1, c.easy), Named(c, 2, 1, 2, c.easy), Named(c, 3, 0, 3, c.easy), m1, m2);
  }

  lemma NonContiguousEnd(c: Setting)
    requires Fits(c)
    ensures var st := Run(Deployed(0, c.easy), NonContiguousRun(c));
            && Live(st)
            && st.bestTip == Some(BestTip(c.d[3], 101, WorkOf(c.easy)))
            && c.d[2] in st.headers && st.headers[c.d[2]].chainwork == 2 * WorkOf(c.easy)
            && !TipIsHeaviest(st)
  {
    var st0 := Starts(c, 100);
    var stored := NonContiguousStored(c, st0.headers);
    WalkStop(st0.canonical[101 := c.d[3]], stored, c.d[0], 1);
    WalkStep(st0.canonical, stored, c.d[3], 0, st0.canonical[101 := c.d[3]]);
    Switches(c, st0, NonContiguousVector(c), stored, st0.canonical[101 := c.d[3]], c.d[3]);
    var calls := NonContiguousRun(c);
    TwoCalls(Deployed(0, c.easy), calls[0], calls[1]);
    RunIsLive(c, calls);
  }

  lemma TwoCalls(st: State, a: Call, b: Call)
    ensures Run(st, [a, b]) == Apply(Apply(st, a), b)
  {
    assert [a, b][1..] == [b] && [b][1..] == [];
    assert Run(Apply(st, a), [b]) == Run(Apply(Apply(st, a), b), []);
  }

  // -------------------------------------- a lower, heavier tip leaves entries behind

  /** A slow period keeps the easy target: heights 2015 to 2017. */
  function SlowChain(c: Setting): seq<Header>
    requires |c.d| == 7
  {
    [Named(c, 1, 0, SLOW_TIME, c.easy), Named(c, 2, 1, 2_000_000, c.easy), Named(c, 3, 2, 2_000_001, c.easy)]
  }

  /** A fast period makes the next target harder, so two blocks outweigh three: heights 2015 and 2016. */
  function FastChain(c: Setting): seq<Header>
    requires |c.d| == 7
  {
    [Named(c, 5, 0, FAST_TIME, c.easy), Named(c, 6, 5, 2_000_000, c.hard)]
  }

  /** One more block on the slow chain, at height 2018, and it is heavier again. */
  function SlowChainExtension(c: Setting): seq<Header>
    requires |c.d| == 7
  {
    [Named(c, 4, 3, 2_000_002, c.easy)]
  }

  function StaleRun(c: Setting): seq<Call>
    requires |c.d| == 7
  {
    [SetCheckpoint(0, CheckpointAt(c, 2014)), SubmitHeaders(SlowChain(c), NOW),
     SubmitHeaders(FastChain(c), NOW), SubmitHeaders(SlowChainExtension(c), NOW)]
  }

  /** The checkpoint and the slow chain are stored. */
  ghost predicate SlowTree(m: Headers, c: Setting)
    requires Fits(c)
  {
    && c.d[0] in m && m[c.d[0]] == RootEntry(CheckpointAt(c, 2014))
    && c.d[1] in m && m[c.d[1]].prev == c.d[0] && m[c.d[1]].height == 2015
    && c.d[2] in m && m[c.d[2]].prev == c.d[1] && m[c.d[2]].height == 2016
    && c.d[3] in m && m[c.d[3]].prev == c.d[2] && m[c.d[3]].height == 2017
    && m[c.d[3]].bits == c.easy && m[c.d[3]].chainwork == 3 * WorkOf(c.easy)
  }

  ghost predicate FastTree(m: Headers, c: Setting)
    requires Fits(c)
  {
    && c.d[5] in m && m[c.d[5]].prev == c.d[0] && m[c.d[5]].height == 2015
    && c.d[6] in m && m[c.d[6]].prev == c.d[5] && m[c.d[6]].height == 2016
    && m[c.d[6]].chainwork == WorkOf(c.easy) + WorkOf(c.hard)
  }

  /** The first two blocks of the slow chain. */
  lemma SlowPairStored(c: Setting, m0: Headers) returns (m1: Headers, m2: Headers)
    requires Fits(c) && Retargets(c) && m0 == map[c.d[0] := RootEntry(CheckpointAt(c, 2014))]
    ensures StoreHeader(m0, Named(c, 1, 0, SLOW_TIME, c.easy), c.limit, NOW) == Ok(m1)
    ensures StoreHeader(m1, Named(c, 2, 1, 2_000_000, c.easy), c.limit, NOW) == Ok(m2)
    ensures m2.Keys == {c.d[0], c.d[1], c.d[2]} && m2[c.d[0]] == m0[c.d[0]]
    ensures m2[c.d[1]].prev == c.d[0] && m2[c.d[1]].height == 2015
    ensures m2[c.d[2]].prev == c.d[1] && m2[c.d[2]].height == 2016 && m2[c.d[2]].bits == c.easy
    ensures m2[c.d[2]].chainwork == 2 * WorkOf(c.easy)
  {
    hide StoreHeader;
    hide ExpectedBits;
    hide Named;
    hide WorkOf;
    m1 := PlainStored(m0, c, 1, 0, SLOW_TIME);
    m2 := BoundaryStored(m1, c, 2, 1, 2_000_000, c.easy);
  }

  lemma SlowStored(c: Setting, m0: Headers) returns (m3: Headers)
    requires Fits(c) && Retargets(c) && m0 == map[c.d[0] := RootEntry(CheckpointAt(c, 2014))]
    ensures StoreAll(m0, SlowChain(c), c.limit, NOW) == Ok(m3) && SlowTree(m3, c)
    ensures c.d[4] !in m3 && c.d[5] !in m3 && c.d[6] !in m3
  {
    hide StoreHeader;
    hide ExpectedBits;
    hide Named;
    hide WorkOf;
    var m1, m2 := SlowPairStored(c, m0);
    m3 := PlainStored(m2, c, 3, 2, 2_000_001);
    StoreThree(c.limit, m0, Named(c, 1, 0, SLOW_TIME, c.easy), Named(c, 2, 1, 2_000_000, c.easy),
               Named(c, 3, 2, 2_000_001, c.easy), m1, m2);
  }

  lemma FastPairStored(c: Setting, m0: Headers) returns (m1: Headers, m2: Headers)
    requires Fits(c) && Retargets(c) && SlowTree(m0, c) && c.d[4] !in m0 && c.d[5] !in m0 && c.d[6] !in m0
    ensures StoreHeader(m0, Named(c, 5, 0, FAST_TIME, c.easy), c.limit, NOW) == Ok(m1)
    ensures StoreHeader(m1, Named(c, 6, 5, 2_000_000, c.hard), c.limit, NOW) == Ok(m2)
    ensures SlowTree(m2, c) && FastTree(m2, c) && c.d[4] !in m2
  {
    hide StoreHeader;
    hide ExpectedBits;
    hide Named;
    hide WorkOf;
    m1 := PlainStored(m0, c, 5, 0, FAST_TIME);
    m2 := BoundaryStored(m1, c, 6, 5, 2_000_000, c.hard);
  }

  lemma FastStored(c: Setting, m0: Headers) returns (m2: Headers)
    requires Fits(c) && Retargets(c) && SlowTree(m0, c) && c.d[4] !in m0 && c.d[5] !in m0 && c.d[6] !in m0
    ensures StoreAll(m0, FastChain(c), c.limit, NOW) == Ok(m2) && SlowTree(m2, c) && FastTree(m2, c)
    ensures c.d[4] !in m2
  {
    var m1;
    m1, m2 := FastPairStored(c, m0);
    StoreTwo(c.limit, m0, Named(c, 5, 0, FAST_TIME, c.easy), Named(c, 6, 5, 2_000_000, c.hard), m1);
  }

  /** The index after the slow chain became best. */
  lemma SlowWalk(c: Setting, m: Headers) returns (after: Index)
    requires Fits(c) && SlowTree(m, c)
    ensures Rewrite(map[2014 := c.d[0]], m, c.d[3], 0) == Ok(after)
    ensures after == map[2014 := c.d[0], 2017 := c.d[3], 2016 := c.d[2], 2015 := c.d[1]]
  {
    var i: Index := map[2014 := c.d[0]];
    after := i[2017 := c.d[3]][2016 := c.d[2]][2015 := c.d[1]];
    WalkStop(after, m, c.d[0], 3);
    WalkStep(i[2017 := c.d[3]][2016 := c.d[2]], m, c.d[1], 2, after);
    WalkStep(i[2017 := c.d[3]], m, c.d[2], 1, after);
    WalkStep(i, m, c.d[3], 0, after);
  }

  /** The index after the fast chain took over: height 2017 still points at the slow chain. */
  lemma FastWalk(c: Setting, m: Headers) returns (after: Index)
    requires Fits(c) && SlowTree(m, c) && FastTree(m, c)
    ensures Rewrite(map[2014 := c.d[0], 2017 := c.d[3], 2016 := c.d[2], 2015 := c.d[1]], m, c.d[6], 0) == Ok(after)
    ensures after == map[2014 := c.d[0], 2017 := c.d[3], 2016 := c.d[6], 2015 := c.d[5]]
  {
    var i: Index := map[2014 := c.d[0], 2017 := c.d[3], 2016 := c.d[2], 2015 := c.d[1]];
    after := i[2016 := c.d[6]][2015 := c.d[5]];
    WalkStop(after, m, c.d[0], 2);
    WalkStep(i[2016 := c.d[6]], m, c.d[5], 1, after);
    WalkStep(i, m, c.d[6], 0, after);
  }

  lemma FourCalls(st: State, a: Call, b: Call, x: Call, y: Call)
    ensures Run(st, [a, b, x, y]) == Apply(Apply(Apply(Apply(st, a), b), x), y)
  {
    var st' := Apply(Apply(st, a), b);
    assert [a, b, x, y][1..] == [b, x, y] && [b, x, y][1..] == [x, y];
    assert Run(Apply(st, a), [b, x, y]) == Run(st', [x, y]);
    TwoCalls(st', x, y);
  }

  /** The state after the slow chain. */
  lemma SlowState(c: Setting) returns (st1: State)
    requires Fits(c) && Retargets(c)
    ensures st1 == Apply(Apply(Deployed(0, c.easy), SetCheckpoint(0, CheckpointAt(c, 2014))), SubmitHeaders(SlowChain(c), NOW))
    ensures st1.config == Some(Config(0, c.easy)) && st1.checkpoint == Some(CheckpointAt(c, 2014))
    ensures SlowTree(st1.headers, c) && c.d[4] !in st1.headers && c.d[5] !in st1.headers && c.d[6] !in st1.headers
    ensures st1.canonical == map[2014 := c.d[0], 2017 := c.d[3], 2016 := c.d[2], 2015 := c.d[1]]
    ensures st1.bestTip == Some(BestTip(c.d[3], 2017, 3 * WorkOf(c.easy)))
  {
    var st0 := Starts(c, 2014);
    var m1 := SlowStored(c, st0.headers);
    var i1 := SlowWalk(c, m1);
    Switches(c, st0, SlowChain(c), m1, i1, c.d[3]);
    st1 := Apply(st0, SubmitHeaders(SlowChain(c), NOW));
  }

  lemma FastSwitch(c: Setting, st1: State, hs: seq<Header>, m2: Headers) returns (st2: State)
    requires Fits(c) && |hs| == 2 && hs[1].hash == c.d[6] && StoreAll(st1.headers, hs, c.limit, NOW) == Ok(m2)
    requires st1.config == Some(Config(0, c.easy)) && st1.checkpoint == Some(CheckpointAt(c, 2014))
    requires SlowTree(m2, c) && FastTree(m2, c)
    requires st1.canonical == map[2014 := c.d[0], 2017 := c.d[3], 2016 := c.d[2], 2015 := c.d[1]]
    requires st1.bestTip == Some(BestTip(c.d[3], 2017, 3 * WorkOf(c.easy)))
    ensures st2 == Apply(st1, SubmitHeaders(hs, NOW))
    ensures st2.config == st1.config && st2.checkpoint == st1.checkpoint && st2.headers == m2
    ensures st2.canonical == map[2014 := c.d[0], 2017 := c.d[3], 2016 := c.d[6], 2015 := c.d[5]]
    ensures st2.bestTip == Some(BestTip(c.d[6], 2016, WorkOf(c.easy) + WorkOf(c.hard)))
  {
    hide Apply;
    hide StoreAll;
    hide Rewrite;
    hide WorkOf;
    var i2 := FastWalk(c, m2);
    Switches(c, st1, hs, m2, i2, c.d[6]);
    st2 := Apply(st1, SubmitHeaders(hs, NOW));
  }

  /** The state after the slow chain and then the fast chain. */
  lemma ForkedState(c: Setting) returns (st2: State)
    requires Fits(c) && Retargets(c)
    ensures st2 == Apply(Apply(Apply(Deployed(0, c.easy), SetCheckpoint(0, CheckpointAt(c, 2014))),
                               SubmitHeaders(SlowChain(c), NOW)), SubmitHeaders(FastChain(c), NOW))
    ensures st2.config == Some(Config(0, c.easy)) && st2.checkpoint == Some(CheckpointAt(c, 2014))
    ensures SlowTree(st2.headers, c) && FastTree(st2.headers, c) && c.d[4] !in st2.headers
    ensures st2.canonical == map[2014 := c.d[0], 2017 := c.d[3], 2016 := c.d[6], 2015 := c.d[5]]
    ensures st2.bestTip == Some(BestTip(c.d[6], 2016, WorkOf(c.easy) + WorkOf(c.hard)))
  {
    var st1 := SlowState(c);
    var m2 := FastStored(c, st1.headers);
    st2 := FastSwitch(c, st1, FastChain(c), m2);
  }

  /** The extension's walk meets the entry left at 2017 and stops, leaving 2015 and 2016 on the other chain. */
  lemma StaleEnd(c: Setting) returns (st: State)
    requires Fits(c) && Retargets(c)
    ensures st == Run(Deployed(0, c.easy), StaleRun(c)) && st.checkpoint == Some(CheckpointAt(c, 2014))
    ensures SlowTree(st.headers, c) && FastTree(st.headers, c)
    ensures c.d[4] in st.headers && st.headers[c.d[4]].prev == c.d[3] && st.headers[c.d[4]].height == 2018
    ensures st.canonical == map[2014 := c.d[0], 2017 := c.d[3], 2016 := c.d[6], 2015 := c.d[5], 2018 := c.d[4]]
    ensures st.bestTip.Some? && st.bestTip.value.hash == c.d[4]
  {
    var st2 := ForkedState(c);
    var m := PlainStored(st2.headers, c, 4, 3, 2_000_002);
    StoreOne(c.limit, st2.headers, SlowChainExtension(c)[0]);
    var after := st2.canonical[2018 := c.d[4]];
    WalkStop(after, m, c.d[3], 1);
    WalkStep(st2.canonical, m, c.d[4], 0, after);
    Switches(c, st2, SlowChainExtension(c), m, after, c.d[4]);
    st := Apply(st2, SubmitHeaders(SlowChainExtension(c), NOW));
    FourCalls(Deployed(0, c.easy), SetCheckpoint(0, CheckpointAt(c, 2014)), SubmitHeaders(SlowChain(c), NOW),
              SubmitHeaders(FastChain(c), NOW), SubmitHeaders(SlowChainExtension(c), NOW));
  }

  lemma Misled(c: Setting, st: State)
    requires Fits(c) && Live(st) && st.checkpoint.value == CheckpointAt(c, 2014)
    requires SlowTree(st.headers, c) && FastTree(st.headers, c)
    requires c.d[4] in st.headers && st.headers[c.d[4]].prev == c.d[3] && st.headers[c.d[4]].height == 2018
    requires st.canonical == map[2014 := c.d[0], 2017 := c.d[3], 2016 := c.d[6], 2015 := c.d[5], 2018 := c.d[4]]
    requires st.bestTip.value.hash == c.d[4]
    ensures !IndexFollowsTip(st)
    ensures OnBestChain(st, c.d[2]) && !Points(st.canonical, 2016, c.d[2])
    ensures !OnBestChain(st, c.d[6]) && Points(st.canonical, 2016, c.d[6])
  {
    assert AncestorAt(st.headers, c.d[0], 2014, c.d[2], 2016) == c.d[2];
    assert AncestorAt(st.headers, c.d[0], 2014, c.d[3], 2016) == c.d[2];
    var a := AncestorAt(st.headers, c.d[0], 2014, c.d[4], 2016);
    assert a == c.d[2] && !Points(st.canonical, 2016, a);
  }

  // ----------------------------------------------------- the concrete setting

  /** The digest that reads as the integer `n`. */
  function Small(n: Byte): Digest { [n] + seq(31, _ => 0) }

  lemma {:induction false} ZerosReadZero(n: nat)
    ensures LittleEndian(seq(n, _ => 0)) == 0
  {
    if n > 0 {
      ZerosReadZero(n - 1);
      assert seq(n, _ => 0)[1..] == seq(n - 1, _ => 0);
    }
  }

  lemma SmallReads(n: Byte)
    ensures LittleEndian(Small(n)) == n && Small(n)[0] == n
  {
    ZerosReadZero(31);
    assert Small(n)[1..] == seq(31, _ => 0);
  }

  /** A network whose limit is 2^22, and a target two fifths of it. */
  function Example(): Setting
  {
    Setting(seq<Digest>(7, i requires 0 <= i < 7 => Small(i)), 0x03400000, 0x03199999, 0x40_0000)
  }

  lemma ExampleTargets()
    ensures BitsToTarget(0x03400000) == Ok(0x40_0000) && BitsToTarget(0x03199999) == Ok(0x19_9999)
    ensures WorkOf(0x03400000) == TWO_256 / 0x40_0001 && WorkOf(0x03199999) == TWO_256 / 0x19_999a
  {
    assert Pow256(0) == 1;
    WorkMeaning(0x40_0000);
    WorkMeaning(0x19_9999);
  }

  lemma ExampleNames()
    ensures var d := Example().d;
            && |d| == 7
            && (forall i, j | 0 <= i < j < 7 :: d[i] != d[j])
            && (forall i | 0 <= i < 7 :: LittleEndian(d[i]) < 0x10_0000)
  {
    var d := Example().d;
    forall i, j | 0 <= i < j < 7
      ensures d[i] != d[j]
    {
      assert d[i][0] == i && d[j][0] == j;
    }
    forall i | 0 <= i < 7
      ensures LittleEndian(d[i]) < 0x10_0000
    {
      SmallReads(i);
    }
  }

  lemma ExampleFits()
    ensures Fits(Example())
  {
    ExampleNames();
    ExampleTargets();
  }

  lemma CompactOfTargets()
    ensures Compact(0x40_0000) == 0x03400000 && Compact(0x19_9999) == 0x03199999
  {
    assert Pow256(0) == 1;
    assert ByteLen(0x40_0000) == 3 && ByteLen(0x19_9999) == 3;
  }

  lemma ExampleRetargets()
    ensures Retargets(Example())
  {
    ExampleTargets();
    CompactOfTargets();
    assert NewTarget(0x40_0000, Timespan(SLOW_TIME, 0), 0x40_0000) == 0x40_0000;
    assert NewTarget(0x40_0000, Timespan(FAST_TIME, 0), 0x40_0000) == 0x19_9999;
  }

  lemma SomeSetting() returns (c: Setting)
    ensures Fits(c) && Retargets(c)
  {
    c := Example();
    ExampleFits();
    ExampleRetargets();
  }

  // ------------------------------------------------------- the raw headers

  /** The 80 bytes of a header; the nonce carries the block's name. */
  function Raw(h: Header, name: Byte): RawHeader { HeaderBytes(0, h.prev, h.merkleRoot, h.time, h.bits, name) }

  /** A hash that gives every header so written its name's digest. */
  function NamingHash(c: Setting): Sha256d
  {
    (s: seq<Byte>) => if |s| == 80 && s[76] < |c.d| then c.d[s[76]] else ZeroDigest()
  }

  /** The contract reads from the bytes the very header they were written for. */
  lemma RawParses(c: Setting, h: Header, name: Byte)
    requires name < |c.d| && h.hash == c.d[name]
    ensures Parse(NamingHash(c), Raw(h, name)) == h
  {
    hide Parse;
    ParseInvertsBytes(NamingHash(c), 0, h.prev, h.merkleRoot, h.time, h.bits, name);
    assert Raw(h, name)[76] == name;
  }

  function RawAll(hs: seq<Header>, names: seq<Byte>): (raws: seq<RawHeader>)
    requires |hs| == |names|
    ensures |raws| == |hs|
  {
    seq(|hs|, i requires 0 <= i < |hs| => Raw(hs[i], names[i]))
  }

  /** `raws` are bytes the contract parses as `hs`. */
  lemma RawVector(c: Setting, hs: seq<Header>, names: seq<Byte>) returns (raws: seq<RawHeader>)
    requires |hs| == |names| && forall i | 0 <= i < |hs| :: names[i] < |c.d| && hs[i].hash == c.d[names[i]]
    ensures ParseAll(NamingHash(c), raws) == hs
  {
    raws := RawAll(hs, names);
    forall i | 0 <= i < |hs|
      ensures ParseAll(NamingHash(c), raws)[i] == hs[i]
    {
      RawParses(c, hs[i], names[i]);
    }
  }

  // ---------------------------------------------------------------- results

  lemma RunIsLive(c: Setting, calls: seq<Call>)
    requires Fits(c) && Run(Deployed(0, c.easy), calls).checkpoint.Some?
    ensures Live(Run(Deployed(0, c.easy), calls))
  {
    DeployedValid(0, c.easy);
    RunValid(Deployed(0, c.easy), calls);
  }

  /**
   * A vector that is not one run leaves a tip lighter than a stored header:
   * the grandchild weighs two blocks, the sibling submitted last only one.
   */
  lemma LastHeaderDecidesAlone() returns (c: Setting, sha: Sha256d, raws: seq<RawHeader>)
    ensures Fits(c) && ParseAll(sha, raws) == NonContiguousVector(c)
    ensures var st := Run(Deployed(0, c.easy), NonContiguousRun(c));
            && Live(st)
            && st.bestTip == Some(BestTip(c.d[3], 101, WorkOf(c.easy)))
            && c.d[2] in st.headers && st.headers[c.d[2]].chainwork == 2 * WorkOf(c.easy)
            && !TipIsHeaviest(st)
  {
    c := SomeSetting();
    sha := NamingHash(c);
    raws := RawVector(c, NonContiguousVector(c), [1, 2, 3]);
    NonContiguousEnd(c);
  }

  /**
   * A run of contiguous vectors after which the index no longer follows the
   * tip: the header stored at height 2016 on the tip's own chain is refused
   * as off the best chain, and the orphaned one is indexed in its place.
   */
  lemma StaleEntryMisleadsTheWalk()
    returns (c: Setting, sha: Sha256d, slow: seq<RawHeader>, fast: seq<RawHeader>, extension: seq<RawHeader>)
    ensures Fits(c)
    ensures ParseAll(sha, slow) == SlowChain(c) && ParseAll(sha, fast) == FastChain(c)
    ensures ParseAll(sha, extension) == SlowChainExtension(c)
    ensures var st := Run(Deployed(0, c.easy), StaleRun(c));
            && Live(st)
            && !IndexFollowsTip(st)
            && OnBestChain(st, c.d[2]) && !Points(st.canonical, 2016, c.d[2])
            && !OnBestChain(st, c.d[6]) && Points(st.canonical, 2016, c.d[6])
  {
    c := SomeSetting();
    sha := NamingHash(c);
    slow := RawVector(c, SlowChain(c), [1, 2, 3]);
    fast := RawVector(c, FastChain(c), [5, 6]);
    extension := RawVector(c, SlowChainExtension(c), [4]);
    var st := StaleEnd(c);
    RunIsLive(c, StaleRun(c));
    Misled(c, st);
  }
}
