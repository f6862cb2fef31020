/** The leaf gating of `main` in dumper.c: which CPUID queries the report
    issues, in which order, given the answers of leaf 0 (the highest basic
    leaf) and leaf 0x80000000 (the highest extended leaf). */
module Gating {
  /** An unsigned 32-bit value used as a number: a CPUID leaf or subleaf,
      or a leaf-range maximum. Comparisons on it are the unsigned
      comparisons of the C code. */
  newtype Word32 = x: int | 0 <= x < 0x1_0000_0000

  /** One CPUID query, as recorded in the trace. */
  datatype Query = Query(leaf: Word32, subleaf: Word32)

  /** The leaf of each section, in the order the report prints them. */
  const SectionLeaves: seq<Word32> := [1, 7, 0x8000_0001, 0x8000_0008, 0xD, 0x14]

  /** The two queries that read the leaf-range maxima. */
  const BoundsQueries: seq<Query> := [Query(0, 0), Query(0x8000_0000, 0)]

  /** The maximum that governs `leaf`: basic leaves are bounded by the
      answer of leaf 0, extended leaves (from 0x80000000 up) by the answer
      of leaf 0x80000000. */
  function Bound(leaf: Word32, maxBasic: Word32, maxExt: Word32): Word32
  {
    if leaf < 0x8000_0000 then maxBasic else maxExt
  }

  /** The range rule the report applies to a leaf, an unsigned comparison
      against the governing maximum. */
  predicate Supported(leaf: Word32, maxBasic: Word32, maxExt: Word32)
  {
    leaf <= Bound(leaf, maxBasic, maxExt)
  }

  /** Some query in the trace asked for `leaf`. */
  predicate Queried(trace: seq<Query>, leaf: Word32)
  {
    exists q :: q in trace && q.leaf == leaf
  }

  /** The queries the block for `leaf` issues, given the maximum `max` it
      is compared with: leaf 1 always; any other leaf only when it is at
      most `max` (unsigned), and then subleaves 0 and 1 for leaf 7 and
      subleaf 0 for the others. */
  function BlockQueries(leaf: Word32, max: Word32): (qs: seq<Query>)
    ensures forall q :: q in qs ==> q.leaf == leaf
    ensures qs != [] <==> leaf == 1 || leaf <= max
    ensures qs != [] ==> qs[0] == Query(leaf, 0)
  {
    if leaf == 1 then [Query(1, 0)]
    else if leaf > max then []
    else if leaf == 7 then [Query(7, 0), Query(7, 1)]
    else [Query(leaf, 0)]
  }

  /** Every query issued, given the two maxima: the two bounds queries,
      then the six blocks in print order, each against its own maximum. */
  function TraceOf(maxBasic: Word32, maxExt: Word32): (trace: seq<Query>)
    ensures |trace| >= 3
    ensures trace[0] == Query(0, 0) && trace[1] == Query(0x8000_0000, 0) && trace[2] == Query(1, 0)
  {
    BoundsQueries + BlockQueries(1, maxBasic) + BlockQueries(7, maxBasic)
      + BlockQueries(0x8000_0001, maxExt) + BlockQueries(0x8000_0008, maxExt)
      + BlockQueries(0xD, maxBasic) + BlockQueries(0x14, maxBasic)
  }

  /** Reference definition of the queries of a sequence of blocks: each
      block in turn, against the maximum that governs its leaf. */
  function QueriesOf(leaves: seq<Word32>, maxBasic: Word32, maxExt: Word32): seq<Query>
  {
    if leaves == [] then []
    else BlockQueries(leaves[0], Bound(leaves[0], maxBasic, maxExt)) + QueriesOf(leaves[1..], maxBasic, maxExt)
  }

  /** Concatenation is associative. */
  lemma ConcatAssoc(a: seq<Query>, b: seq<Query>, c: seq<Query>)
    ensures a + b + c == a + (b + c)
  {
  }

  /** `QueriesOf` on the six section leaves, unfolded block by block. */
  lemma {:induction false} QueriesOfSectionLeaves(maxBasic: Word32, maxExt: Word32)
    ensures QueriesOf(SectionLeaves, maxBasic, maxExt)
            == BlockQueries(1, maxBasic) + (BlockQueries(7, maxBasic) + (BlockQueries(0x8000_0001, maxExt)
               + (BlockQueries(0x8000_0008, maxExt) + (BlockQueries(0xD, maxBasic) + BlockQueries(0x14, maxBasic)))))
  {
    var ls := SectionLeaves;
    assert QueriesOf(ls[6..], maxBasic, maxExt) == [];
    assert QueriesOf(ls[5..], maxBasic, maxExt) == BlockQueries(0x14, maxBasic) + [];
    assert BlockQueries(0x14, maxBasic) + [] == BlockQueries(0x14, maxBasic);
    assert QueriesOf(ls[4..], maxBasic, maxExt) == BlockQueries(0xD, maxBasic) + QueriesOf(ls[5..], maxBasic, maxExt);
    assert QueriesOf(ls[3..], maxBasic, maxExt) == BlockQueries(0x8000_0008, maxExt) + QueriesOf(ls[4..], maxBasic, maxExt);
    assert QueriesOf(ls[2..], maxBasic, maxExt) == BlockQueries(0x8000_0001, maxExt) + QueriesOf(ls[3..], maxBasic, maxExt);
    assert QueriesOf(ls[1..], maxBasic, maxExt) == BlockQueries(7, maxBasic) + QueriesOf(ls[2..], maxBasic, maxExt);
    assert QueriesOf(ls, maxBasic, maxExt) == BlockQueries(1, maxBasic) + QueriesOf(ls[1..], maxBasic, maxExt);
  }

  /** The trace is the two bounds queries followed by the blocks of the
      six sections in print order. */
  lemma {:induction false} TraceIsQueriesOf(maxBasic: Word32, maxExt: Word32)
    ensures TraceOf(maxBasic, maxExt) == BoundsQueries + QueriesOf(SectionLeaves, maxBasic, maxExt)
  {
    var b0, b1, b2 := BlockQueries(1, maxBasic), BlockQueries(7, maxBasic), BlockQueries(0x8000_0001, maxExt);
    var b3, b4, b5 := BlockQueries(0x8000_0008, maxExt), BlockQueries(0xD, maxBasic), BlockQueries(0x14, maxBasic);
    var bs := BoundsQueries;
    QueriesOfSectionLeaves(maxBasic, maxExt);
    calc {
      TraceOf(maxBasic, maxExt);
      bs + b0 + b1 + b2 + b3 + b4 + b5;
      { ConcatAssoc(bs + b0 + b1 + b2 + b3, b4, b5); }
      bs + b0 + b1 + b2 + b3 + (b4 + b5);
      { ConcatAssoc(bs + b0 + b1 + b2, b3, b4 + b5); }
      bs + b0 + b1 + b2 + (b3 + (b4 + b5));
      { ConcatAssoc(bs + b0 + b1, b2, b3 + (b4 + b5)); }
      bs + b0 + b1 + (b2 + (b3 + (b4 + b5)));
      { ConcatAssoc(bs + b0, b1, b2 + (b3 + (b4 + b5))); }
      bs + b0 + (b1 + (b2 + (b3 + (b4 + b5))));
      { ConcatAssoc(bs, b0, b1 + (b2 + (b3 + (b4 + b5)))); }
      bs + (b0 + (b1 + (b2 + (b3 + (b4 + b5)))));
    }
  }

  /** Every query of the blocks asks for one of the blocks' leaves. */
  lemma {:induction false} QueriesOfLeaves(leaves: seq<Word32>, maxBasic: Word32, maxExt: Word32, q: Query)
    requires q in QueriesOf(leaves, maxBasic, maxExt)
    ensures q.leaf in leaves
  {
    if leaves != [] {
      var max := Bound(leaves[0], maxBasic, maxExt);
      if q !in BlockQueries(leaves[0], max) {
        QueriesOfLeaves(leaves[1..], maxBasic, maxExt, q);
        assert q.leaf in leaves[1..];
      }
    }
  }

  /** Soundness of the gating: a query for a leaf other than 1 asks only
      for a leaf within the maximum that governs it. */
  lemma {:induction false} QueriesOfSupported(leaves: seq<Word32>, maxBasic: Word32, maxExt: Word32, q: Query)
    requires q in QueriesOf(leaves, maxBasic, maxExt)
    ensures q.leaf == 1 || Supported(q.leaf, maxBasic, maxExt)
  {
    if leaves != [] {
      var max := Bound(leaves[0], maxBasic, maxExt);
      if q !in BlockQueries(leaves[0], max) {
        QueriesOfSupported(leaves[1..], maxBasic, maxExt, q);
      }
    }
  }

  /** Completeness of the gating: leaf 1, and every other leaf of a block
      that is within the maximum that governs it, is queried (subleaf 0). */
  lemma {:induction false} QueriesOfComplete(leaves: seq<Word32>, maxBasic: Word32, maxExt: Word32, leaf: Word32)
    requires leaf in leaves && (leaf == 1 || Supported(leaf, maxBasic, maxExt))
    ensures Query(leaf, 0) in QueriesOf(leaves, maxBasic, maxExt)
  {
    var block := BlockQueries(leaves[0], Bound(leaves[0], maxBasic, maxExt));
    if leaves[0] == leaf {
      assert block[0] == Query(leaf, 0);
    } else {
      QueriesOfComplete(leaves[1..], maxBasic, maxExt, leaf);
    }
  }

  /** The two bounds queries come first, then leaf 1, and no later query
      reads either bound again: every gated decision rests on values
      already read. */
  lemma {:induction false} BoundsQueriedFirst(maxBasic: Word32, maxExt: Word32)
    ensures |TraceOf(maxBasic, maxExt)| >= 3
    ensures TraceOf(maxBasic, maxExt)[..3] == [Query(0, 0), Query(0x8000_0000, 0), Query(1, 0)]
    ensures forall k :: 2 <= k < |TraceOf(maxBasic, maxExt)| ==>
              TraceOf(maxBasic, maxExt)[k].leaf != 0 && TraceOf(maxBasic, maxExt)[k].leaf != 0x8000_0000
  {
    var trace := TraceOf(maxBasic, maxExt);
    var blocks := QueriesOf(SectionLeaves, maxBasic, maxExt);
    TraceIsQueriesOf(maxBasic, maxExt);
    assert blocks[0] == Query(1, 0) by {
      assert blocks == BlockQueries(1, maxBasic) + QueriesOf(SectionLeaves[1..], maxBasic, maxExt);
    }
    forall k | 2 <= k < |trace|
      ensures trace[k].leaf != 0 && trace[k].leaf != 0x8000_0000
    {
      assert trace[k] == blocks[k - 2];
      QueriesOfLeaves(SectionLeaves, maxBasic, maxExt, blocks[k - 2]);
    }
  }

  /** No unsupported leaf is ever queried: after the two bounds queries
      and the unconditional leaf 1, every query asks for a leaf within the
      maximum that governs it. */
  lemma {:induction false} OnlySupportedLeavesQueried(maxBasic: Word32, maxExt: Word32)
    ensures forall k :: 2 <= k < |TraceOf(maxBasic, maxExt)| ==>
              TraceOf(maxBasic, maxExt)[k].leaf in SectionLeaves
              && (TraceOf(maxBasic, maxExt)[k].leaf == 1
                  || Supported(TraceOf(maxBasic, maxExt)[k].leaf, maxBasic, maxExt))
  {
    var trace := TraceOf(maxBasic, maxExt);
    var blocks := QueriesOf(SectionLeaves, maxBasic, maxExt);
    TraceIsQueriesOf(maxBasic, maxExt);
    forall k | 2 <= k < |trace|
      ensures trace[k].leaf in SectionLeaves && (trace[k].leaf == 1 || Supported(trace[k].leaf, maxBasic, maxExt))
    {
      assert trace[k] == blocks[k - 2];
      QueriesOfLeaves(SectionLeaves, maxBasic, maxExt, blocks[k - 2]);
      QueriesOfSupported(SectionLeaves, maxBasic, maxExt, blocks[k - 2]);
    }
  }

  /** A section's leaf other than 1 is queried iff it is within the maximum
      that governs it; for leaf 7 this covers both of its subleaves. */
  lemma {:induction false} QueriedIffSupported(maxBasic: Word32, maxExt: Word32, leaf: Word32)
    requires leaf in SectionLeaves && leaf != 1
    ensures Queried(TraceOf(maxBasic, maxExt), leaf) <==> Supported(leaf, maxBasic, maxExt)
  {
    if Supported(leaf, maxBasic, maxExt) {
      SupportedIsQueried(maxBasic, maxExt, leaf);
    } else if Queried(TraceOf(maxBasic, maxExt), leaf) {
      var q :| q in TraceOf(maxBasic, maxExt) && q.leaf == leaf;
      QueriedIsSupported(maxBasic, maxExt, q);
    }
  }

  /** Completeness on the trace: a supported section leaf is queried with
      subleaf 0. */
  lemma {:induction false} SupportedIsQueried(maxBasic: Word32, maxExt: Word32, leaf: Word32)
    requires leaf in SectionLeaves && Supported(leaf, maxBasic, maxExt)
    ensures Query(leaf, 0) in TraceOf(maxBasic, maxExt)
  {
    TraceIsQueriesOf(maxBasic, maxExt);
    QueriesOfComplete(SectionLeaves, maxBasic, maxExt, leaf);
  }

  /** Soundness on the trace: a query past the bounds asks for a leaf that
      is 1 or within its maximum. */
  lemma {:induction false} QueriedIsSupported(maxBasic: Word32, maxExt: Word32, q: Query)
    requires q in TraceOf(maxBasic, maxExt) && q.leaf != 0 && q.leaf != 0x8000_0000
    ensures q.leaf == 1 || Supported(q.leaf, maxBasic, maxExt)
  {
    var blocks := QueriesOf(SectionLeaves, maxBasic, maxExt);
    TraceIsQueriesOf(maxBasic, maxExt);
    assert q !in BoundsQueries;
    assert q in blocks;
    QueriesOfSupported(SectionLeaves, maxBasic, maxExt, q);
  }

  /** Leaf 7 is read with both of its subleaves: (7, 0) and (7, 1) are each
      queried iff `max_basic >= 7`. */
  lemma {:induction false} Leaf7SubleavesQueried(maxBasic: Word32, maxExt: Word32)
    ensures Query(7, 0) in TraceOf(maxBasic, maxExt) <==> 7 <= maxBasic
    ensures Query(7, 1) in TraceOf(maxBasic, maxExt) <==> 7 <= maxBasic
  {
    var trace := TraceOf(maxBasic, maxExt);
    QueriedIffSupported(maxBasic, maxExt, 7);
    if 7 <= maxBasic {
      var pre := BoundsQueries + BlockQueries(1, maxBasic);
      assert BlockQueries(7, maxBasic) == [Query(7, 0), Query(7, 1)];
      assert trace[|pre|] == Query(7, 0) && trace[|pre| + 1] == Query(7, 1);
    }
  }
}
