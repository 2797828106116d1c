/**
 Python's `difflib.SequenceMatcher(a, b, autojunk=False)` without a junk function, from its
 documented behaviour: the longest common block, earliest in `a` and then in `b`; recursion
 to its left and right; adjacent blocks merged; opcodes that tile both inputs.
 */
module SequenceMatcher {

  datatype Match = Match(a: nat, b: nat, size: nat)

  /** `a[i..i+k]` and `b[j..j+k]` are equal and lie inside the window. */
  ghost predicate CommonBlock<T>(a: seq<T>, b: seq<T>, w: Window, i: nat, j: nat, k: nat)
    requires w.Fits(a, b)
  {
    && w.alo <= i && i + k <= w.ahi
    && w.blo <= j && j + k <= w.bhi
    && a[i..i + k] == b[j..j + k]
  }

  /** The sub-ranges `a[alo..ahi]` and `b[blo..bhi]` a search looks at. */
  datatype Window = Window(alo: nat, ahi: nat, blo: nat, bhi: nat) {
    predicate Fits<T>(a: seq<T>, b: seq<T>) {
      alo <= ahi <= |a| && blo <= bhi <= |b|
    }
    function Size(): nat
      requires alo <= ahi && blo <= bhi
    {
      (ahi - alo) + (bhi - blo)
    }
    function Left(m: Match): Window { Window(alo, m.a, blo, m.b) }
    function Right(m: Match): Window { Window(m.a + m.size, ahi, m.b + m.size, bhi) }
  }

  /** The documented contract of `find_longest_match`. */
  ghost predicate IsLongest<T>(a: seq<T>, b: seq<T>, w: Window, m: Match)
    requires w.Fits(a, b)
  {
    && CommonBlock(a, b, w, m.a, m.b, m.size)
    && forall i: nat, j: nat, k: nat | CommonBlock(a, b, w, i, j, k) ::
         k <= m.size && (k == m.size ==> m.a <= i && (m.a == i ==> m.b <= j))
  }

  /** A non-empty common block starts with an equal pair and continues with a shorter block. */
  lemma CommonBlockStep<T>(a: seq<T>, b: seq<T>, w: Window, i: nat, j: nat, k: nat)
    requires w.Fits(a, b) && k > 0
    ensures CommonBlock(a, b, w, i, j, k) <==>
              && w.alo <= i < w.ahi && w.blo <= j < w.bhi && a[i] == b[j]
              && CommonBlock(a, b, w, i + 1, j + 1, k - 1)
  {
    if i + k <= |a| && j + k <= |b| {
      assert a[i..i + k] == [a[i]] + a[i + 1..i + k];
      assert b[j..j + k] == [b[j]] + b[j + 1..j + k];
    }
  }

  function CommonPrefix<T(==)>(a: seq<T>, b: seq<T>, w: Window, i: nat, j: nat): (k: nat)
    requires w.Fits(a, b) && w.alo <= i <= w.ahi && w.blo <= j <= w.bhi
    ensures CommonBlock(a, b, w, i, j, k)
    ensures forall k': nat | CommonBlock(a, b, w, i, j, k') :: k' <= k
    decreases w.ahi - i
  {
    var k := if i < w.ahi && j < w.bhi && a[i] == b[j] then 1 + CommonPrefix(a, b, w, i + 1, j + 1) else 0;
    assert CommonBlock(a, b, w, i, j, k) && forall k': nat | CommonBlock(a, b, w, i, j, k') :: k' <= k by {
      if k > 0 { CommonBlockStep(a, b, w, i, j, k); }
      forall k': nat | CommonBlock(a, b, w, i, j, k')
        ensures k' <= k
      {
        if k' > 0 { CommonBlockStep(a, b, w, i, j, k'); }
      }
    }
    k
  }

  /** The best block starting in row `i` at column `j` or later. */
  function BestInRow<T(==)>(a: seq<T>, b: seq<T>, w: Window, i: nat, j: nat): (m: Match)
    requires w.Fits(a, b) && w.alo <= i <= w.ahi && w.blo <= j <= w.bhi
    ensures m.a == i && j <= m.b && CommonBlock(a, b, w, m.a, m.b, m.size)
    ensures forall j': nat, k: nat | j <= j' && CommonBlock(a, b, w, i, j', k) ::
              k <= m.size && (k == m.size ==> m.b <= j')
    decreases w.bhi - j
  {
    var here := Match(i, j, CommonPrefix(a, b, w, i, j));
    if j == w.bhi then here
    else
      var later := BestInRow(a, b, w, i, j + 1);
      if here.size >= later.size then here else later
  }

  function BestFrom<T(==)>(a: seq<T>, b: seq<T>, w: Window, i: nat): (m: Match)
    requires w.Fits(a, b) && w.alo <= i <= w.ahi
    ensures i <= m.a && CommonBlock(a, b, w, m.a, m.b, m.size)
    ensures forall i': nat, j: nat, k: nat | i <= i' && CommonBlock(a, b, w, i', j, k) ::
              k <= m.size && (k == m.size ==> m.a <= i' && (m.a == i' ==> m.b <= j))
    decreases w.ahi - i
  {
    var here := BestInRow(a, b, w, i, w.blo);
    if i == w.ahi then here
    else
      var later := BestFrom(a, b, w, i + 1);
      if here.size >= later.size then here else later
  }

  function FindLongestMatch<T(==)>(a: seq<T>, b: seq<T>, w: Window): (m: Match)
    requires w.Fits(a, b)
    ensures IsLongest(a, b, w, m)
  {
    BestFrom(a, b, w, w.alo)
  }

  /** The documented contract leaves one answer only. */
  lemma LongestIsUnique<T>(a: seq<T>, b: seq<T>, w: Window, m: Match, n: Match)
    requires w.Fits(a, b) && IsLongest(a, b, w, m) && IsLongest(a, b, w, n)
    ensures m == n
  {
  }

  function MatchingBlocks<T(==)>(a: seq<T>, b: seq<T>, w: Window): seq<Match>
    requires w.Fits(a, b)
    decreases w.Size()
  {
    var m := FindLongestMatch(a, b, w);
    if m.size == 0 then []
    else MatchingBlocks(a, b, w.Left(m)) + [m] + MatchingBlocks(a, b, w.Right(m))
  }

  predicate Touching(m: Match, n: Match) {
    m.a + m.size == n.a && m.b + m.size == n.b
  }

  /** The pass of `get_matching_blocks` that joins blocks adjacent in both inputs. */
  function MergeAdjacent(current: Match, ms: seq<Match>): seq<Match>
    decreases |ms|
  {
    if ms == [] then [current]
    else if Touching(current, ms[0]) then
      MergeAdjacent(current.(size := current.size + ms[0].size), ms[1..])
    else [current] + MergeAdjacent(ms[0], ms[1..])
  }

  function MergedBlocks<T(==)>(a: seq<T>, b: seq<T>): seq<Match> {
    var ms := MatchingBlocks(a, b, Window(0, |a|, 0, |b|));
    if ms == [] then [] else MergeAdjacent(ms[0], ms[1..])
  }

  // ----- the documented search, as a relation

  ghost predicate Differ<T>(a: seq<T>, b: seq<T>, x: nat, y: nat)
    requires x < |a| && y < |b|
  {
    a[x] != b[y]
  }

  /** No element of the window of `a` occurs in the window of `b`. */
  ghost predicate NothingShared<T>(a: seq<T>, b: seq<T>, w: Window)
    requires w.Fits(a, b)
  {
    forall x: nat, y: nat | w.alo <= x < w.ahi && w.blo <= y < w.bhi :: Differ(a, b, x, y)
  }

  /** Block `k` of the list is the longest of the window, and the search went on to its left and right. */
  ghost predicate SplitAt<T>(a: seq<T>, b: seq<T>, w: Window, ms: seq<Match>, k: nat)
    requires w.Fits(a, b) && k < |ms|
    decreases |ms|, 0
  {
    && ms[k].size > 0 && IsLongest(a, b, w, ms[k])
    && Searched(a, b, w.Left(ms[k]), ms[..k]) && Searched(a, b, w.Right(ms[k]), ms[k + 1..])
  }

  /** The blocks are what the documented search of the window finds. */
  ghost predicate Searched<T>(a: seq<T>, b: seq<T>, w: Window, ms: seq<Match>)
    decreases |ms|, 1
  {
    && w.Fits(a, b)
    && if ms == [] then NothingShared(a, b, w) else exists k: nat :: k < |ms| && SplitAt(a, b, w, ms, k)
  }

  lemma {:induction false} MatchingBlocksAreSearched<T>(a: seq<T>, b: seq<T>, w: Window)
    requires w.Fits(a, b)
    ensures Searched(a, b, w, MatchingBlocks(a, b, w))
    decreases w.Size()
  {
    var m := FindLongestMatch(a, b, w);
    if m.size == 0 {
      EmptyMatchSharesNothing(a, b, w);
    } else {
      MatchingBlocksAreSearched(a, b, w.Left(m));
      MatchingBlocksAreSearched(a, b, w.Right(m));
      hide Searched, SplitAt, IsLongest;
      JoinSearched(a, b, w, MatchingBlocks(a, b, w.Left(m)), m, MatchingBlocks(a, b, w.Right(m)));
    }
  }

  lemma {:induction false} JoinSearched<T>(a: seq<T>, b: seq<T>, w: Window, left: seq<Match>, m: Match, right: seq<Match>)
    requires w.Fits(a, b) && m.size > 0 && IsLongest(a, b, w, m)
    requires Searched(a, b, w.Left(m), left) && Searched(a, b, w.Right(m), right)
    ensures Searched(a, b, w, left + [m] + right)
  {
    hide Searched, IsLongest;
    var ms := left + [m] + right;
    assert ms[|left|] == m && ms[..|left|] == left && ms[|left| + 1..] == right;
    assert SplitAt(a, b, w, ms, |left|);
    SplitIsSearched(a, b, w, ms, |left|);
  }

  lemma {:induction false} SplitIsSearched<T>(a: seq<T>, b: seq<T>, w: Window, ms: seq<Match>, k: nat)
    requires w.Fits(a, b) && k < |ms| && SplitAt(a, b, w, ms, k)
    ensures Searched(a, b, w, ms)
  {
    hide SplitAt;
  }

  lemma {:induction false} SharedIsSearched<T>(a: seq<T>, b: seq<T>, w: Window, m: Match)
    requires w.Fits(a, b) && m.size > 0 && CommonBlock(a, b, w, m.a, m.b, m.size)
    ensures !NothingShared(a, b, w)
  {
    assert a[m.a] == a[m.a..m.a + m.size][0] == b[m.b..m.b + m.size][0] == b[m.b];
    assert !Differ(a, b, m.a, m.b);
  }

  /** The documented search has one outcome. */
  lemma {:induction false} SearchedIsUnique<T>(a: seq<T>, b: seq<T>, w: Window, ms: seq<Match>, ns: seq<Match>)
    requires Searched(a, b, w, ms) && Searched(a, b, w, ns)
    ensures ms == ns
    decreases |ms|
  {
    if ms == [] {
      if ns != [] {
        var k: nat :| k < |ns| && SplitAt(a, b, w, ns, k);
        SharedIsSearched(a, b, w, ns[k]);
      }
    } else {
      var k: nat :| k < |ms| && SplitAt(a, b, w, ms, k);
      SharedIsSearched(a, b, w, ms[k]);
      var l: nat :| l < |ns| && SplitAt(a, b, w, ns, l);
      LongestIsUnique(a, b, w, ms[k], ns[l]);
      hide IsLongest;
      SearchedIsUnique(a, b, w.Left(ms[k]), ms[..k], ns[..l]);
      SearchedIsUnique(a, b, w.Right(ms[k]), ms[k + 1..], ns[l + 1..]);
      assert ms == ms[..k] + [ms[k]] + ms[k + 1..] && ns == ns[..l] + [ns[l]] + ns[l + 1..];
    }
  }

  // ----- what the blocks satisfy

  /**
   Increasing, non-overlapping, non-empty common blocks inside the window; before the first,
   between two and after the last the inputs share nothing.
   */
  ghost predicate Chain<T>(a: seq<T>, b: seq<T>, w: Window, ms: seq<Match>)
    decreases |ms|
  {
    && w.Fits(a, b)
    && if ms == [] then NothingShared(a, b, w)
       else
         && ms[0].size > 0
         && CommonBlock(a, b, w, ms[0].a, ms[0].b, ms[0].size)
         && NothingShared(a, b, w.Left(ms[0]))
         && Chain(a, b, w.Right(ms[0]), ms[1..])
  }

  ghost predicate Apart(ms: seq<Match>) {
    forall i | 0 <= i < |ms| - 1 :: !Touching(ms[i], ms[i + 1])
  }

  lemma {:induction false} ChainConcat<T>(a: seq<T>, b: seq<T>, w: Window, left: seq<Match>, m: Match, right: seq<Match>)
    requires w.Fits(a, b) && m.size > 0 && CommonBlock(a, b, w, m.a, m.b, m.size)
    requires Chain(a, b, w.Left(m), left)
    requires Chain(a, b, w.Right(m), right)
    ensures Chain(a, b, w, left + [m] + right)
    decreases |left|
  {
    var ms := left + [m] + right;
    if left == [] {
      assert ms[0] == m && ms[1..] == right;
    } else {
      var h := left[0];
      assert ms[0] == h && ms[1..] == left[1..] + [m] + right;
      assert w.Left(m).Right(h) == w.Right(h).Left(m);
      assert w.Right(h).Right(m) == w.Right(m);
      assert w.Left(m).Left(h) == w.Left(h);
      ChainConcat(a, b, w.Right(h), left[1..], m, right);
    }
  }

  lemma {:induction false} EmptyMatchSharesNothing<T>(a: seq<T>, b: seq<T>, w: Window)
    requires w.Fits(a, b) && FindLongestMatch(a, b, w).size == 0
    ensures NothingShared(a, b, w)
  {
    forall x: nat, y: nat | w.alo <= x < w.ahi && w.blo <= y < w.bhi
      ensures Differ(a, b, x, y)
    {
      if !Differ(a, b, x, y) {
        assert a[x..x + 1] == [a[x]] && b[y..y + 1] == [b[y]];
        assert CommonBlock(a, b, w, x, y, 1);
      }
    }
  }

  lemma {:induction false} MatchingBlocksFormChain<T>(a: seq<T>, b: seq<T>, w: Window)
    requires w.Fits(a, b)
    ensures Chain(a, b, w, MatchingBlocks(a, b, w))
    decreases w.Size()
  {
    var m := FindLongestMatch(a, b, w);
    if m.size == 0 {
      EmptyMatchSharesNothing(a, b, w);
    } else {
      MatchingBlocksFormChain(a, b, w.Left(m));
      MatchingBlocksFormChain(a, b, w.Right(m));
      ChainConcat(a, b, w, MatchingBlocks(a, b, w.Left(m)), m, MatchingBlocks(a, b, w.Right(m)));
    }
  }

  lemma {:induction false} ChainMember<T>(a: seq<T>, b: seq<T>, w: Window, ms: seq<Match>, i: nat)
    requires Chain(a, b, w, ms) && i < |ms|
    ensures ms[i].size > 0 && CommonBlock(a, b, w, ms[i].a, ms[i].b, ms[i].size)
    decreases |ms|
  {
    if i > 0 { ChainMember(a, b, w.Right(ms[0]), ms[1..], i - 1); }
  }

  lemma BlockIsCommon<T>(a: seq<T>, b: seq<T>, w: Window, i: nat)
    requires w.Fits(a, b) && i < |MatchingBlocks(a, b, w)|
    ensures var n := MatchingBlocks(a, b, w)[i]; n.size > 0 && CommonBlock(a, b, w, n.a, n.b, n.size)
  {
    MatchingBlocksFormChain(a, b, w);
    ChainMember(a, b, w, MatchingBlocks(a, b, w), i);
  }

  lemma JoinBlocks<T>(a: seq<T>, b: seq<T>, w: Window, m: Match, n: Match)
    requires w.Fits(a, b) && Touching(m, n)
    requires CommonBlock(a, b, w, m.a, m.b, m.size) && CommonBlock(a, b, w, n.a, n.b, n.size)
    ensures CommonBlock(a, b, w, m.a, m.b, m.size + n.size)
  {
    var k := m.size + n.size;
    assert a[m.a..m.a + k] == a[m.a..m.a + m.size] + a[n.a..n.a + n.size];
    assert b[m.b..m.b + k] == b[m.b..m.b + m.size] + b[n.b..n.b + n.size];
  }

  lemma ApartConcat(left: seq<Match>, m: Match, right: seq<Match>)
    requires Apart(left) && Apart(right)
    requires left != [] ==> !Touching(left[|left| - 1], m)
    requires right != [] ==> !Touching(m, right[0])
    ensures Apart(left + [m] + right)
  {
    var ms := left + [m] + right;
    forall i | 0 <= i < |ms| - 1
      ensures !Touching(ms[i], ms[i + 1])
    {
      if i < |left| - 1 {
        assert ms[i] == left[i] && ms[i + 1] == left[i + 1];
      } else if i > |left| {
        assert ms[i] == right[i - |left| - 1] && ms[i + 1] == right[i - |left|];
      }
    }
  }

  /** A longest block cannot touch a neighbour: the two together would be longer. */
  lemma LongestTouchesNothing<T>(a: seq<T>, b: seq<T>, w: Window, m: Match, n: Match)
    requires w.Fits(a, b) && IsLongest(a, b, w, m)
    requires n.size > 0 && CommonBlock(a, b, w, n.a, n.b, n.size)
    ensures !Touching(m, n) && !Touching(n, m)
  {
    if Touching(m, n) { JoinBlocks(a, b, w, m, n); }
    if Touching(n, m) { JoinBlocks(a, b, w, n, m); }
  }

  lemma LongestApartFromLeft<T>(a: seq<T>, b: seq<T>, w: Window, m: Match, n: Match)
    requires w.Fits(a, b) && IsLongest(a, b, w, m)
    requires n.size > 0 && CommonBlock(a, b, w.Left(m), n.a, n.b, n.size)
    ensures !Touching(n, m)
  {
    assert CommonBlock(a, b, w, n.a, n.b, n.size);
    LongestTouchesNothing(a, b, w, m, n);
  }

  lemma LongestApartFromRight<T>(a: seq<T>, b: seq<T>, w: Window, m: Match, n: Match)
    requires w.Fits(a, b) && IsLongest(a, b, w, m)
    requires n.size > 0 && CommonBlock(a, b, w.Right(m), n.a, n.b, n.size)
    ensures !Touching(m, n)
  {
    assert CommonBlock(a, b, w, n.a, n.b, n.size);
    LongestTouchesNothing(a, b, w, m, n);
  }

  lemma {:induction false} MatchingBlocksApart<T>(a: seq<T>, b: seq<T>, w: Window)
    requires w.Fits(a, b)
    ensures Apart(MatchingBlocks(a, b, w))
    decreases w.Size()
  {
    var m := FindLongestMatch(a, b, w);
    if m.size != 0 {
      var left, right := MatchingBlocks(a, b, w.Left(m)), MatchingBlocks(a, b, w.Right(m));
      MatchingBlocksApart(a, b, w.Left(m));
      MatchingBlocksApart(a, b, w.Right(m));
      if left != [] {
        BlockIsCommon(a, b, w.Left(m), |left| - 1);
        LongestApartFromLeft(a, b, w, m, left[|left| - 1]);
      }
      if right != [] {
        BlockIsCommon(a, b, w.Right(m), 0);
        LongestApartFromRight(a, b, w, m, right[0]);
      }
      ApartConcat(left, m, right);
    }
  }

  lemma {:induction false} MergeKeepsApart(current: Match, ms: seq<Match>)
    requires Apart([current] + ms)
    ensures MergeAdjacent(current, ms) == [current] + ms
    decreases |ms|
  {
    if ms != [] {
      var all := [current] + ms;
      assert all[0] == current && all[1] == ms[0] && !Touching(all[0], all[1]);
      assert ms == [ms[0]] + ms[1..];
      forall i | 0 <= i < |ms| - 1
        ensures !Touching(ms[i], ms[i + 1])
      {
        assert ms[i] == all[i + 1] && ms[i + 1] == all[i + 2];
      }
      MergeKeepsApart(ms[0], ms[1..]);
    }
  }

  /** Without a junk function the merging pass never has anything to merge. */
  lemma MergingIsIdle<T>(a: seq<T>, b: seq<T>)
    ensures MergedBlocks(a, b) == MatchingBlocks(a, b, Window(0, |a|, 0, |b|))
  {
    var ms := MatchingBlocks(a, b, Window(0, |a|, 0, |b|));
    MatchingBlocksApart(a, b, Window(0, |a|, 0, |b|));
    if ms != [] {
      assert ms == [ms[0]] + ms[1..];
      MergeKeepsApart(ms[0], ms[1..]);
    }
  }

  /** Equal inputs are one block. */
  lemma {:induction false} EqualInputsMatchWhole<T>(a: seq<T>)
    ensures MergedBlocks(a, a) == if a == [] then [] else [Match(0, 0, |a|)]
  {
    var w := Window(0, |a|, 0, |a|);
    var m := FindLongestMatch(a, a, w);
    assert CommonBlock(a, a, w, 0, 0, |a|);
    assert m == Match(0, 0, |a|);
    MergingIsIdle(a, a);
    if a != [] {
      assert MatchingBlocks(a, a, w.Left(m)) == [];
      assert MatchingBlocks(a, a, w.Right(m)) == [];
    }
  }

  // ----- opcodes

  datatype Tag = Equal | Insert | Delete | Replace

  datatype Opcode = Opcode(tag: Tag, a1: nat, a2: nat, b1: nat, b2: nat)

  function GapOpcodes(i: nat, ai: nat, j: nat, bj: nat): seq<Opcode> {
    if i < ai && j < bj then [Opcode(Replace, i, ai, j, bj)]
    else if i < ai then [Opcode(Delete, i, ai, j, bj)]
    else if j < bj then [Opcode(Insert, i, ai, j, bj)]
    else []
  }

  function BlockOpcodes(m: Match): seq<Opcode> {
    if m.size > 0 then [Opcode(Equal, m.a, m.a + m.size, m.b, m.b + m.size)] else []
  }

  /** `get_opcodes` from position (i, j): the gap before each block, then the block; last the tail gap. */
  function OpcodesFrom(ms: seq<Match>, i: nat, j: nat, la: nat, lb: nat): seq<Opcode>
    decreases |ms|
  {
    if ms == [] then GapOpcodes(i, la, j, lb)
    else
      var m := ms[0];
      GapOpcodes(i, m.a, j, m.b)
      + BlockOpcodes(m)
      + OpcodesFrom(ms[1..], m.a + m.size, m.b + m.size, la, lb)
  }

  function GetOpcodes<T(==)>(a: seq<T>, b: seq<T>): seq<Opcode> {
    OpcodesFrom(MergedBlocks(a, b), 0, 0, |a|, |b|)
  }

  /** One opcode says what its tag promises about the two inputs. */
  ghost predicate OpcodeHolds<T>(a: seq<T>, b: seq<T>, op: Opcode) {
    && op.a1 <= op.a2 <= |a| && op.b1 <= op.b2 <= |b|
    && match op.tag
       case Equal => op.a1 < op.a2 && a[op.a1..op.a2] == b[op.b1..op.b2]
       case Insert => op.a1 == op.a2 && op.b1 < op.b2
       case Delete => op.a1 < op.a2 && op.b1 == op.b2
       case Replace => op.a1 < op.a2 && op.b1 < op.b2
                       && NothingShared(a, b, Window(op.a1, op.a2, op.b1, op.b2))
  }

  /** The opcodes cover both inputs from (i, j) to their ends, in order and without gaps. */
  ghost predicate Tiles<T>(a: seq<T>, b: seq<T>, ops: seq<Opcode>, i: nat, j: nat)
    decreases |ops|
  {
    if ops == [] then i == |a| && j == |b|
    else
      && ops[0].a1 == i && ops[0].b1 == j
      && OpcodeHolds(a, b, ops[0])
      && Tiles(a, b, ops[1..], ops[0].a2, ops[0].b2)
  }

  lemma TilesCons<T>(a: seq<T>, b: seq<T>, op: Opcode, rest: seq<Opcode>)
    requires OpcodeHolds(a, b, op) && Tiles(a, b, rest, op.a2, op.b2)
    ensures Tiles(a, b, [op] + rest, op.a1, op.b1)
  {
    var ops := [op] + rest;
    assert ops[0] == op && ops[1..] == rest;
  }

  lemma TilesAfterGap<T>(a: seq<T>, b: seq<T>, i: nat, ai: nat, j: nat, bj: nat, rest: seq<Opcode>)
    requires i <= ai <= |a| && j <= bj <= |b| && NothingShared(a, b, Window(i, ai, j, bj))
    requires Tiles(a, b, rest, ai, bj)
    ensures Tiles(a, b, GapOpcodes(i, ai, j, bj) + rest, i, j)
  {
    var gap := GapOpcodes(i, ai, j, bj);
    if gap == [] {
      assert gap + rest == rest;
    } else {
      TilesCons(a, b, gap[0], rest);
      assert gap == [gap[0]];
    }
  }

  lemma TilesAfterBlock<T>(a: seq<T>, b: seq<T>, m: Match, rest: seq<Opcode>)
    requires m.size > 0 && m.a + m.size <= |a| && m.b + m.size <= |b|
    requires a[m.a..m.a + m.size] == b[m.b..m.b + m.size]
    requires Tiles(a, b, rest, m.a + m.size, m.b + m.size)
    ensures Tiles(a, b, BlockOpcodes(m) + rest, m.a, m.b)
  {
    var op := Opcode(Equal, m.a, m.a + m.size, m.b, m.b + m.size);
    hide Tiles;
    assert BlockOpcodes(m) == [op];
    TilesCons(a, b, op, rest);
  }

  lemma OpcodesTileAtBlock<T>(a: seq<T>, b: seq<T>, m: Match, rest: seq<Opcode>, i: nat, j: nat)
    requires i <= |a| && j <= |b| && i <= m.a && j <= m.b
    requires m.size > 0 && m.a + m.size <= |a| && m.b + m.size <= |b|
    requires a[m.a..m.a + m.size] == b[m.b..m.b + m.size]
    requires NothingShared(a, b, Window(i, m.a, j, m.b))
    requires Tiles(a, b, rest, m.a + m.size, m.b + m.size)
    ensures Tiles(a, b, GapOpcodes(i, m.a, j, m.b) + BlockOpcodes(m) + rest, i, j)
  {
    TilesAfterBlock(a, b, m, rest);
    TilesAfterGap(a, b, i, m.a, j, m.b, BlockOpcodes(m) + rest);
    assert GapOpcodes(i, m.a, j, m.b) + (BlockOpcodes(m) + rest) == GapOpcodes(i, m.a, j, m.b) + BlockOpcodes(m) + rest;
  }

  lemma {:induction false} OpcodesTile<T>(a: seq<T>, b: seq<T>, ms: seq<Match>, i: nat, j: nat)
    requires Chain(a, b, Window(i, |a|, j, |b|), ms)
    ensures Tiles(a, b, OpcodesFrom(ms, i, j, |a|, |b|), i, j)
    decreases |ms|
  {
    var w := Window(i, |a|, j, |b|);
    if ms == [] {
      TilesAfterGap(a, b, i, |a|, j, |b|, []);
      assert GapOpcodes(i, |a|, j, |b|) + [] == GapOpcodes(i, |a|, j, |b|);
    } else {
      var m := ms[0];
      assert w.Right(m) == Window(m.a + m.size, |a|, m.b + m.size, |b|);
      assert w.Left(m) == Window(i, m.a, j, m.b);
      var rest := OpcodesFrom(ms[1..], m.a + m.size, m.b + m.size, |a|, |b|);
      assert OpcodesFrom(ms, i, j, |a|, |b|) == GapOpcodes(i, m.a, j, m.b) + BlockOpcodes(m) + rest;
      OpcodesTile(a, b, ms[1..], m.a + m.size, m.b + m.size);
      OpcodesTileAtBlock(a, b, m, rest, i, j);
    }
  }

  /**
   The opcodes tile both inputs; equal runs are equal and a replaced run shares no element
   with its replacement.
   */
  lemma GetOpcodesTiles<T>(a: seq<T>, b: seq<T>)
    ensures Tiles(a, b, GetOpcodes(a, b), 0, 0)
  {
    MergingIsIdle(a, b);
    MatchingBlocksFormChain(a, b, Window(0, |a|, 0, |b|));
    OpcodesTile(a, b, MergedBlocks(a, b), 0, 0);
  }

  // ----- the opcodes are the documented ones

  /** The blocks the Equal opcodes stand for. */
  function EqualParts(ops: seq<Opcode>): seq<Match> {
    if ops == [] then []
    else (if ops[0].tag == Equal && ops[0].a1 <= ops[0].a2 then [Match(ops[0].a1, ops[0].b1, ops[0].a2 - ops[0].a1)] else []) + EqualParts(ops[1..])
  }

  /** Two changes never follow each other directly. */
  predicate Alternates(ops: seq<Opcode>) {
    forall i | 0 <= i < |ops| - 1 :: ops[i].tag == Equal || ops[i + 1].tag == Equal
  }

  /**
   What `get_opcodes` promises: the opcodes tile both inputs, changes are separated by equal runs,
   and the equal runs are the blocks of the documented search.
   */
  ghost predicate Documented<T>(a: seq<T>, b: seq<T>, ops: seq<Opcode>) {
    Tiles(a, b, ops, 0, 0) && Alternates(ops) && Searched(a, b, Window(0, |a|, 0, |b|), EqualParts(ops))
  }

  lemma EqualPartsCons(op: Opcode, rest: seq<Opcode>)
    ensures EqualParts([op] + rest)
            == (if op.tag == Equal && op.a1 <= op.a2 then [Match(op.a1, op.b1, op.a2 - op.a1)] else []) + EqualParts(rest)
  {
    assert ([op] + rest)[1..] == rest;
  }

  lemma EqualPartsAfterGap(i: nat, ai: nat, j: nat, bj: nat, rest: seq<Opcode>)
    ensures EqualParts(GapOpcodes(i, ai, j, bj) + rest) == EqualParts(rest)
  {
    var gap := GapOpcodes(i, ai, j, bj);
    if gap == [] {
      assert gap + rest == rest;
    } else {
      assert gap == [gap[0]];
      EqualPartsCons(gap[0], rest);
    }
  }

  ghost predicate NoneEmpty(ms: seq<Match>) { forall k | 0 <= k < |ms| :: ms[k].size > 0 }

  lemma {:induction false} OpcodesUnfold(ms: seq<Match>, i: nat, j: nat, la: nat, lb: nat)
    ensures OpcodesFrom(ms, i, j, la, lb)
            == if ms == [] then GapOpcodes(i, la, j, lb)
               else GapOpcodes(i, ms[0].a, j, ms[0].b) + BlockOpcodes(ms[0])
                    + OpcodesFrom(ms[1..], ms[0].a + ms[0].size, ms[0].b + ms[0].size, la, lb)
  {
  }

  lemma {:induction false} TailNoneEmpty(ms: seq<Match>)
    requires NoneEmpty(ms) && ms != []
    ensures NoneEmpty(ms[1..]) && ms[0].size > 0
  {
  }

  lemma {:induction false} EqualPartsStep(ms: seq<Match>, i: nat, j: nat, rest: seq<Opcode>)
    requires ms != [] && ms[0].size > 0 && EqualParts(rest) == ms[1..]
    ensures EqualParts(GapOpcodes(i, ms[0].a, j, ms[0].b) + BlockOpcodes(ms[0]) + rest) == ms
  {
    hide *;
    EqualPartsOfBlock(ms[0], i, j, rest);
    assert ms == [ms[0]] + ms[1..];
  }

  lemma {:induction false} EqualPartsAreBlocks(ms: seq<Match>, i: nat, j: nat, la: nat, lb: nat)
    requires NoneEmpty(ms)
    ensures EqualParts(OpcodesFrom(ms, i, j, la, lb)) == ms
    decreases |ms|
  {
    hide *;
    OpcodesUnfold(ms, i, j, la, lb);
    if ms == [] {
      NoEqualParts(i, la, j, lb);
    } else {
      TailNoneEmpty(ms);
      EqualPartsAreBlocks(ms[1..], ms[0].a + ms[0].size, ms[0].b + ms[0].size, la, lb);
      EqualPartsStep(ms, i, j, OpcodesFrom(ms[1..], ms[0].a + ms[0].size, ms[0].b + ms[0].size, la, lb));
    }
  }

  lemma {:induction false} NoEqualParts(i: nat, ai: nat, j: nat, bj: nat)
    ensures EqualParts(GapOpcodes(i, ai, j, bj)) == []
  {
    EqualPartsAfterGap(i, ai, j, bj, []);
    assert GapOpcodes(i, ai, j, bj) + [] == GapOpcodes(i, ai, j, bj);
    assert EqualParts([]) == [];
  }

  lemma {:induction false} EqualPartsOfBlock(m: Match, i: nat, j: nat, rest: seq<Opcode>)
    requires m.size > 0
    ensures EqualParts(GapOpcodes(i, m.a, j, m.b) + BlockOpcodes(m) + rest) == [m] + EqualParts(rest)
  {
    var op := Opcode(Equal, m.a, m.a + m.size, m.b, m.b + m.size);
    assert BlockOpcodes(m) == [op];
    hide EqualParts, GapOpcodes;
    EqualPartsCons(op, rest);
    EqualPartsAfterGap(i, m.a, j, m.b, [op] + rest);
    assert GapOpcodes(i, m.a, j, m.b) + [op] + rest == GapOpcodes(i, m.a, j, m.b) + ([op] + rest);
  }

  lemma {:induction false} AlternatesCons(op: Opcode, rest: seq<Opcode>)
    requires Alternates(rest) && (op.tag == Equal || rest == [] || rest[0].tag == Equal)
    ensures Alternates([op] + rest)
  {
    var ops := [op] + rest;
    forall i | 0 <= i < |ops| - 1
      ensures ops[i].tag == Equal || ops[i + 1].tag == Equal
    {
      if i > 0 { assert ops[i] == rest[i - 1] && ops[i + 1] == rest[i]; }
    }
  }

  lemma {:induction false} OpcodesAlternate(ms: seq<Match>, i: nat, j: nat, la: nat, lb: nat)
    requires forall k | 0 <= k < |ms| :: ms[k].size > 0
    ensures Alternates(OpcodesFrom(ms, i, j, la, lb))
    decreases |ms|
  {
    if ms != [] {
      var m := ms[0];
      var rest := OpcodesFrom(ms[1..], m.a + m.size, m.b + m.size, la, lb);
      var gap, block := GapOpcodes(i, m.a, j, m.b), BlockOpcodes(m);
      OpcodesAlternate(ms[1..], m.a + m.size, m.b + m.size, la, lb);
      assert block == [block[0]] && block[0].tag == Equal;
      AlternatesCons(block[0], rest);
      if gap != [] {
        assert gap == [gap[0]];
        AlternatesCons(gap[0], block + rest);
      } else {
        assert gap + block + rest == block + rest;
      }
      assert gap + block + rest == gap + (block + rest);
    }
  }

  /** The opcodes computed are documented ones. */
  lemma {:induction false} GetOpcodesIsDocumented<T>(a: seq<T>, b: seq<T>)
    ensures Documented(a, b, GetOpcodes(a, b))
  {
    var w := Window(0, |a|, 0, |b|);
    var ms := MatchingBlocks(a, b, w);
    GetOpcodesTiles(a, b);
    MergingIsIdle(a, b);
    MatchingBlocksAreSearched(a, b, w);
    forall k | 0 <= k < |ms|
      ensures ms[k].size > 0
    {
      BlockIsCommon(a, b, w, k);
    }
    EqualPartsAreBlocks(ms, 0, 0, |a|, |b|);
    OpcodesAlternate(ms, 0, 0, |a|, |b|);
    hide Tiles, Searched, MatchingBlocks, OpcodesFrom, MergedBlocks;
  }

  /** Where an alternating tiling's first change ends: at its next equal part, or at the ends of both inputs. */
  lemma {:induction false} ChangeEnds<T>(a: seq<T>, b: seq<T>, ops: seq<Opcode>, i: nat, j: nat)
    requires Tiles(a, b, ops, i, j) && Alternates(ops) && ops != [] && ops[0].tag != Equal
    ensures if EqualParts(ops) == [] then |ops| == 1 && ops[0].a2 == |a| && ops[0].b2 == |b|
            else ops[0].a2 == EqualParts(ops)[0].a && ops[0].b2 == EqualParts(ops)[0].b
    ensures i < ops[0].a2 || j < ops[0].b2
  {
    var rest := ops[1..];
    if rest != [] {
      assert ops[0].tag == Equal || ops[1].tag == Equal;
      assert rest[0].tag == Equal && OpcodeHolds(a, b, rest[0]);
      assert EqualParts(ops) == EqualParts(rest);
    } else {
      assert EqualParts(rest) == [];
    }
  }

  lemma {:induction false} TailsAlternate(ops: seq<Opcode>)
    requires Alternates(ops) && ops != []
    ensures Alternates(ops[1..])
  {
    forall i | 0 <= i < |ops[1..]| - 1
      ensures ops[1..][i].tag == Equal || ops[1..][i + 1].tag == Equal
    {
      assert ops[i + 1].tag == Equal || ops[i + 2].tag == Equal;
    }
  }

  lemma {:induction false} EqualPartsDetermine<T>(a: seq<T>, b: seq<T>, ops: seq<Opcode>, other: seq<Opcode>, i: nat, j: nat)
    requires Tiles(a, b, ops, i, j) && Tiles(a, b, other, i, j) && Alternates(ops) && Alternates(other)
    requires EqualParts(ops) == EqualParts(other)
    ensures ops == other
    decreases |ops|
  {
    if ops != [] && other != [] {
      TailsAlternate(ops);
      TailsAlternate(other);
      SameHead(a, b, ops, other, i, j);
      assert EqualParts(ops[1..]) == EqualParts(other[1..]) by {
        var head := if ops[0].tag == Equal && ops[0].a1 <= ops[0].a2 then [Match(ops[0].a1, ops[0].b1, ops[0].a2 - ops[0].a1)] else [];
        assert EqualParts(ops) == head + EqualParts(ops[1..]) && EqualParts(other) == head + EqualParts(other[1..]);
        assert EqualParts(ops)[|head|..] == EqualParts(ops[1..]) && EqualParts(other)[|head|..] == EqualParts(other[1..]);
      }
      hide EqualParts, Alternates;
      EqualPartsDetermine(a, b, ops[1..], other[1..], ops[0].a2, ops[0].b2);
      assert ops == [ops[0]] + ops[1..] && other == [other[0]] + other[1..];
    } else if ops != [] {
      NothingLeftToTile(a, b, ops, i, j);
    } else if other != [] {
      NothingLeftToTile(a, b, other, i, j);
    }
  }

  lemma {:induction false} NothingLeftToTile<T>(a: seq<T>, b: seq<T>, ops: seq<Opcode>, i: nat, j: nat)
    requires Tiles(a, b, ops, i, j) && ops != []
    ensures i < |a| || j < |b|
  {
    assert OpcodeHolds(a, b, ops[0]);
  }

  lemma {:induction false} SameHead<T>(a: seq<T>, b: seq<T>, ops: seq<Opcode>, other: seq<Opcode>, i: nat, j: nat)
    requires Tiles(a, b, ops, i, j) && Tiles(a, b, other, i, j) && Alternates(ops) && Alternates(other)
    requires EqualParts(ops) == EqualParts(other) && ops != [] && other != []
    ensures ops[0] == other[0]
  {
    EqualHead(a, b, ops, i, j);
    EqualHead(a, b, other, i, j);
    if ops[0].tag != Equal { ChangeEnds(a, b, ops, i, j); }
    if other[0].tag != Equal { ChangeEnds(a, b, other, i, j); }
    assert OpcodeHolds(a, b, ops[0]) && OpcodeHolds(a, b, other[0]);
    hide Tiles, Alternates, EqualParts;
  }

  lemma {:induction false} EqualHead<T>(a: seq<T>, b: seq<T>, ops: seq<Opcode>, i: nat, j: nat)
    requires Tiles(a, b, ops, i, j) && ops != []
    ensures ops[0].a1 == i && ops[0].b1 == j && OpcodeHolds(a, b, ops[0])
    ensures ops[0].tag == Equal ==>
              && EqualParts(ops) != [] && EqualParts(ops)[0] == Match(i, j, ops[0].a2 - i)
              && ops[0].b2 == j + (ops[0].a2 - i)
  {
    if ops[0].tag == Equal {
      assert |a[ops[0].a1..ops[0].a2]| == |b[ops[0].b1..ops[0].b2]|;
    }
  }

  /** And they are the only ones: whatever follows the documentation computes exactly these. */
  lemma {:induction false} DocumentedIsUnique<T>(a: seq<T>, b: seq<T>, ops: seq<Opcode>)
    requires Documented(a, b, ops)
    ensures ops == GetOpcodes(a, b)
  {
    GetOpcodesIsDocumented(a, b);
    hide GetOpcodes;
    SearchedIsUnique(a, b, Window(0, |a|, 0, |b|), EqualParts(ops), EqualParts(GetOpcodes(a, b)));
    EqualPartsDetermine(a, b, ops, GetOpcodes(a, b), 0, 0);
  }

  lemma {:induction false} LongestIsSearched<T>(a: seq<T>, b: seq<T>, w: Window, ms: seq<Match>, m: Match)
    requires Searched(a, b, w, ms) && IsLongest(a, b, w, m) && m.size > 0
    ensures m in ms
  {
    SharedIsSearched(a, b, w, m);
    var k: nat :| k < |ms| && SplitAt(a, b, w, ms, k);
    LongestIsUnique(a, b, w, ms[k], m);
  }

  lemma {:induction false} EqualPartHasOpcode(ops: seq<Opcode>, m: Match) returns (p: nat)
    requires m in EqualParts(ops)
    ensures p < |ops| && ops[p].tag == Equal && ops[p].a1 == m.a && ops[p].a2 == m.a + m.size && ops[p].b1 == m.b
    decreases |ops|
  {
    if ops[0].tag == Equal && ops[0].a1 <= ops[0].a2 && m == Match(ops[0].a1, ops[0].b1, ops[0].a2 - ops[0].a1) {
      p := 0;
    } else {
      p := EqualPartHasOpcode(ops[1..], m);
      p := p + 1;
    }
  }

  lemma {:induction false} TilesAt<T>(a: seq<T>, b: seq<T>, ops: seq<Opcode>, i: nat, j: nat, p: nat)
    requires Tiles(a, b, ops, i, j) && p < |ops|
    ensures i <= ops[p].a1 && j <= ops[p].b1 && OpcodeHolds(a, b, ops[p])
    decreases |ops|
  {
    if p > 0 { TilesAt(a, b, ops[1..], ops[0].a2, ops[0].b2, p - 1); }
  }

  lemma {:induction false} TilesInOrder<T>(a: seq<T>, b: seq<T>, ops: seq<Opcode>, i: nat, j: nat, p: nat, q: nat)
    requires Tiles(a, b, ops, i, j) && p < q < |ops|
    ensures ops[p].a2 <= ops[q].a1 && ops[p].b2 <= ops[q].b1
    decreases |ops|
  {
    if p == 0 {
      TilesAt(a, b, ops[1..], ops[0].a2, ops[0].b2, q - 1);
    } else {
      TilesInOrder(a, b, ops[1..], ops[0].a2, ops[0].b2, p - 1, q - 1);
    }
  }

  /** No change reaches into the longest common run, the earliest in `a` and then in `b`. */
  lemma {:induction false} LongestRunIsKept<T>(a: seq<T>, b: seq<T>, m: Match, q: nat)
    requires IsLongest(a, b, Window(0, |a|, 0, |b|), m) && m.size > 0
    requires q < |GetOpcodes(a, b)| && GetOpcodes(a, b)[q].tag != Equal
    ensures var op := GetOpcodes(a, b)[q];
            (op.a2 <= m.a && op.b2 <= m.b) || (m.a + m.size <= op.a1 && m.b + m.size <= op.b1)
  {
    var ops := GetOpcodes(a, b);
    GetOpcodesIsDocumented(a, b);
    hide GetOpcodes;
    LongestIsSearched(a, b, Window(0, |a|, 0, |b|), EqualParts(ops), m);
    var p := EqualPartHasOpcode(ops, m);
    TilesAt(a, b, ops, 0, 0, p);
    assert |a[ops[p].a1..ops[p].a2]| == |b[ops[p].b1..ops[p].b2]|;
    if q < p { TilesInOrder(a, b, ops, 0, 0, q, p); } else { TilesInOrder(a, b, ops, 0, 0, p, q); }
  }
}
