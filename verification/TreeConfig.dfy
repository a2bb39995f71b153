/**
 * TreeConfig (tree.go): a tree topology over a configuration, on machine integers. Every
 * arithmetic expression below is checked not to leave its 64-bit type, except the one in Height
 * that can, which wraps explicitly.
 */
module TreeConfig {
  import opened TreeShape
  import opened Numbers
  import opened Requests

  newtype int64 = x: int | -0x8000_0000_0000_0000 <= x < 0x8000_0000_0000_0000
  newtype uint64 = x: int | 0 <= x < 0x1_0000_0000_0000_0000

  function AddWithCarry(x: uint64, y: uint64): (r: (uint64, uint64))
    ensures x as int + y as int == r.1 as int * TWO_64 + r.0 as int
  {
    var s := x as int + y as int;
    if s < TWO_64 then (s as uint64, 0) else ((s - TWO_64) as uint64, 1)
  }

  /** The high and the low word of a product. */
  function MulWide(x: uint64, y: uint64): (r: (uint64, uint64))
    ensures x as int * y as int == r.0 as int * TWO_64 + r.1 as int
  {
    var p := Mul(x as nat, y as nat);
    ProductBound(x as nat, y as nat);
    ((p / TWO_64) as uint64, (p % TWO_64) as uint64)
  }

  lemma ProductBound(x: nat, y: nat)
    requires x < TWO_64 && y < TWO_64
    ensures x * y / TWO_64 < TWO_64
  {
    MulMonotone(x, y, TWO_64);
    MulMonotone(TWO_64, x, TWO_64);
  }

  lemma {:induction false} PowBelowSum(b: nat, j: nat, k: nat)
    requires j < k
    ensures Pow(b, j) <= LevelStart(b, k)
  {
    LevelStartMonotone(b, j + 1, k);
  }

  /** The geometric sum, or -1 exactly if it does not fit an int. */
  method TreeLevelStart(k: int64, bf: int64) returns (start: int64)
    requires bf > 1
    ensures k <= 0 ==> start == 0
    ensures k > 0 ==> start as int == var sum := LevelStart(bf as nat, k as nat);
                                      if sum <= MAX_INT64 then sum else -1
  {
    var sum: uint64, pow: uint64 := 0, 1;
    var i: int64 := 0;
    while i < k
      invariant 0 <= i && (i <= k || i == 0)
      invariant sum as int == LevelStart(bf as nat, i as nat) <= MAX_INT64
      invariant i < k ==> pow as int == Pow(bf as nat, i as nat)
    {
      LevelStartMonotone(bf as nat, i as nat + 1, k as nat);
      var added := AddWithCarry(sum, pow);
      sum := added.0;
      if added.1 != 0 || sum as int > MAX_INT64 {
        return -1;
      }
      if i + 1 < k {
        PowBelowSum(bf as nat, i as nat + 1, k as nat);
        var product := MulWide(pow, bf as uint64);
        if product.0 != 0 {
          return -1;
        }
        pow := product.1;
      }
      i := i + 1;
    }
    return sum as int64;
  }

  /** Powers of a base above 1, for exponents whose power fits an int. */
  method TreePow(base: int64, exp: int64) returns (r: int64)
    requires base > 1 && exp >= 0 && Pow(base as nat, exp as nat) <= MAX_INT64
    ensures r as int == Pow(base as nat, exp as nat)
  {
    r := 1;
    var i: int64 := 0;
    while i < exp
      invariant 0 <= i <= exp
      invariant r as int == Pow(base as nat, i as nat)
    {
      PowMonotone(base as nat, i as nat + 1, exp as nat);
      ghost var next := Pow(base as nat, i as nat + 1);
      assert r as int * base as int == next;
      r := r * base;
      i := i + 1;
    }
  }

  lemma {:induction false} PowMonotone(b: nat, i: nat, j: nat)
    requires b >= 1 && i <= j
    ensures Pow(b, i) <= Pow(b, j)
  {
    if i < j {
      PowMonotone(b, i, j - 1);
      MulMonotone(Pow(b, j - 1), 1, b);
    }
  }

  // ---- trees ----

  datatype Tree = Tree(nodes: seq<ID>, branching: int64, depth: int64, positionOf: map<ID, int64>)

  datatype Result<T> = Ok(value: T) | Err

  predicate Indexed(nodes: seq<ID>, positionOf: map<ID, int64>) {
    && (forall i :: 0 <= i < |nodes| ==> nodes[i] in positionOf && positionOf[nodes[i]] as int == i)
    && (forall id :: id in positionOf ==>
          0 <= positionOf[id] as int < |nodes| && nodes[positionOf[id]] == id)
  }

  /** The shape holds n nodes, and its capacity is an int. */
  predicate Fits(n: nat, branching: int64, depth: int64) {
    && branching >= 2 && depth >= 1 && n > 0
    && n <= LevelStart(branching as nat, depth as nat + 1) <= MAX_INT64
  }

  predicate Valid(t: Tree) {
    && Fits(|t.nodes|, t.branching, t.depth)
    && Indexed(t.nodes, t.positionOf)
  }

  function B(t: Tree): (r: nat)
    requires Valid(t)
    ensures r >= 2
  {
    t.branching as nat
  }

  function Position(t: Tree, id: ID): (p: nat)
    requires Valid(t) && id in t.positionOf
    ensures p < |t.nodes| && t.nodes[p] == id
  {
    t.positionOf[id] as nat
  }

  /** A tree is built exactly if the shape is sound and holds the nodes, and no node repeats. */
  method NewTree(cfg: seq<ID>, branching: int64, depth: int64) returns (r: Result<Tree>)
    requires |cfg| <= MAX_INT64
    ensures r.Ok? <==> Fits(|cfg|, branching, depth) && Distinct(cfg)
    ensures r.Ok? ==> Valid(r.value) && r.value.nodes == cfg
                      && r.value.branching == branching && r.value.depth == depth
  {
    if branching < 2 || depth < 1 || |cfg| == 0 {
      return Err;
    }
    LevelStartAtLeast(branching as nat, depth as nat + 1);
    var capacity := TreeLevelStart(Wrap(depth as int + 1) as int64, branching);
    if capacity < 0 {
      return Err;
    }
    if |cfg| > capacity as int {
      return Err;
    }
    var positionOf: map<ID, int64> := map[];
    for i := 0 to |cfg|
      invariant Indexed(cfg[..i], positionOf)
    {
      if cfg[i] in positionOf {
        assert cfg[positionOf[cfg[i]]] == cfg[i];
        return Err;
      }
      positionOf := positionOf[cfg[i] := i as int64];
      assert cfg[..i + 1] == cfg[..i] + [cfg[i]];
    }
    assert cfg[..|cfg|] == cfg;
    return Ok(Tree(cfg, branching, depth, positionOf));
  }

  /** A star is built for every non-empty configuration; every other node is a child of the root. */
  method NewStar(cfg: seq<ID>) returns (r: Result<Tree>)
    requires |cfg| <= MAX_INT64
    ensures r.Ok? <==> cfg != [] && Distinct(cfg)
    ensures r.Ok? ==> Valid(r.value) && r.value.nodes == cfg
    ensures r.Ok? ==> forall p :: 1 <= p < |cfg| ==> Parent(B(r.value), p) == 0
  {
    var others := |cfg| - 1;
    var branching: int64 := if others > 2 then others as int64 else 2;
    StarFits(|cfg|, branching);
    r := NewTree(cfg, branching, 1);
  }

  lemma StarFits(n: nat, branching: int64)
    requires branching as int == if n - 1 > 2 then n - 1 else 2
    requires n <= MAX_INT64
    ensures Fits(n, branching, 1) <==> n > 0
  {
    LevelStartStep(branching as nat, 0);
    LevelStartStep(branching as nat, 1);
  }

  /** All levels of a tree start within the range of an int. */
  lemma LevelsFit(t: Tree, k: nat)
    requires Valid(t) && k <= t.depth as nat + 1
    ensures LevelStart(B(t), k) <= MAX_INT64 && k <= MAX_INT64
  {
    LevelStartMonotone(B(t), k, t.depth as nat + 1);
    LevelStartAtLeast(B(t), k);
  }

  /** The level of a position, counted in edges to the root, and the index within the level. */
  method PosLevel(t: Tree, pos: int64) returns (d: int64, index: int64)
    requires Valid(t)
    ensures !(0 <= pos as int < |t.nodes|) ==> d == -1 && index == -1
    ensures 0 <= pos as int < |t.nodes| ==>
              && 0 <= d <= t.depth && d as nat == Level(B(t), pos as nat)
              && AtLevel(B(t), pos as nat, d as nat)
              && index as int == pos as int - LevelStart(B(t), d as nat)
  {
    if pos < 0 || pos as int >= |t.nodes| {
      return -1, -1;
    }
    LevelsFit(t, t.depth as nat + 1);
    d := 0;
    while d < t.depth + 1
      invariant 0 <= d <= t.depth + 1
      invariant LevelStart(B(t), d as nat) <= pos as int
    {
      LevelsFit(t, d as nat + 1);
      LevelsFit(t, d as nat);
      var next := TreeLevelStart(d + 1, t.branching);
      if pos < next {
        var start := TreeLevelStart(d, t.branching);
        LevelIs(B(t), pos as nat, d as nat);
        return d, pos - start;
      }
      d := d + 1;
    }
    assert false;
  }

  // ---- queries ----

  /** The parent by the index rule (p-1)/b, and none for the root or an unknown node. */
  function ParentNode(t: Tree, id: ID): Option<ID>
    requires Valid(t)
  {
    if id in t.positionOf && Position(t, id) > 0
    then Some(t.nodes[Parent(B(t), Position(t, id))])
    else None
  }

  /** The children by the index rule: b positions from b*p+1, as far as there are nodes. */
  function ChildNodes(t: Tree, id: ID): seq<ID>
    requires Valid(t)
  {
    if id in t.positionOf then
      t.nodes[ChildrenFrom(B(t), |t.nodes|, Position(t, id))..ChildrenTo(B(t), |t.nodes|, Position(t, id))]
    else
      []
  }

  method ParentOf(t: Tree, id: ID) returns (r: Option<ID>)
    requires Valid(t)
    ensures r == ParentNode(t, id)
  {
    if id !in t.positionOf {
      return None;
    }
    var d, index := PosLevel(t, t.positionOf[id]);
    RootLevel(B(t), Position(t, id));
    if d <= 0 {
      return None;
    }
    ParentArithmetic(B(t), Position(t, id), d as nat);
    LevelsFit(t, d as nat - 1);
    var start := TreeLevelStart(d - 1, t.branching);
    var parentPos := start + index / t.branching;
    return Some(t.nodes[parentPos]);
  }

  lemma RootLevel(b: nat, p: nat)
    requires b >= 2
    ensures Level(b, p) == 0 <==> p == 0
  {
  }

  method ChildrenOf(t: Tree, id: ID) returns (r: seq<ID>)
    requires Valid(t)
    ensures r == ChildNodes(t, id)
  {
    if id !in t.positionOf {
      return [];
    }
    var d, index := PosLevel(t, t.positionOf[id]);
    ghost var p := Position(t, id);
    ChildArithmetic(B(t), p, d as nat);
    if d < 0 || d >= t.depth {
      FirstChildBelow(t, p);
      return [];
    }
    LevelsFit(t, d as nat + 1);
    LevelsFit(t, d as nat + 2);
    var start := TreeLevelStart(d + 1, t.branching);
    var firstChild := start + index * t.branching;
    if firstChild as int >= |t.nodes| {
      return [];
    }
    var lastChild := Min((firstChild + t.branching) as nat, |t.nodes|);
    return t.nodes[firstChild..lastChild];
  }

  /** A node on the last level has no children. */
  lemma FirstChildBelow(t: Tree, p: nat)
    requires Valid(t) && p < |t.nodes| && Level(B(t), p) >= t.depth as nat
    ensures FirstChild(B(t), p) >= |t.nodes|
  {
    LevelIsRow(B(t), p);
    ChildRow(B(t), p, FirstChild(B(t), p), Level(B(t), p));
    LevelStartMonotone(B(t), t.depth as nat + 1, Level(B(t), p) + 1);
  }

  method LevelOf(t: Tree, id: ID) returns (r: int64)
    requires Valid(t)
    ensures r as int == if id in t.positionOf then Level(B(t), Position(t, id)) else -1
  {
    if id !in t.positionOf {
      return -1;
    }
    var d, index := PosLevel(t, t.positionOf[id]);
    return d;
  }

  /** ChildrenOf and ParentOf are inverse. */
  lemma ChildrenInvertParent(t: Tree, p: ID, c: ID)
    requires Valid(t)
    ensures c in ChildNodes(t, p) <==> ParentNode(t, c) == Some(p)
  {
    if p in t.positionOf {
      var i := Position(t, p);
      SliceMembers(t, ChildrenFrom(B(t), |t.nodes|, i), ChildrenTo(B(t), |t.nodes|, i), c);
      if c in t.positionOf && Position(t, c) > 0 {
        ChildIffParent(B(t), i, Position(t, c));
      }
    }
  }

  lemma SliceMembers(t: Tree, lo: nat, hi: nat, c: ID)
    requires Valid(t) && lo <= hi <= |t.nodes|
    ensures c in t.nodes[lo..hi] <==> c in t.positionOf && lo <= Position(t, c) < hi
  {
    if c in t.nodes[lo..hi] {
      var k :| 0 <= k < hi - lo && t.nodes[lo..hi][k] == c;
      assert t.nodes[lo + k] == c;
    }
    if c in t.positionOf && lo <= Position(t, c) < hi {
      assert t.nodes[lo..hi][Position(t, c) - lo] == c;
    }
  }

  // ---- height ----

  /** h is the greatest level difference between a node below p and p. */
  ghost predicate IsHeight(t: Tree, p: nat, h: int)
    requires Valid(t)
  {
    && (exists q: nat :: q < |t.nodes| && Reaches(B(t), q, p) && Level(B(t), q) == Level(B(t), p) + h)
    && (forall q: nat :: q < |t.nodes| && Reaches(B(t), q, p) ==> Level(B(t), q) <= Level(B(t), p) + h)
  }

  /** The level of a position and its first child, which may wrap around on the last level. */
  method LevelAndFirstChild(t: Tree, pos: int64) returns (d: int64, first: int64)
    requires Valid(t) && 0 <= pos as int < |t.nodes|
    ensures 0 <= d <= t.depth && d as nat == Level(B(t), pos as nat)
    ensures d < t.depth ==> first as int == FirstChild(B(t), pos as nat)
  {
    LevelsFit(t, t.depth as nat + 1);
    var index;
    d, index := PosLevel(t, pos);
    LevelsFit(t, d as nat + 1);
    var start := TreeLevelStart(d + 1, t.branching);
    first := Wrap(start as int + Mul(index as nat, t.branching as nat)) as int64;
    FirstWithinLevels(t, pos as nat, d as nat);
  }

  method Height(t: Tree, id: ID) returns (h: int64)
    requires Valid(t)
    ensures id !in t.positionOf ==> h == -1
    ensures id in t.positionOf ==> IsHeight(t, Position(t, id), h as int)
  {
    if id !in t.positionOf {
      return -1;
    }
    var pos := t.positionOf[id];
    ghost var p := Position(t, id);
    h := 0;
    LeftmostSelf(B(t), p);
    while true
      invariant 0 <= pos as int < |t.nodes| && h >= 0
      invariant Leftmost(B(t), pos as nat, p)
      invariant Level(B(t), pos as nat) == Level(B(t), p) + h as nat
      decreases |t.nodes| - pos as int
    {
      var d, first := LevelAndFirstChild(t, pos);
      if d >= t.depth || first as int >= |t.nodes| {
        if d >= t.depth {
          FirstChildBelow(t, pos as nat);
        }
        HeightReached(t, pos as nat, p);
        return h;
      }
      LeftmostChild(B(t), pos as nat, p);
      pos := first;
      h := h + 1;
    }
  }

  lemma LeftmostSelf(b: nat, p: nat)
    requires b >= 2
    ensures Leftmost(b, p, p)
  {
    forall q | Reaches(b, q, p)
      ensures p <= q
    {
      ReachesDown(b, q, p);
    }
  }

  /** Above the last level the first child's position does not wrap. */
  lemma FirstWithinLevels(t: Tree, p: nat, d: nat)
    requires Valid(t) && AtLevel(B(t), p, d) && d <= t.depth as nat
    ensures d < t.depth as nat ==>
              LevelStart(B(t), d + 1) + Mul(p - LevelStart(B(t), d), B(t)) == FirstChild(B(t), p) <= MAX_INT64
  {
    ChildArithmetic(B(t), p, d);
    if d < t.depth as nat {
      LevelsFit(t, d + 2);
    }
  }

  lemma HeightReached(t: Tree, x: nat, p: nat)
    requires Valid(t) && x < |t.nodes| && Leftmost(B(t), x, p) && FirstChild(B(t), x) >= |t.nodes|
    ensures IsHeight(t, p, Level(B(t), x) - Level(B(t), p))
  {
    forall q: nat | q < |t.nodes| && Reaches(B(t), q, p)
      ensures Level(B(t), q) <= Level(B(t), x)
    {
      if Level(B(t), q) > Level(B(t), x) {
        DeeperIsBeyond(B(t), q, x, p);
      }
    }
  }

  /** The exact value of the position that Height computes for the node at p. */
  function HeightPosition(b: nat, p: nat): nat
    requires b >= 2
  {
    LevelIsRow(b, p);
    LevelStart(b, Level(b, p) + 1) + Mul(p - LevelStart(b, Level(b, p)), b)
  }

  lemma HeightPositionIs(b: nat, p: nat)
    requires b >= 2
    ensures HeightPosition(b, p) == FirstChild(b, p)
  {
    LevelIsRow(b, p);
    ChildArithmetic(b, p, Level(b, p));
  }

  /**
   * Height's arithmetic stays within an int on every node of a tree exactly if the last node's
   * first child would have a position that is an int; otherwise it wraps on the last level.
   */
  lemma HeightStaysInRangeIff(t: Tree)
    requires Valid(t)
    ensures (forall p: nat :: p < |t.nodes| ==> HeightPosition(B(t), p) <= MAX_INT64)
            <==> B(t) * (|t.nodes| - 1) + 1 <= MAX_INT64
  {
    var last := |t.nodes| - 1;
    HeightPositionIs(B(t), last);
    FirstChildIsProduct(B(t), last);
    forall p: nat | p < |t.nodes|
      ensures HeightPosition(B(t), p) <= HeightPosition(B(t), last)
    {
      HeightPositionIs(B(t), p);
      FirstChildMonotone(B(t), p, last);
    }
  }

  /** Ten nodes under a very wide root: a tree whose last node makes Height's arithmetic wrap. */
  lemma HeightCanWrap()
    ensures Fits(10, 0x2000_0000_0000_0000, 1)
    ensures HeightPosition(0x2000_0000_0000_0000, 9) > MAX_INT64
  {
    var b := 0x2000_0000_0000_0000;
    LevelStartStep(b, 0);
    LevelStartStep(b, 1);
    HeightPositionIs(b, 9);
    FirstChildIsProduct(b, 9);
  }

  // ---- subtree ----

  datatype Span = Span(start: int64, end: int64)

  predicate Covers(spans: seq<Span>, q: nat) {
    exists i :: 0 <= i < |spans| && spans[i].start as int <= q < spans[i].end as int
  }

  /** Spans of positions in ascending order, from lo to hi. */
  predicate Ascending(spans: seq<Span>, lo: int, hi: int) {
    && (forall i :: 0 <= i < |spans| ==> lo <= spans[i].start as int <= spans[i].end as int <= hi)
    && (forall i, j :: 0 <= i < j < |spans| ==> spans[i].end <= spans[j].start)
  }

  /** The spans hold exactly the proper descendants of p above level lvl. */
  ghost predicate CoversUpTo(t: Tree, spans: seq<Span>, p: nat, lvl: nat)
    requires Valid(t)
  {
    && Ascending(spans, p + 1, Min(LevelStart(B(t), lvl), |t.nodes|))
    && forall q: nat :: q < |t.nodes| ==>
         (Covers(spans, q) <==> q != p && Reaches(B(t), q, p) && Level(B(t), q) < lvl)
  }

  /** Adding the stretch of one level keeps the cover. */
  lemma NextLevel(t: Tree, spans: seq<Span>, p: nat, d: nat, j: nat, span: Span)
    requires Valid(t) && p < |t.nodes| && AtLevel(B(t), p, d) && j >= 1
    requires CoversUpTo(t, spans, p, d + j)
    requires span.start as int == Down(B(t), p, j) < |t.nodes|
    requires span.end as int == Min(Down(B(t), p + 1, j), |t.nodes|)
    ensures CoversUpTo(t, spans + [span], p, d + j + 1)
  {
    StretchOnLevel(B(t), p, d, j);
    LevelStartMonotone(B(t), d + 1, d + j);
    LevelIs(B(t), p, d);
    var all := spans + [span];
    forall q: nat | q < |t.nodes|
      ensures Covers(all, q) <==> q != p && Reaches(B(t), q, p) && Level(B(t), q) < d + j + 1
    {
      CoversAppend(spans, span, q);
      Stretch(B(t), q, p, j);
    }
  }

  lemma CoversAppend(spans: seq<Span>, span: Span, q: nat)
    ensures Covers(spans + [span], q) <==>
            Covers(spans, q) || span.start as int <= q < span.end as int
  {
    var all := spans + [span];
    assert all[|spans|] == span;
    assert forall i :: 0 <= i < |spans| ==> all[i] == spans[i];
  }

  /** Once a level has no descendant of p, no deeper level has one. */
  lemma {:induction false} NoneBelow(t: Tree, p: nat, j: nat, q: nat)
    requires Valid(t) && Down(B(t), p, j) >= |t.nodes|
    requires q < |t.nodes| && Reaches(B(t), q, p)
    ensures Level(B(t), q) < Level(B(t), p) + j
    decreases q
  {
    LevelOfDescendant(B(t), q, p);
    if Level(B(t), q) == Level(B(t), p) + j {
      Stretch(B(t), q, p, j);
    } else if Level(B(t), q) > Level(B(t), p) + j {
      NoneBelow(t, p, j, Parent(B(t), q));
    }
  }

  ghost predicate IsSubtree(t: Tree, p: nat, r: seq<ID>)
    requires Valid(t)
  {
    && (forall id :: id in r <==> id in t.positionOf && Reaches(B(t), Position(t, id), p))
    && (forall i :: 0 <= i < |r| ==> r[i] in t.positionOf)
    && (forall i, j :: 0 <= i < j < |r| ==> Position(t, r[i]) < Position(t, r[j]))
  }

  /** The stretches of positions below p, level by level. */
  method DescendantSpans(t: Tree, pos: int64, d: int64, index: int64) returns (spans: seq<Span>)
    requires Valid(t) && 0 <= pos as int < |t.nodes| && 0 <= d <= t.depth
    requires AtLevel(B(t), pos as nat, d as nat)
    requires index as int == pos as int - LevelStart(B(t), d as nat)
    ensures Ascending(spans, pos as int + 1, |t.nodes|)
    ensures forall q: nat :: q < |t.nodes| ==>
              (Covers(spans, q) <==> q != pos as nat && Reaches(B(t), q, pos as nat))
  {
    ghost var p := pos as nat;
    spans := [];
    LevelsFit(t, t.depth as nat + 1);
    NoneYet(t, p, d as nat);
    var lvl := d + 1;
    while lvl <= t.depth
      invariant d < lvl <= t.depth + 1
      invariant CoversUpTo(t, spans, p, lvl as nat)
    {
      ghost var j := lvl as nat - d as nat;
      StretchFits(t, p, d as nat, j);
      var width := TreePow(t.branching, lvl - d);
      var first := TreeLevelStart(lvl, t.branching);
      var start := first + index * width;
      if start as int >= |t.nodes| {
        LevelIs(B(t), p, d as nat);
        forall q: nat | q < |t.nodes| && Reaches(B(t), q, p)
          ensures Level(B(t), q) < lvl as nat
        {
          NoneBelow(t, p, j, q);
        }
        return;
      }
      var end := Min((start + width) as nat, |t.nodes|) as int64;
      NextLevel(t, spans, p, d as nat, j, Span(start, end));
      spans := spans + [Span(start, end)];
      lvl := lvl + 1;
    }
    forall q: nat | q < |t.nodes|
      ensures Level(B(t), q) < lvl as nat
    {
      LevelBound(B(t), q, t.depth as nat);
    }
  }

  /** None of the numbers computed for a level of the tree leaves the range of an int. */
  lemma StretchFits(t: Tree, p: nat, d: nat, j: nat)
    requires Valid(t) && AtLevel(B(t), p, d) && d + j <= t.depth as nat
    ensures LevelStart(B(t), d + j) <= MAX_INT64 && Pow(B(t), j) <= MAX_INT64
    ensures Down(B(t), p, j) == LevelStart(B(t), d + j) + Mul(p - LevelStart(B(t), d), Pow(B(t), j))
    ensures Down(B(t), p + 1, j) == Down(B(t), p, j) + Pow(B(t), j) <= MAX_INT64
  {
    LevelsFit(t, d + j);
    LevelsFit(t, d + j + 1);
    StretchOnLevel(B(t), p, d, j);
    DownArithmetic(B(t), p, d, j);
  }

  lemma NoneYet(t: Tree, p: nat, d: nat)
    requires Valid(t) && p < |t.nodes| && AtLevel(B(t), p, d)
    ensures CoversUpTo(t, [], p, d + 1)
  {
    LevelIs(B(t), p, d);
    forall q: nat | q < |t.nodes| && q != p && Reaches(B(t), q, p)
      ensures Level(B(t), q) >= d + 1
    {
      LevelOfDescendant(B(t), q, p);
    }
  }

  /** The node and exactly its descendants, in breadth-first order, each once. */
  method Subtree(t: Tree, id: ID) returns (r: seq<ID>)
    requires Valid(t)
    ensures id !in t.positionOf ==> r == []
    ensures id in t.positionOf ==> IsSubtree(t, Position(t, id), r)
  {
    if id !in t.positionOf {
      return [];
    }
    var pos := t.positionOf[id];
    var d, index := PosLevel(t, pos);
    var spans := DescendantSpans(t, pos, d, index);
    r := [t.nodes[pos]];
    for i := 0 to |spans|
      invariant OnlyFrom(t, pos as nat, spans[..i], r)
      invariant forall k :: 0 <= k < |r| && i < |spans| ==> Position(t, r[k]) < spans[i].start as int
    {
      AppendSpan(t, pos as nat, spans[..i], spans[i], r);
      assert spans[..i + 1] == spans[..i] + [spans[i]];
      r := r + t.nodes[spans[i].start..spans[i].end];
    }
    assert spans[..|spans|] == spans;
  }

  /** r lists the node at p and the nodes of the spans, in ascending position. */
  ghost predicate OnlyFrom(t: Tree, p: nat, spans: seq<Span>, r: seq<ID>)
    requires Valid(t)
  {
    && (forall id :: id in r <==>
          id in t.positionOf && (Position(t, id) == p || Covers(spans, Position(t, id))))
    && (forall i :: 0 <= i < |r| ==> r[i] in t.positionOf)
    && (forall i, j :: 0 <= i < j < |r| ==> Position(t, r[i]) < Position(t, r[j]))
  }

  lemma AppendSpan(t: Tree, p: nat, spans: seq<Span>, span: Span, r: seq<ID>)
    requires Valid(t) && OnlyFrom(t, p, spans, r)
    requires 0 <= span.start as int <= span.end as int <= |t.nodes|
    requires forall k :: 0 <= k < |r| ==> Position(t, r[k]) < span.start as int
    ensures var all := r + t.nodes[span.start..span.end];
            && OnlyFrom(t, p, spans + [span], all)
            && forall k :: 0 <= k < |all| ==> Position(t, all[k]) < span.end as int
  {
    var part := t.nodes[span.start..span.end];
    var all := r + part;
    forall k | 0 <= k < |part|
      ensures part[k] in t.positionOf && Position(t, part[k]) == span.start as int + k
    {
      assert part[k] == t.nodes[span.start as int + k];
    }
    forall id
      ensures id in all <==> id in t.positionOf && (Position(t, id) == p || Covers(spans + [span], Position(t, id)))
    {
      SliceMembers(t, span.start as nat, span.end as nat, id);
      if id in t.positionOf {
        CoversAppend(spans, span, Position(t, id));
      }
    }
  }

  // ---- relaying ----

  /** Known nodes at positions from lo on. */
  predicate AllFrom(t: Tree, ids: seq<ID>, lo: nat)
    requires Valid(t)
  {
    lo <= |t.nodes| && forall i :: 0 <= i < |ids| ==> ids[i] in t.positionOf && Position(t, ids[i]) >= lo
  }

  lemma SliceFrom(t: Tree, c: nat, end: nat, lo: nat)
    requires Valid(t) && lo <= c <= end <= |t.nodes|
    ensures AllFrom(t, t.nodes[c..end], lo)
  {
    forall i | 0 <= i < end - c
      ensures t.nodes[c..end][i] in t.positionOf && Position(t, t.nodes[c..end][i]) >= lo
    {
      assert t.nodes[c..end][i] == t.nodes[c + i];
    }
  }

  lemma ChildrenFollow(t: Tree, id: ID)
    requires Valid(t) && id in t.positionOf
    ensures AllFrom(t, ChildNodes(t, id), Position(t, id) + 1)
  {
    var p := Position(t, id);
    SliceFrom(t, ChildrenFrom(B(t), |t.nodes|, p), ChildrenTo(B(t), |t.nodes|, p), p + 1);
  }

  /** How often x receives a message that id passes to each of its children, and they to theirs. */
  function Received(t: Tree, id: ID, x: ID): nat
    requires Valid(t) && id in t.positionOf
    decreases |t.nodes| - Position(t, id), 0, 0
  {
    ChildrenFollow(t, id);
    Once(id == x) + ReceivedThrough(t, ChildNodes(t, id), Position(t, id) + 1, x)
  }

  function ReceivedThrough(t: Tree, ids: seq<ID>, lo: nat, x: ID): nat
    requires Valid(t) && AllFrom(t, ids, lo)
    decreases |t.nodes| - lo, 1, |ids|
  {
    if ids == [] then 0 else Received(t, ids[0], x) + ReceivedThrough(t, ids[1..], lo, x)
  }

  lemma {:induction false} ReceivedIs(t: Tree, p: nat, q: nat)
    requires Valid(t) && p < |t.nodes| && q < |t.nodes|
    ensures Received(t, t.nodes[p], t.nodes[q]) == Deliveries(B(t), |t.nodes|, p, q)
    decreases |t.nodes| - p, 0
  {
    ChildrenFollow(t, t.nodes[p]);
    ReceivedThroughIs(t, ChildrenFrom(B(t), |t.nodes|, p), ChildrenTo(B(t), |t.nodes|, p), p + 1, q);
    assert t.nodes[p] == t.nodes[q] <==> p == q;
  }

  lemma {:induction false} ReceivedThroughIs(t: Tree, c: nat, end: nat, lo: nat, q: nat)
    requires Valid(t) && lo <= c <= end <= |t.nodes| && q < |t.nodes|
    ensures AllFrom(t, t.nodes[c..end], lo)
    ensures ReceivedThrough(t, t.nodes[c..end], lo, t.nodes[q]) == DeliveriesThrough(B(t), |t.nodes|, c, end, q)
    decreases |t.nodes| - c, 1
  {
    SliceFrom(t, c, end, lo);
    if c < end {
      SliceHead(t, c, end, lo, t.nodes[q]);
      ReceivedIs(t, c, q);
      ReceivedThroughIs(t, c + 1, end, lo, q);
    }
  }

  lemma SliceHead(t: Tree, c: nat, end: nat, lo: nat, x: ID)
    requires Valid(t) && lo <= c < end <= |t.nodes|
    ensures AllFrom(t, t.nodes[c..end], lo) && AllFrom(t, t.nodes[c + 1..end], lo)
    ensures ReceivedThrough(t, t.nodes[c..end], lo, x)
         == Received(t, t.nodes[c], x) + ReceivedThrough(t, t.nodes[c + 1..end], lo, x)
  {
    SliceFrom(t, c, end, lo);
    SliceFrom(t, c + 1, end, lo);
    assert t.nodes[c..end][0] == t.nodes[c] && t.nodes[c..end][1..] == t.nodes[c + 1..end];
  }

  /** Relaying from the root, each node to its ChildrenOf, reaches every node exactly once. */
  lemma RelayFromRootReachesEachNodeOnce(t: Tree, id: ID)
    requires Valid(t) && id in t.positionOf
    ensures Received(t, t.nodes[0], id) == 1
  {
    ReceivedIs(t, 0, Position(t, id));
    RelayReachesEachNodeOnce(B(t), |t.nodes|, Position(t, id));
  }
}
