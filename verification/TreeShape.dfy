/**
 * The shape of a complete b-ary tree in breadth-first order: positions 0, 1, 2, ..., the parent
 * of p is (p-1)/b, and its children are b*p+1 to b*p+b.
 */
module TreeShape {

  function Pow(b: nat, e: nat): (r: nat)
    ensures b >= 1 ==> r >= 1
  {
    if e == 0 then 1 else Mul(b, Pow(b, e - 1))
  }

  /** A product of naturals, as a natural. */
  function Mul(a: nat, b: nat): (r: nat)
    ensures r == a * b
    ensures a >= 1 && b >= 1 ==> r >= 1
  {
    a * b
  }

  /** The first position of level k: b^0 + b^1 + ... + b^(k-1). */
  function LevelStart(b: nat, k: nat): nat {
    if k == 0 then 0 else LevelStart(b, k - 1) + Pow(b, k - 1)
  }

  /** (p-1)/b: the root for the first b nodes after it, and b nodes on, the next parent. */
  function Parent(b: nat, p: nat): (r: nat)
    requires b >= 1 && p >= 1
    ensures r < p
  {
    if p <= b then 0 else Parent(b, p - b) + 1
  }

  /** b*p+1: the children of a node follow those of the node before it. */
  function FirstChild(b: nat, p: nat): (r: nat)
    ensures b >= 1 ==> r > p
  {
    if p == 0 then 1 else FirstChild(b, p - 1) + b
  }

  /** The chain of parents from q reaches p. */
  predicate Reaches(b: nat, q: nat, p: nat)
    requires b >= 2
    decreases q
  {
    q == p || (q > p && Reaches(b, Parent(b, q), p))
  }

  /** d is the level of position p. */
  predicate AtLevel(b: nat, p: nat, d: nat) {
    LevelStart(b, d) <= p < LevelStart(b, d + 1)
  }

  // ---- geometric sums ----

  lemma MulSum(b: nat, x: nat, y: nat)
    ensures b * (x + y) == b * x + b * y
  {
  }

  lemma {:induction false} LevelStartStep(b: nat, k: nat)
    ensures LevelStart(b, k + 1) == b * LevelStart(b, k) + 1
  {
    if k > 0 {
      LevelStartStep(b, k - 1);
      MulSum(b, LevelStart(b, k - 1), Pow(b, k - 1));
    }
  }

  lemma {:induction false} LevelStartMonotone(b: nat, j: nat, k: nat)
    requires j <= k
    ensures LevelStart(b, j) <= LevelStart(b, k)
  {
    if j < k {
      LevelStartMonotone(b, j, k - 1);
    }
  }

  lemma {:induction false} LevelStartAtLeast(b: nat, k: nat)
    requires b >= 1
    ensures LevelStart(b, k) >= k
  {
    if k > 0 {
      LevelStartAtLeast(b, k - 1);
    }
  }

  lemma LevelUnique(b: nat, p: nat, d: nat, e: nat)
    requires AtLevel(b, p, d) && AtLevel(b, p, e)
    ensures d == e
  {
    if d < e {
      LevelStartMonotone(b, d + 1, e);
    } else if e < d {
      LevelStartMonotone(b, e + 1, d);
    }
  }

  // ---- the level arithmetic of the source is the parent and child relation ----

  lemma MulMonotone(b: nat, x: nat, y: nat)
    requires x <= y
    ensures b * x <= b * y
  {
  }

  lemma DivUnique(x: nat, b: nat, q: nat, r: nat)
    requires b >= 1 && x == b * q + r && r < b
    ensures x / b == q
  {
    var d := x / b;
    assert d < q ==> b * (d + 1) <= b * q;
    assert d > q ==> b * (q + 1) <= b * d;
  }

  lemma DivShift(b: nat, m: nat, i: nat)
    requires b >= 1
    ensures (b * m + i) / b == m + i / b
  {
    assert b * (m + i / b) == b * m + b * (i / b);
    DivUnique(b * m + i, b, m + i / b, i % b);
  }

  /** Division by b and an interval of w: i/b < w exactly if i < b*w. */
  lemma DivBound(b: nat, i: nat, w: nat)
    requires b >= 1
    ensures i / b < w <==> i < b * w
  {
    assert i / b < w ==> b * (i / b + 1) <= b * w;
    assert i / b >= w ==> b * (i / b) >= b * w;
  }

  lemma {:induction false} ParentIsQuotient(b: nat, p: nat)
    requires b >= 1 && p >= 1
    ensures Parent(b, p) == (p - 1) / b
  {
    if p <= b {
      DivUnique(p - 1, b, 0, p - 1);
    } else {
      ParentIsQuotient(b, p - b);
      DivShift(b, 1, p - b - 1);
    }
  }

  lemma {:induction false} FirstChildIsProduct(b: nat, p: nat)
    ensures FirstChild(b, p) == b * p + 1
  {
    if p > 0 {
      FirstChildIsProduct(b, p - 1);
      MulSum(b, p - 1, 1);
    }
  }

  lemma ParentNumbers(b: nat, p: nat, s: nat, w: nat)
    requires b >= 1 && b * s + 1 <= p < b * s + 1 + b * w
    ensures (p - 1) / b == s + (p - (b * s + 1)) / b
    ensures s <= (p - 1) / b < s + w
  {
    var i := p - (b * s + 1);
    DivShift(b, s, i);
    DivBound(b, i, w);
  }

  lemma ChildNumbers(b: nat, p: nat, s: nat, n: nat)
    requires s <= p < n
    ensures b * p + 1 == b * s + 1 + (p - s) * b
    ensures b * p + 1 + b <= b * n + 1
  {
    assert b * p == b * s + (p - s) * b;
    MulMonotone(b, p + 1, n);
  }

  lemma ParentArithmetic(b: nat, p: nat, d: nat)
    requires b >= 2 && d >= 1 && AtLevel(b, p, d)
    ensures p >= 1 && Parent(b, p) == LevelStart(b, d - 1) + (p - LevelStart(b, d)) / b
    ensures AtLevel(b, Parent(b, p), d - 1)
  {
    LevelStartStep(b, d - 1);
    ParentIsQuotient(b, p);
    ParentNumbers(b, p, LevelStart(b, d - 1), Pow(b, d - 1));
  }

  lemma ChildArithmetic(b: nat, p: nat, d: nat)
    requires b >= 2 && AtLevel(b, p, d)
    ensures FirstChild(b, p) == LevelStart(b, d + 1) + (p - LevelStart(b, d)) * b
    ensures FirstChild(b, p) + b <= LevelStart(b, d + 2)
  {
    LevelStartStep(b, d);
    LevelStartStep(b, d + 1);
    FirstChildIsProduct(b, p);
    ChildNumbers(b, p, LevelStart(b, d), LevelStart(b, d + 1));
  }

  lemma ChildRow(b: nat, p: nat, c: nat, d: nat)
    requires b >= 2 && AtLevel(b, p, d) && FirstChild(b, p) <= c < FirstChild(b, p) + b
    ensures AtLevel(b, c, d + 1)
  {
    LevelStartStep(b, d);
    LevelStartStep(b, d + 1);
    FirstChildIsProduct(b, LevelStart(b, d));
    FirstChildIsProduct(b, LevelStart(b, d + 1));
    FirstChildMonotone(b, LevelStart(b, d), p);
    FirstChildMonotone(b, p + 1, LevelStart(b, d + 1));
  }

  /** A node is a child of p exactly if p is its parent. */
  lemma ChildIffParent(b: nat, p: nat, c: nat)
    requires b >= 2 && c >= 1
    ensures FirstChild(b, p) <= c < FirstChild(b, p) + b <==> Parent(b, c) == p
  {
    ParentIsQuotient(b, c);
    FirstChildIsProduct(b, p);
    assert c - 1 == b * Parent(b, c) + (c - 1) % b;
    if FirstChild(b, p) <= c < FirstChild(b, p) + b {
      DivUnique(c - 1, b, p, c - 1 - b * p);
    }
  }

  // ---- levels counted in edges ----

  /** The number of edges between position p and the root. */
  function Level(b: nat, p: nat): nat
    requires b >= 2
  {
    if p == 0 then 0 else 1 + Level(b, Parent(b, p))
  }

  lemma {:induction false} LevelIsRow(b: nat, p: nat)
    requires b >= 2
    ensures AtLevel(b, p, Level(b, p))
  {
    if p > 0 {
      LevelIsRow(b, Parent(b, p));
      ChildIffParent(b, Parent(b, p), p);
      ChildRow(b, Parent(b, p), p, Level(b, Parent(b, p)));
    }
  }

  lemma LevelIs(b: nat, p: nat, d: nat)
    requires b >= 2 && AtLevel(b, p, d)
    ensures Level(b, p) == d
  {
    LevelIsRow(b, p);
    LevelUnique(b, p, d, Level(b, p));
  }

  lemma LevelBound(b: nat, p: nat, d: nat)
    requires b >= 2
    ensures p < LevelStart(b, d + 1) <==> Level(b, p) <= d
  {
    LevelIsRow(b, p);
    if Level(b, p) <= d {
      LevelStartMonotone(b, Level(b, p) + 1, d + 1);
    } else {
      LevelStartMonotone(b, d + 1, Level(b, p));
    }
  }

  lemma {:induction false} FirstChildMonotone(b: nat, x: nat, y: nat)
    requires x <= y
    ensures FirstChild(b, x) <= FirstChild(b, y)
  {
    if x < y {
      FirstChildMonotone(b, x, y - 1);
    }
  }

  /** x is the leftmost descendant of p on its level. */
  ghost predicate Leftmost(b: nat, x: nat, p: nat)
    requires b >= 2
  {
    && Reaches(b, x, p)
    && forall q :: Reaches(b, q, p) && Level(b, q) == Level(b, x) ==> x <= q
  }

  /** Every deeper descendant lies beyond the first child of the leftmost one. */
  lemma {:induction false} DeeperIsBeyond(b: nat, q: nat, x: nat, p: nat)
    requires b >= 2 && Leftmost(b, x, p) && Reaches(b, q, p) && Level(b, q) > Level(b, x)
    ensures q >= FirstChild(b, x)
    decreases q
  {
    LevelOfDescendant(b, x, p);
    var r := Parent(b, q);
    if Level(b, r) == Level(b, x) {
      ChildIffParent(b, r, q);
      FirstChildMonotone(b, x, r);
    } else {
      DeeperIsBeyond(b, r, x, p);
    }
  }

  lemma {:induction false} LevelOfDescendant(b: nat, q: nat, p: nat)
    requires b >= 2 && Reaches(b, q, p)
    ensures Level(b, p) <= Level(b, q) && (Level(b, p) == Level(b, q) ==> p == q)
    decreases q
  {
    if q != p {
      LevelOfDescendant(b, Parent(b, q), p);
    }
  }

  lemma LeftmostChild(b: nat, x: nat, p: nat)
    requires b >= 2 && Leftmost(b, x, p)
    ensures Leftmost(b, FirstChild(b, x), p) && Level(b, FirstChild(b, x)) == Level(b, x) + 1
  {
    var c := FirstChild(b, x);
    ChildIffParent(b, x, c);
    ReachesDown(b, x, p);
    forall q | Reaches(b, q, p) && Level(b, q) == Level(b, c)
      ensures c <= q
    {
      DeeperIsBeyond(b, q, x, p);
    }
  }

  // ---- the descendants of p on one level are one stretch of positions ----

  /** The leftmost position j levels below p. */
  function Down(b: nat, p: nat, j: nat): nat {
    if j == 0 then p else FirstChild(b, Down(b, p, j - 1))
  }

  lemma {:induction false} DownMonotone(b: nat, x: nat, y: nat, j: nat)
    requires x <= y
    ensures Down(b, x, j) <= Down(b, y, j)
  {
    if j > 0 {
      DownMonotone(b, x, y, j - 1);
      FirstChildMonotone(b, Down(b, x, j - 1), Down(b, y, j - 1));
    }
  }

  lemma {:induction false} DownFromRow(b: nat, d: nat, j: nat)
    ensures Down(b, LevelStart(b, d), j) == LevelStart(b, d + j)
  {
    if j > 0 {
      DownFromRow(b, d, j - 1);
      FirstChildIsProduct(b, LevelStart(b, d + j - 1));
      LevelStartStep(b, d + j - 1);
    }
  }

  lemma {:induction false} DownIsSum(b: nat, p: nat, j: nat)
    ensures Down(b, p, j) == Mul(p, Pow(b, j)) + LevelStart(b, j)
  {
    if j > 0 {
      var w, s := Pow(b, j - 1), LevelStart(b, j - 1);
      DownIsSum(b, p, j - 1);
      FirstChildIsProduct(b, Down(b, p, j - 1));
      LevelStartStep(b, j - 1);
      DownNumbers(b, p, w, s);
    }
  }

  lemma DownNumbers(b: nat, p: nat, w: nat, s: nat)
    ensures b * (p * w + s) + 1 == p * (b * w) + (b * s + 1)
  {
    MulSum(b, p * w, s);
    assert b * (p * w) == p * (b * w);
  }

  /** The position the level arithmetic computes, and the width of the stretch. */
  lemma DownArithmetic(b: nat, p: nat, d: nat, j: nat)
    requires AtLevel(b, p, d)
    ensures Down(b, p, j) == LevelStart(b, d + j) + Mul(p - LevelStart(b, d), Pow(b, j))
    ensures Down(b, p + 1, j) == Down(b, p, j) + Pow(b, j)
  {
    DownIsSum(b, p, j);
    DownIsSum(b, p + 1, j);
    DownIsSum(b, LevelStart(b, d), j);
    DownFromRow(b, d, j);
    MulDifference(p, LevelStart(b, d), Pow(b, j));
  }

  lemma MulDifference(p: nat, s: nat, w: nat)
    requires s <= p
    ensures p * w == s * w + (p - s) * w
    ensures (p + 1) * w == p * w + w
  {
  }

  /** The stretch below p stays on its level. */
  lemma StretchOnLevel(b: nat, p: nat, d: nat, j: nat)
    requires b >= 2 && AtLevel(b, p, d)
    ensures LevelStart(b, d + j) <= Down(b, p, j) <= Down(b, p + 1, j) <= LevelStart(b, d + j + 1)
  {
    DownFromRow(b, d, j);
    DownFromRow(b, d + 1, j);
    DownMonotone(b, LevelStart(b, d), p, j);
    DownMonotone(b, p, p + 1, j);
    DownMonotone(b, p + 1, LevelStart(b, d + 1), j);
  }

  lemma BeforeChildren(b: nat, x: nat, q: nat)
    requires b >= 2 && q >= 1
    ensures FirstChild(b, x) <= q <==> x <= Parent(b, q)
  {
    ChildIffParent(b, Parent(b, q), q);
    if x <= Parent(b, q) {
      FirstChildMonotone(b, x, Parent(b, q));
    } else {
      FirstChildMonotone(b, Parent(b, q) + 1, x);
    }
  }

  /** The descendants of p, j levels down, are exactly one stretch of positions. */
  lemma {:induction false} Stretch(b: nat, q: nat, p: nat, j: nat)
    requires b >= 2
    ensures Down(b, p, j) <= q < Down(b, p + 1, j) <==>
            Reaches(b, q, p) && Level(b, q) == Level(b, p) + j
    decreases j
  {
    if j == 0 {
      if Reaches(b, q, p) {
        LevelOfDescendant(b, q, p);
      }
    } else if q > 0 {
      Stretch(b, Parent(b, q), p, j - 1);
      BeforeChildren(b, Down(b, p, j - 1), q);
      BeforeChildren(b, Down(b, p + 1, j - 1), q);
      if Reaches(b, Parent(b, q), p) {
        ReachesDown(b, Parent(b, q), p);
      }
    }
  }

  // ---- the subtrees of siblings ----

  predicate IsChild(b: nat, p: nat, c: nat) {
    FirstChild(b, p) <= c < FirstChild(b, p) + b
  }

  /** The child of p on the way down to q. */
  lemma {:induction false} ChildOnPath(b: nat, q: nat, p: nat) returns (c: nat)
    requires b >= 2 && q != p && Reaches(b, q, p)
    ensures IsChild(b, p, c) && Reaches(b, q, c)
    decreases q
  {
    c := q;
    ChildIffParent(b, p, q);
    if Parent(b, q) != p {
      c := ChildOnPath(b, Parent(b, q), p);
      ReachesDown(b, Parent(b, q), c);
    }
  }

  lemma {:induction false} ReachesDown(b: nat, q: nat, p: nat)
    requires b >= 2 && Reaches(b, q, p)
    ensures p <= q
    decreases q
  {
    if q != p {
      ReachesDown(b, Parent(b, q), p);
    }
  }

  lemma {:induction false} ThroughChild(b: nat, q: nat, p: nat, c: nat)
    requires b >= 2 && IsChild(b, p, c) && Reaches(b, q, c)
    ensures p < q && Reaches(b, q, p)
    decreases q
  {
    ChildIffParent(b, p, c);
    if q != c {
      ThroughChild(b, Parent(b, q), p, c);
    }
  }

  /** Subtrees of different siblings are disjoint. */
  lemma {:induction false} SiblingsApart(b: nat, q: nat, p: nat, c: nat, e: nat)
    requires b >= 2 && IsChild(b, p, c) && IsChild(b, p, e)
    requires Reaches(b, q, c) && Reaches(b, q, e)
    ensures c == e
    decreases q
  {
    ChildIffParent(b, p, c);
    ChildIffParent(b, p, e);
    if q != c && q != e {
      SiblingsApart(b, Parent(b, q), p, c, e);
    }
  }

  predicate Below(b: nat, q: nat, c: nat, end: nat)
    requires b >= 2
  {
    exists x :: c <= x < end && Reaches(b, q, x)
  }

  /** A node is below p exactly if it is p or below one child of p. */
  lemma BelowSplits(b: nat, q: nat, p: nat)
    requires b >= 2
    ensures var c := FirstChild(b, p);
            && (Reaches(b, q, p) <==> q == p || Below(b, q, c, c + b))
            && !(q == p && Below(b, q, c, c + b))
  {
    var c := FirstChild(b, p);
    NotBelowSelf(b, p);
    if q != p && Reaches(b, q, p) {
      var x := ChildOnPath(b, q, p);
    }
    forall x | c <= x < c + b && Reaches(b, q, x)
      ensures Reaches(b, q, p)
    {
      ThroughChild(b, q, p, x);
    }
  }

  lemma NotBelowSelf(b: nat, p: nat)
    requires b >= 2
    ensures !Below(b, p, FirstChild(b, p), FirstChild(b, p) + b)
  {
    forall x | FirstChild(b, p) <= x < FirstChild(b, p) + b
      ensures !Reaches(b, p, x)
    {
      }
  }

  /** Below the siblings from c on: below c or below a later one, not both. */
  lemma FirstOrRest(b: nat, q: nat, p: nat, c: nat, end: nat)
    requires b >= 2 && IsChild(b, p, c) && c < end <= FirstChild(b, p) + b
    ensures Below(b, q, c, end) <==> Reaches(b, q, c) || Below(b, q, c + 1, end)
    ensures !(Reaches(b, q, c) && Below(b, q, c + 1, end))
  {
    forall x | c + 1 <= x < end && Reaches(b, q, x)
      ensures !Reaches(b, q, c)
    {
      if Reaches(b, q, c) {
        SiblingsApart(b, q, p, c, x);
      }
    }
  }

  lemma {:induction false} RootReachesAll(b: nat, q: nat)
    requires b >= 2
    ensures Reaches(b, q, 0)
  {
    if q > 0 {
      RootReachesAll(b, Parent(b, q));
    }
  }

  // ---- relaying ----

  function Min(x: nat, y: nat): nat {
    if x < y then x else y
  }

  /** In a tree of n nodes, the children of p are the positions from here ... */
  function ChildrenFrom(b: nat, n: nat, p: nat): nat {
    Min(FirstChild(b, p), n)
  }

  /** ... up to here. */
  function ChildrenTo(b: nat, n: nat, p: nat): (r: nat)
    ensures ChildrenFrom(b, n, p) <= r <= n
  {
    Min(FirstChild(b, p) + b, n)
  }

  function Once(p: bool): nat {
    if p then 1 else 0
  }

  /** How often q receives a message that p passes to its children, and they to theirs. */
  function Deliveries(b: nat, n: nat, p: nat, q: nat): nat
    requires b >= 2 && p < n
    decreases n - p, 0
  {
    Once(p == q) + DeliveriesThrough(b, n, ChildrenFrom(b, n, p), ChildrenTo(b, n, p), q)
  }

  function DeliveriesThrough(b: nat, n: nat, c: nat, end: nat, q: nat): nat
    requires b >= 2 && c <= end <= n
    decreases n - c, 1
  {
    if c == end then 0 else Deliveries(b, n, c, q) + DeliveriesThrough(b, n, c + 1, end, q)
  }

  lemma {:induction false} DeliveriesCount(b: nat, n: nat, p: nat, q: nat)
    requires b >= 2 && p < n && q < n
    ensures Deliveries(b, n, p, q) == Once(Reaches(b, q, p))
    decreases n - p, 0
  {
    DeliveriesThroughCount(b, n, p, ChildrenFrom(b, n, p), q);
    BelowSplits(b, q, p);
    WithinNodes(b, n, p, q);
  }

  /** Nodes below a child of p are below a child that exists. */
  lemma WithinNodes(b: nat, n: nat, p: nat, q: nat)
    requires b >= 2 && q < n
    ensures var c := FirstChild(b, p);
            Below(b, q, c, c + b) <==> Below(b, q, ChildrenFrom(b, n, p), ChildrenTo(b, n, p))
  {
    forall x: nat | Reaches(b, q, x)
      ensures x < n
    {
      ReachesDown(b, q, x);
    }
  }

  lemma {:induction false} DeliveriesThroughCount(b: nat, n: nat, p: nat, c: nat, q: nat)
    requires b >= 2 && q < n && ChildrenFrom(b, n, p) <= c <= ChildrenTo(b, n, p)
    ensures DeliveriesThrough(b, n, c, ChildrenTo(b, n, p), q)
         == Once(Below(b, q, c, ChildrenTo(b, n, p)))
    decreases n - c, 1
  {
    if c < ChildrenTo(b, n, p) {
      DeliveriesCount(b, n, c, q);
      DeliveriesThroughCount(b, n, p, c + 1, q);
      FirstOrRest(b, q, p, c, ChildrenTo(b, n, p));
    }
  }

  /** Relaying from the root reaches every node exactly once. */
  lemma RelayReachesEachNodeOnce(b: nat, n: nat, q: nat)
    requires b >= 2 && q < n
    ensures Deliveries(b, n, 0, q) == 1
  {
    DeliveriesCount(b, n, 0, q);
    RootReachesAll(b, q);
  }
}
