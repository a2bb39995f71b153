/** Sets of node IDs as strictly ascending sequences. */
module SortedIds {

  predicate Ascending(s: seq<nat>) {
    forall i, j :: 0 <= i < j < |s| ==> s[i] < s[j]
  }

  function Elements(s: seq<nat>): set<nat> {
    set i | 0 <= i < |s| :: s[i]
  }

  lemma ElementsAppend(s: seq<nat>, id: nat)
    ensures Elements(s + [id]) == Elements(s) + {id}
  {
    var all := s + [id];
    assert all[|s|] == id;
    assert forall i :: 0 <= i < |s| ==> all[i] == s[i];
  }

  /** s lists the IDs of a set, strictly ascending. */
  predicate Lists(s: seq<nat>, ids: set<nat>) {
    Ascending(s) && Elements(s) == ids
  }

  /** There is one such list. */
  lemma {:induction false} ListUnique(s: seq<nat>, t: seq<nat>)
    requires Ascending(s) && Ascending(t) && Elements(s) == Elements(t)
    ensures s == t
  {
    assert s != [] ==> s[0] in Elements(s);
    assert t != [] ==> t[0] in Elements(t);
    if s != [] && t != [] {
      var x, y := s[|s| - 1], t[|t| - 1];
      LastIsGreatest(s);
      LastIsGreatest(t);
      assert x in Elements(t) && y in Elements(s);
      var s', t' := s[..|s| - 1], t[..|t| - 1];
      ElementsAppend(s', x);
      ElementsAppend(t', y);
      assert s' + [x] == s && t' + [y] == t;
      assert Elements(s') == Elements(s) - {x} && Elements(t') == Elements(t) - {y} by {
        assert x !in Elements(s') && y !in Elements(t');
      }
      ListUnique(s', t');
    }
  }

  lemma LastIsGreatest(s: seq<nat>)
    requires Ascending(s) && s != []
    ensures s[|s| - 1] in Elements(s) && forall id :: id in Elements(s) ==> id <= s[|s| - 1]
  {
  }

  /** Puts an nat in its place. */
  method Insert(s: seq<nat>, id: nat) returns (r: seq<nat>)
    requires Ascending(s) && id !in Elements(s)
    ensures Lists(r, Elements(s) + {id})
  {
    var i := |s|;
    while i > 0 && s[i - 1] > id
      invariant 0 <= i <= |s|
      invariant forall j :: i <= j < |s| ==> s[j] > id
    {
      i := i - 1;
    }
    r := s[..i] + [id] + s[i..];
    InsertElements(s, i, id);
    assert i > 0 ==> s[i - 1] in Elements(s);
  }

  lemma InsertElements(s: seq<nat>, i: nat, id: nat)
    requires i <= |s|
    ensures Elements(s[..i] + [id] + s[i..]) == Elements(s) + {id}
  {
    var r := s[..i] + [id] + s[i..];
    assert r[i] == id;
    forall x | x in Elements(s)
      ensures x in Elements(r)
    {
      var k :| 0 <= k < |s| && s[k] == x;
      assert if k < i then r[k] == x else r[k + 1] == x;
    }
  }

  /** Sorts distinct IDs. */
  method SortById(s: seq<nat>) returns (r: seq<nat>)
    requires forall i, j :: 0 <= i < j < |s| ==> s[i] != s[j]
    ensures Lists(r, Elements(s))
  {
    r := [];
    for i := 0 to |s|
      invariant Lists(r, Elements(s[..i]))
    {
      ElementsAppend(s[..i], s[i]);
      assert s[..i + 1] == s[..i] + [s[i]];
      assert s[i] !in Elements(s[..i]);
      r := Insert(r, s[i]);
    }
    assert s[..|s|] == s;
  }
}
