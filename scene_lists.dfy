/**
 * The System.Collections.Generic.List<string> that a scene group holds. It is
 * a heap object: copies of a SceneGroupData share it, and Add, AddRange and
 * Remove change it in place for every holder.
 */
module SceneLists {
  import opened Wrappers

  /** Position of the first occurrence of x in s, as List.IndexOf finds it. */
  function IndexOf(s: seq<string>, x: string): (i: nat)
    requires x in s
    ensures i < |s| && s[i] == x
    ensures forall j :: 0 <= j < i ==> s[j] != x
  {
    if s[0] == x then 0 else 1 + IndexOf(s[1..], x)
  }

  /** List.Remove: drop the first occurrence of x, if there is one. */
  function RemoveFirst(s: seq<string>, x: string): (r: seq<string>)
    ensures |r| == if x in s then |s| - 1 else |s|
    ensures forall y :: y in r ==> y in s
  {
    if x in s then s[..IndexOf(s, x)] + s[IndexOf(s, x) + 1..] else s
  }

  /**
   * RemoveFirst takes away exactly one copy of x when x is present and
   * nothing otherwise; every other name keeps its count and the survivors
   * keep their order.
   */
  lemma RemoveFirstRemovesOne(s: seq<string>, x: string)
    ensures var r := RemoveFirst(s, x);
            && (x in s ==> multiset(r) == multiset(s) - multiset{x})
            && (x !in s ==> r == s)
            && (|r| == |s| - 1 <==> x in s)
            && (|r| == |s| <==> x !in s)
  {
    if x in s {
      var i := IndexOf(s, x);
      assert s == s[..i] + [x] + s[i + 1..];
      assert multiset(s) == multiset(s[..i]) + multiset{x} + multiset(s[i + 1..]);
    }
  }

  /**
   * Removing x leaves the names before its first occurrence in place and
   * shifts the names after it down by one.
   */
  lemma RemoveFirstAt(s: seq<string>, x: string, j: nat)
    requires x in s && j < |s| - 1
    ensures var i := IndexOf(s, x);
            RemoveFirst(s, x)[j] == if j < i then s[j] else s[j + 1]
  {
  }

  /**
   * Removing a name that occurs once leaves none behind, so a second removal
   * finds nothing; a name that occurs twice is still there after one removal.
   */
  lemma RemoveFirstTwice(s: seq<string>, x: string)
    ensures x in RemoveFirst(s, x) <==> multiset(s)[x] >= 2
  {
    RemoveFirstRemovesOne(s, x);
    if x in s {
      assert multiset(RemoveFirst(s, x))[x] == multiset(s)[x] - 1;
    }
  }

  class SceneList {
    var items: seq<string>

    /** new List<string>(xs) */
    constructor (xs: seq<string>)
      ensures items == xs
    {
      items := xs;
    }

    method Add(x: string)
      modifies this
      ensures items == old(items) + [x]
    {
      items := items + [x];
    }

    /** AddRange reads other before changing this, so other may be this list. */
    method AddRange(other: SceneList)
      modifies this
      ensures items == old(items) + old(other.items)
    {
      items := items + other.items;
    }

    method Remove(x: string) returns (removed: bool)
      modifies this
      ensures removed == (x in old(items))
      ensures items == RemoveFirst(old(items), x)
    {
      removed := x in items;
      items := RemoveFirst(items, x);
    }
  }

  /** A possibly-null list as the code sees it: absent, or its contents. */
  function View(l: SceneList?): (v: Option<seq<string>>)
    reads l
    ensures v.None? <==> l == null
    ensures l != null ==> v.value == l.items
  {
    if l == null then None else Some(l.items)
  }
}
