/** One cache set as cache/set.go declares it: a doubly-linked list of tags whose back is the
    most-recently-used end and whose front is the end a miss evicts, plus an associativity
    field. The list is modelled as a sequence, index 0 being the front. */
module LruSet {
  /** No tag occurs twice. */
  predicate Distinct(l: seq<nat>) {
    forall i, j :: 0 <= i < j < |l| ==> l[i] != l[j]
  }

  /** The list after the element at `e` is unlinked and its tag pushed at the back. */
  function Promote(l: seq<nat>, e: nat): (r: seq<nat>)
    requires e < |l|
    ensures |r| == |l| && r[|l| - 1] == l[e]
    ensures multiset(r) == multiset(l)
  {
    assert l == l[..e] + [l[e]] + l[e + 1..];
    l[..e] + l[e + 1..] + [l[e]]
  }

  /** What a lookup reports and the list it leaves. */
  datatype Lookup = Lookup(hit: bool, list: seq<nat>)

  /** The list walk of CheckTag: from index `from`, while the current index is below `until`,
      an element holding `tag` is moved to the back (a hit); when the walk ends without one,
      the front element is removed and `tag` pushed at the back (a miss). The walk as written
      continues while the element has a successor (`until` = |l| - 1); the walk evidently
      intended visits every element (`until` = |l|). */
  function Walk(l: seq<nat>, tag: nat, from: nat, until: nat): (r: Lookup)
    requires |l| > 0 && until <= |l|
    ensures |r.list| == |l| && r.list[|l| - 1] == tag
    ensures r.hit ==> multiset(r.list) == multiset(l)
    decreases until - from
  {
    if from < until then
      if l[from] == tag then Lookup(true, Promote(l, from)) else Walk(l, tag, from + 1, until)
    else
      Lookup(false, l[1..] + [tag])
  }

  /** The walk hits exactly when the tag sits in the visited range; a hit moves the first such
      element to the back, a miss evicts the front. */
  lemma {:induction false} WalkShape(l: seq<nat>, tag: nat, from: nat, until: nat) returns (e: nat)
    requires |l| > 0 && until <= |l|
    ensures var r := Walk(l, tag, from, until);
      (r.hit <==> exists i :: from <= i < until && l[i] == tag) &&
      (r.hit ==> from <= e < until && l[e] == tag && r.list == Promote(l, e)) &&
      (r.hit ==> forall k :: from <= k < e ==> l[k] != tag) &&
      (!r.hit ==> r.list == l[1..] + [tag])
    decreases until - from
  {
    e := 0;
    if from < until {
      if l[from] == tag {
        e := from;
      } else {
        e := WalkShape(l, tag, from + 1, until);
      }
    }
  }

  /** As written, the walk starts at the back, which has no successor: no lookup ever hits,
      and every lookup evicts the front. */
  lemma AsWrittenNeverHits(l: seq<nat>, tag: nat)
    requires |l| > 0
    ensures Walk(l, tag, |l| - 1, |l| - 1) == Lookup(false, l[1..] + [tag])
  {
  }

  /** As written, looking up a resident tag that is not at the front reports a miss and leaves
      two copies of it: the list no longer holds distinct tags. */
  lemma AsWrittenDuplicatesResidentTag(l: seq<nat>, tag: nat)
    requires |l| > 0 && Distinct(l) && tag in l[1..]
    ensures var r := Walk(l, tag, |l| - 1, |l| - 1);
      !r.hit && !Distinct(r.list)
  {
    var r := Walk(l, tag, |l| - 1, |l| - 1);
    var i :| 1 <= i < |l| && l[i] == tag;
    assert r.list[i - 1] == tag == r.list[|l| - 1];
  }

  /** Intended: a lookup hits exactly when the tag is resident. */
  lemma IntendedHitIff(l: seq<nat>, tag: nat)
    requires |l| > 0
    ensures Walk(l, tag, 0, |l|).hit <==> tag in l
  {
    var _ := WalkShape(l, tag, 0, |l|);
  }

  /** Intended: a lookup keeps the tags of a set distinct. */
  lemma IntendedKeepsDistinct(l: seq<nat>, tag: nat)
    requires |l| > 0 && Distinct(l)
    ensures Distinct(Walk(l, tag, 0, |l|).list)
  {
    var r := Walk(l, tag, 0, |l|);
    var e := WalkShape(l, tag, 0, |l|);
    if r.hit {
      PromoteKeepsDistinct(l, e);
    } else {
      assert tag !in l;
      var m := l[1..] + [tag];
      forall i, j | 0 <= i < j < |m| ensures m[i] != m[j] {
        if j < |m| - 1 {
          assert m[i] == l[i + 1] && m[j] == l[j + 1];
        } else {
          assert m[i] == l[i + 1];
        }
      }
    }
  }

  lemma PromoteKeepsDistinct(l: seq<nat>, e: nat)
    requires e < |l| && Distinct(l)
    ensures Distinct(Promote(l, e))
  {
    var r := Promote(l, e);
    // position p of r holds the element of l at Source(p)
    forall i, j | 0 <= i < j < |r| ensures r[i] != r[j] {
      var si := if i < e then i else if i < |l| - 1 then i + 1 else e;
      var sj := if j < e then j else if j < |l| - 1 then j + 1 else e;
      assert r[i] == l[si] && r[j] == l[sj];
      assert si != sj;
    }
  }

  class Set {
    var l: seq<nat>
    const associativity: int

    constructor (tags: seq<nat>, associativity: int)
      ensures l == tags && this.associativity == associativity
    {
      l := tags;
      this.associativity := associativity;
    }

    /** Looks `tag` up, moving it to the back on a hit; on a miss evicts the front and pushes
        `tag` at the back. An empty list has no back element to start from, so the source
        fails on it. As written the lookup never hits. */
    method CheckTag(tag: nat) returns (hit: bool)
      requires |l| > 0
      modifies this
      ensures !hit
      ensures l == old(l)[1..] + [tag]
    {
      hit := ScanFrom(tag, |l| - 1);
    }

    /** The loop of CheckTag entered at element `start`: it advances while the current
        element has a successor. */
    method ScanFrom(tag: nat, start: nat) returns (hit: bool)
      requires start < |l|
      modifies this
      ensures Lookup(hit, l) == Walk(old(l), tag, start, |old(l)| - 1)
    {
      var e := start;
      while e + 1 < |l|
        invariant start <= e < |l| && l == old(l)
        invariant Walk(l, tag, e, |l| - 1) == Walk(l, tag, start, |l| - 1)
        decreases |l| - e
      {
        if l[e] == tag {
          l := l[..e] + l[e + 1..];
          l := l + [tag];
          return true;
        }
        e := e + 1;
      }
      l := l[1..];
      l := l + [tag];
      hit := false;
    }

    /** The lookup as evidently intended: every element from the front is visited. */
    method CheckTagIntended(tag: nat) returns (hit: bool)
      requires |l| > 0
      modifies this
      ensures Lookup(hit, l) == Walk(old(l), tag, 0, |old(l)|)
      ensures hit <==> tag in old(l)
      ensures |l| == |old(l)| && l[|l| - 1] == tag
      ensures Distinct(old(l)) ==> Distinct(l)
    {
      IntendedHitIff(l, tag);
      if Distinct(l) {
        IntendedKeepsDistinct(l, tag);
      }
      var e := 0;
      while e < |l|
        invariant 0 <= e <= |l| && l == old(l)
        invariant Walk(l, tag, e, |l|) == Walk(l, tag, 0, |l|)
        decreases |l| - e
      {
        if l[e] == tag {
          l := l[..e] + l[e + 1..];
          l := l + [tag];
          return true;
        }
        e := e + 1;
      }
      l := l[1..];
      l := l + [tag];
      hit := false;
    }
  }
}
