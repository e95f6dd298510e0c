/**
 * Lists of ids as the components keep them: removal by `filter`, and the select/deselect
 * toggle used for social profiles (create-post page) and for pages to add (OAuth callback).
 */
module IdLists {

  /** No id occurs twice. */
  predicate NoDup(ids: seq<string>) {
    forall i, j :: 0 <= i < j < |ids| ==> ids[i] != ids[j]
  }

  /** `xs.map(x => id(x))`: the ids of a list of records, in order. */
  function Ids<T>(xs: seq<T>, id: T -> string): (ids: seq<string>)
    ensures |ids| == |xs|
    ensures forall i :: 0 <= i < |xs| ==> ids[i] == id(xs[i])
  {
    seq(|xs|, i requires 0 <= i < |xs| => id(xs[i]))
  }

  /** `ids.filter(id => id !== x)` */
  function Remove(ids: seq<string>, x: string): (r: seq<string>)
    ensures x !in r
    ensures |r| <= |ids|
    decreases |ids|
  {
    if ids == [] then []
    else (if ids[0] == x then [] else [ids[0]]) + Remove(ids[1..], x)
  }

  /**
   * `ids.includes(x) ? ids.filter(id => id !== x) : [...ids, x]`: deselect an id that is
   * there (every copy of it), select one that is not (at the end).
   */
  function Toggle(ids: seq<string>, x: string): (r: seq<string>)
    ensures x in r <==> x !in ids
    ensures forall y :: y != x ==> (y in r <==> y in ids)
  {
    if x in ids then
      RemoveAllMembers(ids, x);
      Remove(ids, x)
    else ids + [x]
  }

  /** Removal keeps exactly the other ids. */
  lemma {:induction false} RemoveMembers(ids: seq<string>, x: string, y: string)
    ensures y in Remove(ids, x) <==> y in ids && y != x
    decreases |ids|
  {
    if ids != [] {
      RemoveMembers(ids[1..], x, y);
      RemoveCons(ids[0], ids[1..], x);
      assert ids == [ids[0]] + ids[1..];
    }
  }

  lemma RemoveAllMembers(ids: seq<string>, x: string)
    ensures forall y :: y in Remove(ids, x) <==> y in ids && y != x
  {
    forall y {
      RemoveMembers(ids, x, y);
    }
  }

  lemma RemoveCons(y: string, t: seq<string>, x: string)
    ensures Remove([y] + t, x) == (if y == x then [] else [y]) + Remove(t, x)
  {
    assert ([y] + t)[1..] == t;
  }

  /** Removal works piece by piece, so the ids that stay keep their order. */
  lemma {:induction false} RemoveAppend(a: seq<string>, b: seq<string>, x: string)
    ensures Remove(a + b, x) == Remove(a, x) + Remove(b, x)
    decreases |a|
  {
    if a == [] {
      assert a + b == b;
    } else {
      assert (a + b)[1..] == a[1..] + b;
      RemoveAppend(a[1..], b, x);
    }
  }

  /** Removing an id that is not there changes nothing. */
  lemma {:induction false} RemoveAbsent(ids: seq<string>, x: string)
    requires x !in ids
    ensures Remove(ids, x) == ids
    decreases |ids|
  {
    if ids != [] {
      RemoveAbsent(ids[1..], x);
      RemoveCons(ids[0], ids[1..], x);
      assert [ids[0]] + ids[1..] == ids;
    }
  }

  /** Removal keeps a duplicate-free list duplicate-free. */
  lemma {:induction false} RemoveNoDup(ids: seq<string>, x: string)
    requires NoDup(ids)
    ensures NoDup(Remove(ids, x))
    decreases |ids|
  {
    if ids != [] {
      var t := ids[1..];
      assert NoDup(t) by {
        forall i, j | 0 <= i < j < |t| ensures t[i] != t[j] {
          assert t[i] == ids[i + 1] && t[j] == ids[j + 1];
        }
      }
      RemoveNoDup(t, x);
      var h := if ids[0] == x then [] else [ids[0]];
      var r := Remove(t, x);
      assert ids[0] !in t by {
        forall k | 0 <= k < |t| ensures t[k] != ids[0] {
          assert t[k] == ids[k + 1];
        }
      }
      RemoveCons(ids[0], t, x);
      RemoveMembers(t, x, ids[0]);
      assert ids == [ids[0]] + t;
      forall i, j | 0 <= i < j < |h + r| ensures (h + r)[i] != (h + r)[j] {
        if i < |h| {
          assert (h + r)[j] == r[j - 1];
          assert r[j - 1] in r;
        } else {
          assert (h + r)[i] == r[i - |h|] && (h + r)[j] == r[j - |h|];
        }
      }
    }
  }

  /** The toggle keeps a duplicate-free list duplicate-free. */
  lemma ToggleNoDup(ids: seq<string>, x: string)
    requires NoDup(ids)
    ensures NoDup(Toggle(ids, x))
  {
    if x in ids {
      RemoveNoDup(ids, x);
    } else {
      var r := ids + [x];
      forall i, j | 0 <= i < j < |r| ensures r[i] != r[j] {
        if j == |ids| {
          assert r[i] == ids[i];
        } else {
          assert r[i] == ids[i] && r[j] == ids[j];
        }
      }
    }
  }

  /** Selecting an id and deselecting it again gives the original list back. */
  lemma ToggleTwiceAbsent(ids: seq<string>, x: string)
    requires x !in ids
    ensures Toggle(Toggle(ids, x), x) == ids
  {
    RemoveAppend(ids, [x], x);
    RemoveAbsent(ids, x);
    RemoveCons(x, [], x);
    assert Remove([x], x) == [];
    assert ids + [] == ids;
  }

  /** In a duplicate-free list, an id occurs nowhere but at its one position. */
  lemma NoDupAround(a: seq<string>, x: string, b: seq<string>)
    requires NoDup(a + [x] + b)
    ensures x !in a && x !in b
  {
    var ids := a + [x] + b;
    forall k | 0 <= k < |a| ensures a[k] != x {
      assert ids[k] == a[k] && ids[|a|] == x;
    }
    forall k | 0 <= k < |b| ensures b[k] != x {
      assert ids[|a| + 1 + k] == b[k] && ids[|a|] == x;
    }
  }

  lemma RemoveMiddle(a: seq<string>, x: string, b: seq<string>)
    requires x !in a && x !in b
    ensures Remove(a + [x] + b, x) == a + b
  {
    var t := [x] + b;
    RemoveCons(x, b, x);
    RemoveAbsent(b, x);
    assert Remove(t, x) == [] + b == b;
    RemoveAppend(a, t, x);
    RemoveAbsent(a, x);
    assert a + [x] + b == a + t;
  }

  /** Deselecting an id of a duplicate-free list and selecting it again moves it to the end. */
  lemma ToggleTwicePresent(a: seq<string>, x: string, b: seq<string>)
    requires NoDup(a + [x] + b)
    ensures Toggle(Toggle(a + [x] + b, x), x) == a + b + [x]
  {
    NoDupAround(a, x, b);
    var ids := a + [x] + b;
    assert x in ids by { assert ids[|a|] == x; }
    RemoveMiddle(a, x, b);
    assert x !in a + b;
  }
}
