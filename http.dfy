/**
 * What the services need of HTTP: a response with a status code, the acceptance rule each
 * service method applies to it, and `URLSearchParams` as an ordered list of name/value pairs.
 */
module Http {
  import opened Wrappers
  import opened Strings

  /** An axios response as a service method sees it: its status code, its body
      (`response.data`), and the body's `message` (`response.data.message`). */
  datatype Response<D> = Response(status: int, data: D, message: string)

  /**
   * `if (accepted(response.status)) return response.data; throw new Error(response.data.message)`
   */
  function Accept<D>(response: Response<D>, accepted: set<int>): (r: Result<D, string>)
    ensures r.Success? <==> response.status in accepted
    ensures r.Success? ==> r.value == response.data
    ensures r.Failure? ==> r.error == response.message
  {
    if response.status in accepted then Success(response.data) else Failure(response.message)
  }

  type Pairs = seq<(string, string)>

  /** The names in order. */
  function Keys(ps: Pairs): (ks: seq<string>)
    ensures |ks| == |ps|
    decreases |ps|
  {
    if ps == [] then [] else [ps[0].0] + Keys(ps[1..])
  }

  /** `params.get(k)`: the value of the first pair named k, if any. */
  function Lookup(ps: Pairs, k: string): Option<string>
    decreases |ps|
  {
    if ps == [] then None else if ps[0].0 == k then Some(ps[0].1) else Lookup(ps[1..], k)
  }

  /** Every pair named k removed. */
  function RemoveKey(ps: Pairs, k: string): Pairs
    decreases |ps|
  {
    if ps == [] then []
    else (if ps[0].0 == k then [] else [ps[0]]) + RemoveKey(ps[1..], k)
  }

  /**
   * `params.set(k, v)`: the first pair named k takes the value v and the other pairs named k
   * go; with no pair named k, (k, v) is appended.
   */
  function SetParam(ps: Pairs, k: string, v: string): Pairs
    decreases |ps|
  {
    if ps == [] then [(k, v)]
    else if ps[0].0 == k then [(k, v)] + RemoveKey(ps[1..], k)
    else [ps[0]] + SetParam(ps[1..], k, v)
  }

  /** `params.toString()` without percent-encoding: `k1=v1&k2=v2...`. */
  function Render(ps: Pairs): (r: string)
    ensures r == "" <==> ps == []
    decreases |ps|
  {
    if ps == [] then ""
    else if |ps| == 1 then ps[0].0 + "=" + ps[0].1
    else ps[0].0 + "=" + ps[0].1 + "&" + Render(ps[1..])
  }

  /** A name that is not there has no value. */
  lemma {:induction false} LookupAbsent(ps: Pairs, k: string)
    requires k !in Keys(ps)
    ensures Lookup(ps, k) == None
    decreases |ps|
  {
    if ps != [] {
      assert Keys(ps) == [ps[0].0] + Keys(ps[1..]);
      LookupAbsent(ps[1..], k);
    }
  }

  lemma {:induction false} RemoveKeyCleans(ps: Pairs, k: string)
    ensures k !in Keys(RemoveKey(ps, k))
    decreases |ps|
  {
    if ps != [] {
      RemoveKeyCleans(ps[1..], k);
      var h := if ps[0].0 == k then [] else [ps[0]];
      KeysAppend(h, RemoveKey(ps[1..], k));
    }
  }

  lemma {:induction false} RemoveKeyOthers(ps: Pairs, k: string, j: string)
    requires j != k
    ensures Lookup(RemoveKey(ps, k), j) == Lookup(ps, j)
    decreases |ps|
  {
    if ps != [] {
      RemoveKeyOthers(ps[1..], k, j);
      var h := if ps[0].0 == k then [] else [ps[0]];
      var t := RemoveKey(ps[1..], k);
      assert RemoveKey(ps, k) == h + t;
      if h != [] {
        assert (h + t)[1..] == t;
      } else {
        assert h + t == t;
      }
    }
  }

  /** After `set(k, v)` the name k carries v, and only one pair has that name. */
  lemma {:induction false} SetParamSets(ps: Pairs, k: string, v: string)
    ensures Lookup(SetParam(ps, k, v), k) == Some(v)
    ensures multiset(Keys(SetParam(ps, k, v)))[k] == 1
    decreases |ps|
  {
    if ps == [] {
    } else if ps[0].0 == k {
      var t := RemoveKey(ps[1..], k);
      KeysAppend([(k, v)], t);
      RemoveKeyCleans(ps[1..], k);
      assert k !in multiset(Keys(t));
    } else {
      SetParamSets(ps[1..], k, v);
      var t := SetParam(ps[1..], k, v);
      KeysAppend([ps[0]], t);
      assert ([ps[0]] + t)[1..] == t;
    }
  }

  /** `set(k, v)` leaves every other name as it was. */
  lemma {:induction false} SetParamOthers(ps: Pairs, k: string, v: string, j: string)
    requires j != k
    ensures Lookup(SetParam(ps, k, v), j) == Lookup(ps, j)
    decreases |ps|
  {
    if ps != [] {
      if ps[0].0 == k {
        var t := RemoveKey(ps[1..], k);
        assert ([(k, v)] + t)[1..] == t;
        RemoveKeyOthers(ps[1..], k, j);
      } else {
        SetParamOthers(ps[1..], k, v, j);
        assert ([ps[0]] + SetParam(ps[1..], k, v))[1..] == SetParam(ps[1..], k, v);
      }
    }
  }

  /** Setting a new name appends it. */
  lemma {:induction false} SetParamAbsent(ps: Pairs, k: string, v: string)
    requires k !in Keys(ps)
    ensures SetParam(ps, k, v) == ps + [(k, v)]
    decreases |ps|
  {
    if ps != [] {
      assert Keys(ps) == [ps[0].0] + Keys(ps[1..]);
      SetParamAbsent(ps[1..], k, v);
      assert ps == [ps[0]] + ps[1..];
    }
  }

  lemma {:induction false} KeysAppend(a: Pairs, b: Pairs)
    ensures Keys(a + b) == Keys(a) + Keys(b)
    decreases |a|
  {
    if a == [] {
      assert a + b == b;
    } else {
      assert (a + b)[1..] == a[1..] + b;
      KeysAppend(a[1..], b);
    }
  }

  // ---------------------------------------------------------------------------
  // Queries built by guarded `set` calls of distinct names

  /** What `if (given) params.set(k, v)` leaves when no pair is named k yet. */
  function AddIf(ps: Pairs, given: bool, k: string, v: string): Pairs {
    if given then ps + [(k, v)] else ps
  }

  /** A guarded `set` adds its name at the end when given. */
  lemma KeysAddIf(ps: Pairs, given: bool, k: string, v: string)
    ensures Keys(AddIf(ps, given, k, v)) == Keys(ps) + (if given then [k] else [])
  {
    if given {
      KeysAppend(ps, [(k, v)]);
    }
  }

  /** After a guarded `set` of a new name, that name reads v when given, and the others
      read as before. */
  lemma LookupAddIf(ps: Pairs, given: bool, k: string, v: string, j: string)
    requires k !in Keys(ps)
    ensures Lookup(AddIf(ps, given, k, v), j) == if given && j == k then Some(v) else Lookup(ps, j)
  {
    if given {
      LookupAppendOne(ps, k, v, j);
    }
  }

  /** A name found in a prefix keeps its value in the whole list. */
  lemma {:induction false} LookupPrefix(a: Pairs, b: Pairs, k: string)
    requires |a| <= |b| && a == b[..|a|] && Lookup(a, k).Some?
    ensures Lookup(b, k) == Lookup(a, k)
    decreases |a|
  {
    if a[0].0 != k {
      assert a[1..] == b[1..][..|a| - 1];
      LookupPrefix(a[1..], b[1..], k);
    }
  }

  lemma {:induction false} LookupAppendOne(ps: Pairs, k: string, v: string, j: string)
    requires k !in Keys(ps)
    ensures Lookup(ps + [(k, v)], j) == if j == k then Some(v) else Lookup(ps, j)
    decreases |ps|
  {
    if ps == [] {
      assert ps + [(k, v)] == [(k, v)];
    } else {
      assert Keys(ps) == [ps[0].0] + Keys(ps[1..]);
      assert (ps + [(k, v)])[1..] == ps[1..] + [(k, v)];
      LookupAppendOne(ps[1..], k, v, j);
    }
  }

  /** A `URLSearchParams` object as it is filled in, one `set` at a time. */
  class SearchParams {
    var pairs: Pairs

    /** `new URLSearchParams()` */
    constructor()
      ensures pairs == []
    {
      pairs := [];
    }

    method Set(k: string, v: string)
      modifies this
      ensures pairs == SetParam(old(pairs), k, v)
    {
      pairs := SetParam(pairs, k, v);
    }

    /** `if (given) params.set(k, v)` for a name not set yet. */
    method SetIf(given: bool, k: string, v: string)
      requires k !in Keys(pairs)
      modifies this
      ensures pairs == AddIf(old(pairs), given, k, v)
    {
      if given {
        SetParamAbsent(pairs, k, v);
        Set(k, v);
      }
    }

    function ToString(): string
      reads this
    {
      Render(pairs)
    }
  }
}
