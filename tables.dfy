/**
 * In-memory stand-ins for the ORM queries the views use: a table is a
 * sequence of rows in insertion order, `Get` is `QuerySet.get` (exactly one
 * match, none, or more than one) and `Filter` is `QuerySet.filter`.
 */
module Tables {

  type UserId = nat

  datatype Option<+T> = None | Some(value: T)

  datatype Result<+T, +E> = Ok(value: T) | Err(error: E)

  /** Outcome of a `get`: the row's index, `DoesNotExist`, or `MultipleObjectsReturned`. */
  datatype Found = Missing | One(index: nat) | Many

  /** `QuerySet.get(p)` over a table. */
  function Get<T>(s: seq<T>, p: T -> bool): (r: Found)
    ensures r.Missing? <==> forall j :: 0 <= j < |s| ==> !p(s[j])
    ensures r.One? ==> r.index < |s| && p(s[r.index])
    ensures r.One? ==> forall j :: 0 <= j < |s| && j != r.index ==> !p(s[j])
    ensures r.Many? <==> exists i, j :: 0 <= i < j < |s| && p(s[i]) && p(s[j])
  {
    if s == [] then Missing
    else
      var rest := Get(s[1..], p);
      assert forall j :: 0 < j < |s| ==> s[j] == s[1..][j - 1];
      if p(s[0]) then
        (if rest.Missing? then One(0)
         else
           var j :| 0 <= j < |s[1..]| && p(s[1..][j]);
           assert p(s[j + 1]);
           Many)
      else
        match rest
        case Missing => Missing
        case One(i) => One(i + 1)
        case Many =>
          var i, j :| 0 <= i < j < |s[1..]| && p(s[1..][i]) && p(s[1..][j]);
          assert p(s[i + 1]) && p(s[j + 1]);
          Many
  }

  /** `QuerySet.filter(p)`: the rows satisfying `p`, in table order. */
  function Filter<T>(s: seq<T>, p: T -> bool): (r: seq<T>)
    ensures |r| <= |s|
    ensures forall i :: 0 <= i < |r| ==> r[i] in s && p(r[i])
    ensures forall j :: 0 <= j < |s| && p(s[j]) ==> s[j] in r
  {
    if s == [] then []
    else if p(s[0]) then [s[0]] + Filter(s[1..], p)
    else Filter(s[1..], p)
  }

  /** Filtering keeps table order: it distributes over concatenation. */
  lemma {:induction false} FilterAppend<T>(a: seq<T>, b: seq<T>, p: T -> bool)
    ensures Filter(a + b, p) == Filter(a, p) + Filter(b, p)
  {
    if a == [] {
      assert a + b == b;
    } else {
      assert (a + b)[1..] == a[1..] + b;
      FilterAppend(a[1..], b, p);
    }
  }

  /** No two rows of `s` share a value of `key` (a primary key or a unique column). */
  ghost predicate DistinctOn<T, K>(s: seq<T>, key: T -> K) {
    forall i, j :: 0 <= i < j < |s| ==> key(s[i]) != key(s[j])
  }

  /** Every row's `key` is below `bound`: the next id the table hands out is unused. */
  ghost predicate KeysBelow<T>(s: seq<T>, key: T -> nat, bound: nat) {
    forall i :: 0 <= i < |s| ==> key(s[i]) < bound
  }

  /** Deleting rows by a filter keeps a unique column unique. */
  lemma {:induction false} FilterDistinct<T, K>(s: seq<T>, p: T -> bool, key: T -> K)
    requires DistinctOn(s, key)
    ensures DistinctOn(Filter(s, p), key)
  {
    if s != [] {
      FilterDistinct(s[1..], p, key);
      var rest := Filter(s[1..], p);
      if p(s[0]) {
        forall j | 0 <= j < |rest| ensures key(s[0]) != key(rest[j]) {
          var k :| 0 <= k < |s[1..]| && s[1..][k] == rest[j];
          assert s[k + 1] == rest[j];
        }
      }
    }
  }

  /** Deleting rows by a filter keeps every key below the bound. */
  lemma FilterKeysBelow<T>(s: seq<T>, p: T -> bool, key: T -> nat, bound: nat)
    requires KeysBelow(s, key, bound)
    ensures KeysBelow(Filter(s, p), key, bound)
  {
  }
}
