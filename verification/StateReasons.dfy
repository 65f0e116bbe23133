/** The state-reason lists of jobs and printers (src/pd-common.c).
    The C function walks a NULL-terminated vector with two indices; `AddOrRemove` below is
    that loop, and `Updated` is the list it leaves in the freshly allocated vector. Reasons are
    only ever compared for equality, so their type is a parameter. */
module StateReasons {

  datatype Option<+T> = None | Some(value: T)

  ghost predicate NoDuplicates<T>(rs: seq<T>) {
    forall i, j :: 0 <= i < j < |rs| ==> rs[i] != rs[j]
  }

  /** The entries strictly before the first occurrence of `r`; everything when there is none. */
  function Before<T(==)>(rs: seq<T>, r: T): (b: seq<T>)
    ensures b <= rs
    ensures r !in b
    ensures r in rs ==> |b| < |rs| && rs[|b|] == r
    ensures r !in rs ==> b == rs
  {
    if rs == [] || rs[0] == r then [] else [rs[0]] + Before(rs[1..], r)
  }

  /** Every entry other than `r`, in order. */
  function Without<T(==)>(rs: seq<T>, r: T): (w: seq<T>)
    ensures |w| <= |rs|
  {
    if rs == [] then []
    else if rs[0] == r then Without(rs[1..], r)
    else [rs[0]] + Without(rs[1..], r)
  }

  /** What '+' does: appending an absent reason, but truncating at a present one. */
  function Add<T(==)>(rs: seq<T>, r: T): seq<T> {
    if r in rs then Before(rs, r) else rs + [r]
  }

  function Remove<T(==)>(rs: seq<T>, r: T): seq<T> {
    Without(rs, r)
  }

  /** Any operation character other than '+' takes the removal path. */
  function Updated<T(==)>(rs: seq<T>, op: char, r: T): seq<T> {
    if op == '+' then Add(rs, r) else Remove(rs, r)
  }

  /** The contents of a NULL-terminated vector: `rs` and then nothing but NULL. */
  ghost predicate IsVectorOf<T>(v: seq<Option<T>>, rs: seq<T>) {
    && |rs| < |v|
    && (forall k :: 0 <= k < |rs| ==> v[k] == Some(rs[k]))
    && (forall k :: |rs| <= k < |v| ==> v[k] == None)
  }

  /** What a reader of such a vector sees: the entries before the first NULL. */
  function Entries<T>(v: seq<Option<T>>): seq<T> {
    if v == [] || v[0].None? then [] else [v[0].value] + Entries(v[1..])
  }

  lemma {:induction false} EntriesOfVector<T>(v: seq<Option<T>>, rs: seq<T>)
    requires IsVectorOf(v, rs)
    ensures Entries(v) == rs
  {
    if rs != [] {
      EntriesOfVector(v[1..], rs[1..]);
    }
  }

  /** `add_or_remove_state_reason`. A missing vector counts as an empty one. */
  method AddOrRemove<T(==)>(reasons: Option<seq<T>>, op: char, reason: T)
    returns (strv: array<Option<T>>)
    ensures fresh(strv)
    ensures reasons.None? ==> IsVectorOf(strv[..], Updated([], op, reason)) && strv.Length == 2
    ensures reasons.Some? ==> IsVectorOf(strv[..], Updated(reasons.value, op, reason))
                              && strv.Length == 2 + |reasons.value|
  {
    var list := if reasons.None? then [] else reasons.value;
    strv := new Option<T>[2 + |list|](_ => None);
    var i, j := 0, 0;
    ghost var kept: seq<T> := [];
    while i < |list|
      invariant 0 <= j == |kept| <= i <= |list|
      invariant kept == Without(list[..i], reason)
      invariant forall k :: 0 <= k < j ==> strv[k] == Some(kept[k])
      invariant forall k :: j <= k < strv.Length ==> strv[k] == None
      invariant op == '+' ==> reason !in list[..i]
    {
      assert list[..i + 1] == list[..i] + [list[i]];
      WithoutDistributes(list[..i], [list[i]], reason);
      if list[i] == reason {
        if op == '+' {
          break;
        }
        i := i + 1;
        continue;
      }
      strv[j] := Some(list[i]);
      kept := kept + [list[i]];
      j := j + 1;
      i := i + 1;
    }
    WithoutAbsent(list[..i], reason);
    if op == '+' && i < |list| {
      BeforeIs(list, reason, i);
    } else {
      assert list[..i] == list;
      if op == '+' {
        strv[j] := Some(reason);
        j := j + 1;
      }
    }
  }

  lemma {:induction false} BeforeIs<T>(rs: seq<T>, r: T, k: nat)
    requires k < |rs| && rs[k] == r && r !in rs[..k]
    ensures Before(rs, r) == rs[..k]
  {
    if k > 0 {
      assert rs[0] == rs[..k][0];
      assert rs[1..][..k - 1] == rs[..k][1..];
      BeforeIs(rs[1..], r, k - 1);
    }
  }

  lemma {:induction false} WithoutDistributes<T>(a: seq<T>, b: seq<T>, r: T)
    ensures Without(a + b, r) == Without(a, r) + Without(b, r)
  {
    if a == [] {
      assert a + b == b;
    } else {
      assert (a + b)[1..] == a[1..] + b;
      WithoutDistributes(a[1..], b, r);
    }
  }

  lemma {:induction false} WithoutAbsent<T>(rs: seq<T>, r: T)
    ensures r !in rs ==> Without(rs, r) == rs
  {
    if rs != [] {
      WithoutAbsent(rs[1..], r);
    }
  }

  /** Removal is the filter: exactly the other reasons survive, each as often as before. */
  lemma {:induction false} RemoveIsFilter<T>(rs: seq<T>, r: T)
    ensures multiset(Remove(rs, r)) == multiset(rs)[r := 0]
    ensures forall x :: x in Remove(rs, r) <==> x in rs && x != r
  {
    if rs != [] {
      assert rs == [rs[0]] + rs[1..];
      RemoveIsFilter(rs[1..], r);
    }
  }

  /** Removal keeps the order: the result is what is left of `rs` along increasing indices. */
  lemma {:induction false} RemoveKeepsOrder<T>(rs: seq<T>, r: T) returns (at: seq<nat>)
    ensures |at| == |Remove(rs, r)|
    ensures forall k :: 0 <= k < |at| ==> at[k] < |rs| && rs[at[k]] == Remove(rs, r)[k]
    ensures forall k, l :: 0 <= k < l < |at| ==> at[k] < at[l]
  {
    if rs == [] {
      at := [];
    } else {
      var rest := RemoveKeepsOrder(rs[1..], r);
      var shifted := seq(|rest|, k requires 0 <= k < |rest| => rest[k] + 1);
      at := if rs[0] == r then shifted else [0] + shifted;
    }
  }

  /** '+' does what its caller wants (keep every entry and include the new one) exactly when
      the reason was absent. On a present reason it loses that reason and all after it. */
  lemma AddIncludesIffAbsent<T>(rs: seq<T>, r: T)
    ensures (rs <= Add(rs, r) && r in Add(rs, r)) <==> r !in rs
    ensures r in rs ==> exists k :: 0 <= k < |rs| && rs[k] == r && Add(rs, r) == rs[..k]
  {
    if r in rs {
      var b := Before(rs, r);
      assert rs[|b|] == r && Add(rs, r) == rs[..|b|];
    }
  }

  lemma UpdateKeepsDistinct<T>(rs: seq<T>, op: char, r: T)
    requires NoDuplicates(rs)
    ensures NoDuplicates(Updated(rs, op, r))
    ensures |Updated(rs, op, r)| <= |rs| + 1
  {
    if op != '+' {
      var at := RemoveKeepsOrder(rs, r);
    }
  }

  /** Adding an absent reason and removing it again gives the same list back. */
  lemma RemoveUndoesAdd<T>(rs: seq<T>, r: T)
    requires r !in rs
    ensures Remove(Add(rs, r), r) == rs
  {
    WithoutDistributes(rs, [r], r);
    WithoutAbsent(rs, r);
  }

  /** The first reason survives every update that names another reason. */
  lemma FirstReasonSurvives<T>(rs: seq<T>, op: char, r: T)
    requires rs != [] && rs[0] != r
    ensures Updated(rs, op, r) != [] && Updated(rs, op, r)[0] == rs[0]
  {
  }

  lemma {:induction false} OneIsFirst<T>(rs: seq<T>, a: T, b: T)
    requires a in rs && b in rs && a != b
    ensures a in Before(rs, b) <==> b !in Before(rs, a)
  {
    if rs[0] != a && rs[0] != b {
      assert a in rs[1..] && b in rs[1..];
      OneIsFirst(rs[1..], a, b);
    }
  }

  /** Adding `r` keeps an entry `x` exactly when `r` does not stand before it. */
  lemma AddKeepsIff<T>(rs: seq<T>, r: T, x: T)
    requires x in rs && r != x
    ensures x in Add(rs, r) <==> r !in Before(rs, x)
  {
    if r in rs {
      OneIsFirst(rs, r, x);
    } else {
      assert r !in Before(rs, x);
    }
  }

  /** Removing a third entry does not change which of two comes first. */
  lemma {:induction false} BeforeWithout<T>(rs: seq<T>, x: T, r: T, t: T)
    requires r != t && x != t
    ensures r in Before(Without(rs, t), x) <==> r in Before(rs, x)
  {
    if rs != [] {
      BeforeWithout(rs[1..], x, r, t);
    }
  }
}
