/** What several components share. */
module Common {

  const HOUR_MS := 3_600_000
  const MAX_SAFE_INTEGER := 0x1F_FFFF_FFFF_FFFF

  datatype Option<T> = None | Some(value: T)

  function Min(x: int, y: int): int {
    if x < y then x else y
  }

  function Max(x: int, y: int): int {
    if x < y then y else x
  }

  predicate Distinct<T(==)>(s: seq<T>) {
    forall i, j :: 0 <= i < j < |s| ==> s[i] != s[j]
  }

  lemma DistinctAppend<T>(s: seq<T>, x: T)
    ensures Distinct(s + [x]) <==> Distinct(s) && x !in s
  {
    assert forall i :: 0 <= i < |s| ==> (s + [x])[i] == s[i];
    assert (s + [x])[|s|] == x;
    if Distinct(s + [x]) {
      forall i | 0 <= i < |s| ensures s[i] != x {
        assert (s + [x])[i] != (s + [x])[|s|];
      }
    }
  }

  // ----- selecting -----

  function Same<T>(x: T): T {
    x
  }

  function Select<T>(s: seq<T>, keep: T -> bool, f: T -> T): seq<T> {
    if s == [] then []
    else Select(s[..|s| - 1], keep, f) + (if keep(s[|s| - 1]) then [f(s[|s| - 1])] else [])
  }

  lemma SelectNext<T>(s: seq<T>, last: T, keep: T -> bool, f: T -> T)
    ensures Select(s + [last], keep, f) == Select(s, keep, f) + (if keep(last) then [f(last)] else [])
  {
    assert (s + [last])[..|s|] == s;
  }

  lemma {:induction false} SelectNoLonger<T>(s: seq<T>, keep: T -> bool, f: T -> T)
    ensures |Select(s, keep, f)| <= |s|
  {
    if s != [] {
      SelectNoLonger(s[..|s| - 1], keep, f);
    }
  }

  lemma SameLast<T>(a: seq<T>, x: T, b: seq<T>, y: T)
    ensures a + [x] == b + [y] <==> a == b && x == y
  {
    if a + [x] == b + [y] {
      assert (a + [x])[..|a|] == a && (b + [y])[..|b|] == b && (a + [x])[|a|] == x && (b + [y])[|b|] == y;
    }
  }

  /** A selection leaves a list as it is exactly if it takes every element, unchanged. */
  lemma {:induction false} SelectsAllIff<T>(s: seq<T>, keep: T -> bool, f: T -> T)
    ensures Select(s, keep, f) == s <==> forall i :: 0 <= i < |s| ==> keep(s[i]) && f(s[i]) == s[i]
  {
    if s != [] {
      var init, last := s[..|s| - 1], s[|s| - 1];
      assert s == init + [last];
      SelectsAllIff(init, keep, f);
      SelectNext(init, last, keep, f);
      SelectNoLonger(init, keep, f);
      SameLast(Select(init, keep, f), f(last), init, last);
      assert (forall i :: 0 <= i < |s| ==> keep(s[i]) && f(s[i]) == s[i])
        <==> ((forall i :: 0 <= i < |init| ==> keep(init[i]) && f(init[i]) == init[i])
             && keep(last) && f(last) == last);
    }
  }

  /** Of two selections, one narrower than the other, the results agree exactly if both take the same. */
  lemma {:induction false} SelectionsAgreeIff<T>(s: seq<T>, narrow: T -> bool, wide: T -> bool)
    requires forall i :: 0 <= i < |s| ==> narrow(s[i]) ==> wide(s[i])
    ensures |Select(s, narrow, Same)| <= |Select(s, wide, Same)|
    ensures Select(s, narrow, Same) == Select(s, wide, Same)
            <==> forall i :: 0 <= i < |s| ==> wide(s[i]) ==> narrow(s[i])
  {
    if s != [] {
      var init, last := s[..|s| - 1], s[|s| - 1];
      assert s == init + [last];
      SelectionsAgreeIff(init, narrow, wide);
      SelectNext(init, last, narrow, Same);
      SelectNext(init, last, wide, Same);
      SameLast(Select(init, narrow, Same), last, Select(init, wide, Same), last);
      assert Select(init, narrow, Same) + [] == Select(init, narrow, Same);
      assert Select(init, wide, Same) + [] == Select(init, wide, Same);
      assert (forall i :: 0 <= i < |s| ==> wide(s[i]) ==> narrow(s[i]))
        <==> ((forall i :: 0 <= i < |init| ==> wide(init[i]) ==> narrow(init[i])) && (wide(last) ==> narrow(last)));
    }
  }

  lemma {:induction false} SelectHolds<T>(s: seq<T>, keep: T -> bool, f: T -> T, i: nat)
    requires i < |s| && keep(s[i])
    ensures exists j :: 0 <= j < |Select(s, keep, f)| && Select(s, keep, f)[j] == f(s[i])
  {
    var init, last := s[..|s| - 1], s[|s| - 1];
    assert s == init + [last];
    SelectNext(init, last, keep, f);
    if i == |init| {
      assert Select(s, keep, f)[|Select(init, keep, f)|] == f(last);
    } else {
      SelectHolds(init, keep, f, i);
      var j :| 0 <= j < |Select(init, keep, f)| && Select(init, keep, f)[j] == f(init[i]);
      assert Select(s, keep, f)[j] == f(s[i]);
    }
  }

  lemma {:induction false} SelectFrom<T>(s: seq<T>, keep: T -> bool, f: T -> T, j: nat)
    requires j < |Select(s, keep, f)|
    ensures exists i :: 0 <= i < |s| && keep(s[i]) && Select(s, keep, f)[j] == f(s[i])
  {
    var init, last := s[..|s| - 1], s[|s| - 1];
    assert s == init + [last];
    SelectNext(init, last, keep, f);
    if j == |Select(init, keep, f)| {
      assert keep(s[|init|]) && Select(s, keep, f)[j] == f(s[|init|]);
    } else {
      SelectFrom(init, keep, f, j);
      var i :| 0 <= i < |init| && keep(init[i]) && Select(init, keep, f)[j] == f(init[i]);
      assert keep(s[i]) && Select(s, keep, f)[j] == f(s[i]);
    }
  }

  /** Lists that correspond element by element, to selections that agree, keep corresponding. */
  lemma {:induction false} SelectsCorrespond<T, U>(a: seq<T>, b: seq<U>, keepA: T -> bool, keepB: U -> bool,
      matches: (T, U) -> bool)
    requires |a| == |b| && forall i :: 0 <= i < |a| ==> matches(a[i], b[i]) && (keepA(a[i]) <==> keepB(b[i]))
    ensures |Select(a, keepA, Same)| == |Select(b, keepB, Same)|
    ensures forall j ::
              0 <= j < |Select(a, keepA, Same)| ==> matches(Select(a, keepA, Same)[j], Select(b, keepB, Same)[j])
  {
    if a != [] {
      var n := |a| - 1;
      assert a == a[..n] + [a[n]] && b == b[..n] + [b[n]];
      SelectsCorrespond(a[..n], b[..n], keepA, keepB, matches);
      SelectNext(a[..n], a[n], keepA, Same);
      SelectNext(b[..n], b[n], keepB, Same);
    }
  }
}
