/**
 * String helpers shared by the model: Python's `sep.join(parts)` and the
 * lexicographic order that `json.dumps(..., sort_keys=True)` puts keys in.
 */
module Strings {

  /** `sep.join(parts)`: the parts with `sep` between neighbours, "" for no parts. */
  function Join(sep: string, parts: seq<string>): (r: string)
    ensures |parts| == 0 ==> r == ""
    ensures |parts| == 1 ==> r == parts[0]
  {
    if |parts| == 0 then ""
    else if |parts| == 1 then parts[0]
    else parts[0] + sep + Join(sep, parts[1..])
  }

  /** Joining two non-empty lists puts exactly one separator between their joins. */
  lemma {:induction false} JoinAppend(sep: string, a: seq<string>, b: seq<string>)
    requires |a| > 0 && |b| > 0
    ensures Join(sep, a + b) == Join(sep, a) + sep + Join(sep, b)
  {
    if |a| == 1 {
      assert (a + b)[1..] == b;
    } else {
      assert (a + b)[1..] == a[1..] + b;
      JoinAppend(sep, a[1..], b);
    }
  }

  /** Lexicographic order on strings (by character code), as Python compares `str`. */
  predicate Below(a: string, b: string)
  {
    |a| == 0 || (|b| > 0 && (a[0] < b[0] || (a[0] == b[0] && Below(a[1..], b[1..]))))
  }

  lemma {:induction false} BelowAntisymmetric(a: string, b: string)
    requires Below(a, b) && Below(b, a)
    ensures a == b
  {
    if |a| > 0 && |b| > 0 {
      BelowAntisymmetric(a[1..], b[1..]);
      assert a == [a[0]] + a[1..] && b == [b[0]] + b[1..];
    }
  }

  lemma {:induction false} BelowTransitive(a: string, b: string, c: string)
    requires Below(a, b) && Below(b, c)
    ensures Below(a, c)
  {
    if |a| > 0 && |b| > 0 && |c| > 0 && a[0] == b[0] == c[0] {
      BelowTransitive(a[1..], b[1..], c[1..]);
    }
  }

  lemma {:induction false} BelowTotal(a: string, b: string)
    ensures Below(a, b) || Below(b, a)
  {
    if |a| > 0 && |b| > 0 && a[0] == b[0] {
      BelowTotal(a[1..], b[1..]);
    }
  }

  lemma BelowAntisymmetricAll()
    ensures forall a: string, b: string :: Below(a, b) && Below(b, a) ==> a == b
  {
    forall a: string, b: string | Below(a, b) && Below(b, a) ensures a == b {
      BelowAntisymmetric(a, b);
    }
  }

  predicate IsLeast(m: string, s: set<string>)
  {
    m in s && forall x :: x in s ==> Below(m, x)
  }

  /** Every non-empty finite set of strings has a least element. */
  lemma {:induction false} LeastExists(s: set<string>)
    requires s != {}
    ensures exists m :: IsLeast(m, s)
    decreases |s|
  {
    var y :| y in s;
    if s == {y} {
      BelowTotal(y, y);
      assert IsLeast(y, s);
    } else {
      LeastExists(s - {y});
      var m :| IsLeast(m, s - {y});
      BelowTotal(m, y);
      if Below(m, y) {
        assert IsLeast(m, s);
      } else {
        forall x | x in s ensures Below(y, x) {
          if x != y { BelowTransitive(y, m, x); } else { BelowTotal(y, y); }
        }
        assert IsLeast(y, s);
      }
    }
  }

  /** Strictly increasing in the lexicographic order. */
  predicate Increasing(r: seq<string>)
  {
    forall i, j :: 0 <= i < j < |r| ==> Below(r[i], r[j]) && r[i] != r[j]
  }

  /** Putting the least element of `s` before an increasing listing of the others lists `s` in increasing order. */
  lemma PrependLeast(m: string, s: set<string>, rest: seq<string>)
    requires IsLeast(m, s)
    requires |rest| == |s - {m}| && (forall x :: x in s - {m} <==> x in rest) && Increasing(rest)
    ensures |[m] + rest| == |s|
    ensures forall x :: x in s <==> x in [m] + rest
    ensures Increasing([m] + rest)
  {
    var r := [m] + rest;
    forall i, j | 0 <= i < j < |r| ensures Below(r[i], r[j]) && r[i] != r[j] {
      assert r[j] == rest[j - 1] && r[j] in s - {m};
      if i > 0 {
        assert r[i] == rest[i - 1];
      }
    }
  }

  /** The elements of `s` in increasing order: what `sort_keys=True` iterates over. */
  function SortedKeys(s: set<string>): (r: seq<string>)
    ensures |r| == |s|
    ensures forall x :: x in s <==> x in r
    ensures Increasing(r)
    decreases |s|
  {
    if s == {} then []
    else
      LeastExists(s);
      BelowAntisymmetricAll();
      var m :| IsLeast(m, s);
      var rest := SortedKeys(s - {m});
      PrependLeast(m, s, rest);
      [m] + rest
  }
}
