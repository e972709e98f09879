/**
 * The order in which the state database hands back keys: strict lexicographic
 * order on strings, character by character. Characters compare by code point,
 * which is the byte order of their UTF-8 encoding.
 */
module KeyOrder {

  predicate Less(a: string, b: string)
    decreases |a|
  {
    |b| > 0 && (|a| == 0 || a[0] < b[0] || (a[0] == b[0] && Less(a[1..], b[1..])))
  }

  lemma {:induction false} LessIrreflexive(a: string)
    ensures !Less(a, a)
    decreases |a|
  {
    if |a| > 0 {
      LessIrreflexive(a[1..]);
    }
  }

  lemma {:induction false} LessAsymmetric(a: string, b: string)
    ensures Less(a, b) ==> !Less(b, a)
    decreases |a|
  {
    if |a| > 0 && |b| > 0 && a[0] == b[0] {
      LessAsymmetric(a[1..], b[1..]);
    }
  }

  lemma {:induction false} LessTransitive(a: string, b: string, c: string)
    requires Less(a, b) && Less(b, c)
    ensures Less(a, c)
    decreases |a|
  {
    if |a| > 0 && a[0] == b[0] && b[0] == c[0] {
      LessTransitive(a[1..], b[1..], c[1..]);
    }
  }

  lemma {:induction false} LessTotal(a: string, b: string)
    requires a != b
    ensures Less(a, b) || Less(b, a)
    decreases |a|
  {
    if |a| > 0 && |b| > 0 && a[0] == b[0] {
      assert a == [a[0]] + a[1..] && b == [b[0]] + b[1..];
      LessTotal(a[1..], b[1..]);
    }
  }

  /** k is the smallest key of S. */
  predicate IsLeast(k: string, S: set<string>)
  {
    k in S && forall j :: j in S && j != k ==> Less(k, j)
  }

  lemma {:induction false} LeastExists(S: set<string>)
    requires S != {}
    ensures exists k :: IsLeast(k, S)
    decreases S
  {
    var x :| x in S;
    var rest := S - {x};
    if rest == {} {
      assert S == {x};
      assert IsLeast(x, S);
    } else {
      LeastExists(rest);
      var m :| IsLeast(m, rest);
      LessTotal(x, m);
      if Less(x, m) {
        forall j | j in S && j != x
          ensures Less(x, j)
        {
          if j != m {
            LessTransitive(x, m, j);
          }
        }
        assert IsLeast(x, S);
      } else {
        assert IsLeast(m, S);
      }
    }
  }

  lemma LeastUnique(S: set<string>)
    ensures forall a, b :: IsLeast(a, S) && IsLeast(b, S) ==> a == b
  {
    forall a, b | IsLeast(a, S) && IsLeast(b, S)
      ensures a == b
    {
      LessAsymmetric(a, b);
    }
  }

  /** Strictly increasing, hence also free of duplicates. */
  predicate Sorted(ks: seq<string>)
  {
    forall i, j :: 0 <= i < j < |ks| ==> Less(ks[i], ks[j])
  }

  /** ks lists every key of S exactly once, in increasing order. */
  ghost predicate Enumerates(ks: seq<string>, S: set<string>)
  {
    && Sorted(ks)
    && (forall i :: 0 <= i < |ks| ==> ks[i] in S)
    && (forall k :: k in S ==> k in ks)
  }

  /** The keys of S in increasing order: the order of an open range scan. */
  function Ordered(S: set<string>): (ks: seq<string>)
    ensures Enumerates(ks, S)
    ensures |ks| == |S|
    decreases S
  {
    if S == {} then []
    else
      LeastExists(S);
      LeastUnique(S);
      var m :| m in S && IsLeast(m, S);
      var rest := Ordered(S - {m});
      EnumerationCons(m, rest, S);
      [m] + rest
  }

  /** The least key followed by an enumeration of the others enumerates the whole set. */
  lemma EnumerationCons(m: string, rest: seq<string>, S: set<string>)
    requires IsLeast(m, S) && Enumerates(rest, S - {m}) && |rest| == |S - {m}|
    ensures Enumerates([m] + rest, S) && |[m] + rest| == |S|
  {
    var ks := [m] + rest;
    forall i, j | 0 <= i < j < |ks|
      ensures Less(ks[i], ks[j])
    {
      if i > 0 {
        assert ks[i] == rest[i - 1] && ks[j] == rest[j - 1];
      } else {
        assert ks[j] == rest[j - 1] && ks[j] in S - {m};
      }
    }
    forall k | k in S
      ensures k in ks
    {
      if k != m {
        assert k in S - {m};
      }
    }
  }

  /** The first key of an enumeration is the least, and the rest enumerates the others. */
  lemma EnumerationSplit(ks: seq<string>, S: set<string>)
    requires Enumerates(ks, S) && |ks| > 0
    ensures IsLeast(ks[0], S)
    ensures Enumerates(ks[1..], S - {ks[0]})
  {
    forall j | j in S && j != ks[0]
      ensures Less(ks[0], j)
    {
      var i :| 0 <= i < |ks| && ks[i] == j;
    }
    forall i | 1 <= i < |ks|
      ensures ks[i] != ks[0]
    {
      LessIrreflexive(ks[0]);
    }
    forall k | k in S - {ks[0]}
      ensures k in ks[1..]
    {
      var i :| 0 <= i < |ks| && ks[i] == k;
      assert ks[1..][i - 1] == k;
    }
  }

  /** An enumeration is empty exactly when its key set is. */
  lemma EnumerationEmpty(ks: seq<string>, S: set<string>)
    requires Enumerates(ks, S)
    ensures |ks| == 0 <==> S == {}
  {
    if |ks| > 0 {
      assert ks[0] in S;
    }
  }

  /** There is only one way to list a key set in increasing order. */
  lemma {:induction false} EnumerationUnique(a: seq<string>, b: seq<string>, S: set<string>)
    requires Enumerates(a, S) && Enumerates(b, S)
    ensures a == b
    decreases |a|
  {
    EnumerationEmpty(a, S);
    EnumerationEmpty(b, S);
    if |a| > 0 {
      EnumerationSplit(a, S);
      EnumerationSplit(b, S);
      LeastUnique(S);
      EnumerationUnique(a[1..], b[1..], S - {a[0]});
      assert a == [a[0]] + a[1..] && b == [b[0]] + b[1..];
    }
  }

  /** A range scan starts with the least key and goes on with the rest. */
  lemma OrderedFirst(S: set<string>, m: string)
    requires IsLeast(m, S)
    ensures Ordered(S) == [m] + Ordered(S - {m})
  {
    var ks := Ordered(S);
    EnumerationEmpty(ks, S);
    EnumerationSplit(ks, S);
    LeastUnique(S);
    EnumerationUnique(ks[1..], Ordered(S - {m}), S - {m});
    assert ks == [ks[0]] + ks[1..];
  }

  lemma OrderedSingleton(k: string)
    ensures Ordered({k}) == [k]
  {
    EnumerationUnique([k], Ordered({k}), {k});
  }
}
