/** The grouping key of a well-level document and the order Python's `sorted`
    puts on such keys: tuples compared element by element. */
module WellKeys {
  import S = StringOrder

  /** The tuple (plate number, column, row). */
  datatype WellKey = WellKey(plateNumber: string, col: string, row: string)

  /** `a < b` on the tuples (plate number, column, row). */
  predicate Less(a: WellKey, b: WellKey) {
    || S.Lt(a.plateNumber, b.plateNumber)
    || (a.plateNumber == b.plateNumber && S.Lt(a.col, b.col))
    || (a.plateNumber == b.plateNumber && a.col == b.col && S.Lt(a.row, b.row))
  }

  lemma LessTransitive(a: WellKey, b: WellKey, c: WellKey)
    requires Less(a, b) && Less(b, c)
    ensures Less(a, c)
  {
    S.LtTrichotomy(a.plateNumber, b.plateNumber);
    S.LtTrichotomy(b.plateNumber, c.plateNumber);
    S.LtTrichotomy(a.col, b.col);
    S.LtTrichotomy(b.col, c.col);
    if S.Lt(a.plateNumber, b.plateNumber) && S.Lt(b.plateNumber, c.plateNumber) {
      S.LtTransitive(a.plateNumber, b.plateNumber, c.plateNumber);
    } else if a.plateNumber == b.plateNumber == c.plateNumber {
      if S.Lt(a.col, b.col) && S.Lt(b.col, c.col) {
        S.LtTransitive(a.col, b.col, c.col);
      } else if a.col == b.col == c.col {
        S.LtTransitive(a.row, b.row, c.row);
      }
    }
  }

  /** Two different keys are always ordered one way, and never both ways. */
  lemma LessTrichotomy(a: WellKey, b: WellKey)
    ensures a == b || Less(a, b) || Less(b, a)
    ensures !(Less(a, b) && Less(b, a))
  {
    S.LtTrichotomy(a.plateNumber, b.plateNumber);
    S.LtTrichotomy(a.col, b.col);
    S.LtTrichotomy(a.row, b.row);
  }

  lemma LessAsymmetric()
    ensures forall a, b :: Less(a, b) ==> !Less(b, a)
  {
    forall a, b | Less(a, b)
      ensures !Less(b, a)
    {
      LessTrichotomy(a, b);
    }
  }

  /** `m` is the smallest of the keys `ks`. */
  predicate IsLeast(m: WellKey, ks: set<WellKey>) {
    m in ks && forall k :: k in ks && k != m ==> Less(m, k)
  }

  lemma {:induction false} LeastExists(ks: set<WellKey>)
    requires ks != {}
    ensures exists m :: IsLeast(m, ks)
    decreases |ks|
  {
    var x :| x in ks;
    var rest := ks - {x};
    if rest == {} {
      assert ks == {x};
      assert IsLeast(x, ks);
    } else {
      LeastExists(rest);
      var y :| IsLeast(y, rest);
      LessTrichotomy(x, y);
      if Less(x, y) {
        forall k | k in ks && k != x
          ensures Less(x, k)
        {
          if k != y {
            LessTransitive(x, y, k);
          }
        }
        assert IsLeast(x, ks);
      } else {
        assert IsLeast(y, ks);
      }
    }
  }

  /** Every key strictly below every later one. */
  predicate StrictlyAscending(s: seq<WellKey>) {
    forall i, j :: 0 <= i < j < |s| ==> Less(s[i], s[j])
  }

  /** `sorted(keys)`: the keys in ascending order, each once. */
  function SortedKeys(ks: set<WellKey>): (s: seq<WellKey>)
    ensures StrictlyAscending(s)
    ensures forall k :: k in s <==> k in ks
    decreases ks
  {
    if ks == {} then []
    else
      LeastExists(ks);
      LessAsymmetric();
      var m :| IsLeast(m, ks);
      [m] + SortedKeys(ks - {m})
  }

  /** The ascending enumeration of a set of keys is unique, so the order of the
      output does not depend on how the keys were collected. */
  lemma {:induction false} AscendingEnumerationUnique(s: seq<WellKey>, t: seq<WellKey>)
    requires StrictlyAscending(s) && StrictlyAscending(t)
    requires forall k :: k in s <==> k in t
    ensures s == t
    decreases |s|
  {
    EmptyTogether(s, t);
    if |s| > 0 {
      HeadsAgree(s, t);
      forall k
        ensures k in s[1..] <==> k in t[1..]
      {
        if k in s[1..] {
          TailMember(s, t, k);
        }
        if k in t[1..] {
          TailMember(t, s, k);
        }
      }
      AscendingEnumerationUnique(s[1..], t[1..]);
      assert s == [s[0]] + s[1..] && t == [t[0]] + t[1..];
    }
  }

  lemma EmptyTogether(s: seq<WellKey>, t: seq<WellKey>)
    requires forall k :: k in s <==> k in t
    ensures |s| == 0 <==> |t| == 0
  {
    if |s| > 0 {
      assert s[0] in s;
    }
    if |t| > 0 {
      assert t[0] in t;
    }
  }

  lemma HeadsAgree(s: seq<WellKey>, t: seq<WellKey>)
    requires StrictlyAscending(s) && StrictlyAscending(t)
    requires forall k :: k in s <==> k in t
    requires |s| > 0 && |t| > 0
    ensures s[0] == t[0]
  {
    assert s[0] in s && t[0] in t;
    var j :| 0 <= j < |t| && t[j] == s[0];
    var i :| 0 <= i < |s| && s[i] == t[0];
    LessAsymmetric();
  }

  lemma TailMember(s: seq<WellKey>, t: seq<WellKey>, k: WellKey)
    requires StrictlyAscending(s) && StrictlyAscending(t)
    requires forall x :: x in s <==> x in t
    requires |s| > 0 && |t| > 0 && s[0] == t[0]
    requires k in s[1..]
    ensures k in t[1..]
  {
    var i :| 1 <= i < |s| && s[i] == k;
    assert Less(s[0], k);
    LessAsymmetric();
    assert s[i] in s;
    var j :| 0 <= j < |t| && t[j] == k;
    assert j != 0;
    assert t[1..][j - 1] == k;
  }
}
