/** Cardinalities of finite sets of numbers. */
module Sets {
  lemma {:induction false} SubsetSize(s: set<nat>, t: set<nat>)
    requires s <= t
    ensures |s| <= |t|
  {
    if s != {} {
      var x :| x in s;
      SubsetSize(s - {x}, t - {x});
    }
  }

  lemma {:induction false} RangeSize(lo: nat, hi: nat, s: set<nat>)
    requires lo <= hi && forall x :: x in s ==> lo <= x < hi
    ensures |s| <= hi - lo
    decreases hi
  {
    if lo < hi {
      var s' := s - {hi - 1};
      RangeSize(lo, hi - 1, s');
      SubsetSize(s, s' + {hi - 1});
    } else {
      assert s == {};
    }
  }

  /** A sequence without repetitions has as many elements as it has members. */
  lemma {:induction false} Image(s: seq<nat>, t: set<nat>)
    requires t == set i | 0 <= i < |s| :: s[i]
    requires forall i, j :: 0 <= i < j < |s| ==> s[i] != s[j]
    ensures |t| == |s|
    decreases |s|
  {
    if |s| > 0 {
      var r := s[..|s| - 1];
      var last := s[|s| - 1];
      var t' := set i | 0 <= i < |r| :: r[i];
      assert t' == t - {last} by {
        forall x | x in t - {last} ensures x in t' { var i :| 0 <= i < |s| && s[i] == x; assert r[i] == x; }
        forall x | x in t' ensures x in t - {last} { var i :| 0 <= i < |r| && r[i] == x; assert s[i] == x; }
      }
      assert last in t by { assert s[|s| - 1] == last; }
      Image(r, t');
    }
  }

  lemma {:induction false} ElementsSize(s: seq<nat>, t: set<nat>)
    requires forall x :: x in t ==> x in s
    ensures |t| <= |s|
  {
    if |s| > 0 {
      ElementsSize(s[1..], t - {s[0]});
      SubsetSize(t, (t - {s[0]}) + {s[0]});
    } else {
      assert t == {};
    }
  }

  lemma {:induction false} ValuesSize(m: map<nat, nat>)
    ensures |m.Values| <= |m|
    decreases |m|
  {
    if k :| k in m {
      var m' := m - {k};
      ValuesSize(m');
      forall v | v in m.Values ensures v in m'.Values + {m[k]} {
        var j :| j in m && m[j] == v;
        assert j != k ==> m'[j] == v;
      }
      SubsetSize(m.Values, m'.Values + {m[k]});
    } else {
      assert m.Values == {};
    }
  }
}
