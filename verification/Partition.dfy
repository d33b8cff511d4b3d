/** Grouping records by capture second, and what the groups in second order amount to. */
module Partition {
  import opened PcapFormat

  /** The records of second `s`, in input order. */
  function Group(rs: seq<Record>, s: nat): seq<Record> {
    if rs == [] then []
    else if SecondOf(rs[0]) == s then [rs[0]] + Group(rs[1..], s)
    else Group(rs[1..], s)
  }

  function Seconds(rs: seq<Record>): set<nat> {
    set i | 0 <= i < |rs| :: SecondOf(rs[i])
  }

  lemma {:induction false} GroupAppend(a: seq<Record>, b: seq<Record>, s: nat)
    ensures Group(a + b, s) == Group(a, s) + Group(b, s)
  {
    if a == [] {
      assert a + b == b;
    } else {
      assert (a + b)[0] == a[0] && (a + b)[1..] == a[1..] + b;
      GroupAppend(a[1..], b, s);
    }
  }

  lemma {:induction false} GroupMembers(rs: seq<Record>, s: nat)
    ensures forall i :: 0 <= i < |Group(rs, s)| ==> SecondOf(Group(rs, s)[i]) == s && Group(rs, s)[i] in rs
    ensures s in Seconds(rs) <==> Group(rs, s) != []
  {
    if rs != [] {
      GroupMembers(rs[1..], s);
      assert Seconds(rs) == {SecondOf(rs[0])} + Seconds(rs[1..]) by {
        forall x | x in Seconds(rs) ensures x in {SecondOf(rs[0])} + Seconds(rs[1..]) {
          var i :| 0 <= i < |rs| && SecondOf(rs[i]) == x;
          if i > 0 { assert rs[1..][i - 1] == rs[i]; }
        }
      }
    }
  }

  lemma GroupWellFormed(rs: seq<Record>, s: nat)
    requires AllWellFormed(rs)
    ensures AllWellFormed(Group(rs, s))
  {
    GroupMembers(rs, s);
  }

  // ---------- sorted(groups.keys()) ----------

  ghost predicate Increasing(ks: seq<nat>) {
    forall i, j :: 0 <= i < j < |ks| ==> ks[i] < ks[j]
  }

  predicate IsLeast(m: nat, keys: set<nat>) {
    m in keys && forall x :: x in keys ==> m <= x
  }

  lemma {:induction false} LeastExists(keys: set<nat>)
    requires keys != {}
    ensures exists m :: IsLeast(m, keys)
  {
    var x :| x in keys;
    if keys == {x} {
      assert IsLeast(x, keys);
    } else {
      var rest := keys - {x};
      LeastExists(rest);
      var m :| IsLeast(m, rest);
      var least := if x < m then x else m;
      forall k | k in keys ensures least <= k {
        assert k == x || k in rest;
      }
      assert IsLeast(least, keys);
    }
  }

  function Sorted(keys: set<nat>): (ks: seq<nat>)
    ensures forall k :: k in ks <==> k in keys
    ensures Increasing(ks)
    ensures |ks| == |keys|
  {
    if keys == {} then []
    else
      LeastExists(keys);
      var m :| IsLeast(m, keys);
      SortedStep(keys, m, Sorted(keys - {m}));
      [m] + Sorted(keys - {m})
  }

  lemma SortedStep(keys: set<nat>, m: nat, rest: seq<nat>)
    requires IsLeast(m, keys) && Increasing(rest) && |rest| == |keys - {m}|
    requires forall k :: k in rest <==> k in keys - {m}
    ensures Increasing([m] + rest) && |[m] + rest| == |keys|
    ensures forall k :: k in [m] + rest <==> k in keys
  {
    forall i, j | 0 <= i < j < |[m] + rest| ensures ([m] + rest)[i] < ([m] + rest)[j] {
      assert ([m] + rest)[j] == rest[j - 1] && rest[j - 1] in rest;
      if i > 0 { assert ([m] + rest)[i] == rest[i - 1]; }
    }
    forall k | k in keys ensures k in [m] + rest {
      if k != m { assert k in rest; }
    }
  }

  // ---------- stable sort ----------

  ghost predicate SortedBySecond(rs: seq<Record>) {
    forall i, j :: 0 <= i < j < |rs| ==> SecondOf(rs[i]) <= SecondOf(rs[j])
  }

  /** `out` is the stable sort of `rs` by second: ordered, and the records of each second are those
      of `rs` in the order of `rs`. */
  ghost predicate IsStableSort(out: seq<Record>, rs: seq<Record>) {
    SortedBySecond(out) && forall s :: Group(out, s) == Group(rs, s)
  }

  /** There is only one: the two conditions fix the sequence. */
  lemma {:induction false} StableSortUnique(a: seq<Record>, b: seq<Record>)
    requires SortedBySecond(a) && SortedBySecond(b)
    requires forall s :: Group(a, s) == Group(b, s)
    ensures a == b
  {
    if a == [] {
      if b != [] { NonEmptyTogether(b, a); }
    } else {
      NonEmptyTogether(a, b);
      var s, t := SecondOf(a[0]), SecondOf(b[0]);
      assert Group(a, s) == Group(b, s) && Group(a, t) == Group(b, t);
      SecondAtLeastFirst(a, t);
      SecondAtLeastFirst(b, s);
      assert s == t;
      assert a[0] == Group(a, s)[0] == b[0];
      forall x ensures Group(a[1..], x) == Group(b[1..], x) {
        assert Group(a, x) == Group(b, x);
        if x == s {
          assert Group(a, x)[1..] == Group(a[1..], x);
          assert Group(b, x)[1..] == Group(b[1..], x);
        }
      }
      StableSortUnique(a[1..], b[1..]);
    }
  }

  lemma NonEmptyTogether(a: seq<Record>, b: seq<Record>)
    requires a != [] && forall s :: Group(a, s) == Group(b, s)
    ensures b != []
  {
    assert Group(a, SecondOf(a[0])) != [];
    assert Group(b, SecondOf(a[0])) != [];
  }

  lemma SecondAtLeastFirst(rs: seq<Record>, s: nat)
    requires SortedBySecond(rs) && rs != [] && Group(rs, s) != []
    ensures SecondOf(rs[0]) <= s
  {
    GroupMembers(rs, s);
    assert SecondOf(Group(rs, s)[0]) == s;
  }

  /** The groups of `ks` one after another. */
  function Concatenated(rs: seq<Record>, ks: seq<nat>): seq<Record> {
    if ks == [] then [] else Group(rs, ks[0]) + Concatenated(rs, ks[1..])
  }

  lemma {:induction false} ConcatenatedMembers(rs: seq<Record>, ks: seq<nat>)
    ensures forall i :: 0 <= i < |Concatenated(rs, ks)| ==> SecondOf(Concatenated(rs, ks)[i]) in ks
  {
    if ks != [] {
      GroupMembers(rs, ks[0]);
      ConcatenatedMembers(rs, ks[1..]);
      var g, c := Group(rs, ks[0]), Concatenated(rs, ks[1..]);
      forall i | 0 <= i < |g + c| ensures SecondOf((g + c)[i]) in ks {
        if i >= |g| { assert (g + c)[i] == c[i - |g|]; }
      }
    }
  }

  lemma {:induction false} ConcatenatedSorted(rs: seq<Record>, ks: seq<nat>)
    requires Increasing(ks)
    ensures SortedBySecond(Concatenated(rs, ks))
  {
    if ks != [] {
      GroupMembers(rs, ks[0]);
      ConcatenatedMembers(rs, ks[1..]);
      ConcatenatedSorted(rs, ks[1..]);
      var g, c := Group(rs, ks[0]), Concatenated(rs, ks[1..]);
      forall i, j | 0 <= i < j < |g + c| ensures SecondOf((g + c)[i]) <= SecondOf((g + c)[j]) {
        if i >= |g| {
          assert (g + c)[i] == c[i - |g|] && (g + c)[j] == c[j - |g|];
        } else if j >= |g| {
          assert (g + c)[j] == c[j - |g|];
          assert SecondOf(c[j - |g|]) in ks[1..];
        }
      }
    }
  }

  lemma {:induction false} GroupOfGroup(rs: seq<Record>, k: nat, s: nat)
    ensures Group(Group(rs, k), s) == if s == k then Group(rs, s) else []
  {
    if rs != [] {
      GroupOfGroup(rs[1..], k, s);
    }
  }

  lemma {:induction false} GroupOfConcatenated(rs: seq<Record>, ks: seq<nat>, s: nat)
    requires Increasing(ks)
    ensures Group(Concatenated(rs, ks), s) == if s in ks then Group(rs, s) else []
  {
    if ks != [] {
      GroupAppend(Group(rs, ks[0]), Concatenated(rs, ks[1..]), s);
      GroupOfGroup(rs, ks[0], s);
      GroupOfConcatenated(rs, ks[1..], s);
      assert s in ks <==> s == ks[0] || s in ks[1..];
    }
  }

  /** The groups in second order concatenate to the stable sort of the input. */
  lemma GroupsAreStableSort(rs: seq<Record>)
    ensures IsStableSort(Concatenated(rs, Sorted(Seconds(rs))), rs)
  {
    var ks := Sorted(Seconds(rs));
    ConcatenatedSorted(rs, ks);
    forall s ensures Group(Concatenated(rs, ks), s) == Group(rs, s) {
      GroupOfConcatenated(rs, ks, s);
      GroupMembers(rs, s);
    }
  }

  /** An input whose seconds never decrease is its own stable sort. */
  lemma SortedInputUnchanged(rs: seq<Record>)
    requires SortedBySecond(rs)
    ensures Concatenated(rs, Sorted(Seconds(rs))) == rs
  {
    GroupsAreStableSort(rs);
    StableSortUnique(Concatenated(rs, Sorted(Seconds(rs))), rs);
  }

  /** Same records, each as often as in the input. */
  lemma {:induction false} GroupedMultiset(rs: seq<Record>, s: nat)
    ensures forall r :: multiset(Group(rs, s))[r] == if SecondOf(r) == s then multiset(rs)[r] else 0
  {
    if rs != [] {
      GroupedMultiset(rs[1..], s);
      assert rs == [rs[0]] + rs[1..];
    }
  }
}
