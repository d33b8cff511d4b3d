/** The string operations the file-name code uses: `split`, `replace(_, "")`, `upper`, joining paths. */
module Text {

  predicate Free(s: string, c: char) {
    forall i :: 0 <= i < |s| ==> s[i] != c
  }

  // ---------- split ----------

  /** `s.split(c)` */
  function Split(s: string, c: char): (parts: seq<string>)
    ensures |parts| >= 1
  {
    if s == "" then [""]
    else
      var rest := Split(s[1..], c);
      if s[0] == c then [""] + rest else [[s[0]] + rest[0]] + rest[1..]
  }

  lemma {:induction false} SplitFree(s: string, c: char)
    requires Free(s, c)
    ensures Split(s, c) == [s]
  {
    if s != "" {
      SplitFree(s[1..], c);
      assert s == [s[0]] + s[1..];
    }
  }

  lemma {:induction false} PartsAreFree(s: string, c: char)
    ensures forall i :: 0 <= i < |Split(s, c)| ==> Free(Split(s, c)[i], c)
  {
    if s != "" {
      PartsAreFree(s[1..], c);
    }
  }

  lemma {:induction false} PartsKeepFreedom(s: string, c: char, d: char)
    requires Free(s, d)
    ensures forall i :: 0 <= i < |Split(s, c)| ==> Free(Split(s, c)[i], d)
  {
    if s != "" {
      PartsKeepFreedom(s[1..], c, d);
    }
  }

  /** One step of `Split` on a front whose split is known. */
  lemma SplitStep(x: char, s: string, c: char, front: seq<string>, back: seq<string>)
    requires Split(s, c) == front + back && front != []
    ensures Split([x] + s, c) == (if x == c then [""] + front else [[x] + front[0]] + front[1..]) + back
  {
    assert ([x] + s)[1..] == s;
    assert (front + back)[0] == front[0] && (front + back)[1..] == front[1..] + back;
    assert [""] + (front + back) == ([""] + front) + back;
    assert [[x] + front[0]] + (front[1..] + back) == ([[x] + front[0]] + front[1..]) + back;
  }

  /** Splitting at one more separator splits both sides. */
  lemma {:induction false} SplitAppend(a: string, b: string, c: char)
    ensures Split(a + [c] + b, c) == Split(a, c) + Split(b, c)
  {
    if a == "" {
      assert (a + [c] + b)[1..] == b;
    } else {
      SplitAppend(a[1..], b, c);
      SplitStep(a[0], a[1..] + [c] + b, c, Split(a[1..], c), Split(b, c));
      assert [a[0]] + (a[1..] + [c] + b) == a + [c] + b;
    }
  }

  function Last<T>(xs: seq<T>): T
    requires |xs| > 0
  {
    xs[|xs| - 1]
  }

  // ---------- paths ----------

  /** The segments with `/` between them. */
  function Join(segments: seq<string>): string
    requires |segments| >= 1
  {
    if |segments| == 1 then segments[0] else segments[0] + "/" + Join(segments[1..])
  }

  predicate AllFree(segments: seq<string>, c: char) {
    forall i :: 0 <= i < |segments| ==> Free(segments[i], c)
  }

  /** A joined path splits back into its segments, so a path determines them. */
  lemma {:induction false} SplitJoin(segments: seq<string>)
    requires |segments| >= 1 && AllFree(segments, '/')
    ensures Split(Join(segments), '/') == segments
  {
    SplitFree(segments[0], '/');
    if |segments| > 1 {
      var rest := segments[1..];
      assert AllFree(rest, '/');
      SplitJoin(rest);
      SplitAppend(segments[0], Join(rest), '/');
      assert Join(segments) == segments[0] + ['/'] + Join(rest);
      assert segments == [segments[0]] + rest;
    }
  }

  lemma JoinInjective(a: seq<string>, b: seq<string>)
    requires |a| >= 1 && AllFree(a, '/') && |b| >= 1 && AllFree(b, '/')
    requires Join(a) == Join(b)
    ensures a == b
  {
    SplitJoin(a);
    SplitJoin(b);
  }

  /** `base/segments...` */
  function Under(base: string, segments: seq<string>): string
    requires |segments| >= 1
  {
    base + "/" + Join(segments)
  }

  lemma UnderInjective(base: string, a: seq<string>, b: seq<string>)
    requires |a| >= 1 && AllFree(a, '/') && |b| >= 1 && AllFree(b, '/')
    requires Under(base, a) == Under(base, b)
    ensures a == b
  {
    assert Under(base, a)[|base| + 1..] == Join(a);
    assert Under(base, b)[|base| + 1..] == Join(b);
    JoinInjective(a, b);
  }

  /** Two roots, neither inside the other. */
  predicate Apart(a: string, b: string) {
    !(a + "/" <= b + "/") && !(b + "/" <= a + "/")
  }

  lemma SharedPathNotApart(a: string, xs: seq<string>, b: string, ys: seq<string>)
    requires |xs| >= 1 && |ys| >= 1
    requires Under(a, xs) == Under(b, ys)
    ensures !Apart(a, b)
  {
    var p, q, path := a + "/", b + "/", Under(a, xs);
    assert p == path[..|p|] && q == path[..|q|];
    if |p| <= |q| {
      assert p == q[..|p|];
    } else {
      assert q == p[..|q|];
    }
  }

  // ---------- replace(pattern, "") ----------

  /** Deletes the non-overlapping occurrences of `pattern`, leftmost first. */
  function Delete(s: string, pattern: string): string
    requires pattern != ""
    decreases |s|
  {
    if |s| < |pattern| then s
    else if pattern <= s then Delete(s[|pattern|..], pattern)
    else [s[0]] + Delete(s[1..], pattern)
  }

  predicate OccursAt(s: string, pattern: string, i: nat) {
    i + |pattern| <= |s| && s[i..i + |pattern|] == pattern
  }

  ghost predicate Occurs(s: string, pattern: string) {
    exists i :: OccursAt(s, pattern, i)
  }

  /** Each deletion removes exactly the pattern's length. */
  lemma {:induction false} DeleteLength(s: string, pattern: string) returns (k: nat)
    requires pattern != ""
    ensures |s| == |Delete(s, pattern)| + k * |pattern|
    ensures k == 0 ==> Delete(s, pattern) == s
    decreases |s|
  {
    if |s| < |pattern| {
      k := 0;
    } else if pattern <= s {
      var n := DeleteLength(s[|pattern|..], pattern);
      k := n + 1;
      assert k * |pattern| == n * |pattern| + |pattern|;
    } else {
      k := DeleteLength(s[1..], pattern);
      assert s == [s[0]] + s[1..];
    }
  }

  lemma {:induction false} DeleteKeepsFreedom(s: string, pattern: string, c: char)
    requires pattern != "" && Free(s, c)
    ensures Free(Delete(s, pattern), c)
    decreases |s|
  {
    if |s| < |pattern| {
    } else if pattern <= s {
      DeleteKeepsFreedom(s[|pattern|..], pattern, c);
    } else {
      DeleteKeepsFreedom(s[1..], pattern, c);
    }
  }

  /** `head + pattern` loses exactly its last part when the pattern occurs nowhere before it. */
  lemma {:induction false} DeleteSuffix(head: string, pattern: string)
    requires pattern != ""
    requires forall i :: 0 <= i < |head| ==> !OccursAt(head + pattern, pattern, i)
    ensures Delete(head + pattern, pattern) == head
    decreases |head|
  {
    var s := head + pattern;
    if head == "" {
      assert s == pattern;
      assert s[|pattern|..] == "";
    } else {
      assert !OccursAt(s, pattern, 0);
      assert !(pattern <= s);
      assert s[1..] == head[1..] + pattern;
      forall i | 0 <= i < |head[1..]| ensures !OccursAt(head[1..] + pattern, pattern, i) {
        assert !OccursAt(s, pattern, i + 1);
      }
      DeleteSuffix(head[1..], pattern);
      assert head == [head[0]] + head[1..];
    }
  }

  /** A pattern that also occurs inside `head` is deleted there too, so `head` is not recovered. */
  lemma {:induction false} DeleteInside(head: string, pattern: string)
    requires pattern != "" && Occurs(head, pattern)
    ensures |Delete(head + pattern, pattern)| < |head|
    decreases |head|
  {
    var s := head + pattern;
    if pattern <= s {
      assert s[|pattern|..] == head[|pattern|..] + pattern;
      if Occurs(head[|pattern|..], pattern) {
        DeleteInside(head[|pattern|..], pattern);
      } else {
        DeletesLast(head[|pattern|..], pattern);
      }
    } else {
      var i: nat :| OccursAt(head, pattern, i);
      assert i > 0;
      assert OccursAt(head[1..], pattern, i - 1);
      DeleteInside(head[1..], pattern);
      assert s[1..] == head[1..] + pattern;
    }
  }

  lemma {:induction false} DeletesLast(head: string, pattern: string)
    requires pattern != ""
    ensures |Delete(head + pattern, pattern)| <= |head|
    decreases |head|
  {
    var s := head + pattern;
    if pattern <= s {
      var k := DeleteLength(s[|pattern|..], pattern);
      assert k * |pattern| >= 0;
    } else {
      assert s[1..] == head[1..] + pattern;
      DeletesLast(head[1..], pattern);
    }
  }

  /** What replacing by nothing means: without an occurrence nothing changes; otherwise the first occurrence
      goes and the rest is treated alike. */
  lemma DeleteIs(s: string, pattern: string)
    requires pattern != ""
    ensures !Occurs(s, pattern) ==> Delete(s, pattern) == s
    ensures forall i: nat :: FirstAt(s, pattern, i) ==> Delete(s, pattern) == s[..i] + Delete(s[i + |pattern|..], pattern)
  {
    if !Occurs(s, pattern) { DeleteNone(s, pattern); }
    forall i: nat | FirstAt(s, pattern, i)
      ensures Delete(s, pattern) == s[..i] + Delete(s[i + |pattern|..], pattern)
    {
      DeleteFirst(s, pattern, i);
    }
  }

  predicate FirstAt(s: string, pattern: string, i: nat) {
    OccursAt(s, pattern, i) && forall j :: 0 <= j < i ==> !OccursAt(s, pattern, j)
  }

  lemma {:induction false} DeleteNone(s: string, pattern: string)
    requires pattern != "" && !Occurs(s, pattern)
    ensures Delete(s, pattern) == s
    decreases |s|
  {
    if |s| >= |pattern| {
      assert !OccursAt(s, pattern, 0);
      forall j: nat ensures !OccursAt(s[1..], pattern, j) {
        OccursLater(s, pattern, j);
      }
      DeleteNone(s[1..], pattern);
      assert s == [s[0]] + s[1..];
    }
  }

  lemma OccursLater(s: string, pattern: string, j: nat)
    requires s != ""
    ensures OccursAt(s[1..], pattern, j) <==> OccursAt(s, pattern, j + 1)
  {
    if j + 1 + |pattern| <= |s| {
      assert s[1..][j..j + |pattern|] == s[j + 1..j + 1 + |pattern|];
    }
  }

  lemma {:induction false} DeleteFirst(s: string, pattern: string, i: nat)
    requires pattern != "" && FirstAt(s, pattern, i)
    ensures Delete(s, pattern) == s[..i] + Delete(s[i + |pattern|..], pattern)
    decreases |s|
  {
    if i == 0 {
      DeleteFront(s, pattern);
    } else {
      var back := Delete(s[i + |pattern|..], pattern);
      FirstLater(s, pattern, i);
      FrontAndBack(s, i, |pattern|, back);
      assert Delete(s[1..], pattern) == s[1..][..i - 1] + back by { DeleteFirst(s[1..], pattern, i - 1); }
    }
  }

  lemma DeleteFront(s: string, pattern: string)
    requires pattern != "" && OccursAt(s, pattern, 0)
    ensures Delete(s, pattern) == s[..0] + Delete(s[0 + |pattern|..], pattern)
  {
    assert s[0..|pattern|] == s[..|pattern|];
  }

  lemma FirstLater(s: string, pattern: string, i: nat)
    requires pattern != "" && i > 0 && FirstAt(s, pattern, i)
    ensures FirstAt(s[1..], pattern, i - 1)
    ensures Delete(s, pattern) == [s[0]] + Delete(s[1..], pattern)
  {
    assert !OccursAt(s, pattern, 0);
    OccursLater(s, pattern, i - 1);
    forall j | 0 <= j < i - 1 ensures !OccursAt(s[1..], pattern, j) {
      OccursLater(s, pattern, j);
    }
  }

  lemma FrontAndBack(s: string, i: nat, n: nat, back: string)
    requires 1 <= i && i + n <= |s|
    ensures s[1..][i - 1 + n..] == s[i + n..]
    ensures [s[0]] + (s[1..][..i - 1] + back) == s[..i] + back
  {
    assert s[..i] == [s[0]] + s[1..][..i - 1];
  }

  /** Splitting loses nothing. */
  lemma {:induction false} JoinSplit(s: string)
    ensures Join(Split(s, '/')) == s
  {
    if s != "" {
      var rest := Split(s[1..], '/');
      JoinSplit(s[1..]);
      if s[0] == '/' {
        assert ([""] + rest)[1..] == rest;
        assert s == "" + "/" + s[1..];
      } else {
        JoinFront(s[0], rest);
        assert s == [s[0]] + s[1..];
      }
    }
  }

  lemma JoinFront(x: char, parts: seq<string>)
    requires |parts| >= 1
    ensures Join([[x] + parts[0]] + parts[1..]) == [x] + Join(parts)
  {
    var longer := [[x] + parts[0]] + parts[1..];
    if |parts| > 1 {
      assert longer[0] == [x] + parts[0] && longer[1..] == parts[1..];
      FrontOfThree([x], parts[0], "/", Join(parts[1..]));
    }
  }

  lemma FrontOfThree(x: string, a: string, b: string, c: string)
    ensures (x + a) + b + c == x + (a + b + c)
  {
  }

  /** A path splits into the segments of its root and its own. */
  lemma UnderSplits(base: string, segments: seq<string>)
    requires |segments| >= 1 && AllFree(segments, '/')
    ensures Split(Under(base, segments), '/') == Split(base, '/') + segments
  {
    SplitJoin(segments);
    assert Under(base, segments) == base + ['/'] + Join(segments);
    SplitAppend(base, Join(segments), '/');
  }

  // ---------- case ----------

  function UpperChar(c: char): char {
    if 'a' <= c <= 'z' then c - 'a' + 'A' else c
  }

  function Upper(s: string): string {
    if s == "" then "" else [UpperChar(s[0])] + Upper(s[1..])
  }

  function LowerChar(c: char): char {
    if 'A' <= c <= 'Z' then c - 'A' + 'a' else c
  }

  function Lower(s: string): string {
    if s == "" then "" else [LowerChar(s[0])] + Lower(s[1..])
  }

  const SMALL := "abcdefghijklmnopqrstuvwxyz"
  const CAPITAL := "ABCDEFGHIJKLMNOPQRSTUVWXYZ"

  /** Letter for letter, the one alphabet becomes the other; everything else stays. */
  lemma CaseOfChar(c: char)
    ensures forall k :: 0 <= k < 26 && c == SMALL[k] ==> UpperChar(c) == CAPITAL[k]
    ensures forall k :: 0 <= k < 26 && c == CAPITAL[k] ==> LowerChar(c) == SMALL[k]
    ensures c !in SMALL ==> UpperChar(c) == c
    ensures c !in CAPITAL ==> LowerChar(c) == c
  {
    Alphabets();
    if 'a' <= c <= 'z' { assert SMALL[c as int - 'a' as int] == c; }
    if 'A' <= c <= 'Z' { assert CAPITAL[c as int - 'A' as int] == c; }
  }

  lemma Alphabets()
    ensures forall k :: 0 <= k < 26 ==> SMALL[k] as int == 'a' as int + k && CAPITAL[k] as int == 'A' as int + k
  {
  }

  lemma {:induction false} CaseByChar(s: string)
    ensures |Upper(s)| == |s| && |Lower(s)| == |s|
    ensures forall i :: 0 <= i < |s| ==> Upper(s)[i] == UpperChar(s[i]) && Lower(s)[i] == LowerChar(s[i])
  {
    if s != "" {
      CaseByChar(s[1..]);
    }
  }

  lemma LowerKeepsFreedom(s: string, c: char)
    requires Free(s, c) && !('a' <= c <= 'z')
    ensures Free(Lower(s), c)
  {
    CaseByChar(s);
  }

  lemma {:induction false} UpperKeepsFreedom(s: string, c: char)
    requires Free(s, c) && !('A' <= c <= 'Z')
    ensures Free(Upper(s), c)
  {
    if s != "" {
      UpperKeepsFreedom(s[1..], c);
    }
  }
}
