/** Search and replace in the notebook (frontend/packages/notebook/src/notebook/NotebookSearch.svelte). */
module ReplaceAll {
  import opened Common

  /** A match, from `start` up to `end`. */
  datatype Span = Span(start: nat, end: nat)

  /** The `exec` of a global regular expression, from `lastIndex` on. */
  type Exec = (string, nat) -> Option<Span>

  /** A match lies in the text, at or after `lastIndex`. */
  ghost predicate InBounds(exec: Exec) {
    forall s, i: nat :: i <= |s| && exec(s, i).Some? ==> i <= exec(s, i).value.start <= exec(s, i).value.end <= |s|
  }

  predicate MatchAt(exec: Exec, s: string, p: nat) {
    exec(s, p).Some? && exec(s, p).value.start == p
  }

  /** A match is the leftmost one. */
  ghost predicate Leftmost(exec: Exec) {
    forall s, i: nat, p: nat :: i <= p <= |s| && MatchAt(exec, s, p) ==> exec(s, i).Some? && exec(s, i).value.start <= p
  }

  // ---------------------------------------------------------------------------------------------
  // Finding.

  function Next(m: Span): nat {
    if m.start >= m.end then m.end + 1 else m.end
  }

  /** All matches from `i` on. */
  function Matches(exec: Exec, s: string, i: nat): (r: seq<Span>)
    requires InBounds(exec)
    decreases |s| + 1 - i
  {
    if i > |s| || exec(s, i).None? then []
    else [exec(s, i).value] + Matches(exec, s, Next(exec(s, i).value))
  }

  lemma MatchesMore(exec: Exec, s: string, i: nat, found: seq<Span>)
    requires InBounds(exec) && i <= |s| && exec(s, i).Some?
    ensures var m := exec(s, i).value;
            i < Next(m) <= |s| + 1 && found + Matches(exec, s, i) == found + [m] + Matches(exec, s, Next(m))
  {
  }

  method FindInSource(exec: Exec, s: string) returns (found: seq<Span>)
    requires InBounds(exec)
    ensures found == Matches(exec, s, 0)
  {
    found := [];
    var lastIndex := 0;
    while lastIndex <= |s|
      invariant found + Matches(exec, s, lastIndex) == Matches(exec, s, 0)
      decreases |s| + 1 - lastIndex
    {
      var m := exec(s, lastIndex);
      if m.None? {
        return;
      }
      MatchesMore(exec, s, lastIndex, found);
      found := found + [m.value];
      lastIndex := m.value.end;
      if m.value.start == m.value.end {
        lastIndex := lastIndex + 1;
      }
    }
  }

  /** Strictly increasing and disjoint matches within the text, none before `from`. */
  predicate Ordered(ms: seq<Span>, s: string, from: nat) {
    && (forall i :: 0 <= i < |ms| ==> from <= ms[i].start <= ms[i].end <= |s|)
    && (forall i, j :: 0 <= i < j < |ms| ==> ms[i].end <= ms[j].start && ms[i].start < ms[j].start)
  }

  /** Starts strictly increase and no two matches overlap. */
  lemma {:induction false} MatchesOrdered(exec: Exec, s: string, i: nat)
    requires InBounds(exec)
    ensures Ordered(Matches(exec, s, i), s, i)
    decreases |s| + 1 - i
  {
    if i <= |s| && exec(s, i).Some? {
      MatchesOrdered(exec, s, Next(exec(s, i).value));
    }
  }

  predicate Covers(m: Span, p: nat) {
    m.start == p || m.start < p < m.end
  }

  predicate Covered(ms: seq<Span>, p: nat) {
    exists m <- ms :: Covers(m, p)
  }

  /** No match is missed: wherever one could start, it is found or an earlier one covers that place. */
  lemma {:induction false} MatchesComplete(exec: Exec, s: string, i: nat, p: nat)
    requires InBounds(exec) && Leftmost(exec) && i <= p <= |s| && MatchAt(exec, s, p)
    ensures Covered(Matches(exec, s, i), p)
    decreases |s| + 1 - i
  {
    var m := exec(s, i).value;
    var rest := Matches(exec, s, Next(m));
    assert Matches(exec, s, i) == [m] + rest && m.start <= p;
    assert m in Matches(exec, s, i);
    if !Covers(m, p) {
      MatchesComplete(exec, s, Next(m), p);
      var k :| k in rest && Covers(k, p);
      assert k in Matches(exec, s, i);
    }
  }

  // ---------------------------------------------------------------------------------------------
  // Replacing.

  /** One left-to-right substitution of all matches from `from` on. */
  function Substitute(s: string, ms: seq<Span>, replacement: string, from: nat): string
    requires Ordered(ms, s, from) && from <= |s|
  {
    if ms == [] then s[from..]
    else s[from..ms[0].start] + replacement + Substitute(s, ms[1..], replacement, ms[0].end)
  }

  function Reverse(ms: seq<Span>): seq<Span>
    decreases |ms|
  {
    if ms == [] then [] else [ms[|ms| - 1]] + Reverse(ms[..|ms| - 1])
  }

  /** What `sort((a, b) => b.start - a.start)` gives. */
  predicate SortedDescending(sorted: seq<Span>, ms: seq<Span>) {
    multiset(sorted) == multiset(ms) && Descending(sorted)
  }

  lemma OrderedFront(ms: seq<Span>, s: string, from: nat)
    requires Ordered(ms, s, from) && ms != []
    ensures Ordered(ms[..|ms| - 1], s, from) && Ordered(ms[1..], s, ms[0].end)
  {
  }

  lemma LargestIsLast(sorted: seq<Span>, ms: seq<Span>, s: string)
    requires Ordered(ms, s, 0) && SortedDescending(sorted, ms) && ms != []
    ensures sorted != [] && sorted[0] == ms[|ms| - 1]
  {
    var last := ms[|ms| - 1];
    assert last in multiset(ms) && last in sorted;
    assert sorted[0] in multiset(sorted) && sorted[0] in ms;
    var i :| 0 <= i < |sorted| && sorted[i] == last;
    var j :| 0 <= j < |ms| && ms[j] == sorted[0];
    assert sorted[0].start >= last.start;
  }

  lemma WithoutLast(ms: seq<Span>)
    requires ms != []
    ensures multiset(ms[..|ms| - 1]) == multiset(ms) - multiset{ms[|ms| - 1]}
  {
    assert ms == ms[..|ms| - 1] + [ms[|ms| - 1]];
  }

  lemma WithoutFirst(ms: seq<Span>)
    requires ms != []
    ensures multiset(ms[1..]) == multiset(ms) - multiset{ms[0]}
  {
    assert ms == [ms[0]] + ms[1..];
  }

  lemma WithoutLargest(sorted: seq<Span>, ms: seq<Span>)
    requires SortedDescending(sorted, ms) && sorted != [] && ms != [] && sorted[0] == ms[|ms| - 1]
    ensures SortedDescending(sorted[1..], ms[..|ms| - 1])
  {
    WithoutFirst(sorted);
    WithoutLast(ms);
  }

  /** The starts differ, so there is only one descending order. */
  lemma {:induction false} SortedIsReverse(sorted: seq<Span>, ms: seq<Span>, s: string)
    requires Ordered(ms, s, 0) && SortedDescending(sorted, ms)
    ensures sorted == Reverse(ms)
    decreases |ms|
  {
    if ms == [] {
      assert |multiset(sorted)| == 0;
    } else {
      LargestIsLast(sorted, ms, s);
      WithoutLargest(sorted, ms);
      OrderedFront(ms, s, 0);
      SortedIsReverse(sorted[1..], ms[..|ms| - 1], s);
    }
  }

  lemma {:induction false} ReverseAt(ms: seq<Span>, k: nat)
    requires k < |ms|
    ensures |Reverse(ms)| == |ms| && Reverse(ms)[k] == ms[|ms| - 1 - k]
    decreases |ms|
  {
    if |ms| > 1 {
      ReverseAt(ms[..|ms| - 1], if k > 0 then k - 1 else 0);
    }
  }

  /** Where the text already replaced begins, after all matches from `k` on. */
  function Limit(s: string, ms: seq<Span>, k: nat): nat
    requires k <= |ms|
  {
    if k == |ms| then |s| else ms[k].start
  }

  lemma OrderedFrom(ms: seq<Span>, s: string, k: nat, from: nat)
    requires Ordered(ms, s, 0) && k <= |ms| && from <= Limit(s, ms, k)
    ensures Ordered(ms[k..], s, from)
  {
  }

  /** The text with the matches from `k` on replaced. */
  predicate Replaced(s: string, ms: seq<Span>, k: nat, replacement: string, r: string)
    requires Ordered(ms, s, 0)
  {
    && k <= |ms| && Limit(s, ms, k) <= |s| && Ordered(ms[k..], s, Limit(s, ms, k))
    && r == s[..Limit(s, ms, k)] + Substitute(s, ms[k..], replacement, Limit(s, ms, k))
  }

  lemma Sliced(s: string, limit: nat, tail: string, r: string, a: nat, e: nat)
    requires a <= e <= limit <= |s| && r == s[..limit] + tail
    ensures e <= |r| && r[..a] == s[..a] && r[e..] == s[e..limit] + tail
  {
  }

  /** Replacing one more match, from the right. */
  lemma OneMore(s: string, ms: seq<Span>, k: nat, replacement: string, r: string)
    requires Ordered(ms, s, 0) && k < |ms| && Replaced(s, ms, k + 1, replacement, r)
    ensures ms[k].start <= ms[k].end <= |r|
    ensures Replaced(s, ms, k, replacement, r[..ms[k].start] + replacement + r[ms[k].end..])
  {
    var limit := Limit(s, ms, k + 1);
    var rest := ms[k + 1..];
    OrderedFrom(ms, s, k, ms[k].start);
    OrderedFrom(ms, s, k + 1, ms[k].end);
    assert ms[k..] == [ms[k]] + rest;
    Spliced(s, ms[k], rest, limit, replacement, r);
  }

  /** On its own: the first match of a list whose rest is replaced already. */
  lemma Spliced(s: string, m: Span, rest: seq<Span>, limit: nat, replacement: string, r: string)
    requires m.start <= m.end <= limit <= |s| && limit == (if rest == [] then |s| else rest[0].start)
    requires Ordered([m] + rest, s, m.start) && Ordered(rest, s, m.end) && Ordered(rest, s, limit)
    requires r == s[..limit] + Substitute(s, rest, replacement, limit)
    ensures m.end <= |r|
    ensures r[..m.start] + replacement + r[m.end..] == s[..m.start] + Substitute(s, [m] + rest, replacement, m.start)
  {
    var tail := Substitute(s, rest, replacement, limit);
    Sliced(s, limit, tail, r, m.start, m.end);
    Widen(s, rest, replacement, m.end, limit);
    SubstituteFirst(s, m, rest, replacement);
    assert r[..m.start] + replacement + r[m.end..] == s[..m.start] + (replacement + (s[m.end..limit] + tail));
  }

  lemma SubstituteFirst(s: string, m: Span, rest: seq<Span>, replacement: string)
    requires Ordered([m] + rest, s, m.start) && Ordered(rest, s, m.end) && m.start <= m.end <= |s|
    ensures Substitute(s, [m] + rest, replacement, m.start) == replacement + Substitute(s, rest, replacement, m.end)
  {
    assert ([m] + rest)[1..] == rest;
    assert s[m.start..m.start] == "";
  }

  lemma Widen(s: string, ms: seq<Span>, replacement: string, from: nat, limit: nat)
    requires Ordered(ms, s, from) && from <= limit <= |s| && Ordered(ms, s, limit)
    requires limit == if ms == [] then |s| else ms[0].start
    ensures Substitute(s, ms, replacement, from) == s[from..limit] + Substitute(s, ms, replacement, limit)
  {
    if ms == [] {
      assert s[from..] == s[from..limit] + s[limit..];
    } else {
      OrderedTail(ms, s, from);
      var rest := Substitute(s, ms[1..], replacement, ms[0].end);
      assert Substitute(s, ms, replacement, from) == s[from..limit] + replacement + rest;
      assert s[limit..limit] == "";
      assert Substitute(s, ms, replacement, limit) == "" + replacement + rest;
      Regroup(s[from..limit], replacement, rest);
    }
  }

  lemma OrderedTail(ms: seq<Span>, s: string, from: nat)
    requires Ordered(ms, s, from) && ms != []
    ensures ms[0].end <= |s| && Ordered(ms[1..], s, ms[0].end)
  {
  }

  lemma Regroup(a: string, b: string, c: string)
    ensures a + b + c == a + ("" + b + c)
  {
  }

  /** `slice(0, n)` and `slice(n)`: an index past the end is clamped. */
  function SliceTo(s: string, n: nat): string {
    if n <= |s| then s[..n] else s
  }

  function SliceFrom(s: string, n: nat): string {
    if n <= |s| then s[n..] else ""
  }

  /** One match of the loop. */
  function SpliceOne(r: string, m: Span, replacement: string): string {
    SliceTo(r, m.start) + replacement + SliceFrom(r, m.end)
  }

  /** The loop over the sorted matches, wherever they come from. */
  function SpliceAll(s: string, sorted: seq<Span>, replacement: string): string
    decreases |sorted|
  {
    if sorted == [] then s
    else SpliceOne(SpliceAll(s, sorted[..|sorted| - 1], replacement), sorted[|sorted| - 1], replacement)
  }

  lemma SpliceMore(s: string, sorted: seq<Span>, i: nat, replacement: string)
    requires i < |sorted|
    ensures SpliceAll(s, sorted[..i + 1], replacement) ==
            SpliceOne(SpliceAll(s, sorted[..i], replacement), sorted[i], replacement)
  {
    assert sorted[..i + 1][..i] == sorted[..i];
  }

  /** After `i` of the matches of one source its last `i` are replaced. */
  lemma {:induction false} SplicedSoFar(s: string, ms: seq<Span>, i: nat, replacement: string)
    requires Ordered(ms, s, 0) && |Reverse(ms)| == |ms| && i <= |ms|
    ensures Replaced(s, ms, |ms| - i, replacement, SpliceAll(s, Reverse(ms)[..i], replacement))
    decreases i
  {
    if i == 0 {
      assert ms[|ms|..] == [] && s[..|s|] + s[|s|..] == s;
    } else {
      SplicedSoFar(s, ms, i - 1, replacement);
      SpliceMore(s, Reverse(ms), i - 1, replacement);
      ReverseAt(ms, i - 1);
      OneMore(s, ms, |ms| - i, replacement, SpliceAll(s, Reverse(ms)[..i - 1], replacement));
    }
  }

  lemma {:induction false} ReverseLength(ms: seq<Span>)
    ensures |Reverse(ms)| == |ms|
    decreases |ms|
  {
    if ms != [] {
      ReverseLength(ms[..|ms| - 1]);
    }
  }

  /** Whatever way they were sorted, splicing the matches of one source is one simultaneous substitution. */
  lemma SplicedIsSubstituted(s: string, ms: seq<Span>, sorted: seq<Span>, replacement: string)
    requires Ordered(ms, s, 0) && SortedDescending(sorted, ms)
    ensures SpliceAll(s, sorted, replacement) == Substitute(s, ms, replacement, 0)
  {
    SortedIsReverse(sorted, ms, s);
    ReverseLength(ms);
    SplicedSoFar(s, ms, |ms|, replacement);
    assert Reverse(ms)[..|ms|] == Reverse(ms);
    AllReplaced(s, ms, replacement, SpliceAll(s, sorted, replacement));
  }

  /** The loop of replaceAll over one source: the matches in descending order, each spliced into what the
      later ones left. For the matches of this source that is one simultaneous substitution. */
  method ReplaceInSource(s: string, ghost ms: seq<Span>, sorted: seq<Span>, replacement: string) returns (r: string)
    requires SortedDescending(sorted, ms)
    ensures r == SpliceAll(s, sorted, replacement)
    ensures Ordered(ms, s, 0) ==> r == Substitute(s, ms, replacement, 0)
  {
    r := s;
    var i := 0;
    while i < |sorted|
      invariant 0 <= i <= |sorted| && r == SpliceAll(s, sorted[..i], replacement)
    {
      var m := sorted[i];
      SpliceMore(s, sorted, i, replacement);
      r := SliceTo(r, m.start) + replacement + SliceFrom(r, m.end);
      i := i + 1;
    }
    assert sorted[..|sorted|] == sorted;
    if Ordered(ms, s, 0) {
      SplicedIsSubstituted(s, ms, sorted, replacement);
    }
  }

  lemma AllReplaced(s: string, ms: seq<Span>, replacement: string, r: string)
    requires Ordered(ms, s, 0) && Replaced(s, ms, 0, replacement, r)
    ensures r == Substitute(s, ms, replacement, 0)
  {
    assert ms[0..] == ms;
    Widen(s, ms, replacement, 0, Limit(s, ms, 0));
  }

  // ---------------------------------------------------------------------------------------------
  // What the substitution is.

  /** The text between the matches, from `from` on. */
  function Gaps(s: string, ms: seq<Span>, from: nat): seq<string>
    requires Ordered(ms, s, from) && from <= |s|
  {
    if ms == [] then [s[from..]] else [s[from..ms[0].start]] + Gaps(s, ms[1..], ms[0].end)
  }

  function Texts(s: string, ms: seq<Span>): seq<string>
    requires Ordered(ms, s, 0)
  {
    seq(|ms|, i requires 0 <= i < |ms| => s[ms[i].start..ms[i].end])
  }

  /** Gaps and fillings alternate. */
  function Interleave(gaps: seq<string>, fillings: seq<string>): string
    requires |gaps| == |fillings| + 1
  {
    if fillings == [] then gaps[0] else gaps[0] + fillings[0] + Interleave(gaps[1..], fillings[1..])
  }

  lemma {:induction false} GapsCount(s: string, ms: seq<Span>, from: nat)
    requires Ordered(ms, s, from) && from <= |s|
    ensures |Gaps(s, ms, from)| == |ms| + 1
    decreases |ms|
  {
    if ms != [] {
      GapsCount(s, ms[1..], ms[0].end);
    }
  }

  lemma InterleaveCons(g: string, gaps: seq<string>, f: string, fillings: seq<string>)
    requires |gaps| == |fillings| + 1
    ensures Interleave([g] + gaps, [f] + fillings) == g + f + Interleave(gaps, fillings)
  {
    assert ([g] + gaps)[1..] == gaps && ([f] + fillings)[1..] == fillings;
  }

  function Repeated(replacement: string, n: nat): seq<string> {
    seq(n, _ => replacement)
  }

  lemma CutThrice(s: string, a: nat, b: nat, c: nat)
    requires a <= b <= c <= |s|
    ensures s[a..] == s[a..b] + s[b..c] + s[c..]
  {
  }

  lemma TextsCons(s: string, ms: seq<Span>)
    requires Ordered(ms, s, 0) && ms != [] && Ordered(ms[1..], s, 0)
    ensures Texts(s, ms) == [s[ms[0].start..ms[0].end]] + Texts(s, ms[1..])
  {
  }

  lemma {:induction false} SourceFromGaps(s: string, ms: seq<Span>, from: nat)
    requires Ordered(ms, s, from) && Ordered(ms, s, 0) && from <= |s|
    ensures |Gaps(s, ms, from)| == |ms| + 1
    ensures Interleave(Gaps(s, ms, from), Texts(s, ms)) == s[from..]
    decreases |ms|
  {
    GapsCount(s, ms, from);
    if ms != [] {
      var m, rest := ms[0], ms[1..];
      SourceFromGaps(s, rest, m.end);
      TextsCons(s, ms);
      InterleaveCons(s[from..m.start], Gaps(s, rest, m.end), s[m.start..m.end], Texts(s, rest));
      CutThrice(s, from, m.start, m.end);
    }
  }

  lemma {:induction false} ResultFromGaps(s: string, ms: seq<Span>, replacement: string, from: nat)
    requires Ordered(ms, s, from) && from <= |s|
    ensures |Gaps(s, ms, from)| == |ms| + 1
    ensures Interleave(Gaps(s, ms, from), Repeated(replacement, |ms|)) == Substitute(s, ms, replacement, from)
    decreases |ms|
  {
    GapsCount(s, ms, from);
    if ms != [] {
      var m, rest := ms[0], ms[1..];
      ResultFromGaps(s, rest, replacement, m.end);
      assert Repeated(replacement, |ms|) == [replacement] + Repeated(replacement, |rest|);
      InterleaveCons(s[from..m.start], Gaps(s, rest, m.end), replacement, Repeated(replacement, |rest|));
    }
  }

  /** Filled with the matched texts the gaps give the source; filled with the replacement they give the
      result. */
  lemma SubstitutesExactly(s: string, ms: seq<Span>, replacement: string)
    requires Ordered(ms, s, 0)
    ensures |Gaps(s, ms, 0)| == |ms| + 1
    ensures Interleave(Gaps(s, ms, 0), Texts(s, ms)) == s
    ensures Interleave(Gaps(s, ms, 0), Repeated(replacement, |ms|)) == Substitute(s, ms, replacement, 0)
  {
    SourceFromGaps(s, ms, 0);
    ResultFromGaps(s, ms, replacement, 0);
  }

  predicate Without(gaps: seq<string>, z: char) {
    forall i :: 0 <= i < |gaps| ==> z !in gaps[i]
  }

  lemma {:induction false} GapsWithout(s: string, ms: seq<Span>, from: nat, z: char)
    requires Ordered(ms, s, from) && from <= |s| && z !in s
    ensures Without(Gaps(s, ms, from), z)
    decreases |ms|
  {
    if ms != [] {
      GapsWithout(s, ms[1..], ms[0].end, z);
    }
  }

  lemma NotBefore(a: string, b: string, x: string, y: string, z: char)
    requires z !in a && a + [z] + x == b + [z] + y
    ensures |a| <= |b|
  {
    var l := a + [z] + x;
    assert forall i :: 0 <= i < |a| ==> l[i] == a[i] && a[i] in a;
    assert l == b + [z] + y && l[|b|] == z;
  }

  lemma FirstOfTwo(a: string, b: string, x: string, y: string, z: char)
    requires z !in a && z !in b && a + [z] + x == b + [z] + y
    ensures a == b && x == y
  {
    NotBefore(a, b, x, y, z);
    NotBefore(b, a, y, x, z);
    var l, r := a + [z] + x, b + [z] + y;
    assert a == l[..|a|] && b == r[..|b|] && x == l[|a| + 1..] && y == r[|b| + 1..];
  }

  /** Fillings by a character that is in no gap can be found again. */
  lemma {:induction false} InterleaveInjective(a: seq<string>, b: seq<string>, z: char)
    requires a != [] && b != [] && Without(a, z) && Without(b, z)
    requires Interleave(a, Repeated([z], |a| - 1)) == Interleave(b, Repeated([z], |b| - 1))
    ensures a == b
    decreases |a|
  {
    InterleaveFirst(a, z);
    InterleaveFirst(b, z);
    if |a| > 1 && |b| > 1 {
      FirstOfTwo(a[0], b[0], Interleave(a[1..], Repeated([z], |a| - 2)), Interleave(b[1..], Repeated([z], |b| - 2)), z);
      InterleaveInjective(a[1..], b[1..], z);
      assert a == [a[0]] + a[1..] && b == [b[0]] + b[1..];
    }
  }

  lemma RepeatedFirst(z: char, n: nat)
    requires n > 0
    ensures Repeated([z], n) == [[z]] + Repeated([z], n - 1)
  {
  }

  lemma OccursAt(g: string, z: char, rest: string)
    ensures z in g + [z] + rest
  {
    assert (g + [z] + rest)[|g|] == z;
  }

  lemma InterleaveFirst(a: seq<string>, z: char)
    requires a != [] && Without(a, z)
    ensures var r := Interleave(a, Repeated([z], |a| - 1));
            if |a| == 1 then r == a[0] && z !in r
            else r == a[0] + [z] + Interleave(a[1..], Repeated([z], |a| - 2)) && z in r
  {
    if |a| > 1 {
      RepeatedFirst(z, |a| - 1);
      assert a == [a[0]] + a[1..];
      InterleaveCons(a[0], a[1..], [z], Repeated([z], |a| - 2));
      OccursAt(a[0], z, Interleave(a[1..], Repeated([z], |a| - 2)));
    }
  }

  lemma SameGapsSame(s: string, a: seq<Span>, b: seq<Span>, replacement: string)
    requires Ordered(a, s, 0) && Ordered(b, s, 0) && Gaps(s, a, 0) == Gaps(s, b, 0)
    ensures Substitute(s, a, replacement, 0) == Substitute(s, b, replacement, 0)
  {
    ResultFromGaps(s, a, replacement, 0);
    ResultFromGaps(s, b, replacement, 0);
  }

  /** Whatever the replacement, the two lists of spans give the same result. */
  ghost predicate Alike(s: string, a: seq<Span>, b: seq<Span>)
    requires Ordered(a, s, 0) && Ordered(b, s, 0)
  {
    forall t :: Substitute(s, a, t, 0) == Substitute(s, b, t, 0)
  }

  lemma AlikeMeansSameGaps(s: string, a: seq<Span>, b: seq<Span>, z: char)
    requires Ordered(a, s, 0) && Ordered(b, s, 0) && z !in s
    requires Substitute(s, a, [z], 0) == Substitute(s, b, [z], 0)
    ensures Gaps(s, a, 0) == Gaps(s, b, 0)
  {
    ResultFromGaps(s, a, [z], 0);
    ResultFromGaps(s, b, [z], 0);
    GapsWithout(s, a, 0, z);
    GapsWithout(s, b, 0, z);
    InterleaveInjective(Gaps(s, a, 0), Gaps(s, b, 0), z);
  }

  lemma SameGapsAlike(s: string, a: seq<Span>, b: seq<Span>)
    requires Ordered(a, s, 0) && Ordered(b, s, 0) && Gaps(s, a, 0) == Gaps(s, b, 0)
    ensures Alike(s, a, b)
  {
    forall t
      ensures Substitute(s, a, t, 0) == Substitute(s, b, t, 0)
    {
      SameGapsSame(s, a, b, t);
    }
  }

  /** Two lists of spans of one source are replaced alike, whatever the replacement, exactly when they leave
      the same gaps; a single character that is not in the source tells. */
  lemma SubstitutedAlikeExactly(s: string, a: seq<Span>, b: seq<Span>, z: char)
    requires Ordered(a, s, 0) && Ordered(b, s, 0) && z !in s
    ensures Alike(s, a, b) <==> Gaps(s, a, 0) == Gaps(s, b, 0)
    ensures Substitute(s, a, [z], 0) == Substitute(s, b, [z], 0) <==> Gaps(s, a, 0) == Gaps(s, b, 0)
  {
    if Gaps(s, a, 0) == Gaps(s, b, 0) {
      SameGapsAlike(s, a, b);
      SameGapsSame(s, a, b, [z]);
    } else if Substitute(s, a, [z], 0) == Substitute(s, b, [z], 0) {
      AlikeMeansSameGaps(s, a, b, z);
    }
  }

  // ---------------------------------------------------------------------------------------------
  // All cells.

  datatype Cell = Cell(id: string, source: string)

  datatype SearchMatch = SearchMatch(cellId: string, cellIndex: nat, span: Span)

  function Tagged(id: string, index: nat, ms: seq<Span>): (r: seq<SearchMatch>)
    ensures |r| == |ms| && forall i :: 0 <= i < |r| ==> r[i] == SearchMatch(id, index, ms[i])
  {
    seq(|ms|, i requires 0 <= i < |ms| => SearchMatch(id, index, ms[i]))
  }

  function FindAll(exec: Exec, cells: seq<Cell>): seq<SearchMatch>
    requires InBounds(exec)
    decreases |cells|
  {
    if cells == [] then []
    else
      var n := |cells| - 1;
      FindAll(exec, cells[..n]) + Tagged(cells[n].id, n, Matches(exec, cells[n].source, 0))
  }

  method FindMatches(exec: Exec, cells: seq<Cell>) returns (found: seq<SearchMatch>)
    requires InBounds(exec)
    ensures found == FindAll(exec, cells)
  {
    found := [];
    var i := 0;
    while i < |cells|
      invariant 0 <= i <= |cells| && found == FindAll(exec, cells[..i])
    {
      var ms := FindInSource(exec, cells[i].source);
      assert cells[..i + 1][..i] == cells[..i];
      found := found + Tagged(cells[i].id, i, ms);
      i := i + 1;
    }
    assert cells[..|cells|] == cells;
  }

  /** `byCell.get(id)`: the matches filed under a cell id. */
  function Group(found: seq<SearchMatch>, id: string): seq<Span>
    decreases |found|
  {
    if found == [] then []
    else
      var front, m := Group(found[..|found| - 1], id), found[|found| - 1];
      if m.cellId == id then front + [m.span] else front
  }

  lemma {:induction false} GroupConcat(a: seq<SearchMatch>, b: seq<SearchMatch>, id: string)
    ensures Group(a + b, id) == Group(a, id) + Group(b, id)
    decreases |b|
  {
    if b == [] {
      assert a + b == a;
    } else {
      GroupConcat(a, b[..|b| - 1], id);
      assert (a + b)[..|a + b| - 1] == a + b[..|b| - 1];
    }
  }

  lemma {:induction false} GroupTagged(id: string, index: nat, ms: seq<Span>, other: string)
    ensures Group(Tagged(id, index, ms), other) == if id == other then ms else []
    decreases |ms|
  {
    if ms != [] {
      var n := |ms| - 1;
      GroupTagged(id, index, ms[..n], other);
      assert Tagged(id, index, ms)[..n] == Tagged(id, index, ms[..n]);
      assert ms == ms[..n] + [ms[n]];
    }
  }

  predicate Quiet(exec: Exec, cell: Cell, id: string)
    requires InBounds(exec)
  {
    cell.id == id ==> Matches(exec, cell.source, 0) == []
  }

  lemma GroupMore(exec: Exec, cells: seq<Cell>, id: string)
    requires InBounds(exec) && cells != []
    ensures var n := |cells| - 1;
            Group(FindAll(exec, cells), id) == Group(FindAll(exec, cells[..n]), id) +
              if cells[n].id == id then Matches(exec, cells[n].source, 0) else []
  {
    var n := |cells| - 1;
    GroupConcat(FindAll(exec, cells[..n]), Tagged(cells[n].id, n, Matches(exec, cells[n].source, 0)), id);
    GroupTagged(cells[n].id, n, Matches(exec, cells[n].source, 0), id);
  }

  lemma {:induction false} GroupEmpty(exec: Exec, cells: seq<Cell>, id: string)
    requires InBounds(exec)
    ensures Group(FindAll(exec, cells), id) == [] <==> forall i :: 0 <= i < |cells| ==> Quiet(exec, cells[i], id)
    decreases |cells|
  {
    if cells != [] {
      var n := |cells| - 1;
      GroupEmpty(exec, cells[..n], id);
      GroupMore(exec, cells, id);
      assert cells == cells[..n] + [cells[n]];
    }
  }

  lemma PaddedSame(g: seq<Span>, x: seq<Span>, own: seq<Span>)
    requires |g| >= |own|
    ensures g + x == own <==> g == own && x == []
  {
    if g + x == own {
      assert |g| + |x| == |own|;
      assert g + [] == g;
    }
  }

  predicate OthersQuiet(exec: Exec, cells: seq<Cell>, c: nat, id: string)
    requires InBounds(exec)
  {
    forall i :: 0 <= i < |cells| && i != c ==> Quiet(exec, cells[i], id)
  }

  lemma OthersQuietMore(exec: Exec, front: seq<Cell>, last: Cell, c: nat, id: string)
    requires InBounds(exec) && c < |front|
    ensures OthersQuiet(exec, front + [last], c, id) <==> OthersQuiet(exec, front, c, id) && Quiet(exec, last, id)
  {
    var all := front + [last];
    assert all[|front|] == last;
    if OthersQuiet(exec, all, c, id) {
      forall i | 0 <= i < |front| && i != c ensures Quiet(exec, front[i], id) { assert all[i] == front[i]; }
    }
  }

  lemma OwnLast(exec: Exec, front: seq<Cell>, last: Cell)
    requires InBounds(exec) && forall j :: 0 <= j < |front| ==> front[j].id != last.id
    ensures Group(FindAll(exec, front + [last]), last.id) == Matches(exec, last.source, 0)
    ensures OthersQuiet(exec, front + [last], |front|, last.id)
  {
    var all := front + [last];
    assert all[..|front|] == front && all[|front|] == last;
    GroupMore(exec, all, last.id);
    GroupEmpty(exec, front, last.id);
    forall i | 0 <= i < |all| && i != |front| ensures Quiet(exec, all[i], last.id) { assert all[i] == front[i]; }
  }

  lemma OwnEarlier(exec: Exec, front: seq<Cell>, last: Cell, c: nat)
    requires InBounds(exec) && c < |front|
    requires var g, own := Group(FindAll(exec, front), front[c].id), Matches(exec, front[c].source, 0);
             |g| >= |own| && (g == own <==> OthersQuiet(exec, front, c, front[c].id))
    ensures var g, own := Group(FindAll(exec, front + [last]), front[c].id), Matches(exec, front[c].source, 0);
            |g| >= |own| && (g == own <==> OthersQuiet(exec, front + [last], c, front[c].id))
  {
    var id := front[c].id;
    var all := front + [last];
    assert all[..|front|] == front && all[|front|] == last;
    GroupMore(exec, all, id);
    OthersQuietMore(exec, front, last, c, id);
    PaddedSame(Group(FindAll(exec, front), id), if last.id == id then Matches(exec, last.source, 0) else [],
               Matches(exec, front[c].source, 0));
  }

  /** The matches filed under the id of a cell, the first with that id, are that cell's own exactly when no
      other cell with the id has a match; in particular when ids are distinct. */
  lemma {:induction false} GroupIsOwnExactly(exec: Exec, cells: seq<Cell>, c: nat)
    requires InBounds(exec) && c < |cells| && forall j :: 0 <= j < c ==> cells[j].id != cells[c].id
    ensures var g, own := Group(FindAll(exec, cells), cells[c].id), Matches(exec, cells[c].source, 0);
            |g| >= |own| && (g == own <==> OthersQuiet(exec, cells, c, cells[c].id))
    decreases |cells|
  {
    var front, last := cells[..|cells| - 1], cells[|cells| - 1];
    assert cells == front + [last];
    if c == |front| {
      OwnLast(exec, front, last);
    } else {
      GroupIsOwnExactly(exec, front, c);
      OwnEarlier(exec, front, last, c);
    }
  }

  // ---------------------------------------------------------------------------------------------
  // Replace-all over the notebook.

  /** Where a match goes in a sorted list: before the first that starts earlier. */
  method PlaceOf(sorted: seq<Span>, m: Span) returns (k: nat)
    ensures k <= |sorted| && (forall j :: 0 <= j < k ==> sorted[j].start >= m.start)
    ensures k < |sorted| ==> sorted[k].start < m.start
  {
    k := 0;
    while k < |sorted| && sorted[k].start >= m.start
      invariant 0 <= k <= |sorted| && forall j :: 0 <= j < k ==> sorted[j].start >= m.start
    {
      k := k + 1;
    }
  }

  /** The array's sort, by descending start. */
  method SortDescending(ms: seq<Span>) returns (sorted: seq<Span>)
    ensures SortedDescending(sorted, ms)
  {
    sorted := [];
    var i := 0;
    while i < |ms|
      invariant 0 <= i <= |ms| && SortedDescending(sorted, ms[..i])
    {
      var k := PlaceOf(sorted, ms[i]);
      InsertSorted(sorted, ms[..i], k, ms[i]);
      assert ms[..i + 1] == ms[..i] + [ms[i]];
      sorted := sorted[..k] + [ms[i]] + sorted[k..];
      i := i + 1;
    }
    assert ms[..|ms|] == ms;
  }

  lemma InsertedMultiset(sorted: seq<Span>, k: nat, m: Span)
    requires k <= |sorted|
    ensures multiset(sorted[..k] + [m] + sorted[k..]) == multiset(sorted) + multiset{m}
  {
    assert sorted == sorted[..k] + sorted[k..];
  }

  predicate Descending(ms: seq<Span>) {
    forall i, j :: 0 <= i < j < |ms| ==> ms[i].start >= ms[j].start
  }

  lemma InsertedDescending(sorted: seq<Span>, k: nat, m: Span)
    requires Descending(sorted) && k <= |sorted| && forall j :: 0 <= j < k ==> sorted[j].start >= m.start
    requires k < |sorted| ==> sorted[k].start < m.start
    ensures Descending(sorted[..k] + [m] + sorted[k..])
  {
  }

  lemma InsertSorted(sorted: seq<Span>, ms: seq<Span>, k: nat, m: Span)
    requires SortedDescending(sorted, ms) && k <= |sorted|
    requires forall j :: 0 <= j < k ==> sorted[j].start >= m.start
    requires k < |sorted| ==> sorted[k].start < m.start
    ensures SortedDescending(sorted[..k] + [m] + sorted[k..], ms + [m])
  {
    InsertedMultiset(sorted, k, m);
    InsertedDescending(sorted, k, m);
  }

  /** getCell: the first cell with the id. */
  function IndexOf(cells: seq<Cell>, id: string): (i: nat)
    ensures i <= |cells| && (i < |cells| ==> cells[i].id == id)
    ensures forall j :: 0 <= j < i ==> cells[j].id != id
  {
    if cells == [] || cells[0].id == id then 0 else 1 + IndexOf(cells[1..], id)
  }

  /** The ids with a match, in the order in which they were first met. */
  function FiledIds(found: seq<SearchMatch>): seq<string>
    decreases |found|
  {
    if found == [] then []
    else
      var front, id := FiledIds(found[..|found| - 1]), found[|found| - 1].cellId;
      if id in front then front else front + [id]
  }

  predicate Distinct(ids: seq<string>) {
    forall i, j :: 0 <= i < j < |ids| ==> ids[i] != ids[j]
  }

  lemma DistinctMore(ids: seq<string>, id: string)
    requires Distinct(ids) && id !in ids
    ensures Distinct(ids + [id])
  {
  }

  lemma {:induction false} FiledIdsDistinct(found: seq<SearchMatch>)
    ensures Distinct(FiledIds(found))
    decreases |found|
  {
    if found != [] {
      var front, id := FiledIds(found[..|found| - 1]), found[|found| - 1].cellId;
      FiledIdsDistinct(found[..|found| - 1]);
      if id !in front {
        DistinctMore(front, id);
      }
    }
  }

  /** `byCell.get(id) ?? []`. */
  function Get(byCell: map<string, seq<Span>>, id: string): seq<Span> {
    if id in byCell then byCell[id] else []
  }

  /** `byCell`: the matches by cell id, and its keys in insertion order. */
  ghost predicate Filed(byCell: map<string, seq<Span>>, order: seq<string>, found: seq<SearchMatch>) {
    && order == FiledIds(found)
    && (forall id :: id in byCell <==> id in order)
    && (forall id :: Get(byCell, id) == Group(found, id))
  }

  lemma GetMore(byCell: map<string, seq<Span>>, found: seq<SearchMatch>, m: SearchMatch, id: string)
    requires Get(byCell, id) == Group(found, id)
    ensures Get(byCell[m.cellId := Get(byCell, m.cellId) + [m.span]], id) == Group(found + [m], id)
  {
    assert (found + [m])[..|found|] == found;
  }

  lemma IdsMore(found: seq<SearchMatch>, m: SearchMatch)
    ensures FiledIds(found + [m]) ==
            if m.cellId in FiledIds(found) then FiledIds(found) else FiledIds(found) + [m.cellId]
  {
    assert (found + [m])[..|found|] == found;
  }

  lemma FiledMore(byCell: map<string, seq<Span>>, order: seq<string>, found: seq<SearchMatch>, m: SearchMatch)
    requires Filed(byCell, order, found)
    ensures Filed(byCell[m.cellId := Get(byCell, m.cellId) + [m.span]],
                  if m.cellId in byCell then order else order + [m.cellId], found + [m])
  {
    IdsMore(found, m);
    forall id
      ensures Get(byCell[m.cellId := Get(byCell, m.cellId) + [m.span]], id) == Group(found + [m], id)
    {
      GetMore(byCell, found, m, id);
    }
  }

  method FileByCell(found: seq<SearchMatch>) returns (byCell: map<string, seq<Span>>, order: seq<string>)
    ensures Filed(byCell, order, found)
  {
    byCell := map[];
    order := [];
    var i := 0;
    while i < |found|
      invariant 0 <= i <= |found| && Filed(byCell, order, found[..i])
    {
      var m := found[i];
      FiledMore(byCell, order, found[..i], m);
      assert found[..i] + [m] == found[..i + 1];
      order := if m.cellId in byCell then order else order + [m.cellId];
      byCell := byCell[m.cellId := Get(byCell, m.cellId) + [m.span]];
      i := i + 1;
    }
    assert found[..|found|] == found;
  }

  /** An id is filed exactly when it has a match. */
  lemma {:induction false} FiledExactly(found: seq<SearchMatch>, id: string)
    ensures id in FiledIds(found) <==> Group(found, id) != []
    decreases |found|
  {
    if found != [] {
      FiledExactly(found[..|found| - 1], id);
    }
  }

  predicate FirstWithId(cells: seq<Cell>, c: nat)
    requires c < |cells|
  {
    forall j :: 0 <= j < c ==> cells[j].id != cells[c].id
  }

  /** The ids the loop gets to: updateSource raises at the first that is no cell's any more. */
  function Reached(ids: seq<string>, cells: seq<Cell>): seq<string> {
    if ids == [] || IndexOf(cells, ids[0]) == |cells| then [] else [ids[0]] + Reached(ids[1..], cells)
  }

  lemma {:induction false} ReachedIs(ids: seq<string>, cells: seq<Cell>, k: nat)
    requires k <= |ids| && forall i :: 0 <= i < k ==> IndexOf(cells, ids[i]) < |cells|
    requires k < |ids| ==> IndexOf(cells, ids[k]) == |cells|
    ensures Reached(ids, cells) == ids[..k]
    decreases |ids|
  {
    if k > 0 {
      ReachedIs(ids[1..], cells, k - 1);
      assert ids[..k] == [ids[0]] + ids[1..][..k - 1];
    }
  }

  ghost predicate SplicedBy(s: string, ms: seq<Span>, replacement: string, r: string) {
    exists sorted :: SortedDescending(sorted, ms) && r == SpliceAll(s, sorted, replacement)
  }

  /** What becomes of cell `c`: if it is the first with an id the loop got to, the spans filed under that id
      are spliced into its present source. */
  ghost predicate CellOutcome(found: seq<SearchMatch>, cells: seq<Cell>, replacement: string, ids: seq<string>,
                              c: nat, after: Cell)
    requires c < |cells|
  {
    var cell := cells[c];
    && after.id == cell.id
    && if FirstWithId(cells, c) && cell.id in ids
       then SplicedBy(cell.source, Group(found, cell.id), replacement, after.source)
       else after == cell
  }

  ghost predicate Outcome(found: seq<SearchMatch>, cells: seq<Cell>, replacement: string, ids: seq<string>,
                          r: seq<Cell>)
  {
    |r| == |cells| && forall c :: 0 <= c < |cells| ==> CellOutcome(found, cells, replacement, ids, c, r[c])
  }

  /** The result of replace-all with the matches `found`, whenever they were found. */
  ghost predicate ReplacedAll(found: seq<SearchMatch>, cells: seq<Cell>, replacement: string, r: seq<Cell>) {
    Outcome(found, cells, replacement, Reached(FiledIds(found), cells), r)
  }

  lemma SameIds(a: seq<Cell>, b: seq<Cell>, id: string)
    requires |a| == |b| && forall c :: 0 <= c < |a| ==> a[c].id == b[c].id
    ensures IndexOf(a, id) == IndexOf(b, id)
  {
  }

  lemma OutcomeMore(found: seq<SearchMatch>, cells: seq<Cell>, replacement: string, ids: seq<string>, r: seq<Cell>,
                    c: nat, s: string)
    requires Outcome(found, cells, replacement, ids, r) && c < |cells| && FirstWithId(cells, c)
    requires SplicedBy(cells[c].source, Group(found, cells[c].id), replacement, s)
    ensures Outcome(found, cells, replacement, ids + [cells[c].id], r[c := Cell(cells[c].id, s)])
  {
    var r' := r[c := Cell(cells[c].id, s)];
    forall d | 0 <= d < |cells|
      ensures CellOutcome(found, cells, replacement, ids + [cells[c].id], d, r'[d])
    {
      assert CellOutcome(found, cells, replacement, ids, d, r[d]);
    }
  }

  lemma GroupFiled(byCell: map<string, seq<Span>>, order: seq<string>, found: seq<SearchMatch>, k: nat)
    requires Filed(byCell, order, found) && k < |order|
    ensures order[k] in byCell && byCell[order[k]] == Group(found, order[k])
  {
    assert order[k] in order;
    assert Get(byCell, order[k]) == Group(found, order[k]);
  }

  /** One more id: the spans filed under it are spliced into the first cell with it. */
  lemma NextOutcome(found: seq<SearchMatch>, cells: seq<Cell>, replacement: string, order: seq<string>, k: nat,
                    r: seq<Cell>, sorted: seq<Span>)
    requires k < |order| && Distinct(order) && Outcome(found, cells, replacement, order[..k], r)
    requires SortedDescending(sorted, Group(found, order[k]))
    ensures var c := IndexOf(r, order[k]);
            && c == IndexOf(cells, order[k])
            && (c < |r| ==> Outcome(found, cells, replacement, order[..k + 1],
                                    r[c := Cell(order[k], SpliceAll(r[c].source, sorted, replacement))]))
  {
    var id, c := order[k], IndexOf(r, order[k]);
    forall d | 0 <= d < |cells|
      ensures r[d].id == cells[d].id
    {
      assert CellOutcome(found, cells, replacement, order[..k], d, r[d]);
    }
    SameIds(r, cells, id);
    if c < |r| {
      assert id !in order[..k] && order[..k + 1] == order[..k] + [id];
      assert CellOutcome(found, cells, replacement, order[..k], c, r[c]);
      OutcomeMore(found, cells, replacement, order[..k], r, c, SpliceAll(r[c].source, sorted, replacement));
    }
  }

  lemma NothingYet(found: seq<SearchMatch>, cells: seq<Cell>, replacement: string)
    ensures Outcome(found, cells, replacement, [], cells)
  {
  }

  /** Replace-all: the matches of the last search, applied to the cells as they are now. It fails at the
      first id with a match that no cell has any more; what was replaced before stays replaced. */
  method ReplaceEverywhere(found: seq<SearchMatch>, cells: seq<Cell>, replacement: string)
    returns (r: seq<Cell>, failed: bool)
    ensures ReplacedAll(found, cells, replacement, r)
    ensures failed <==> Reached(FiledIds(found), cells) != FiledIds(found)
  {
    var byCell, order := FileByCell(found);
    FiledIdsDistinct(found);
    NothingYet(found, cells, replacement);
    r := cells;
    var k := 0;
    while k < |order|
      invariant 0 <= k <= |order| && Outcome(found, cells, replacement, order[..k], r)
      invariant forall i :: 0 <= i < k ==> IndexOf(cells, order[i]) < |cells|
    {
      var id := order[k];
      GroupFiled(byCell, order, found, k);
      var c := IndexOf(r, id);
      var source := if c < |r| then r[c].source else "";
      var sorted := SortDescending(byCell[id]);
      var s := ReplaceInSource(source, byCell[id], sorted, replacement);
      NextOutcome(found, cells, replacement, order, k, r, sorted);
      if c == |r| {
        ReachedIs(order, cells, k);
        return r, true;
      }
      r := r[c := Cell(id, s)];
      k := k + 1;
    }
    ReachedIs(order, cells, k);
    assert order[..k] == order;
    return r, false;
  }

  function Substituted(exec: Exec, cell: Cell, replacement: string): Cell
    requires InBounds(exec)
  {
    MatchesOrdered(exec, cell.source, 0);
    Cell(cell.id, Substitute(cell.source, Matches(exec, cell.source, 0), replacement, 0))
  }

  lemma NothingToReplace(exec: Exec, cell: Cell, replacement: string)
    requires InBounds(exec) && Matches(exec, cell.source, 0) == []
    ensures Substituted(exec, cell, replacement) == cell
  {
    assert cell.source[0..] == cell.source;
  }

  /** A cell becomes the one simultaneous substitution of all its present matches, if those are the spans
      filed under its id. */
  lemma FiledIsPresent(exec: Exec, found: seq<SearchMatch>, cells: seq<Cell>, replacement: string, r: seq<Cell>, c: nat)
    requires InBounds(exec) && ReplacedAll(found, cells, replacement, r)
    requires c < |cells| && FirstWithId(cells, c) && Group(found, cells[c].id) == Matches(exec, cells[c].source, 0)
    requires cells[c].id in FiledIds(found) ==> cells[c].id in Reached(FiledIds(found), cells)
    ensures r[c] == Substituted(exec, cells[c], replacement)
  {
    var cell, ms := cells[c], Group(found, cells[c].id);
    FiledExactly(found, cell.id);
    assert CellOutcome(found, cells, replacement, Reached(FiledIds(found), cells), c, r[c]);
    MatchesOrdered(exec, cell.source, 0);
    if cell.id in Reached(FiledIds(found), cells) {
      var sorted :| SortedDescending(sorted, ms) && r[c].source == SpliceAll(cell.source, sorted, replacement);
      SplicedIsSubstituted(cell.source, ms, sorted, replacement);
    } else {
      NothingToReplace(exec, cell, replacement);
    }
  }

  predicate DistinctIds(cells: seq<Cell>) {
    forall i, j :: 0 <= i < j < |cells| ==> cells[i].id != cells[j].id
  }

  /** The cell's own matches are all that is filed under its id. */
  predicate Owns(exec: Exec, cells: seq<Cell>, c: nat)
    requires InBounds(exec) && c < |cells|
  {
    FirstWithId(cells, c) && OthersQuiet(exec, cells, c, cells[c].id)
  }

  lemma DistinctOwn(exec: Exec, cells: seq<Cell>, c: nat)
    requires InBounds(exec) && c < |cells| && DistinctIds(cells)
    ensures Owns(exec, cells, c)
  {
    forall i | 0 <= i < |cells| && i != c
      ensures Quiet(exec, cells[i], cells[c].id)
    {
      assert i < c || c < i;
    }
  }

  /** A cell whose id was its own when it was searched, and still is, and that is as it was searched becomes
      the substitution of all its matches, unless the loop failed before it; in particular when all ids are
      distinct. */
  lemma UnchangedSinceSearch(exec: Exec, searched: seq<Cell>, cells: seq<Cell>, replacement: string, r: seq<Cell>,
                             j: nat, c: nat)
    requires InBounds(exec) && ReplacedAll(FindAll(exec, searched), cells, replacement, r)
    requires j < |searched| && c < |cells| && searched[j] == cells[c]
    requires (DistinctIds(searched) || Owns(exec, searched, j)) && (DistinctIds(cells) || FirstWithId(cells, c))
    requires var ids := FiledIds(FindAll(exec, searched));
             Reached(ids, cells) == ids || cells[c].id in Reached(ids, cells)
    ensures r[c] == Substituted(exec, cells[c], replacement)
  {
    if DistinctIds(searched) {
      DistinctOwn(exec, searched, j);
    }
    GroupIsOwnExactly(exec, searched, j);
    FiledIsPresent(exec, FindAll(exec, searched), cells, replacement, r, c);
  }

  lemma FoundHasCell(exec: Exec, cells: seq<Cell>, id: string)
    requires InBounds(exec) && id in FiledIds(FindAll(exec, cells))
    ensures IndexOf(cells, id) < |cells|
  {
    FiledExactly(FindAll(exec, cells), id);
    GroupEmpty(exec, cells, id);
  }

  /** Nothing edited since the search: replace-all does not fail, and every cell that owns the matches filed
      under its id gets its own substitution; with distinct ids every cell does. */
  lemma SearchedAsIs(exec: Exec, cells: seq<Cell>, replacement: string, r: seq<Cell>)
    requires InBounds(exec) && ReplacedAll(FindAll(exec, cells), cells, replacement, r)
    ensures var ids := FiledIds(FindAll(exec, cells)); Reached(ids, cells) == ids
    ensures forall c :: 0 <= c < |cells| && Owns(exec, cells, c) ==> r[c] == Substituted(exec, cells[c], replacement)
    ensures DistinctIds(cells) ==> forall c :: 0 <= c < |cells| ==> r[c] == Substituted(exec, cells[c], replacement)
  {
    var ids := FiledIds(FindAll(exec, cells));
    forall i | 0 <= i < |ids| ensures IndexOf(cells, ids[i]) < |cells| { FoundHasCell(exec, cells, ids[i]); }
    ReachedIs(ids, cells, |ids|);
    assert ids[..|ids|] == ids;
    forall c | 0 <= c < |cells| && (Owns(exec, cells, c) || DistinctIds(cells))
      ensures r[c] == Substituted(exec, cells[c], replacement)
    {
      if DistinctIds(cells) {
        DistinctOwn(exec, cells, c);
      }
      UnchangedSinceSearch(exec, cells, cells, replacement, r, c, c);
    }
  }

  lemma InBoundsReplaced(found: seq<SearchMatch>, cells: seq<Cell>, replacement: string, r: seq<Cell>, c: nat)
    requires ReplacedAll(found, cells, replacement, r) && c < |cells| && FirstWithId(cells, c)
    requires cells[c].id in Reached(FiledIds(found), cells)
    requires Ordered(Group(found, cells[c].id), cells[c].source, 0)
    ensures r[c] == Cell(cells[c].id, Substitute(cells[c].source, Group(found, cells[c].id), replacement, 0))
  {
    var ms := Group(found, cells[c].id);
    assert CellOutcome(found, cells, replacement, Reached(FiledIds(found), cells), c, r[c]);
    var sorted :| SortedDescending(sorted, ms) && r[c].source == SpliceAll(cells[c].source, sorted, replacement);
    SplicedIsSubstituted(cells[c].source, ms, sorted, replacement);
  }

  /** An edited cell in whose source the filed spans still lie: replacing by a character that is not in it
      gives the substitution of the present matches exactly when the filed spans leave the same gaps; and
      then any other replacement does so too. */
  lemma EditedExactly(exec: Exec, found: seq<SearchMatch>, cells: seq<Cell>, z: char, r: seq<Cell>, c: nat,
                      replacement: string, r': seq<Cell>)
    requires InBounds(exec) && c < |cells| && FirstWithId(cells, c) && z !in cells[c].source
    requires ReplacedAll(found, cells, [z], r) && ReplacedAll(found, cells, replacement, r')
    requires cells[c].id in Reached(FiledIds(found), cells)
    requires Ordered(Group(found, cells[c].id), cells[c].source, 0)
    ensures Ordered(Matches(exec, cells[c].source, 0), cells[c].source, 0)
    ensures r[c] == Substituted(exec, cells[c], [z]) <==>
            Gaps(cells[c].source, Group(found, cells[c].id), 0) ==
            Gaps(cells[c].source, Matches(exec, cells[c].source, 0), 0)
    ensures r[c] == Substituted(exec, cells[c], [z]) ==> r'[c] == Substituted(exec, cells[c], replacement)
  {
    var s, filed, present := cells[c].source, Group(found, cells[c].id), Matches(exec, cells[c].source, 0);
    MatchesOrdered(exec, s, 0);
    InBoundsReplaced(found, cells, [z], r, c);
    InBoundsReplaced(found, cells, replacement, r', c);
    SubstitutedAlikeExactly(s, filed, present, z);
    if Alike(s, filed, present) {
      assert Substitute(s, filed, replacement, 0) == Substitute(s, present, replacement, 0);
    }
  }

  // ---------------------------------------------------------------------------------------------
  // Where it goes wrong.

  /** The search for one character. */
  function FirstFrom(s: string, i: nat, c: char): (r: Option<Span>)
    ensures r.Some? ==> i <= r.value.start < r.value.end == r.value.start + 1 <= |s| && s[r.value.start] == c
    decreases |s| - i
  {
    if i >= |s| then None else if s[i] == c then Some(Span(i, i + 1)) else FirstFrom(s, i + 1, c)
  }

  function CharExec(c: char): Exec {
    (s: string, i: nat) => FirstFrom(s, i, c)
  }

  lemma {:induction false} FoundBefore(s: string, i: nat, p: nat, c: char)
    requires i <= p < |s| && s[p] == c
    ensures FirstFrom(s, i, c).Some? && FirstFrom(s, i, c).value.start <= p
    decreases p - i
  {
    if i < p {
      FoundBefore(s, i + 1, p, c);
    }
  }

  lemma CharExecMeets(c: char)
    ensures InBounds(CharExec(c)) && Leftmost(CharExec(c))
  {
    var exec := CharExec(c);
    forall s, i: nat, p: nat | i <= p <= |s| && MatchAt(exec, s, p)
      ensures exec(s, i).Some? && exec(s, i).value.start <= p
    {
      FoundBefore(s, i, p, c);
    }
  }

  lemma OneSpliced(s: string, m: Span, replacement: string, r: string)
    ensures SplicedBy(s, [m], replacement, r) <==> r == SpliceOne(s, m, replacement)
  {
    OneSorted(m);
    assert [m][..0] == [];
    assert SpliceAll(s, [m], replacement) == SpliceOne(s, m, replacement);
  }

  lemma OneSorted(m: Span)
    ensures SortedDescending([m], [m]) && forall sorted :: SortedDescending(sorted, [m]) ==> sorted == [m]
  {
    forall sorted | SortedDescending(sorted, [m])
      ensures sorted == [m]
    {
      assert |multiset(sorted)| == 1;
      assert sorted[0] in multiset(sorted);
    }
  }

  lemma OneMatch(s: string, i: nat)
    requires i < |s| && s[i] == 'x' && forall j :: 0 <= j < |s| && j != i ==> s[j] != 'x'
    ensures InBounds(CharExec('x')) && Matches(CharExec('x'), s, 0) == [Span(i, i + 1)]
  {
    CharExecMeets('x');
    FoundBefore(s, 0, i, 'x');
    assert FirstFrom(s, i + 1, 'x').None?;
    assert Matches(CharExec('x'), s, i + 1) == [];
  }

  lemma OneFound(exec: Exec, cell: Cell, m: Span)
    requires InBounds(exec) && Matches(exec, cell.source, 0) == [m]
    ensures FindAll(exec, [cell]) == [SearchMatch(cell.id, 0, m)]
  {
    assert [cell][..0] == [];
  }

  lemma OneFiled(id: string, m: Span)
    ensures var found := [SearchMatch(id, 0, m)]; FiledIds(found) == [id] && Group(found, id) == [m]
  {
    var found := [SearchMatch(id, 0, m)];
    assert found[..0] == [];
  }

  lemma OneReplaced(id: string, m: Span, s: string, replacement: string, r: seq<Cell>)
    ensures ReplacedAll([SearchMatch(id, 0, m)], [Cell(id, s)], replacement, r) <==>
            r == [Cell(id, SpliceOne(s, m, replacement))]
  {
    OneFiled(id, m);
    var found, cells := [SearchMatch(id, 0, m)], [Cell(id, s)];
    assert Reached([id], cells) == [id] + Reached([id][1..], cells) == [id];
    if |r| == 1 {
      OneSpliced(s, m, replacement, r[0].source);
    }
    OneSpliced(s, m, replacement, SpliceOne(s, m, replacement));
  }

  lemma OneSubstituted(exec: Exec, cell: Cell, m: Span, replacement: string)
    requires InBounds(exec) && Matches(exec, cell.source, 0) == [m]
    ensures m.end <= |cell.source| && m.start <= m.end
    ensures Substituted(exec, cell, replacement) ==
            Cell(cell.id, cell.source[..m.start] + replacement + cell.source[m.end..])
  {
    MatchesOrdered(exec, cell.source, 0);
    var s := cell.source;
    assert Ordered([m], s, 0) && [m][0] == m && [m][1..] == [];
    assert Substitute(s, [], replacement, m.end) == s[m.end..];
    assert Substitute(s, [m], replacement, 0) == s[0..m.start] + replacement + Substitute(s, [], replacement, m.end);
    assert s[0..m.start] == s[..m.start];
  }

  /** The search found the only "x" of the cell "x". If the cell has become "abx" since, replace-all writes
      over its "a" and leaves the "x" in place. */
  lemma EditedSinceSearch(r: seq<Cell>)
    ensures InBounds(CharExec('x'))
    ensures var exec, now := CharExec('x'), Cell("a", "abx");
            && (ReplacedAll(FindAll(exec, [Cell("a", "x")]), [now], "Y", r) <==> r == [Cell("a", "Ybx")])
            && Substituted(exec, now, "Y") == Cell("a", "abY")
  {
    var exec := CharExec('x');
    OneMatch("x", 0);
    OneMatch("abx", 2);
    OneFound(exec, Cell("a", "x"), Span(0, 1));
    OneReplaced("a", Span(0, 1), "abx", "Y", r);
    assert SpliceOne("abx", Span(0, 1), "Y") == "Ybx";
    OneSubstituted(exec, Cell("a", "abx"), Span(2, 3), "Y");
    assert "abx"[..2] == "ab" && "abx"[3..] == "";
  }

  lemma TwoFound(exec: Exec, a: Cell, b: Cell, m: Span, n: Span)
    requires InBounds(exec) && Matches(exec, a.source, 0) == [m] && Matches(exec, b.source, 0) == [n]
    ensures FindAll(exec, [a, b]) == [SearchMatch(a.id, 0, m), SearchMatch(b.id, 1, n)]
  {
    OneFound(exec, a, m);
    assert [a, b][..1] == [a];
  }

  lemma TwoFiled(id: string, m: Span, n: Span)
    ensures var found := [SearchMatch(id, 0, m), SearchMatch(id, 1, n)];
            FiledIds(found) == [id] && Group(found, id) == [m, n]
  {
    OneFiled(id, m);
    var found := [SearchMatch(id, 0, m), SearchMatch(id, 1, n)];
    assert found[..1] == [SearchMatch(id, 0, m)];
  }

  /** Two spans in order have one descending order. */
  lemma TwoSorted(m: Span, n: Span)
    requires m.start <= m.end <= n.start <= n.end && m.start < n.start
    ensures SortedDescending([n, m], [m, n]) && forall sorted :: SortedDescending(sorted, [m, n]) ==> sorted == [n, m]
  {
    forall sorted | SortedDescending(sorted, [m, n])
      ensures sorted == [n, m]
    {
      assert |multiset(sorted)| == 2;
      assert sorted == [sorted[0], sorted[1]];
      assert sorted[0] in multiset(sorted) && sorted[1] in multiset(sorted);
      assert multiset(sorted)[n] == 1;
    }
  }

  lemma TwoSpliced(s: string, m: Span, n: Span, replacement: string, r: string)
    requires m.start <= m.end <= n.start <= n.end && m.start < n.start
    ensures SplicedBy(s, [m, n], replacement, r) <==>
            r == SpliceOne(SpliceOne(s, n, replacement), m, replacement)
  {
    TwoSorted(m, n);
    assert [n, m][..1] == [n] && [n][..0] == [];
    assert SpliceAll(s, [n], replacement) == SpliceOne(s, n, replacement);
    assert SpliceAll(s, [n, m], replacement) == SpliceOne(SpliceAll(s, [n], replacement), m, replacement);
  }

  lemma TwoReplaced(id: string, m: Span, n: Span, s: string, t: string, replacement: string, r: seq<Cell>)
    requires m.start <= m.end <= n.start <= n.end && m.start < n.start
    ensures ReplacedAll([SearchMatch(id, 0, m), SearchMatch(id, 1, n)], [Cell(id, s), Cell(id, t)], replacement, r) <==>
            r == [Cell(id, SpliceOne(SpliceOne(s, n, replacement), m, replacement)), Cell(id, t)]
  {
    var cells := [Cell(id, s), Cell(id, t)];
    TwoFiled(id, m, n);
    assert Reached([id], cells) == [id] + Reached([id][1..], cells) == [id];
    assert !FirstWithId(cells, 1) && FirstWithId(cells, 0);
    if |r| == 2 {
      TwoSpliced(s, m, n, replacement, r[0].source);
    }
    TwoSpliced(s, m, n, replacement, SpliceOne(SpliceOne(s, n, replacement), m, replacement));
  }

  /** Two cells with one id: the second one's match is spliced into the first, which ends up with a
      replacement it has no match for, and the second keeps its match. */
  lemma RepeatedIdCorrupts(r: seq<Cell>)
    ensures InBounds(CharExec('x'))
    ensures var exec, cells := CharExec('x'), [Cell("a", "x"), Cell("a", "bx")];
            && (ReplacedAll(FindAll(exec, cells), cells, "Y", r) <==> r == [Cell("a", "YY"), Cell("a", "bx")])
            && Substituted(exec, cells[0], "Y") == Cell("a", "Y") && Substituted(exec, cells[1], "Y") == Cell("a", "bY")
  {
    var exec, cells := CharExec('x'), [Cell("a", "x"), Cell("a", "bx")];
    var m, n := Span(0, 1), Span(1, 2);
    OneMatch("x", 0);
    OneMatch("bx", 1);
    TwoFound(exec, cells[0], cells[1], m, n);
    TwoReplaced("a", m, n, "x", "bx", "Y", r);
    assert SpliceOne("x", n, "Y") == "xY" && SpliceOne("xY", m, "Y") == "YY";
    OneSubstituted(exec, cells[0], m, "Y");
    OneSubstituted(exec, cells[1], n, "Y");
    assert "x"[1..] == "" && "bx"[..1] == "b" && "bx"[2..] == "";
  }

  lemma TwoIds(id: string, other: string, m: Span, n: Span)
    requires id != other
    ensures FiledIds([SearchMatch(id, 0, m), SearchMatch(other, 1, n)]) == [id, other]
  {
    OneFiled(id, m);
    IdsMore([SearchMatch(id, 0, m)], SearchMatch(other, 1, n));
    assert [SearchMatch(id, 0, m)] + [SearchMatch(other, 1, n)] == [SearchMatch(id, 0, m), SearchMatch(other, 1, n)];
  }

  lemma NoneReached(id: string, other: string, cells: seq<Cell>)
    requires IndexOf(cells, id) == |cells|
    ensures Reached([id, other], cells) == []
  {
  }

  /** A cell with a match has been deleted since the search: replace-all fails there, and the cells that come
      after it are not replaced. */
  lemma DeletedSinceSearch(r: seq<Cell>)
    ensures InBounds(CharExec('x'))
    ensures var exec, now := CharExec('x'), [Cell("b", "x")];
            var found := FindAll(exec, [Cell("a", "x"), Cell("b", "x")]);
            && Reached(FiledIds(found), now) != FiledIds(found)
            && (ReplacedAll(found, now, "Y", r) <==> r == now)
  {
    var exec, m, now := CharExec('x'), Span(0, 1), [Cell("b", "x")];
    OneMatch("x", 0);
    TwoFound(exec, Cell("a", "x"), Cell("b", "x"), m, m);
    TwoIds("a", "b", m, m);
    NoneReached("a", "b", now);
  }
}
