/** Script coverage accounting (src/dataProcessor.js, `processScriptCoverage`
    and `isRangeContains`). For one script, every function's first coverage
    range is either recorded as unused (hit count zero) or merged into a
    running list of kept ranges: it widens the FIRST kept range it touches,
    or is appended when it touches none. Ranges merged earlier are never
    re-merged with each other, so the kept list can overlap itself. */
module Coverage {
  import opened Strings
  import opened Values

  /** A byte range of a function's source with its hit count. */
  datatype CoverageRange = CoverageRange(startOffset: int, endOffset: int, count: int)

  /** One function's coverage: the browser lists its ranges outermost first. */
  datatype FunctionCoverage = FunctionCoverage(functionName: string, ranges: seq<CoverageRange>)

  /** The coverage of one script. */
  datatype ScriptCoverage = ScriptCoverage(scriptId: string, url: string, functions: seq<FunctionCoverage>)

  /** A kept range: only its offsets matter once merged. */
  datatype Span = Span(startOffset: int, endOffset: int)

  /** The URL the automation library gives to the scripts it evaluates itself. */
  const EvaluationScriptUrl := "__puppeteer_evaluation_script__"

  /** The name recorded for a function whose name is empty. */
  const AnonymousName := "[[anonymous]]"

  predicate WellFormed(s: Span)
  {
    s.startOffset <= s.endOffset
  }

  predicate AllWellFormed(kept: seq<Span>)
  {
    forall i :: 0 <= i < |kept| ==> WellFormed(kept[i])
  }

  /** `isRangeContains(p1, p2)`: p1 reaches into p2 from the left, from the
      right, or one strictly encloses the other. For well-formed ranges this
      is exactly "the closed intervals intersect": touching ends count. */
  function RangesUnite(p1: Span, p2: Span): (b: bool)
    ensures WellFormed(p1) && WellFormed(p2) ==> (b <==> p1.startOffset <= p2.endOffset && p2.startOffset <= p1.endOffset)
  {
    var isStartUnion := p1.startOffset <= p2.startOffset && p1.endOffset <= p2.endOffset && p1.endOffset >= p2.startOffset;
    var isEndUnion := p1.endOffset >= p2.endOffset && p1.startOffset >= p2.startOffset && p1.startOffset <= p2.endOffset;
    var isUnion := (p1.startOffset > p2.startOffset && p1.endOffset < p2.endOffset) || (p1.startOffset < p2.startOffset && p1.endOffset > p2.endOffset);
    isStartUnion || isEndUnion || isUnion
  }

  /** The test does not depend on the order of its arguments. */
  lemma RangesUniteSymmetric(p1: Span, p2: Span)
    ensures RangesUnite(p1, p2) <==> RangesUnite(p2, p1)
  {
  }

  /** The replacement range `{min(starts), max(ends)}`. */
  function Hull(kept: Span, candidate: Span): (h: Span)
    ensures h.startOffset <= kept.startOffset && h.startOffset <= candidate.startOffset
    ensures h.endOffset >= kept.endOffset && h.endOffset >= candidate.endOffset
    ensures h.startOffset == kept.startOffset || h.startOffset == candidate.startOffset
    ensures h.endOffset == kept.endOffset || h.endOffset == candidate.endOffset
  {
    Span(if kept.startOffset <= candidate.startOffset then kept.startOffset else candidate.startOffset,
         if kept.endOffset >= candidate.endOffset then kept.endOffset else candidate.endOffset)
  }

  /** The index of the first kept range the candidate unites with, or
      `|kept|` when there is none. */
  function FirstMatch(kept: seq<Span>, c: Span): (j: nat)
    ensures j <= |kept|
    ensures j < |kept| ==> RangesUnite(c, kept[j])
    ensures forall i :: 0 <= i < j ==> !RangesUnite(c, kept[i])
  {
    if kept == [] then 0
    else if RangesUnite(c, kept[0]) then 0
    else 1 + FirstMatch(kept[1..], c)
  }

  /** One step of the merge loop (src/dataProcessor.js:213-234): widen the
      first kept range the candidate unites with, or append the candidate. */
  function Merge(kept: seq<Span>, c: Span): (r: seq<Span>)
    ensures |kept| <= |r| <= |kept| + 1
    ensures |r| == |kept| + 1 <==> forall i :: 0 <= i < |kept| ==> !RangesUnite(c, kept[i])
    ensures |r| == |kept| + 1 ==> r == kept + [c]
    ensures forall i :: 0 <= i < |kept| && r[i] != kept[i] ==> RangesUnite(c, kept[i]) && r[i] == Hull(kept[i], c)
    ensures forall i, i' :: 0 <= i < i' < |kept| && r[i] != kept[i] ==> r[i'] == kept[i']
  {
    var j := FirstMatch(kept, c);
    if j < |kept| then kept[j := Hull(kept[j], c)] else kept + [c]
  }

  /** A candidate that unites with no kept range is appended as it is. */
  lemma MergeAppendsWhenNothingUnites(kept: seq<Span>, c: Span)
    requires forall i :: 0 <= i < |kept| ==> !RangesUnite(c, kept[i])
    ensures Merge(kept, c) == kept + [c]
  {
  }

  /** Otherwise only the first range it unites with changes, to the hull of
      the two, and every other kept range stays where it was. */
  lemma MergeWidensFirstMatch(kept: seq<Span>, c: Span, j: nat)
    requires j < |kept| && RangesUnite(c, kept[j])
    requires forall i :: 0 <= i < j ==> !RangesUnite(c, kept[i])
    ensures |Merge(kept, c)| == |kept|
    ensures Merge(kept, c)[j] == Hull(kept[j], c)
    ensures forall i :: 0 <= i < |kept| && i != j ==> Merge(kept, c)[i] == kept[i]
  {
    FirstMatchAtMost(kept, c, j);
  }

  /** The first match comes no later than any range the candidate unites with. */
  lemma {:induction false} FirstMatchAtMost(kept: seq<Span>, c: Span, j: nat)
    requires j < |kept| && RangesUnite(c, kept[j])
    ensures FirstMatch(kept, c) <= j
  {
    if j > 0 && !RangesUnite(c, kept[0]) {
      FirstMatchAtMost(kept[1..], c, j - 1);
    }
  }

  /** Byte `x` lies in a range (its end is exclusive). */
  predicate InSpan(s: Span, x: int)
  {
    s.startOffset <= x < s.endOffset
  }

  /** Byte `x` lies in some kept range. */
  predicate Covered(kept: seq<Span>, x: int)
  {
    exists i :: 0 <= i < |kept| && InSpan(kept[i], x)
  }

  /** Merging never loses a byte and never invents one: the kept ranges cover
      exactly the bytes they covered before plus the candidate's. */
  lemma MergeCoversUnion(kept: seq<Span>, c: Span, x: int)
    requires AllWellFormed(kept) && WellFormed(c)
    ensures AllWellFormed(Merge(kept, c))
    ensures Covered(Merge(kept, c), x) <==> Covered(kept, x) || InSpan(c, x)
  {
    var j := FirstMatch(kept, c);
    var r := Merge(kept, c);
    if j < |kept| {
      if Covered(kept, x) {
        var i :| 0 <= i < |kept| && InSpan(kept[i], x);
        assert InSpan(r[i], x);
      }
      if InSpan(c, x) {
        assert InSpan(r[j], x);
      }
      if Covered(r, x) {
        var i :| 0 <= i < |r| && InSpan(r[i], x);
        if i != j {
          assert InSpan(kept[i], x);
        } else if !InSpan(kept[j], x) {
          assert InSpan(c, x);
        }
      }
    } else {
      if Covered(kept, x) {
        var i :| 0 <= i < |kept| && InSpan(kept[i], x);
        assert InSpan(r[i], x);
      }
      if InSpan(c, x) {
        assert InSpan(r[|kept|], x);
      }
      if Covered(r, x) {
        var i :| 0 <= i < |r| && InSpan(r[i], x);
        if i < |kept| {
          assert InSpan(kept[i], x);
        }
      }
    }
  }

  /** Merging a well-formed range a second time right after the first changes
      nothing: the range it widened (or appended) now holds the candidate. */
  lemma MergeTwiceIsMergeOnce(kept: seq<Span>, c: Span)
    requires WellFormed(c)
    ensures Merge(Merge(kept, c), c) == Merge(kept, c)
  {
    var j := FirstMatch(kept, c);
    var r := Merge(kept, c);
    var j2 := FirstMatch(r, c);
    if j < |kept| {
      assert RangesUnite(c, r[j]);
      FirstMatchAtMost(r, c, j);
      assert Hull(r[j], c) == r[j];
    } else {
      assert RangesUnite(c, r[|kept|]);
      FirstMatchAtMost(r, c, |kept|);
    }
  }

  /** No two kept ranges unite: what a full re-compaction would guarantee. */
  predicate PairwiseApart(kept: seq<Span>)
  {
    forall i, j :: 0 <= i < |kept| && 0 <= j < |kept| && i != j ==> !RangesUnite(kept[i], kept[j])
  }

  /** When the kept ranges are apart, a candidate identical to one of them
      leaves the list unchanged. */
  lemma MergeOfKeptRangeIsNoop(kept: seq<Span>, k: nat)
    requires k < |kept| && WellFormed(kept[k]) && PairwiseApart(kept)
    ensures Merge(kept, kept[k]) == kept
  {
    var c := kept[k];
    assert RangesUnite(c, kept[k]);
    FirstMatchAtMost(kept, c, k);
    assert Hull(kept[k], c) == kept[k];
  }

  /** Without that, it need not: a repeated range can widen an earlier kept
      range that overlaps it. */
  lemma MergeOfKeptRangeCanWidenAnother()
    ensures Merge([Span(0, 12), Span(10, 20)], Span(10, 20)) == [Span(0, 20), Span(10, 20)]
  {
    assert FirstMatch([Span(0, 12), Span(10, 20)], Span(10, 20)) == 0;
  }

  /** The function's first range, the one the merger looks at. */
  function Candidate(f: FunctionCoverage): Span
    requires |f.ranges| > 0
  {
    Span(f.ranges[0].startOffset, f.ranges[0].endOffset)
  }

  /** `!coverageCandidate.count` is false. */
  predicate IsUsed(f: FunctionCoverage)
    requires |f.ranges| > 0
  {
    f.ranges[0].count != 0
  }

  /** `funcObj.functionName || '[[anonymous]]'`. */
  function NameOf(f: FunctionCoverage): (n: string)
    ensures n != ""
    ensures f.functionName != "" ==> n == f.functionName
  {
    if f.functionName != "" then f.functionName else AnonymousName
  }

  /** Every function has at least one range: the browser always reports the
      function's own range first. */
  predicate HasRanges(fs: seq<FunctionCoverage>)
  {
    forall i :: 0 <= i < |fs| ==> |fs[i].ranges| > 0
  }

  /** The kept ranges after the merge loop has seen `fs`, in order. */
  function KeptRanges(fs: seq<FunctionCoverage>): (r: seq<Span>)
    requires HasRanges(fs)
    ensures |r| <= |fs|
    ensures r == [] <==> forall i :: 0 <= i < |fs| ==> !IsUsed(fs[i])
  {
    if fs == [] then []
    else
      var f := fs[|fs| - 1];
      var kept := KeptRanges(fs[..|fs| - 1]);
      if IsUsed(f) then Merge(kept, Candidate(f)) else kept
  }

  /** The names added to the used-name set, in insertion order. */
  function UsedNames(fs: seq<FunctionCoverage>): (r: seq<string>)
    requires HasRanges(fs)
    ensures Distinct(r) && |r| <= |fs|
  {
    if fs == [] then []
    else
      var f := fs[|fs| - 1];
      var names := UsedNames(fs[..|fs| - 1]);
      if IsUsed(f) then SetAdd(names, NameOf(f)) else names
  }

  /** The names added to the unused-name set, in insertion order. */
  function UnusedNames(fs: seq<FunctionCoverage>): (r: seq<string>)
    requires HasRanges(fs)
    ensures Distinct(r) && |r| <= |fs|
  {
    if fs == [] then []
    else
      var f := fs[|fs| - 1];
      var names := UnusedNames(fs[..|fs| - 1]);
      if IsUsed(f) then names else SetAdd(names, NameOf(f))
  }

  /** The sum of `endOffset - startOffset` over the kept ranges. */
  function TotalBytes(kept: seq<Span>): (r: int)
    ensures AllWellFormed(kept) ==> r >= 0
  {
    if kept == [] then 0
    else TotalBytes(kept[..|kept| - 1]) + (kept[|kept| - 1].endOffset - kept[|kept| - 1].startOffset)
  }

  /** A function never counted as used adds no range and no used name. */
  lemma UnusedFunctionAddsNoRange(fs: seq<FunctionCoverage>, f: FunctionCoverage)
    requires HasRanges(fs) && |f.ranges| > 0 && !IsUsed(f)
    ensures HasRanges(fs + [f])
    ensures KeptRanges(fs + [f]) == KeptRanges(fs)
    ensures UsedNames(fs + [f]) == UsedNames(fs)
    ensures NameOf(f) in UnusedNames(fs + [f])
  {
    assert (fs + [f])[..|fs|] == fs;
  }

  /** A used function whose range repeats the previous function's range
      changes neither the kept ranges nor the byte count. */
  lemma RepeatedFunctionChangesNothing(fs: seq<FunctionCoverage>, f: FunctionCoverage)
    requires HasRanges(fs) && |f.ranges| > 0 && IsUsed(f) && WellFormed(Candidate(f))
    ensures HasRanges(fs + [f]) && HasRanges(fs + [f, f])
    ensures KeptRanges(fs + [f, f]) == KeptRanges(fs + [f])
  {
    assert (fs + [f])[..|fs|] == fs;
    assert (fs + [f, f])[..|fs| + 1] == fs + [f];
    MergeTwiceIsMergeOnce(KeptRanges(fs), Candidate(f));
  }

  /** Used function `i` of `fs` covers byte `x` with its first range. */
  predicate UsedCovers(fs: seq<FunctionCoverage>, x: int)
    requires HasRanges(fs)
  {
    exists i :: 0 <= i < |fs| && IsUsed(fs[i]) && InSpan(Candidate(fs[i]), x)
  }

  /** The kept ranges cover exactly the bytes of the used functions' first
      ranges, whatever the order they came in. */
  lemma {:induction false} KeptRangesCoverUsedCode(fs: seq<FunctionCoverage>, x: int)
    requires HasRanges(fs)
    requires forall i :: 0 <= i < |fs| ==> WellFormed(Candidate(fs[i]))
    ensures AllWellFormed(KeptRanges(fs))
    ensures Covered(KeptRanges(fs), x) <==> UsedCovers(fs, x)
  {
    if fs != [] {
      var init := fs[..|fs| - 1];
      var f := fs[|fs| - 1];
      KeptRangesCoverUsedCode(init, x);
      if IsUsed(f) {
        MergeCoversUnion(KeptRanges(init), Candidate(f), x);
      }
      if UsedCovers(fs, x) {
        var i :| 0 <= i < |fs| && IsUsed(fs[i]) && InSpan(Candidate(fs[i]), x);
        if i < |fs| - 1 {
          assert init[i] == fs[i];
        }
      }
      if UsedCovers(init, x) {
        var i :| 0 <= i < |init| && IsUsed(init[i]) && InSpan(Candidate(init[i]), x);
        assert fs[i] == init[i];
      }
    }
  }

  /** The byte count depends on the order of the functions: two orders of
      the same three ranges give 22 and 20 bytes, although both cover the
      same 20 bytes. */
  lemma MergeDependsOnOrder()
    ensures var a := FunctionCoverage("a", [CoverageRange(0, 5, 1)]);
            var b := FunctionCoverage("b", [CoverageRange(10, 20, 1)]);
            var c := FunctionCoverage("c", [CoverageRange(4, 12, 1)]);
            && KeptRanges([a, b, c]) == [Span(0, 12), Span(10, 20)]
            && TotalBytes(KeptRanges([a, b, c])) == 22
            && KeptRanges([a, c, b]) == [Span(0, 20)]
            && TotalBytes(KeptRanges([a, c, b])) == 20
  {
    MergeOfABC();
    MergeOfACB();
  }

  lemma MergeOfABC()
    ensures var a := FunctionCoverage("a", [CoverageRange(0, 5, 1)]);
            var b := FunctionCoverage("b", [CoverageRange(10, 20, 1)]);
            var c := FunctionCoverage("c", [CoverageRange(4, 12, 1)]);
            && KeptRanges([a, b, c]) == [Span(0, 12), Span(10, 20)]
            && TotalBytes(KeptRanges([a, b, c])) == 22
  {
    var a := FunctionCoverage("a", [CoverageRange(0, 5, 1)]);
    var b := FunctionCoverage("b", [CoverageRange(10, 20, 1)]);
    var c := FunctionCoverage("c", [CoverageRange(4, 12, 1)]);
    assert [a, b, c][..2] == [a, b] && [a, b][..1] == [a] && [a][..0] == [];
    assert KeptRanges([a]) == [Span(0, 5)];
    assert FirstMatch([Span(0, 5)], Span(10, 20)) == 1;
    assert KeptRanges([a, b]) == [Span(0, 5), Span(10, 20)];
    assert FirstMatch([Span(0, 5), Span(10, 20)], Span(4, 12)) == 0;
    assert KeptRanges([a, b, c]) == [Span(0, 12), Span(10, 20)];
    assert [Span(0, 12), Span(10, 20)][..1] == [Span(0, 12)];
  }

  lemma MergeOfACB()
    ensures var a := FunctionCoverage("a", [CoverageRange(0, 5, 1)]);
            var b := FunctionCoverage("b", [CoverageRange(10, 20, 1)]);
            var c := FunctionCoverage("c", [CoverageRange(4, 12, 1)]);
            && KeptRanges([a, c, b]) == [Span(0, 20)]
            && TotalBytes(KeptRanges([a, c, b])) == 20
  {
    var a := FunctionCoverage("a", [CoverageRange(0, 5, 1)]);
    var b := FunctionCoverage("b", [CoverageRange(10, 20, 1)]);
    var c := FunctionCoverage("c", [CoverageRange(4, 12, 1)]);
    assert [a, c, b][..2] == [a, c] && [a, c][..1] == [a] && [a][..0] == [];
    assert KeptRanges([a]) == [Span(0, 5)];
    assert FirstMatch([Span(0, 5)], Span(4, 12)) == 0;
    assert KeptRanges([a, c]) == [Span(0, 12)];
    assert FirstMatch([Span(0, 12)], Span(10, 20)) == 0;
    assert KeptRanges([a, c, b]) == [Span(0, 20)];
  }

  /** The used-name set holds exactly the names of the used functions, and
      the unused-name set those of the others; a name can be in both. */
  lemma NamesExact(fs: seq<FunctionCoverage>, n: string)
    requires HasRanges(fs)
    ensures n in UsedNames(fs) <==> exists i :: 0 <= i < |fs| && IsUsed(fs[i]) && NameOf(fs[i]) == n
    ensures n in UnusedNames(fs) <==> exists i :: 0 <= i < |fs| && !IsUsed(fs[i]) && NameOf(fs[i]) == n
  {
    UsedNamesExact(fs, n);
    UnusedNamesExact(fs, n);
  }

  lemma {:induction false} UsedNamesExact(fs: seq<FunctionCoverage>, n: string)
    requires HasRanges(fs)
    ensures n in UsedNames(fs) <==> exists i :: 0 <= i < |fs| && IsUsed(fs[i]) && NameOf(fs[i]) == n
  {
    if fs != [] {
      var init := fs[..|fs| - 1];
      UsedNamesExact(init, n);
      forall i | 0 <= i < |init| ensures init[i] == fs[i] { }
    }
  }

  lemma {:induction false} UnusedNamesExact(fs: seq<FunctionCoverage>, n: string)
    requires HasRanges(fs)
    ensures n in UnusedNames(fs) <==> exists i :: 0 <= i < |fs| && !IsUsed(fs[i]) && NameOf(fs[i]) == n
  {
    if fs != [] {
      var init := fs[..|fs| - 1];
      UnusedNamesExact(init, n);
      forall i | 0 <= i < |init| ensures init[i] == fs[i] { }
    }
  }

  /** What `processScriptCoverage` writes as a script's `functionCoverage`,
      before `usage`. */
  datatype Summary = Summary(usedBytes: int, usedFunctions: seq<string>, unusedFunctions: seq<string>)

  /** The summary of one script's functions. */
  function Summarize(fs: seq<FunctionCoverage>): (s: Summary)
    requires HasRanges(fs)
    ensures StrictlySorted(s.usedFunctions) && StrictlySorted(s.unusedFunctions)
  {
    Summary(TotalBytes(KeptRanges(fs)), Sort(UsedNames(fs)), Sort(UnusedNames(fs)))
  }

  /** The summary's name lists are sorted, duplicate-free, and hold exactly
      the used (respectively unused) function names. */
  lemma SummaryNames(fs: seq<FunctionCoverage>, n: string)
    requires HasRanges(fs)
    ensures StrictlySorted(Summarize(fs).usedFunctions) && StrictlySorted(Summarize(fs).unusedFunctions)
    ensures n in Summarize(fs).usedFunctions <==> exists i :: 0 <= i < |fs| && IsUsed(fs[i]) && NameOf(fs[i]) == n
    ensures n in Summarize(fs).unusedFunctions <==> exists i :: 0 <= i < |fs| && !IsUsed(fs[i]) && NameOf(fs[i]) == n
  {
    NamesExact(fs, n);
  }

  /** The merge step for one used candidate (src/dataProcessor.js:213-234):
      scan the kept ranges in order, replace the first one it unites with by
      their hull and stop; append the candidate when nothing unites. */
  method MergeCandidate(ranges: seq<Span>, c: Span) returns (r: seq<Span>)
    ensures r == Merge(ranges, c)
    ensures FirstMatch(ranges, c) == |ranges| ==> r == ranges + [c]
    ensures FirstMatch(ranges, c) < |ranges| ==> |r| == |ranges| && r[FirstMatch(ranges, c)] == Hull(ranges[FirstMatch(ranges, c)], c)
  {
    r := ranges;
    if |r| == 0 {
      r := r + [c];
      return;
    }
    var merged := false;
    var j := 0;
    while j < |r|
      invariant 0 <= j <= |r|
      invariant !merged && r == ranges
      invariant forall k :: 0 <= k < j ==> !RangesUnite(c, r[k])
    {
      if RangesUnite(c, r[j]) {
        MergeWidensFirstMatch(r, c, j);
        r := r[j := Hull(r[j], c)];
        merged := true;
        break;
      }
      j := j + 1;
    }
    if !merged {
      r := r + [c];
    }
  }

  /** The byte sum over the kept ranges (src/dataProcessor.js:237-242). */
  method SumBytes(ranges: seq<Span>) returns (usedBytes: int)
    ensures usedBytes == TotalBytes(ranges)
    ensures AllWellFormed(ranges) ==> usedBytes >= 0
  {
    usedBytes := 0;
    var k := 0;
    while k < |ranges|
      invariant 0 <= k <= |ranges|
      invariant usedBytes == TotalBytes(ranges[..k])
      invariant AllWellFormed(ranges) ==> usedBytes >= 0
    {
      assert ranges[..k + 1][..k] == ranges[..k];
      usedBytes := usedBytes + (ranges[k].endOffset - ranges[k].startOffset);
      k := k + 1;
    }
    assert ranges[..|ranges|] == ranges;
  }

  /** The per-script loop of `processScriptCoverage` (src/dataProcessor.js:193-248):
      the name sets, the kept ranges merged first-match-wins, the byte sum
      over the kept ranges and the two sorted name lists. */
  method SummarizeFunctions(functions: seq<FunctionCoverage>)
    returns (usedBytes: int, usedFunctions: seq<string>, unusedFunctions: seq<string>)
    requires HasRanges(functions)
    ensures Summary(usedBytes, usedFunctions, unusedFunctions) == Summarize(functions)
    ensures StrictlySorted(usedFunctions) && StrictlySorted(unusedFunctions)
    ensures forall n :: n in usedFunctions <==> exists i :: 0 <= i < |functions| && IsUsed(functions[i]) && NameOf(functions[i]) == n
    ensures forall n :: n in unusedFunctions <==> exists i :: 0 <= i < |functions| && !IsUsed(functions[i]) && NameOf(functions[i]) == n
  {
    var usedNames: seq<string> := [];
    var unusedNames: seq<string> := [];
    var ranges: seq<Span> := [];
    var i := 0;
    while i < |functions|
      invariant 0 <= i <= |functions|
      invariant ranges == KeptRanges(functions[..i])
      invariant usedNames == UsedNames(functions[..i])
      invariant unusedNames == UnusedNames(functions[..i])
    {
      assert functions[..i + 1][..i] == functions[..i];
      var funcObj := functions[i];
      var coverageCandidate := funcObj.ranges[0];
      var functionName := if funcObj.functionName != "" then funcObj.functionName else AnonymousName;
      if coverageCandidate.count == 0 {
        unusedNames := SetAdd(unusedNames, functionName);
      } else {
        usedNames := SetAdd(usedNames, functionName);
        ranges := MergeCandidate(ranges, Span(coverageCandidate.startOffset, coverageCandidate.endOffset));
      }
      i := i + 1;
    }
    assert functions[..|functions|] == functions;
    usedBytes := SumBytes(ranges);

    usedFunctions := Sort(usedNames);
    unusedFunctions := Sort(unusedNames);
    forall n ensures (n in usedFunctions <==> exists i :: 0 <= i < |functions| && IsUsed(functions[i]) && NameOf(functions[i]) == n)
                  && (n in unusedFunctions <==> exists i :: 0 <= i < |functions| && !IsUsed(functions[i]) && NameOf(functions[i]) == n) {
      NamesExact(functions, n);
    }
  }
}
