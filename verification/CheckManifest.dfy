// CheckManifest: compare two arrays of range names, once in each direction.
module CheckManifest {
  import opened Report
  import opened Common

  datatype Message =
    | LengthsDiffer(lenA: nat, lenB: nat)
    | InFirstNotInSecond(item: string, testing: bool)

  const MAX_MESSAGES := 4

  // How many of the first `n` items of `b` a pass that knows `a` fails; test mode fails item number `fail` too.
  function Failures(a: seq<string>, b: seq<string>, n: nat, testMode: bool, fail: nat): (f: nat)
    requires n <= |b|
    ensures f <= n
  {
    if n == 0 then 0
    else Failures(a, b, n - 1, testMode, fail) + if b[n - 1] !in a || (testMode && n - 1 == fail) then 1 else 0
  }

  lemma OneMoreItem(a: seq<string>, b: seq<string>, n: nat, testMode: bool, fail: nat)
    requires n < |b|
    ensures Failures(a, b, n + 1, testMode, fail) ==
      Failures(a, b, n, testMode, fail) + if b[n] !in a || (testMode && n == fail) then 1 else 0
  {
  }

  // The messages about them, in order.
  function Complaints(a: seq<string>, b: seq<string>, n: nat, testMode: bool, fail: nat): (ms: seq<Message>)
    requires n <= |b|
    ensures |ms| == Failures(a, b, n, testMode, fail)
  {
    if n == 0 then []
    else Complaints(a, b, n - 1, testMode, fail) +
         if b[n - 1] !in a || (testMode && n - 1 == fail) then [InFirstNotInSecond(b[n - 1], testMode)] else []
  }

  // A message names an item of the second array that is not in the first, save for the one test mode picks.
  lemma {:induction false} ComplaintsMean(a: seq<string>, b: seq<string>, n: nat, testMode: bool, fail: nat, m: Message)
    requires n <= |b|
    ensures m in Complaints(a, b, n, testMode, fail) <==>
      m.InFirstNotInSecond? && m.testing == testMode &&
      exists i :: 0 <= i < n && m.item == b[i] && (b[i] !in a || (testMode && i == fail))
  {
    if n > 0 {
      ComplaintsMean(a, b, n - 1, testMode, fail, m);
    }
  }

  lemma OneMoreComplaint(a: seq<string>, b: seq<string>, n: nat, testMode: bool, fail: nat)
    requires n < |b|
    ensures Complaints(a, b, n + 1, testMode, fail) == Complaints(a, b, n, testMode, fail) +
      if b[n] !in a || (testMode && n == fail) then [InFirstNotInSecond(b[n], testMode)] else []
  {
  }

  // A difference in length is announced once.
  ghost function Announced(ms: seq<Message>, lenA: nat, lenB: nat, testMode: bool): seq<Message> {
    if !testMode && lenA != lenB && (forall m :: m in ms ==> !m.LengthsDiffer?) then ms + [LengthsDiffer(lenA, lenB)]
    else ms
  }

  // What fits: all of them, or up to four messages in the whole report.
  ghost function Reported(ms: seq<Message>, more: seq<Message>, details: bool): seq<Message> {
    if details || |ms| + |more| <= 4 then ms + more
    else if |ms| >= 4 then ms
    else ms + more[..4 - |ms|]
  }

  lemma OneMoreReported(ms: seq<Message>, more: seq<Message>, details: bool, m: Message)
    ensures Reported(ms, more + [m], details) ==
      if details || |Reported(ms, more, details)| < 4 then Reported(ms, more, details) + [m]
      else Reported(ms, more, details)
  {
  }

  class CompareState {
    var arrayA: seq<string>
    var arrayB: seq<string>
    var fail: nat
    const testMode: bool
    const details: bool

    constructor (arrayA: seq<string>, arrayB: seq<string>, fail: nat, testMode: bool, details: bool)
      ensures this.arrayA == arrayA && this.arrayB == arrayB && this.fail == fail
      ensures this.testMode == testMode && this.details == details
    {
      this.arrayA, this.arrayB, this.fail, this.testMode, this.details := arrayA, arrayB, fail, testMode, details;
    }

    method CheckArrays(report: ReportCheck<Message>)
      modifies report
      ensures var n := Min(|arrayA|, |arrayB|);
        && report.visited == old(report.visited) + n
        && report.checked == old(report.checked) + n
        && report.checked - report.passed ==
           old(report.checked - report.passed) + Failures(arrayA, arrayB, n, testMode, fail)
      ensures report.messages ==
        Reported(Announced(old(report.messages), |arrayA|, |arrayB|, testMode),
                 Complaints(arrayA, arrayB, Min(|arrayA|, |arrayB|), testMode, fail), details)
    {
      hide Failures, Complaints, Announced, Reported;
      ReportLengths(report);
      var theMap: set<string> := {};
      for i := 0 to |arrayA|
        invariant forall x :: x in theMap <==> x in arrayA[..i]
      {
        theMap := theMap + {arrayA[i]};
      }
      assert arrayA[..|arrayA|] == arrayA;
      ghost var before := report.messages;
      NothingLookedAt(arrayA, arrayB, testMode, fail, before, details);
      for i := 0 to |arrayB|
        invariant report.visited == old(report.visited) + Min(|arrayA|, i)
        invariant report.checked == old(report.checked) + Min(|arrayA|, i)
        invariant report.checked - report.passed ==
          old(report.checked - report.passed) + Failures(arrayA, arrayB, Min(|arrayA|, i), testMode, fail)
        invariant report.messages ==
          Reported(before, Complaints(arrayA, arrayB, Min(|arrayA|, i), testMode, fail), details)
      {
        if i >= |arrayA| {
          continue;
        }
        OneMoreItem(arrayA, arrayB, i, testMode, fail);
        OneMoreComplaint(arrayA, arrayB, i, testMode, fail);
        report.visited := report.visited + 1;
        report.checked := report.checked + 1;
        if arrayB[i] !in theMap || (testMode && i == fail) {
          var message := InFirstNotInSecond(arrayB[i], testMode);
          OneMoreReported(before, Complaints(arrayA, arrayB, i, testMode, fail), details, message);
          if |report.messages| < MAX_MESSAGES || details {
            report.messages := report.messages + [message];
          }
        } else {
          assert Complaints(arrayA, arrayB, i, testMode, fail) + [] == Complaints(arrayA, arrayB, i, testMode, fail);
          report.passed := report.passed + 1;
        }
      }
    }

    // Says once that the lengths differ.
    method ReportLengths(report: ReportCheck<Message>)
      modifies report`messages
      ensures report.messages == Announced(old(report.messages), |arrayA|, |arrayB|, testMode)
    {
      if !testMode && |arrayA| != |arrayB| {
        var alreadyReported := false;
        for i := 0 to |report.messages|
          invariant alreadyReported <==> exists j :: 0 <= j < i && report.messages[j].LengthsDiffer?
          invariant report.messages == old(report.messages)
        {
          if report.messages[i].LengthsDiffer? {
            alreadyReported := true;
          }
        }
        if !alreadyReported {
          report.messages := report.messages + [LengthsDiffer(|arrayA|, |arrayB|)];
        }
      }
    }
  }

  lemma NothingLookedAt(a: seq<string>, b: seq<string>, testMode: bool, fail: nat, ms: seq<Message>, details: bool)
    ensures Failures(a, b, 0, testMode, fail) == 0 && Complaints(a, b, 0, testMode, fail) == []
    ensures Reported(ms, [], details) == ms
  {
  }

  method CheckManifest(arrayA: seq<string>, arrayB: seq<string>, testMode: bool, details: bool,
                       report: ReportCheck<Message>)
    modifies report
    ensures var n := Min(|arrayA|, |arrayB|);
      && report.visited == old(report.visited) + 2 * n && report.checked == old(report.checked) + 2 * n
      && report.checked - report.passed == old(report.checked - report.passed)
           + Failures(arrayA, arrayB, n, testMode, 3) + Failures(arrayB, arrayA, n, testMode, 4)
    ensures var n, a, b := Min(|arrayA|, |arrayB|), |arrayA|, |arrayB|;
      var first := Reported(Announced(old(report.messages), a, b, testMode),
                            Complaints(arrayA, arrayB, n, testMode, 3), details);
      report.messages ==
        Reported(Announced(first, b, a, testMode), Complaints(arrayB, arrayA, n, testMode, 4), details)
  {
    hide Reported, Announced, Complaints, Failures;
    var comp := new CompareState(arrayA, arrayB, 3, testMode, details);
    comp.CheckArrays(report);
    comp.arrayA, comp.arrayB := comp.arrayB, comp.arrayA;
    comp.fail := 4;
    comp.CheckArrays(report);
  }

  // ---- What a clean comparison means ----

  lemma {:induction false} NoFailures(a: seq<string>, b: seq<string>, n: nat, testMode: bool, fail: nat)
    requires n <= |b|
    ensures Failures(a, b, n, testMode, fail) == 0 <==>
      (forall i :: 0 <= i < n ==> b[i] in a) && !(testMode && fail < n)
  {
    if n > 0 {
      NoFailures(a, b, n - 1, testMode, fail);
    }
  }

  ghost predicate DuplicateFree(s: seq<string>) {
    forall i, j :: 0 <= i < j < |s| ==> s[i] != s[j]
  }

  ghost predicate Clean(a: seq<string>, b: seq<string>, testMode: bool) {
    var n := Min(|a|, |b|);
    Failures(a, b, n, testMode, 3) + Failures(b, a, n, testMode, 4) == 0
  }

  lemma {:induction false} DistinctSize(s: seq<string>)
    requires DuplicateFree(s)
    ensures |ToSet(s)| == |s|
    ensures multiset(s) == multiset(ToSet(s))
  {
    if s != [] {
      var k := |s| - 1;
      DistinctSize(s[..k]);
      assert s == s[..k] + [s[k]];
      assert ToSet(s) == ToSet(s[..k]) + {s[k]};
      assert s[k] !in s[..k];
    }
  }

  lemma SubsetOfSameSize(x: set<string>, y: set<string>)
    requires x <= y && |x| == |y|
    ensures x == y
  {
    assert y == x + (y - x);
    assert |y - x| == 0;
  }

  // As many distinct items, all of them known: the same items.
  lemma Pigeonhole(s: seq<string>, t: seq<string>)
    requires DuplicateFree(s) && DuplicateFree(t) && |s| == |t|
    ensures (forall x :: x in s ==> x in t) <==> multiset(s) == multiset(t)
  {
    DistinctSize(s);
    DistinctSize(t);
    if forall x :: x in s ==> x in t {
      SubsetOfSameSize(ToSet(s), ToSet(t));
    } else {
      var x :| x in s && x !in t;
      assert x in multiset(s) && x !in multiset(t);
    }
  }

  lemma PrefixKnown(a: seq<string>, b: seq<string>, n: nat)
    requires n <= |b|
    ensures (forall i :: 0 <= i < n ==> b[i] in a) <==> forall x :: x in b[..n] ==> x in a
  {
  }

  lemma ShorterFirst(a: seq<string>, b: seq<string>)
    requires DuplicateFree(a) && DuplicateFree(b) && |a| <= |b|
    ensures var n := |a|;
      (forall i :: 0 <= i < n ==> b[i] in a) && (forall i :: 0 <= i < n ==> a[i] in b) <==>
        multiset(a) == multiset(b[..n])
  {
    var n := |a|;
    PrefixKnown(a, b, n);
    Pigeonhole(b[..n], a);
    if multiset(a) == multiset(b[..n]) {
      forall i | 0 <= i < n ensures a[i] in b {
        assert a[i] in multiset(b[..n]);
      }
    }
  }

  // Each pass looks at no more items than the shorter array has. Without duplicates both come out
  // clean exactly if the shorter array is a permutation of the beginning of the longer one.
  lemma CleanMeansPermutation(a: seq<string>, b: seq<string>)
    requires DuplicateFree(a) && DuplicateFree(b)
    ensures var n := Min(|a|, |b|); Clean(a, b, false) <==> multiset(a[..n]) == multiset(b[..n])
  {
    var n := Min(|a|, |b|);
    NoFailures(a, b, n, false, 3);
    NoFailures(b, a, n, false, 4);
    if |a| <= |b| {
      ShorterFirst(a, b);
      assert a[..n] == a;
    } else {
      ShorterFirst(b, a);
      assert b[..n] == b;
    }
  }

  // Arrays of the same length, duplicates or not, come out clean exactly if they hold the same items.
  lemma CleanMeansSameItems(a: seq<string>, b: seq<string>)
    requires |a| == |b|
    ensures Clean(a, b, false) <==> ToSet(a) == ToSet(b)
  {
    NoFailures(a, b, |a|, false, 3);
    NoFailures(b, a, |a|, false, 4);
    if ToSet(a) == ToSet(b) {
      assert forall x :: x in a <==> x in ToSet(a);
      assert forall x :: x in b <==> x in ToSet(b);
    }
  }

  // Test mode reports a failure as soon as the shorter array has four items.
  lemma TestModeFails(a: seq<string>, b: seq<string>)
    ensures Clean(a, b, true) <==> Clean(a, b, false) && Min(|a|, |b|) < 4
  {
    var n := Min(|a|, |b|);
    NoFailures(a, b, n, true, 3);
    NoFailures(b, a, n, true, 4);
    NoFailures(a, b, n, false, 3);
    NoFailures(b, a, n, false, 4);
  }
}
