/** Model of validation/validation.go: partitioning the patterns into train and
    test sets or into k folds, assembling each fold's training set, and the
    evaluation drivers that accumulate expected and predicted classes over the
    folds. The random permutations that rand.Perm draws are parameters. */
module Validation {
  import Util
  import Patterns
  import Neuron
  import Network
  import Layer

  type Pattern = Patterns.Pattern

  /** Go's zero Pattern, which `make` puts in every slot before it is filled. */
  const Blank: Pattern := Patterns.Pattern([], "", 0.0, [])

  // ------------------------------------------------------------------
  // Permutations and pattern positions

  /** `perm` lists each position 0 .. n - 1 exactly once, as rand.Perm(n) does. */
  ghost predicate IsPermutation(perm: seq<int>, n: nat)
  {
    |perm| == n && (forall i :: 0 <= i < n ==> 0 <= perm[i] < n) &&
    (forall i, j :: 0 <= i < j < n ==> perm[i] != perm[j])
  }

  /** The pattern position read at step m: perm[m] when shuffling, m otherwise. */
  function Position(shuffle: int, perm: seq<int>, n: nat, m: nat): (r: nat)
    requires m < n && (shuffle == 1 ==> IsPermutation(perm, n))
    ensures r < n
    ensures shuffle != 1 ==> r == m
  {
    if shuffle == 1 then perm[m] else m
  }

  /** The patterns in the order the splits read them. */
  function Arranged(patterns: seq<Pattern>, shuffle: int, perm: seq<int>): (r: seq<Pattern>)
    requires shuffle == 1 ==> IsPermutation(perm, |patterns|)
    ensures |r| == |patterns|
  {
    seq(|patterns|, m requires 0 <= m < |patterns| => patterns[Position(shuffle, perm, |patterns|, m)])
  }

  /** Read in order, the patterns are the patterns themselves. */
  lemma {:induction false} ArrangedUnshuffled(patterns: seq<Pattern>, shuffle: int, perm: seq<int>)
    requires shuffle != 1
    ensures Arranged(patterns, shuffle, perm) == patterns
  {
  }

  /** Different steps of a shuffled read visit different positions. */
  lemma {:induction false} PositionsDistinct(shuffle: int, perm: seq<int>, n: nat, m1: nat, m2: nat)
    requires m1 < n && m2 < n && m1 != m2 && (shuffle == 1 ==> IsPermutation(perm, n))
    ensures Position(shuffle, perm, n, m1) != Position(shuffle, perm, n, m2)
  {
    if shuffle == 1 && m2 < m1 {
      assert perm[m2] != perm[m1];
    }
  }

  /** Sequences concatenated in order. */
  function Flatten(ss: seq<seq<Pattern>>): seq<Pattern>
  {
    if ss == [] then [] else Flatten(ss[..|ss| - 1]) + ss[|ss| - 1]
  }

  lemma {:induction false} FlattenSnoc(ss: seq<seq<Pattern>>, s: seq<Pattern>)
    ensures Flatten(ss + [s]) == Flatten(ss) + s
  {
    assert (ss + [s])[..|ss|] == ss;
  }

  lemma {:induction false} FlattenAppend(a: seq<seq<Pattern>>, b: seq<seq<Pattern>>)
    ensures Flatten(a + b) == Flatten(a) + Flatten(b)
    decreases |b|
  {
    if b == [] {
      assert a + b == a;
    } else {
      var init := b[..|b| - 1];
      assert a + b == (a + init) + [b[|b| - 1]];
      FlattenSnoc(a + init, b[|b| - 1]);
      FlattenAppend(a, init);
      FlattenSnoc(init, b[|b| - 1]);
    }
  }

  // ------------------------------------------------------------------
  // TrainTestPatternsSplit (lines 14-41; TrainTestPatternSplit, lines 46-75, is
  // a verbatim copy)

  /** What the shuffled branch builds as written (lines 22-27): both sets are
      read from the start of the permutation. */
  function ShuffledSplitAsWritten(patterns: seq<Pattern>, pivot: nat, perm: seq<int>):
    (r: (seq<Pattern>, seq<Pattern>))
    requires pivot <= |patterns| && IsPermutation(perm, |patterns|)
    ensures |r.0| == pivot && |r.1| == |patterns| - pivot
  {
    var arranged := Arranged(patterns, 1, perm);
    (arranged[..pivot], arranged[..|patterns| - pivot])
  }

  /** TrainTestPatternsSplit as written: unshuffled, the first `pivot` patterns
      train and the rest test; shuffled, train[i] and test[i] are both
      patterns[perm[i]]. */
  method TrainTestPatternsSplitAsWritten(patterns: seq<Pattern>, pivot: nat, shuffle: int, perm: seq<int>)
    returns (train: seq<Pattern>, test: seq<Pattern>)
    requires pivot <= |patterns| && (shuffle == 1 ==> IsPermutation(perm, |patterns|))
    ensures shuffle == 1 ==> (train, test) == ShuffledSplitAsWritten(patterns, pivot, perm)
    ensures shuffle != 1 ==> train == patterns[..pivot] && test == patterns[pivot..]
  {
    var n := |patterns|;
    if shuffle == 1 {
      train := seq(pivot, _ => Blank);
      test := seq(n - pivot, _ => Blank);
      var i := 0;
      while i < pivot
        invariant 0 <= i <= pivot && |train| == pivot
        invariant forall c :: 0 <= c < i ==> train[c] == patterns[perm[c]]
      {
        train := train[i := patterns[perm[i]]];
        i := i + 1;
      }
      i := 0;
      while i < n - pivot
        invariant 0 <= i <= n - pivot && |test| == n - pivot
        invariant forall c :: 0 <= c < i ==> test[c] == patterns[perm[c]]
      {
        test := test[i := patterns[perm[i]]];
        i := i + 1;
      }
      ghost var arranged := Arranged(patterns, 1, perm);
      assert train == arranged[..pivot];
      assert test == arranged[..n - pivot];
    } else {
      train, test := patterns[..pivot], patterns[pivot..];
    }
  }

  /** As written, the shuffled training and test sets share their first
      min(pivot, N - pivot) patterns: step i of both reads position perm[i]. */
  lemma {:induction false} AsWrittenSplitOverlap(patterns: seq<Pattern>, pivot: nat, perm: seq<int>, i: nat)
    requires pivot <= |patterns| && IsPermutation(perm, |patterns|)
    requires i < pivot && i < |patterns| - pivot
    ensures ShuffledSplitAsWritten(patterns, pivot, perm).0[i] == patterns[perm[i]]
    ensures ShuffledSplitAsWritten(patterns, pivot, perm).1[i] == patterns[perm[i]]
  {
  }

  /** Two distinct patterns, pivot 1, identity permutation: as written, train
      and test are both [a] and b is never used; the corrected split gives [a]
      and [b]. */
  lemma {:induction false} AsWrittenSplitExample(a: Pattern, b: Pattern)
    requires a != b
    ensures IsPermutation([0, 1], 2)
    ensures ShuffledSplitAsWritten([a, b], 1, [0, 1]) == ([a], [a])
    ensures ShuffledSplit([a, b], 1, [0, 1]) == ([a], [b])
  {
    assert IsPermutation([0, 1], 2);
    var arranged := Arranged([a, b], 1, [0, 1]);
    assert arranged[0] == a && arranged[1] == b;
    assert arranged[..1] == [a] && arranged[1..] == [b];
  }

  /** The evidently intended shuffled split: the first `pivot` positions of the
      permutation train, the remaining ones test. */
  function ShuffledSplit(patterns: seq<Pattern>, pivot: nat, perm: seq<int>): (r: (seq<Pattern>, seq<Pattern>))
    requires pivot <= |patterns| && IsPermutation(perm, |patterns|)
    ensures |r.0| == pivot && |r.1| == |patterns| - pivot
  {
    var arranged := Arranged(patterns, 1, perm);
    (arranged[..pivot], arranged[pivot..])
  }

  /** TrainTestPatternsSplit with the test set read from perm[pivot + i]:
      `pivot` patterns train, the other N - pivot test, and together, train
      first, they are the patterns in the order read. */
  method TrainTestPatternsSplit(patterns: seq<Pattern>, pivot: nat, shuffle: int, perm: seq<int>)
    returns (train: seq<Pattern>, test: seq<Pattern>)
    requires pivot <= |patterns| && (shuffle == 1 ==> IsPermutation(perm, |patterns|))
    ensures |train| == pivot && |test| == |patterns| - pivot
    ensures train + test == Arranged(patterns, shuffle, perm)
    ensures shuffle == 1 ==> (train, test) == ShuffledSplit(patterns, pivot, perm)
    ensures shuffle != 1 ==> train == patterns[..pivot] && test == patterns[pivot..]
  {
    var n := |patterns|;
    if shuffle == 1 {
      train := seq(pivot, _ => Blank);
      test := seq(n - pivot, _ => Blank);
      var i := 0;
      while i < pivot
        invariant 0 <= i <= pivot && |train| == pivot
        invariant forall c :: 0 <= c < i ==> train[c] == patterns[perm[c]]
      {
        train := train[i := patterns[perm[i]]];
        i := i + 1;
      }
      i := 0;
      while i < n - pivot
        invariant 0 <= i <= n - pivot && |test| == n - pivot
        invariant forall c :: 0 <= c < i ==> test[c] == patterns[perm[pivot + c]]
      {
        test := test[i := patterns[perm[pivot + i]]];
        i := i + 1;
      }
      ghost var arranged := Arranged(patterns, 1, perm);
      assert train == arranged[..pivot];
      assert test == arranged[pivot..];
    } else {
      train, test := patterns[..pivot], patterns[pivot..];
    }
    assert train + test == Arranged(patterns, shuffle, perm);
  }

  /** In the corrected split no position feeds both sets: a training pattern
      and a test pattern always come from different positions. */
  lemma {:induction false} SplitDisjoint(n: nat, pivot: nat, shuffle: int, perm: seq<int>, i: nat, j: nat)
    requires pivot <= n && (shuffle == 1 ==> IsPermutation(perm, n))
    requires i < pivot && pivot + j < n
    ensures Position(shuffle, perm, n, i) != Position(shuffle, perm, n, pivot + j)
  {
    PositionsDistinct(shuffle, perm, n, i, pivot + j);
  }

  // ------------------------------------------------------------------
  // KFoldPatternsSplit (lines 80-122)

  /** Quotient and remainder of n by k, by repeated subtraction. */
  function Quot(n: nat, k: nat): nat
    requires k > 0
    decreases n
  {
    if n < k then 0 else Quot(n - k, k) + 1
  }

  function Rem(n: nat, k: nat): nat
    requires k > 0
    decreases n
  {
    if n < k then n else Rem(n - k, k)
  }

  lemma {:induction false} QuotRem(n: nat, k: nat)
    requires k > 0
    decreases n
    ensures n == k * Quot(n, k) + Rem(n, k) && Rem(n, k) < k
  {
    if n >= k {
      QuotRem(n - k, k);
    }
  }

  lemma {:induction false} MulAtLeast(k: nat, d: int)
    requires k > 0 && d >= 1
    ensures k * d >= k
  {
    var e: nat := d - 1;
    assert k * d == k * e + k;
  }

  /** Multiples of k that differ at all differ by at least k. */
  lemma {:induction false} MulGap(k: nat, a: int, b: int)
    requires k > 0 && a > b
    ensures k * a - k * b >= k
  {
    var d := a - b;
    assert k * a == k * b + k * d;
    MulAtLeast(k, d);
  }

  /** They are Go's `/` and `%` on non-negative operands. */
  lemma {:induction false} QuotRemAreDivMod(n: nat, k: nat)
    requires k > 0
    ensures n / k == Quot(n, k) && n % k == Rem(n, k)
  {
    QuotRem(n, k);
    var q, q' := Quot(n, k), n / k;
    assert n == k * q' + n % k && 0 <= n % k < k;
    if q > q' {
      MulGap(k, q, q');
    } else if q < q' {
      MulGap(k, q', q);
    }
  }

  /** Fold f holds N / k patterns, one more for the first N % k folds. */
  function FoldSize(n: nat, k: nat, f: nat): nat
    requires k > 0
  {
    Quot(n, k) + if f < Rem(n, k) then 1 else 0
  }

  /** The step at which fold f starts: the sizes of the folds before it. */
  function FoldStart(n: nat, k: nat, f: nat): nat
    requires k > 0
  {
    if f == 0 then 0 else FoldStart(n, k, f - 1) + FoldSize(n, k, f - 1)
  }

  lemma {:induction false} FoldStartClosed(n: nat, k: nat, f: nat)
    requires k > 0
    ensures FoldStart(n, k, f) == f * Quot(n, k) + if f < Rem(n, k) then f else Rem(n, k)
  {
    if f > 0 {
      FoldStartClosed(n, k, f - 1);
    }
  }

  /** The k folds together take exactly the N patterns. */
  lemma {:induction false} FoldsCoverAll(n: nat, k: nat)
    requires k > 0
    ensures FoldStart(n, k, k) == n
  {
    FoldStartClosed(n, k, k);
    QuotRem(n, k);
  }

  /** Every fold lies within the N steps. */
  lemma {:induction false} FoldWithin(n: nat, k: nat, f: nat)
    requires k > 0 && f < k
    ensures FoldStart(n, k, f) + FoldSize(n, k, f) <= n
  {
    FoldsCoverAll(n, k);
    FoldStartMonotone(n, k, f + 1, k);
  }

  lemma {:induction false} FoldStartMonotone(n: nat, k: nat, f: nat, g: nat)
    requires k > 0 && f <= g
    ensures FoldStart(n, k, f) <= FoldStart(n, k, g)
    decreases g - f
  {
    if f < g {
      FoldStartMonotone(n, k, f, g - 1);
    }
  }

  /** Fold f: its FoldSize patterns, from the consecutive steps following the
      folds before it. */
  function Fold(patterns: seq<Pattern>, k: nat, shuffle: int, perm: seq<int>, f: nat): (r: seq<Pattern>)
    requires k > 0 && f < k && (shuffle == 1 ==> IsPermutation(perm, |patterns|))
    ensures |r| == FoldSize(|patterns|, k, f)
  {
    var n := |patterns|;
    FoldWithin(n, k, f);
    Arranged(patterns, shuffle, perm)[FoldStart(n, k, f)..FoldStart(n, k, f) + FoldSize(n, k, f)]
  }

  /** The k folds of KFoldPatternsSplit. */
  function Folds(patterns: seq<Pattern>, k: nat, shuffle: int, perm: seq<int>): (r: seq<seq<Pattern>>)
    requires k > 0 && (shuffle == 1 ==> IsPermutation(perm, |patterns|))
    ensures |r| == k
  {
    seq(k, f requires 0 <= f < k => Fold(patterns, k, shuffle, perm, f))
  }

  /** The first f folds, concatenated, are the first FoldStart(f) patterns read. */
  lemma {:induction false} FoldsPrefix(patterns: seq<Pattern>, k: nat, shuffle: int, perm: seq<int>, f: nat)
    requires k > 0 && f <= k && (shuffle == 1 ==> IsPermutation(perm, |patterns|))
    ensures FoldStart(|patterns|, k, f) <= |patterns|
    ensures Flatten(Folds(patterns, k, shuffle, perm)[..f]) ==
            Arranged(patterns, shuffle, perm)[..FoldStart(|patterns|, k, f)]
  {
    var n := |patterns|;
    var folds := Folds(patterns, k, shuffle, perm);
    var starts := seq(k + 1, g requires 0 <= g <= k => FoldStart(n, k, g));
    FoldsCoverAll(n, k);
    forall g, h | 0 <= g <= h < k + 1
      ensures starts[g] <= starts[h] <= n
    {
      FoldStartMonotone(n, k, g, h);
      FoldStartMonotone(n, k, h, k);
    }
    forall g | 0 <= g < k
      ensures folds[g] == Arranged(patterns, shuffle, perm)[starts[g]..starts[g + 1]]
    {
      FoldIsSlice(patterns, k, shuffle, perm, g);
    }
    FlattenSlices(folds, Arranged(patterns, shuffle, perm), starts, f);
  }

  /** Pieces that are consecutive slices of `a` from position 0 concatenate to
      the prefix of `a` where the last of them ends. */
  lemma {:induction false} FlattenSlices(ss: seq<seq<Pattern>>, a: seq<Pattern>, starts: seq<nat>, f: nat)
    requires |starts| == |ss| + 1 && starts[0] == 0 && f <= |ss|
    requires forall g, h :: 0 <= g <= h < |starts| ==> starts[g] <= starts[h] <= |a|
    requires forall g :: 0 <= g < |ss| ==> ss[g] == a[starts[g]..starts[g + 1]]
    ensures starts[f] <= |a|
    ensures Flatten(ss[..f]) == a[..starts[f]]
  {
    if f > 0 {
      FlattenSlices(ss, a, starts, f - 1);
      assert ss[f - 1] == a[starts[f - 1]..starts[f]];
      FlattenPrefixStep(ss, a, f, starts[f - 1], starts[f] - starts[f - 1]);
    }
  }

  /** Fold f is the slice of the patterns read from FoldStart(f), and the
      next fold starts right after it. */
  lemma {:induction false} FoldIsSlice(patterns: seq<Pattern>, k: nat, shuffle: int, perm: seq<int>, f: nat)
    requires k > 0 && f < k && (shuffle == 1 ==> IsPermutation(perm, |patterns|))
    ensures FoldStart(|patterns|, k, f) + FoldSize(|patterns|, k, f) <= |patterns|
    ensures FoldStart(|patterns|, k, f + 1) == FoldStart(|patterns|, k, f) + FoldSize(|patterns|, k, f)
    ensures Folds(patterns, k, shuffle, perm)[f] ==
            Arranged(patterns, shuffle, perm)[FoldStart(|patterns|, k, f)..FoldStart(|patterns|, k, f) + FoldSize(|patterns|, k, f)]
  {
    FoldWithin(|patterns|, k, f);
    assert Folds(patterns, k, shuffle, perm)[f] == Fold(patterns, k, shuffle, perm, f);
  }

  /** One more piece, the next slice of `a`, extends the flattened prefix. */
  lemma {:induction false} FlattenPrefixStep(ss: seq<seq<Pattern>>, a: seq<Pattern>, f: nat, start: nat, size: nat)
    requires 0 < f <= |ss| && start + size <= |a|
    requires Flatten(ss[..f - 1]) == a[..start] && ss[f - 1] == a[start..start + size]
    ensures Flatten(ss[..f]) == a[..start + size]
  {
    assert ss[..f] == ss[..f - 1] + [ss[f - 1]];
    FlattenSnoc(ss[..f - 1], ss[f - 1]);
    assert a[..start + size] == a[..start] + a[start..start + size];
  }

  /** The folds, concatenated in order, use every step exactly once: they are
      the patterns in the order read. */
  lemma {:induction false} KFoldCover(patterns: seq<Pattern>, k: nat, shuffle: int, perm: seq<int>)
    requires k > 0 && (shuffle == 1 ==> IsPermutation(perm, |patterns|))
    ensures Flatten(Folds(patterns, k, shuffle, perm)) == Arranged(patterns, shuffle, perm)
  {
    var folds := Folds(patterns, k, shuffle, perm);
    FoldsPrefix(patterns, k, shuffle, perm, k);
    FoldsCoverAll(|patterns|, k);
    assert folds[..k] == folds;
  }

  /** Unshuffled, the folds concatenated are the patterns in their order. */
  lemma {:induction false} KFoldUnshuffled(patterns: seq<Pattern>, k: nat, shuffle: int, perm: seq<int>)
    requires k > 0 && shuffle != 1
    ensures Flatten(Folds(patterns, k, shuffle, perm)) == patterns
  {
    KFoldCover(patterns, k, shuffle, perm);
    ArrangedUnshuffled(patterns, shuffle, perm);
  }

  /** Fold sizes differ by at most one and the larger folds come first. */
  lemma {:induction false} FoldSizesBalanced(n: nat, k: nat, f: nat, g: nat)
    requires k > 0 && f <= g < k
    ensures FoldSize(n, k, g) <= FoldSize(n, k, f) <= FoldSize(n, k, g) + 1
  {
  }

  /** Fold f's step i is step start + i of the patterns read. */
  lemma {:induction false} ArrangedSliceAt(patterns: seq<Pattern>, shuffle: int, perm: seq<int>, start: nat, size: nat, i: nat)
    requires shuffle == 1 ==> IsPermutation(perm, |patterns|)
    requires start + size <= |patterns| && i < size
    ensures Arranged(patterns, shuffle, perm)[start..start + size][i] ==
            patterns[Position(shuffle, perm, |patterns|, start + i)]
  {
    var arranged := Arranged(patterns, shuffle, perm);
    SliceAt(arranged, start, start + size, i);
  }

  lemma {:induction false} SliceAt(s: seq<Pattern>, a: nat, b: nat, i: nat)
    requires a <= b <= |s| && i < b - a
    ensures s[a..b][i] == s[a + i]
  {
  }

  /** The inner loop of KFoldPatternsSplit: fold[i] is the pattern read at step
      curr, for currSize consecutive steps from foldStart. */
  method FillFold(patterns: seq<Pattern>, shuffle: int, perm: seq<int>, foldStart: nat, currSize: nat)
    returns (fold: seq<Pattern>, curr: nat)
    requires shuffle == 1 ==> IsPermutation(perm, |patterns|)
    requires foldStart + currSize <= |patterns|
    ensures curr == foldStart + currSize
    ensures fold == Arranged(patterns, shuffle, perm)[foldStart..foldStart + currSize]
  {
    var n := |patterns|;
    curr := foldStart;
    fold := seq(currSize, _ => Blank);
    var i := 0;
    while i < currSize
      invariant 0 <= i <= currSize && |fold| == currSize && curr == foldStart + i
      invariant forall c :: 0 <= c < i ==> fold[c] == patterns[Position(shuffle, perm, n, foldStart + c)]
    {
      if shuffle == 1 {
        fold := fold[i := patterns[perm[curr]]];
      } else {
        fold := fold[i := patterns[curr]];
      }
      curr := curr + 1;
      i := i + 1;
    }
    forall c | 0 <= c < currSize
      ensures fold[c] == Arranged(patterns, shuffle, perm)[foldStart..foldStart + currSize][c]
    {
      ArrangedSliceAt(patterns, shuffle, perm, foldStart, currSize, c);
    }
  }

  /** KFoldPatternsSplit: k folds filled through the curr/foldStart counters. */
  method KFoldPatternsSplit(patterns: seq<Pattern>, k: nat, shuffle: int, perm: seq<int>)
    returns (folds: seq<seq<Pattern>>)
    requires k > 0 && (shuffle == 1 ==> IsPermutation(perm, |patterns|))
    ensures |folds| == k
    ensures forall f :: 0 <= f < k ==> |folds[f]| == FoldSize(|patterns|, k, f)
    ensures folds == Folds(patterns, k, shuffle, perm)
  {
    var n := |patterns|;
    var size := n / k;
    var freeElements := n % k;
    QuotRemAreDivMod(n, k);
    folds := seq(k, _ => []);
    var foldStart := 0;
    var f := 0;
    while f < k
      invariant 0 <= f <= k && |folds| == k
      invariant foldStart == FoldStart(n, k, f)
      invariant forall g :: 0 <= g < f ==> folds[g] == Fold(patterns, k, shuffle, perm, g)
    {
      FoldWithin(n, k, f);
      var curr := foldStart;
      var currSize := size;
      if f < freeElements {
        currSize := currSize + 1;
      }
      var fold;
      fold, curr := FillFold(patterns, shuffle, perm, curr, currSize);
      assert fold == Fold(patterns, k, shuffle, perm, f);
      folds := folds[f := fold];
      foldStart := curr;
      f := f + 1;
    }
  }

  // ------------------------------------------------------------------
  // Training set of fold t in the k-fold drivers (lines 179-185, 285-291)

  /** All folds but fold t, concatenated in ascending order. */
  function FoldTrain(folds: seq<seq<Pattern>>, t: nat): (r: seq<Pattern>)
    requires t < |folds|
  {
    Flatten(folds[..t]) + Flatten(folds[t + 1..])
  }

  lemma {:induction false} FlattenLength(ss: seq<seq<Pattern>>, t: nat)
    requires t < |ss|
    ensures |Flatten(ss)| == |FoldTrain(ss, t)| + |ss[t]|
  {
    assert ss == ss[..t] + [ss[t]] + ss[t + 1..];
    FlattenAppend(ss[..t] + [ss[t]], ss[t + 1..]);
    FlattenSnoc(ss[..t], ss[t]);
  }

  /** Fold t's training set holds N - |folds[t]| patterns. */
  lemma {:induction false} FoldTrainSize(patterns: seq<Pattern>, k: nat, shuffle: int, perm: seq<int>, t: nat)
    requires k > 0 && t < k && (shuffle == 1 ==> IsPermutation(perm, |patterns|))
    ensures |FoldTrain(Folds(patterns, k, shuffle, perm), t)| == |patterns| - FoldSize(|patterns|, k, t)
  {
    KFoldCover(patterns, k, shuffle, perm);
    FlattenLength(Folds(patterns, k, shuffle, perm), t);
  }

  /** The folds before i, fold t skipped, concatenated. */
  ghost predicate TrainUpTo(folds: seq<seq<Pattern>>, t: nat, i: nat, train: seq<Pattern>)
    requires t < |folds| && i <= |folds|
  {
    train == if i <= t then Flatten(folds[..i]) else Flatten(folds[..t]) + Flatten(folds[t + 1..i])
  }

  lemma {:induction false} TrainUpToStep(folds: seq<seq<Pattern>>, t: nat, i: nat, train: seq<Pattern>)
    requires t < |folds| && i < |folds| && TrainUpTo(folds, t, i, train)
    ensures TrainUpTo(folds, t, i + 1, if i == t then train else train + folds[i])
  {
    if i < t {
      FlattenTakeSnoc(folds, i);
    } else if i == t {
      assert folds[t + 1..t + 1] == [];
    } else {
      FlattenSliceSnoc(folds, t + 1, i);
    }
  }

  lemma {:induction false} FlattenTakeSnoc(folds: seq<seq<Pattern>>, i: nat)
    requires i < |folds|
    ensures Flatten(folds[..i + 1]) == Flatten(folds[..i]) + folds[i]
  {
    assert folds[..i + 1] == folds[..i] + [folds[i]];
    FlattenSnoc(folds[..i], folds[i]);
  }

  lemma {:induction false} FlattenSliceSnoc(folds: seq<seq<Pattern>>, a: nat, i: nat)
    requires a <= i < |folds|
    ensures Flatten(folds[a..i + 1]) == Flatten(folds[a..i]) + folds[i]
  {
    assert folds[a..i + 1] == folds[a..i] + [folds[i]];
    FlattenSnoc(folds[a..i], folds[i]);
  }

  /** The training-set loop: `train = nil`, then every fold i != t appended. */
  method AssembleTrain(folds: seq<seq<Pattern>>, t: nat) returns (train: seq<Pattern>)
    requires t < |folds|
    ensures train == FoldTrain(folds, t)
  {
    train := [];
    var i := 0;
    while i < |folds|
      invariant 0 <= i <= |folds|
      invariant TrainUpTo(folds, t, i, train)
    {
      TrainUpToStep(folds, t, i, train);
      if i != t {
        train := train + folds[i];
      }
      i := i + 1;
    }
    assert folds[t + 1..i] == folds[t + 1..];
  }

  // ------------------------------------------------------------------
  // Evaluation drivers of the single perceptron

  /** Every pattern has the first one's number of features. */
  ghost predicate UniformWidth(ps: seq<Pattern>)
  {
    forall i :: 0 <= i < |ps| ==> |ps[i].features| == |ps[0].features|
  }

  /** One evaluation round: a training set and a test set. */
  type Round = (seq<Pattern>, seq<Pattern>)

  /** TrainNeuron with init 1 can run on the round's training set: it is not
      empty (init reads its first pattern) and of uniform width. */
  ghost predicate Trainable(round: Round)
  {
    |round.0| > 0 && UniformWidth(round.0)
  }

  /** The neuron TrainNeuron(neuron, train, epochs, 1) leaves. */
  function RoundModel(neuron: Neuron.NeuronUnit, round: Round, epochs: int): Neuron.NeuronUnit
    requires Trainable(round)
  {
    Neuron.Train(Neuron.TrainStart(neuron, round.0, 1), round.0, epochs)
  }

  /** TrainNeuron with init 1 resets weights and bias, so a round's model does
      not depend on what earlier rounds trained into the neuron. */
  lemma {:induction false} RoundModelFresh(neuron: Neuron.NeuronUnit, other: Neuron.NeuronUnit, round: Round, epochs: int)
    requires Trainable(round)
    requires other.learningRate == neuron.learningRate && other.value == neuron.value && other.delta == neuron.delta
    ensures RoundModel(other, round, epochs) == RoundModel(neuron, round, epochs)
  {
  }

  function Expectations(ps: seq<Pattern>): (r: seq<real>)
    ensures |r| == |ps|
  {
    seq(|ps|, i requires 0 <= i < |ps| => ps[i].singleExpectation)
  }

  function Predictions(neuron: Neuron.NeuronUnit, ps: seq<Pattern>): (r: seq<real>)
    ensures |r| == |ps|
  {
    seq(|ps|, i requires 0 <= i < |ps| => Neuron.Predict(neuron, ps[i]))
  }

  lemma {:induction false} ExpectationsAppend(a: seq<Pattern>, b: seq<Pattern>)
    ensures Expectations(a + b) == Expectations(a) + Expectations(b)
  {
  }

  /** `actual` after the first t rounds: the expectations of every test set so
      far, in order (the slice is never reset between rounds). */
  function ActualUpTo(rounds: seq<Round>, t: nat): seq<real>
    requires t <= |rounds|
  {
    if t == 0 then [] else ActualUpTo(rounds, t - 1) + Expectations(rounds[t - 1].1)
  }

  /** `predicted` after the first t rounds: each test set predicted by the
      model of its own round. */
  function PredictedUpTo(neuron: Neuron.NeuronUnit, rounds: seq<Round>, epochs: int, t: nat): seq<real>
    requires t <= |rounds| && forall s :: 0 <= s < |rounds| ==> Trainable(rounds[s])
  {
    if t == 0 then []
    else PredictedUpTo(neuron, rounds, epochs, t - 1) + Predictions(RoundModel(neuron, rounds[t - 1], epochs), rounds[t - 1].1)
  }

  /** The score of round t: Accuracy over everything accumulated up to and
      including it. */
  function RoundScore(neuron: Neuron.NeuronUnit, rounds: seq<Round>, epochs: int, t: nat): Util.Float
    requires t < |rounds| && forall s :: 0 <= s < |rounds| ==> Trainable(rounds[s])
  {
    Neuron.AccuracyScore(ActualUpTo(rounds, t + 1), PredictedUpTo(neuron, rounds, epochs, t + 1)).1
  }

  /** Both accumulations grow by the test set each round, so they always have
      the same length: the total size of the test sets so far. */
  lemma {:induction false} AccumulatedLengths(neuron: Neuron.NeuronUnit, rounds: seq<Round>, epochs: int, t: nat)
    requires t <= |rounds| && forall s :: 0 <= s < |rounds| ==> Trainable(rounds[s])
    ensures |PredictedUpTo(neuron, rounds, epochs, t)| == |ActualUpTo(rounds, t)|
  {
    if t > 0 {
      AccumulatedLengths(neuron, rounds, epochs, t - 1);
    }
  }

  /** So a round's score is never Accuracy's length-mismatch sentinel: it is a
      percentage in [0, 100] once some test pattern has been seen, NaN before. */
  lemma {:induction false} RoundScoreBounds(neuron: Neuron.NeuronUnit, rounds: seq<Round>, epochs: int, t: nat)
    requires t < |rounds| && forall s :: 0 <= s < |rounds| ==> Trainable(rounds[s])
    ensures |ActualUpTo(rounds, t + 1)| > 0 ==>
      RoundScore(neuron, rounds, epochs, t).Finite? && 0.0 <= RoundScore(neuron, rounds, epochs, t).value <= 100.0
    ensures |ActualUpTo(rounds, t + 1)| == 0 ==> RoundScore(neuron, rounds, epochs, t) == Util.NaN
  {
    AccumulatedLengths(neuron, rounds, epochs, t + 1);
    if |ActualUpTo(rounds, t + 1)| > 0 {
      Neuron.AccuracyScoreBounds(ActualUpTo(rounds, t + 1), PredictedUpTo(neuron, rounds, epochs, t + 1));
    }
  }

  /** The rounds of the k-fold drivers: fold t tests, the other folds train. */
  function KFoldRounds(folds: seq<seq<Pattern>>): (r: seq<Round>)
    ensures |r| == |folds|
  {
    seq(|folds|, t requires 0 <= t < |folds| => (FoldTrain(folds, t), folds[t]))
  }

  /** In the k-fold drivers `actual` after t folds is the expectations of the
      first t folds, that is of the first FoldStart(t) patterns read. */
  lemma {:induction false} KFoldActual(patterns: seq<Pattern>, k: nat, shuffle: int, perm: seq<int>, t: nat)
    requires k > 0 && t <= k && (shuffle == 1 ==> IsPermutation(perm, |patterns|))
    ensures ActualUpTo(KFoldRounds(Folds(patterns, k, shuffle, perm)), t) ==
            Expectations(Flatten(Folds(patterns, k, shuffle, perm)[..t]))
    ensures |ActualUpTo(KFoldRounds(Folds(patterns, k, shuffle, perm)), t)| == FoldStart(|patterns|, k, t)
  {
    FoldsPrefix(patterns, k, shuffle, perm, t);
    RoundsActual(Folds(patterns, k, shuffle, perm), t);
  }

  /** Over any folds, `actual` after t rounds is the expectations of the first
      t folds concatenated. */
  lemma {:induction false} RoundsActual(folds: seq<seq<Pattern>>, t: nat)
    requires t <= |folds|
    ensures ActualUpTo(KFoldRounds(folds), t) == Expectations(Flatten(folds[..t]))
  {
    if t > 0 {
      RoundsActual(folds, t - 1);
      assert folds[..t] == folds[..t - 1] + [folds[t - 1]];
      FlattenSnoc(folds[..t - 1], folds[t - 1]);
      ExpectationsAppend(Flatten(folds[..t - 1]), folds[t - 1]);
    }
  }

  /** The rounds of the subsampling drivers: one split per drawn permutation,
      TrainTestPatternsSplit as written (lines 132, 232). */
  function SubsampleRounds(patterns: seq<Pattern>, pivot: nat, shuffle: int, perms: seq<seq<int>>): (r: seq<Round>)
    requires pivot <= |patterns|
    requires shuffle == 1 ==> forall t :: 0 <= t < |perms| ==> IsPermutation(perms[t], |patterns|)
    ensures |r| == |perms|
  {
    seq(|perms|, t requires 0 <= t < |perms| =>
      if shuffle == 1 then ShuffledSplitAsWritten(patterns, pivot, perms[t]) else (patterns[..pivot], patterns[pivot..]))
  }

  /** Shuffled, a subsampling round as written tests first on the patterns it
      trains on: step i < min(pivot, N - pivot) of both parts is the same. */
  lemma {:induction false} SubsampleRoundOverlap(patterns: seq<Pattern>, pivot: nat, perms: seq<seq<int>>, t: nat, i: nat)
    requires pivot <= |patterns| && t < |perms|
    requires forall s :: 0 <= s < |perms| ==> IsPermutation(perms[s], |patterns|)
    requires i < pivot && i < |patterns| - pivot
    ensures SubsampleRounds(patterns, pivot, 1, perms)[t].0[i] == SubsampleRounds(patterns, pivot, 1, perms)[t].1[i]
  {
    AsWrittenSplitOverlap(patterns, pivot, perms[t], i);
  }

  lemma {:induction false} UniformFlatten(ss: seq<seq<Pattern>>, d: nat)
    requires forall s, i :: 0 <= s < |ss| && 0 <= i < |ss[s]| ==> |ss[s][i].features| == d
    ensures forall i :: 0 <= i < |Flatten(ss)| ==> |Flatten(ss)[i].features| == d
  {
    if ss != [] {
      UniformFlatten(ss[..|ss| - 1], d);
    }
  }

  /** Step i of fold f is the pattern read at step FoldStart(f) + i. */
  lemma {:induction false} FoldAt(patterns: seq<Pattern>, k: nat, shuffle: int, perm: seq<int>, f: nat, i: nat)
    requires k > 0 && f < k && (shuffle == 1 ==> IsPermutation(perm, |patterns|))
    requires i < FoldSize(|patterns|, k, f)
    ensures FoldStart(|patterns|, k, f) + i < |patterns|
    ensures Fold(patterns, k, shuffle, perm, f)[i] ==
            patterns[Position(shuffle, perm, |patterns|, FoldStart(|patterns|, k, f) + i)]
  {
    var n := |patterns|;
    FoldWithin(n, k, f);
    ArrangedSliceAt(patterns, shuffle, perm, FoldStart(n, k, f), FoldSize(n, k, f), i);
  }

  lemma {:induction false} FoldElement(patterns: seq<Pattern>, k: nat, shuffle: int, perm: seq<int>, f: nat, i: nat)
    requires k > 0 && f < k && (shuffle == 1 ==> IsPermutation(perm, |patterns|))
    requires i < FoldSize(|patterns|, k, f)
    ensures FoldStart(|patterns|, k, f) + i < |patterns|
    ensures Folds(patterns, k, shuffle, perm)[f][i] ==
            patterns[Position(shuffle, perm, |patterns|, FoldStart(|patterns|, k, f) + i)]
  {
    FoldAt(patterns, k, shuffle, perm, f, i);
    assert Folds(patterns, k, shuffle, perm)[f] == Fold(patterns, k, shuffle, perm, f);
  }

  /** With patterns of uniform width and a first fold smaller than the whole,
      every k-fold round can train. */
  lemma {:induction false} KFoldTrainable(patterns: seq<Pattern>, k: nat, shuffle: int, perm: seq<int>)
    requires k > 0 && (shuffle == 1 ==> IsPermutation(perm, |patterns|))
    requires UniformWidth(patterns) && FoldSize(|patterns|, k, 0) < |patterns|
    ensures forall t :: 0 <= t < k ==> Trainable(KFoldRounds(Folds(patterns, k, shuffle, perm))[t])
  {
    var folds := Folds(patterns, k, shuffle, perm);
    var d := |patterns[0].features|;
    forall t | 0 <= t < k
      ensures Trainable(KFoldRounds(folds)[t])
    {
      FoldTrainSize(patterns, k, shuffle, perm, t);
      FoldSizesBalanced(|patterns|, k, 0, t);
      var train := FoldTrain(folds, t);
      forall s, i | 0 <= s < |folds| && 0 <= i < |folds[s]|
        ensures |folds[s][i].features| == d
      {
        FoldElement(patterns, k, shuffle, perm, s, i);
      }
      UniformFlatten(folds[..t], d);
      UniformFlatten(folds[t + 1..], d);
      assert forall i :: 0 <= i < |train| ==> |train[i].features| == d;
    }
  }

  /** With patterns of uniform width and a positive pivot every subsampling
      round can train; with no rounds there is nothing to train. */
  lemma {:induction false} SubsampleTrainable(patterns: seq<Pattern>, pivot: nat, shuffle: int, perms: seq<seq<int>>)
    requires pivot <= |patterns| && (0 < pivot || |perms| == 0) && UniformWidth(patterns)
    requires shuffle == 1 ==> forall t :: 0 <= t < |perms| ==> IsPermutation(perms[t], |patterns|)
    ensures forall t :: 0 <= t < |perms| ==> Trainable(SubsampleRounds(patterns, pivot, shuffle, perms)[t])
  {
  }

  /** One round of the perceptron drivers (lines 133-139, 186-192): train with
      reset, append the test expectations and predictions, score everything so
      far. */
  method EvaluateRound(neuron: Neuron.NeuronUnit, round: Round, epochs: int, actual: seq<real>, predicted: seq<real>)
    returns (trained: Neuron.NeuronUnit, actual': seq<real>, predicted': seq<real>, score: Util.Float)
    requires Trainable(round)
    ensures trained == RoundModel(neuron, round, epochs)
    ensures actual' == actual + Expectations(round.1)
    ensures predicted' == predicted + Predictions(trained, round.1)
    ensures score == Neuron.AccuracyScore(actual', predicted').1
  {
    var train, test := round.0, round.1;
    trained := Neuron.TrainNeuron(neuron, train, epochs, 1);
    actual', predicted' := actual, predicted;
    var i := 0;
    while i < |test|
      invariant 0 <= i <= |test|
      invariant actual' == actual + Expectations(test[..i])
      invariant predicted' == predicted + Predictions(trained, test[..i])
    {
      var pattern := test[i];
      assert test[..i + 1] == test[..i] + [pattern];
      actual' := actual' + [pattern.singleExpectation];
      predicted' := predicted' + [Neuron.Predict(trained, pattern)];
      i := i + 1;
    }
    assert test[..i] == test;
    var _, percentageCorrect := Neuron.Accuracy(actual', predicted');
    score := percentageCorrect;
  }

  /** The perceptron drivers after t rounds: the neuron holds round t - 1's model
      (its rate, value and delta untouched), the accumulations and the scores so
      far are those of the first t rounds. */
  ghost predicate DriverState(neuron: Neuron.NeuronUnit, rounds: seq<Round>, epochs: int, t: nat,
                              trained: Neuron.NeuronUnit, actual: seq<real>, predicted: seq<real>, scores: seq<Util.Float>)
  {
    (forall s :: 0 <= s < |rounds| ==> Trainable(rounds[s])) &&
    t <= |rounds| == |scores| &&
    trained.learningRate == neuron.learningRate && trained.value == neuron.value && trained.delta == neuron.delta &&
    (t == 0 ==> trained == neuron) &&
    (t > 0 ==> trained == RoundModel(neuron, rounds[t - 1], epochs)) &&
    actual == ActualUpTo(rounds, t) && predicted == PredictedUpTo(neuron, rounds, epochs, t) &&
    forall s :: 0 <= s < t ==> scores[s] == RoundScore(neuron, rounds, epochs, s)
  }

  /** When the drivers' loop ends the neuron holds the last round's model and
      every round has its score. */
  lemma {:induction false} DriverDone(neuron: Neuron.NeuronUnit, rounds: seq<Round>, epochs: int, t: nat,
                   trained: Neuron.NeuronUnit, actual: seq<real>, predicted: seq<real>, scores: seq<Util.Float>)
    requires DriverState(neuron, rounds, epochs, t, trained, actual, predicted, scores) && t == |rounds|
    ensures |scores| == t
    ensures t == 0 ==> trained == neuron
    ensures t > 0 ==> trained == RoundModel(neuron, rounds[t - 1], epochs)
    ensures forall s :: 0 <= s < t ==> scores[s] == RoundScore(neuron, rounds, epochs, s)
  {
  }

  /** One iteration of the perceptron drivers' loop for round t = (train, test). */
  method DriverRound(neuron: Neuron.NeuronUnit, ghost rounds: seq<Round>, epochs: int, t: nat,
                     train: seq<Pattern>, test: seq<Pattern>, trained: Neuron.NeuronUnit,
                     actual: seq<real>, predicted: seq<real>, scores: seq<Util.Float>)
    returns (trained': Neuron.NeuronUnit, actual': seq<real>, predicted': seq<real>, scores': seq<Util.Float>)
    requires DriverState(neuron, rounds, epochs, t, trained, actual, predicted, scores)
    requires t < |rounds| && rounds[t] == (train, test)
    ensures DriverState(neuron, rounds, epochs, t + 1, trained', actual', predicted', scores')
  {
    RoundModelFresh(neuron, trained, rounds[t], epochs);
    var score;
    trained', actual', predicted', score := EvaluateRound(trained, (train, test), epochs, actual, predicted);
    scores' := scores[t := score];
  }

  /** KFoldValidation (lines 173-223): for each fold t, train a reset neuron on
      all other folds and score the accumulated predictions; the neuron keeps
      the last fold's training. The mean score is only logged. */
  method KFoldValidation(neuron: Neuron.NeuronUnit, patterns: seq<Pattern>, epochs: int, k: nat, shuffle: int,
                         perm: seq<int>)
    returns (scores: seq<Util.Float>, trained: Neuron.NeuronUnit)
    requires k > 0 && (shuffle == 1 ==> IsPermutation(perm, |patterns|))
    requires UniformWidth(patterns) && FoldSize(|patterns|, k, 0) < |patterns|
    ensures |scores| == k
    ensures forall t :: 0 <= t < k ==> Trainable(KFoldRounds(Folds(patterns, k, shuffle, perm))[t])
    ensures forall t :: 0 <= t < k ==>
      scores[t] == RoundScore(neuron, KFoldRounds(Folds(patterns, k, shuffle, perm)), epochs, t)
    ensures forall t :: 0 <= t < k ==> scores[t].Finite? && 0.0 <= scores[t].value <= 100.0
    ensures trained == RoundModel(neuron, KFoldRounds(Folds(patterns, k, shuffle, perm))[k - 1], epochs)
  {
    var folds := KFoldPatternsSplit(patterns, k, shuffle, perm);
    ghost var rounds := KFoldRounds(folds);
    KFoldTrainable(patterns, k, shuffle, perm);
    scores := seq(k, _ => Util.Finite(0.0));
    var actual: seq<real>, predicted: seq<real> := [], [];
    trained := neuron;
    var t := 0;
    while t < k
      invariant DriverState(neuron, rounds, epochs, t, trained, actual, predicted, scores)
    {
      var train := AssembleTrain(folds, t);
      var test := folds[t];
      assert (train, test) == rounds[t];
      trained, actual, predicted, scores := DriverRound(neuron, rounds, epochs, t, train, test, trained, actual, predicted, scores);
      t := t + 1;
    }
    DriverDone(neuron, rounds, epochs, t, trained, actual, predicted, scores);
    KFoldScoresBounded(neuron, patterns, k, shuffle, perm, epochs);
  }

  /** K-fold with a first fold smaller than the whole: every round's score is a percentage. */
  lemma {:induction false} KFoldScoresBounded(neuron: Neuron.NeuronUnit, patterns: seq<Pattern>, k: nat, shuffle: int, perm: seq<int>,
                           epochs: int)
    requires k > 0 && (shuffle == 1 ==> IsPermutation(perm, |patterns|))
    requires forall t :: 0 <= t < k ==> Trainable(KFoldRounds(Folds(patterns, k, shuffle, perm))[t])
    requires FoldSize(|patterns|, k, 0) < |patterns|
    ensures forall t :: 0 <= t < k ==>
      RoundScore(neuron, KFoldRounds(Folds(patterns, k, shuffle, perm)), epochs, t).Finite? &&
      0.0 <= RoundScore(neuron, KFoldRounds(Folds(patterns, k, shuffle, perm)), epochs, t).value <= 100.0
  {
    var rounds := KFoldRounds(Folds(patterns, k, shuffle, perm));
    forall t | 0 <= t < k
      ensures RoundScore(neuron, rounds, epochs, t).Finite? && 0.0 <= RoundScore(neuron, rounds, epochs, t).value <= 100.0
    {
      RoundScoreBounds(neuron, rounds, epochs, t);
      KFoldActual(patterns, k, shuffle, perm, t + 1);
      FoldStartMonotone(|patterns|, k, 1, t + 1);
    }
  }

  /** RandomSubsamplingValidation (lines 126-169): `folds` rounds, each with a
      fresh split by its own permutation (TrainTestPatternsSplit as written), a reset neuron trained on the training
      part and the accumulated predictions scored. */
  method RandomSubsamplingValidation(neuron: Neuron.NeuronUnit, patterns: seq<Pattern>, pivot: nat, epochs: int,
                                     folds: nat, shuffle: int, perms: seq<seq<int>>)
    returns (scores: seq<Util.Float>, trained: Neuron.NeuronUnit)
    requires pivot <= |patterns| && (0 < pivot || folds == 0) && UniformWidth(patterns) && |perms| == folds
    requires shuffle == 1 ==> forall t :: 0 <= t < folds ==> IsPermutation(perms[t], |patterns|)
    ensures |scores| == folds
    ensures forall t :: 0 <= t < folds ==> Trainable(SubsampleRounds(patterns, pivot, shuffle, perms)[t])
    ensures forall t :: 0 <= t < folds ==>
      scores[t] == RoundScore(neuron, SubsampleRounds(patterns, pivot, shuffle, perms), epochs, t)
    ensures pivot < |patterns| ==> forall t :: 0 <= t < folds ==> scores[t].Finite? && 0.0 <= scores[t].value <= 100.0
    ensures folds == 0 ==> trained == neuron
    ensures folds > 0 ==> trained == RoundModel(neuron, SubsampleRounds(patterns, pivot, shuffle, perms)[folds - 1], epochs)
  {
    ghost var rounds := SubsampleRounds(patterns, pivot, shuffle, perms);
    SubsampleTrainable(patterns, pivot, shuffle, perms);
    scores := seq(folds, _ => Util.Finite(0.0));
    var actual: seq<real>, predicted: seq<real> := [], [];
    trained := neuron;
    var t := 0;
    while t < folds
      invariant DriverState(neuron, rounds, epochs, t, trained, actual, predicted, scores)
    {
      var train, test := TrainTestPatternsSplitAsWritten(patterns, pivot, shuffle, perms[t]);
      assert (train, test) == rounds[t];
      trained, actual, predicted, scores := DriverRound(neuron, rounds, epochs, t, train, test, trained, actual, predicted, scores);
      t := t + 1;
    }
    DriverDone(neuron, rounds, epochs, t, trained, actual, predicted, scores);
    if pivot < |patterns| {
      assert forall t :: 0 <= t < folds ==> |rounds[t].1| == |patterns| - pivot;
      ScoresBounded(neuron, rounds, epochs);
    }
  }

  lemma {:induction false} ActualGrows(rounds: seq<Round>, t: nat)
    requires 0 < t <= |rounds|
    ensures |ActualUpTo(rounds, t)| >= |rounds[t - 1].1|
  {
  }

  /** When every test set is non-empty, every round's score is a percentage. */
  lemma {:induction false} ScoresBounded(neuron: Neuron.NeuronUnit, rounds: seq<Round>, epochs: int)
    requires forall s :: 0 <= s < |rounds| ==> Trainable(rounds[s]) && |rounds[s].1| > 0
    ensures forall t :: 0 <= t < |rounds| ==>
      RoundScore(neuron, rounds, epochs, t).Finite? && 0.0 <= RoundScore(neuron, rounds, epochs, t).value <= 100.0
  {
    forall t | 0 <= t < |rounds|
      ensures RoundScore(neuron, rounds, epochs, t).Finite? && 0.0 <= RoundScore(neuron, rounds, epochs, t).value <= 100.0
    {
      RoundScoreBounds(neuron, rounds, epochs, t);
      ActualGrows(rounds, t + 1);
    }
  }

  // ------------------------------------------------------------------
  // Evaluation drivers of the multi-layer network (lines 226-334)

  type Layers = Network.Layers

  /** Every pattern read is one of the patterns. */
  lemma {:induction false} ArrangedFromPatterns(patterns: seq<Pattern>, shuffle: int, perm: seq<int>)
    requires shuffle == 1 ==> IsPermutation(perm, |patterns|)
    ensures forall i :: 0 <= i < |patterns| ==> Arranged(patterns, shuffle, perm)[i] in patterns
  {
  }

  /** Every pattern of an as-written split's test part is one of the patterns. */
  lemma {:induction false} AsWrittenTestFromPatterns(patterns: seq<Pattern>, pivot: nat, shuffle: int, perm: seq<int>,
                                                     test: seq<Pattern>)
    requires pivot <= |patterns| && (shuffle == 1 ==> IsPermutation(perm, |patterns|))
    requires test == if shuffle == 1 then ShuffledSplitAsWritten(patterns, pivot, perm).1 else patterns[pivot..]
    ensures forall i :: 0 <= i < |test| ==> test[i] in patterns
  {
    ArrangedFromPatterns(patterns, shuffle, perm);
    forall i | 0 <= i < |test|
      ensures test[i] in patterns
    {
      if shuffle == 1 {
        assert test[i] == Arranged(patterns, shuffle, perm)[i];
      } else {
        assert test[i] == patterns[pivot + i];
      }
    }
  }

  /** The class read off a network after a forward pass: the index MaxInSlice
      gives for its output values, as a float. */
  ghost predicate Guessed(probe: Layers, guess: real)
  {
    |probe| >= 1 && guess == guess.Floor as real &&
    Util.IsMaxIndex(Layer.Values(probe[|probe| - 1]), guess.Floor)
  }

  /** What one round of the MLP drivers went through: the network it started
      from, the passes of its MLPTrain, the network MLPTrain left, the network
      after each test pattern's forward pass, and the guessed classes. */
  datatype RoundRecord = RoundRecord(start: Layers, passes: seq<seq<Layers>>, trained: Layers,
                                     probes: seq<Layers>, guesses: seq<real>)

  /** One round of the MLP drivers: MLPTrain on all the patterns takes the
      start to the trained network; then test pattern i is run forward on the
      trained parameters, leaving probe i, and guessed as guess i. */
  ghost predicate MLPRound(r: RoundRecord, patterns: seq<Pattern>, classes: nat, epochs: int, test: seq<Pattern>,
                           tf: real -> real, tfd: real -> real, lr: real)
  {
    Network.MLPTrained(r.passes, r.start, r.trained, patterns, classes, epochs, tf, tfd, lr) &&
    |r.probes| == |test| && |r.guesses| == |test| &&
    forall i :: 0 <= i < |test| ==>
      Network.Forwarded(r.trained, r.probes[i], test[i].features, false, tf) && Guessed(r.probes[i], r.guesses[i])
  }

  /** The body of the round loop of both MLP drivers: MLPTrain on all the
      patterns (the round's training set is not used), then run every test
      pattern and append its expectation and its guessed class. */
  method MLPEvaluateRound(mlp: Network.MultiLayerNetwork, patterns: seq<Pattern>, mapped: seq<string>, epochs: int,
                          test: seq<Pattern>, actual: seq<real>, predicted: seq<real>)
    returns (actual': seq<real>, predicted': seq<real>, ghost r: RoundRecord)
    requires Network.MLPTrainable(mlp.layers, patterns, |mapped|)
    requires forall i :: 0 <= i < |test| ==> test[i] in patterns
    modifies mlp
    ensures actual' == actual + Expectations(test)
    ensures r.start == old(mlp.layers) && predicted' == predicted + r.guesses
    ensures MLPRound(r, patterns, |mapped|, epochs, test, mlp.transfer, mlp.transferDerivative, mlp.learningRate)
    ensures Network.OnlyValuesDiffer(r.trained, mlp.layers)
    ensures Network.MLPTrainable(mlp.layers, patterns, |mapped|)
  {
    ghost var start := mlp.layers;
    ghost var passes := Network.MLPTrain(mlp, patterns, mapped, epochs);
    ghost var trained := mlp.layers;
    Network.MLPTrainableKept(start, trained, patterns, |mapped|);
    forall i | 0 <= i < |test|
      ensures Network.CanExecute(trained, test[i].features, false)
    {
      var k :| 0 <= k < |patterns| && patterns[k] == test[i];
    }
    ghost var probes, guesses;
    actual', predicted', probes, guesses := MLPTestRound(mlp, trained, test, actual, predicted);
    r := RoundRecord(start, passes, trained, probes, guesses);
    Network.OnlyValuesDifferSameShape(trained, mlp.layers);
    Network.MLPTrainableKept(trained, mlp.layers, patterns, |mapped|);
  }

  /** Test patterns 0 .. i - 1 were run forward on the trained parameters,
      leaving probes[c], and guessed as guesses[c]. */
  ghost predicate ProbedUpTo(trained: Layers, probes: seq<Layers>, guesses: seq<real>, test: seq<Pattern>, i: nat,
                             tf: real -> real)
  {
    i <= |test| && |probes| == i && |guesses| == i &&
    forall c :: 0 <= c < i ==>
      Network.Forwarded(trained, probes[c], test[c].features, false, tf) && Guessed(probes[c], guesses[c])
  }

  lemma {:induction false} ProbedUpToExtend(trained: Layers, probes: seq<Layers>, guesses: seq<real>, test: seq<Pattern>, i: nat,
                         tf: real -> real, probe: Layers, guess: real)
    requires ProbedUpTo(trained, probes, guesses, test, i, tf) && i < |test|
    requires Network.Forwarded(trained, probe, test[i].features, false, tf) && Guessed(probe, guess)
    ensures ProbedUpTo(trained, probes + [probe], guesses + [guess], test, i + 1, tf)
  {
    forall c | 0 <= c < i + 1
      ensures Network.Forwarded(trained, (probes + [probe])[c], test[c].features, false, tf) &&
              Guessed((probes + [probe])[c], (guesses + [guess])[c])
    {
      if c < i {
        assert (probes + [probe])[c] == probes[c] && (guesses + [guess])[c] == guesses[c];
      }
    }
  }

  /** The expectations of one more pattern end with its class index. */
  lemma {:induction false} ExpectationsSnoc(ps: seq<Pattern>, i: nat)
    requires i < |ps|
    ensures Expectations(ps[..i + 1]) == Expectations(ps[..i]) + [ps[i].singleExpectation]
  {
    assert ps[..i + 1] == ps[..i] + [ps[i]];
    ExpectationsAppend(ps[..i], [ps[i]]);
    assert Expectations([ps[i]]) == [ps[i].singleExpectation];
  }

  /** The test loop of the MLP drivers (lines 235-240, 293-302): run each test
      pattern forward, append its expectation and the index of the largest
      output. */
  method MLPTestRound(mlp: Network.MultiLayerNetwork, ghost trained: Layers, test: seq<Pattern>,
                      actual: seq<real>, predicted: seq<real>)
    returns (actual': seq<real>, predicted': seq<real>, ghost probes: seq<Layers>, ghost guesses: seq<real>)
    requires Network.WellFormed(mlp.layers) && Network.OnlyValuesDiffer(trained, mlp.layers)
    requires forall i :: 0 <= i < |test| ==> Network.CanExecute(trained, test[i].features, false)
    modifies mlp
    ensures actual' == actual + Expectations(test) && predicted' == predicted + guesses
    ensures ProbedUpTo(trained, probes, guesses, test, |test|, mlp.transfer)
    ensures Network.WellFormed(mlp.layers) && Network.OnlyValuesDiffer(trained, mlp.layers)
  {
    actual', predicted' := actual, predicted;
    probes, guesses := [], [];
    var i := 0;
    while i < |test|
      invariant i <= |test| && actual' == actual + Expectations(test[..i]) && predicted' == predicted + guesses
      invariant ProbedUpTo(trained, probes, guesses, test, i, mlp.transfer)
      invariant Network.WellFormed(mlp.layers) && Network.OnlyValuesDiffer(trained, mlp.layers)
    {
      var pattern := test[i];
      ExpectationsSnoc(test, i);
      actual' := actual' + [pattern.singleExpectation];
      var guess := MLPProbe(mlp, trained, pattern);
      ProbedUpToExtend(trained, probes, guesses, test, i, mlp.transfer, mlp.layers, guess);
      predicted' := predicted' + [guess];
      probes, guesses := probes + [mlp.layers], guesses + [guess];
      i := i + 1;
    }
    assert test[..i] == test;
  }

  /** One test pattern: Execute without options, then MaxInSlice on the output. */
  method MLPProbe(mlp: Network.MultiLayerNetwork, ghost trained: Layers, pattern: Pattern) returns (guess: real)
    requires Network.WellFormed(mlp.layers) && Network.OnlyValuesDiffer(trained, mlp.layers)
    requires Network.CanExecute(trained, pattern.features, false)
    modifies mlp
    ensures Network.Forwarded(trained, mlp.layers, pattern.features, false, mlp.transfer) && Guessed(mlp.layers, guess)
    ensures Network.WellFormed(mlp.layers) && Network.OnlyValuesDiffer(trained, mlp.layers)
  {
    ghost var pre := mlp.layers;
    Network.OnlyValuesDifferSameShape(trained, pre);
    Network.CanExecuteKept(trained, pre, pattern.features, false);
    var oOut := mlp.Execute(pattern, []);
    Network.ForwardedFromParameters(trained, pre, mlp.layers, pattern.features, mlp.transfer);
    var _, indexMaxOut := Util.MaxInSlice(oOut);
    guess := indexMaxOut as real;
  }

  /** Where round s's test expectations begin and end in the accumulation. */
  function RoundBegin(rounds: seq<Round>, s: nat): nat
    requires s < |rounds|
  {
    |ActualUpTo(rounds, s)|
  }

  function RoundEnd(rounds: seq<Round>, s: nat): (r: nat)
    requires s < |rounds|
    ensures r == RoundBegin(rounds, s) + |rounds[s].1|
  {
    |ActualUpTo(rounds, s + 1)|
  }

  /** The guesses of the recorded rounds, concatenated in order. */
  function AllGuesses(records: seq<RoundRecord>): seq<real>
  {
    if records == [] then [] else AllGuesses(records[..|records| - 1]) + records[|records| - 1].guesses
  }

  /** Round 0 starts from `start`, round s from what round s - 1 trained, with
      only the values changed by the test runs in between. */
  ghost predicate Chained(start: Layers, records: seq<RoundRecord>)
  {
    (|records| > 0 ==> records[0].start == start) &&
    forall s :: 0 < s < |records| ==> Network.OnlyValuesDiffer(records[s - 1].trained, records[s].start)
  }

  /** What the first |records| rounds of an MLP driver have done: they are
      chained from `start`, and round s is an MLPRound on its test set. */
  ghost predicate MLPEvaluated(rounds: seq<Round>, start: Layers, records: seq<RoundRecord>, patterns: seq<Pattern>,
                               classes: nat, epochs: int, tf: real -> real, tfd: real -> real, lr: real)
  {
    |records| <= |rounds| && Chained(start, records) &&
    forall s :: 0 <= s < |records| ==> MLPRound(records[s], patterns, classes, epochs, rounds[s].1, tf, tfd, lr)
  }

  /** Score s is Accuracy over everything accumulated up to round s. */
  ghost predicate MLPScored(rounds: seq<Round>, t: nat, scores: seq<Util.Float>, predicted: seq<real>)
    requires t <= |rounds| && t <= |scores|
  {
    forall s :: 0 <= s < t ==>
      RoundEnd(rounds, s) <= |predicted| &&
      scores[s] == Neuron.AccuracyScore(ActualUpTo(rounds, s + 1), predicted[..RoundEnd(rounds, s)]).1
  }

  lemma {:induction false} ChainedExtend(start: Layers, records: seq<RoundRecord>, r: RoundRecord)
    requires Chained(start, records)
    requires |records| == 0 ==> r.start == start
    requires |records| > 0 ==> Network.OnlyValuesDiffer(records[|records| - 1].trained, r.start)
    ensures Chained(start, records + [r])
  {
    var records' := records + [r];
    forall s | 0 < s < |records'|
      ensures Network.OnlyValuesDiffer(records'[s - 1].trained, records'[s].start)
    {
      if s < |records| {
        assert records'[s - 1] == records[s - 1] && records'[s] == records[s];
      }
    }
  }

  /** Recording round t keeps what the earlier rounds established. */
  lemma {:induction false} MLPEvaluatedExtend(rounds: seq<Round>, start: Layers, records: seq<RoundRecord>, r: RoundRecord,
                           patterns: seq<Pattern>, classes: nat, epochs: int,
                           tf: real -> real, tfd: real -> real, lr: real)
    requires |records| < |rounds|
    requires MLPEvaluated(rounds, start, records, patterns, classes, epochs, tf, tfd, lr)
    requires |records| == 0 ==> r.start == start
    requires |records| > 0 ==> Network.OnlyValuesDiffer(records[|records| - 1].trained, r.start)
    requires MLPRound(r, patterns, classes, epochs, rounds[|records|].1, tf, tfd, lr)
    ensures MLPEvaluated(rounds, start, records + [r], patterns, classes, epochs, tf, tfd, lr)
  {
    ChainedExtend(start, records, r);
    var records' := records + [r];
    forall s | 0 <= s < |records'|
      ensures MLPRound(records'[s], patterns, classes, epochs, rounds[s].1, tf, tfd, lr)
    {
      if s < |records| {
        assert records'[s] == records[s];
      }
    }
  }

  lemma {:induction false} MLPScoredExtend(rounds: seq<Round>, t: nat, scores: seq<Util.Float>, predicted: seq<real>,
                        predicted': seq<real>, score: Util.Float)
    requires t < |rounds| && t < |scores|
    requires MLPScored(rounds, t, scores, predicted)
    requires |predicted| == |ActualUpTo(rounds, t)|
    requires |predicted'| == |ActualUpTo(rounds, t + 1)| && predicted'[..|predicted|] == predicted
    requires score == Neuron.AccuracyScore(ActualUpTo(rounds, t + 1), predicted').1
    ensures MLPScored(rounds, t + 1, scores[t := score], predicted')
  {
    forall s | 0 <= s < t + 1
      ensures RoundEnd(rounds, s) <= |predicted'|
      ensures scores[t := score][s] ==
              Neuron.AccuracyScore(ActualUpTo(rounds, s + 1), predicted'[..RoundEnd(rounds, s)]).1
    {
      if s < t {
        var b := RoundEnd(rounds, s);
        assert b <= |predicted|;
        assert predicted'[..b] == predicted[..b];
      } else {
        assert predicted'[..|predicted'|] == predicted';
      }
    }
  }

  /** A score over a non-empty accumulation is a percentage. */
  lemma {:induction false} MLPScoresBounded(rounds: seq<Round>, scores: seq<Util.Float>, predicted: seq<real>)
    requires |rounds| <= |scores| && MLPScored(rounds, |rounds|, scores, predicted)
    requires forall s :: 0 <= s < |rounds| ==> RoundEnd(rounds, s) > 0
    ensures forall s :: 0 <= s < |rounds| ==> scores[s].Finite? && 0.0 <= scores[s].value <= 100.0
  {
    forall s | 0 <= s < |rounds|
      ensures scores[s].Finite? && 0.0 <= scores[s].value <= 100.0
    {
      var m := RoundEnd(rounds, s);
      assert m <= |predicted|;
      Neuron.AccuracyScoreBounds(ActualUpTo(rounds, s + 1), predicted[..m]);
    }
  }

  /** The state both MLP drivers keep between rounds: t rounds are recorded,
      the accumulations are those of the t rounds, the scores are theirs, and
      the network is what the last round left. */
  ghost predicate MLPDriverState(mlp: Network.MultiLayerNetwork, layers: Layers, rounds: seq<Round>, t: nat,
                                 start: Layers, records: seq<RoundRecord>, patterns: seq<Pattern>, classes: nat,
                                 epochs: int, actual: seq<real>, predicted: seq<real>, scores: seq<Util.Float>)
    reads mlp
  {
    t <= |rounds| && t <= |scores| && |records| == t &&
    Network.MLPTrainable(layers, patterns, classes) &&
    (t == 0 ==> layers == start) &&
    (t > 0 ==> Network.OnlyValuesDiffer(records[t - 1].trained, layers)) &&
    actual == ActualUpTo(rounds, t) && |predicted| == |actual| && predicted == AllGuesses(records) &&
    MLPEvaluated(rounds, start, records, patterns, classes, epochs, mlp.transfer, mlp.transferDerivative,
                 mlp.learningRate) &&
    MLPScored(rounds, t, scores, predicted)
  }

  /** One round of an MLP driver on test set rounds[t].1, with the bookkeeping
      that carries MLPDriverState from t to t + 1. */
  method MLPDriverRound(mlp: Network.MultiLayerNetwork, patterns: seq<Pattern>, mapped: seq<string>, epochs: int,
                        test: seq<Pattern>, actual: seq<real>, predicted: seq<real>, scores: seq<Util.Float>,
                        ghost rounds: seq<Round>, t: nat, ghost start: Layers, ghost records: seq<RoundRecord>)
    returns (actual': seq<real>, predicted': seq<real>, scores': seq<Util.Float>, ghost records': seq<RoundRecord>)
    requires t < |rounds| && t < |scores| && test == rounds[t].1
    requires forall i :: 0 <= i < |test| ==> test[i] in patterns
    requires MLPDriverState(mlp, mlp.layers, rounds, t, start, records, patterns, |mapped|, epochs,
                            actual, predicted, scores)
    modifies mlp
    ensures MLPDriverState(mlp, mlp.layers, rounds, t + 1, start, records', patterns, |mapped|, epochs,
                           actual', predicted', scores')
    ensures |scores'| == |scores|
  {
    ghost var r: RoundRecord;
    actual', predicted', r := MLPEvaluateRound(mlp, patterns, mapped, epochs, test, actual, predicted);
    var _, percentageCorrect := Neuron.Accuracy(actual', predicted');
    MLPEvaluatedExtend(rounds, start, records, r, patterns, |mapped|, epochs,
                       mlp.transfer, mlp.transferDerivative, mlp.learningRate);
    assert predicted'[..|predicted|] == predicted;
    MLPScoredExtend(rounds, t, scores, predicted, predicted', percentageCorrect);
    scores' := scores[t := percentageCorrect];
    records' := records + [r];
    assert records'[..t] == records;
  }

  /** The first fold is not empty once there is a pattern. */
  lemma {:induction false} FirstFoldNonEmpty(n: nat, k: nat)
    requires k > 0 && n > 0
    ensures FoldSize(n, k, 0) > 0
  {
  }

  /** MLPKFoldValidation (lines 278-334): per fold t the same network, never
      reset, is trained by MLPTrain on ALL the patterns, then fold t is run
      and its guesses are appended to the accumulated predictions, and the
      score is Accuracy over everything accumulated. */
  method MLPKFoldValidation(mlp: Network.MultiLayerNetwork, patterns: seq<Pattern>, epochs: int, k: nat,
                            shuffle: int, perm: seq<int>, mapped: seq<string>)
    returns (scores: seq<Util.Float>, ghost predicted: seq<real>, ghost records: seq<RoundRecord>)
    requires k > 0 && (shuffle == 1 ==> IsPermutation(perm, |patterns|))
    requires Network.MLPTrainable(mlp.layers, patterns, |mapped|)
    modifies mlp
    ensures |scores| == k && |records| == k && |predicted| == |patterns|
    ensures MLPEvaluated(KFoldRounds(Folds(patterns, k, shuffle, perm)), old(mlp.layers), records, patterns,
                         |mapped|, epochs, mlp.transfer, mlp.transferDerivative, mlp.learningRate)
    ensures predicted == AllGuesses(records)
    ensures MLPScored(KFoldRounds(Folds(patterns, k, shuffle, perm)), k, scores, predicted)
    ensures |patterns| > 0 ==> forall t :: 0 <= t < k ==> scores[t].Finite? && 0.0 <= scores[t].value <= 100.0
    ensures Network.MLPTrainable(mlp.layers, patterns, |mapped|)
  {
    ghost var start := mlp.layers;
    var folds := KFoldPatternsSplit(patterns, k, shuffle, perm);
    ghost var rounds := KFoldRounds(folds);
    scores := seq(k, _ => Util.Finite(0.0));
    var actual: seq<real>, predicted': seq<real> := [], [];
    records := [];
    var t := 0;
    while t < k
      invariant 0 <= t <= k && |scores| == k
      invariant MLPDriverState(mlp, mlp.layers, rounds, t, start, records, patterns, |mapped|, epochs,
                               actual, predicted', scores)
    {
      var train := AssembleTrain(folds, t);
      var test := folds[t];
      assert (train, test) == rounds[t];
      FoldFromPatterns(patterns, k, shuffle, perm, t);
      actual, predicted', scores, records :=
        MLPDriverRound(mlp, patterns, mapped, epochs, test, actual, predicted', scores, rounds, t, start, records);
      t := t + 1;
    }
    predicted := predicted';
    KFoldActual(patterns, k, shuffle, perm, k);
    FoldsCoverAll(|patterns|, k);
    if |patterns| > 0 {
      KFoldRoundsNonEmpty(patterns, k, shuffle, perm);
      MLPScoresBounded(rounds, scores, predicted);
    }
  }

  /** Every pattern of a fold is one of the patterns. */
  lemma {:induction false} FoldFromPatterns(patterns: seq<Pattern>, k: nat, shuffle: int, perm: seq<int>, f: nat)
    requires k > 0 && f < k && (shuffle == 1 ==> IsPermutation(perm, |patterns|))
    ensures forall i :: 0 <= i < |Folds(patterns, k, shuffle, perm)[f]| ==> Folds(patterns, k, shuffle, perm)[f][i] in patterns
  {
    forall i | 0 <= i < |Folds(patterns, k, shuffle, perm)[f]|
      ensures Folds(patterns, k, shuffle, perm)[f][i] in patterns
    {
      FoldElement(patterns, k, shuffle, perm, f, i);
    }
  }

  /** With a pattern, every k-fold round ends past position 0 of the accumulation. */
  lemma {:induction false} KFoldRoundsNonEmpty(patterns: seq<Pattern>, k: nat, shuffle: int, perm: seq<int>)
    requires k > 0 && |patterns| > 0 && (shuffle == 1 ==> IsPermutation(perm, |patterns|))
    ensures forall s :: 0 <= s < k ==> RoundEnd(KFoldRounds(Folds(patterns, k, shuffle, perm)), s) > 0
  {
    forall s | 0 <= s < k
      ensures RoundEnd(KFoldRounds(Folds(patterns, k, shuffle, perm)), s) > 0
    {
      KFoldRoundEnd(patterns, k, shuffle, perm, s);
    }
  }

  /** Round s of the k-fold drivers ends where fold s + 1 starts, past the
      first fold. */
  lemma {:induction false} KFoldRoundEnd(patterns: seq<Pattern>, k: nat, shuffle: int, perm: seq<int>, s: nat)
    requires k > 0 && s < k && (shuffle == 1 ==> IsPermutation(perm, |patterns|))
    ensures RoundEnd(KFoldRounds(Folds(patterns, k, shuffle, perm)), s) == FoldStart(|patterns|, k, s + 1)
    ensures |patterns| > 0 ==> RoundEnd(KFoldRounds(Folds(patterns, k, shuffle, perm)), s) > 0
  {
    var n := |patterns|;
    KFoldActual(patterns, k, shuffle, perm, s + 1);
    FoldStartMonotone(n, k, 1, s + 1);
    if n > 0 {
      FirstFoldNonEmpty(n, k);
      assert FoldStart(n, k, 1) == FoldSize(n, k, 0);
    }
  }

  /** MLPRandomSubsamplingValidation (lines 226-274): per round a split by the
      round's permutation (TrainTestPatternsSplit as written), MLPTrain of the same network on ALL the patterns,
      and the test part's guesses appended and scored as in MLPKFoldValidation. */
  method MLPRandomSubsamplingValidation(mlp: Network.MultiLayerNetwork, patterns: seq<Pattern>, pivot: nat,
                                        epochs: int, folds: nat, shuffle: int, perms: seq<seq<int>>,
                                        mapped: seq<string>)
    returns (scores: seq<Util.Float>, ghost predicted: seq<real>, ghost records: seq<RoundRecord>)
    requires pivot <= |patterns| && |perms| == folds
    requires shuffle == 1 ==> forall t :: 0 <= t < folds ==> IsPermutation(perms[t], |patterns|)
    requires Network.MLPTrainable(mlp.layers, patterns, |mapped|)
    modifies mlp
    ensures |scores| == folds && |records| == folds
    ensures MLPEvaluated(SubsampleRounds(patterns, pivot, shuffle, perms), old(mlp.layers), records, patterns,
                         |mapped|, epochs, mlp.transfer, mlp.transferDerivative, mlp.learningRate)
    ensures predicted == AllGuesses(records)
    ensures MLPScored(SubsampleRounds(patterns, pivot, shuffle, perms), folds, scores, predicted)
    ensures pivot < |patterns| ==> forall t :: 0 <= t < folds ==> scores[t].Finite? && 0.0 <= scores[t].value <= 100.0
    ensures Network.MLPTrainable(mlp.layers, patterns, |mapped|)
  {
    ghost var start := mlp.layers;
    ghost var rounds := SubsampleRounds(patterns, pivot, shuffle, perms);
    scores := seq(folds, _ => Util.Finite(0.0));
    var actual: seq<real>, predicted': seq<real> := [], [];
    records := [];
    var t := 0;
    while t < folds
      invariant 0 <= t <= folds && |scores| == folds
      invariant MLPDriverState(mlp, mlp.layers, rounds, t, start, records, patterns, |mapped|, epochs,
                               actual, predicted', scores)
    {
      var train, test := TrainTestPatternsSplitAsWritten(patterns, pivot, shuffle, perms[t]);
      assert (train, test) == rounds[t];
      AsWrittenTestFromPatterns(patterns, pivot, shuffle, perms[t], test);
      actual, predicted', scores, records :=
        MLPDriverRound(mlp, patterns, mapped, epochs, test, actual, predicted', scores, rounds, t, start, records);
      t := t + 1;
    }
    predicted := predicted';
    if pivot < |patterns| {
      forall s | 0 <= s < folds
        ensures RoundEnd(rounds, s) > 0
      {
        assert |rounds[s].1| == |patterns| - pivot;
      }
      MLPScoresBounded(rounds, scores, predicted);
    }
  }
}
