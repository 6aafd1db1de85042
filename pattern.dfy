/** Model of neural/Pattern.go: the Pattern record and the conversion of raw
    (string) class labels into class indices. */
module Patterns {
  import Util

  /** One example: features, raw label as read, its class index, and the
      multi-valued expectation used by the recurrent network. */
  datatype Pattern = Pattern(
    features: seq<real>,
    singleRawExpectation: string,
    singleExpectation: real,
    multipleExpectation: seq<real>)

  function RawLabels(ps: seq<Pattern>): (r: seq<string>)
    ensures |r| == |ps|
    ensures forall i :: 0 <= i < |ps| ==> r[i] == ps[i].singleRawExpectation
  {
    seq(|ps|, i requires 0 <= i < |ps| => ps[i].singleRawExpectation)
  }

  /** The labels of `s`, each kept at its first appearance. */
  function Distinct(s: seq<string>): seq<string>
  {
    if s == [] then []
    else
      var d := Distinct(s[..|s| - 1]);
      if s[|s| - 1] in d then d else d + [s[|s| - 1]]
  }

  ghost predicate NoDuplicates(s: seq<string>)
  {
    forall i, j :: 0 <= i < j < |s| ==> s[i] != s[j]
  }

  /** Distinct keeps exactly the labels that occur. */
  lemma {:induction false} DistinctSameLabels(s: seq<string>)
    ensures forall x :: x in Distinct(s) <==> x in s
  {
    if s != [] {
      var init := s[..|s| - 1];
      DistinctSameLabels(init);
      assert s == init + [s[|s| - 1]];
    }
  }

  /** Distinct lists no label twice. */
  lemma {:induction false} DistinctNoDuplicates(s: seq<string>)
    ensures NoDuplicates(Distinct(s))
  {
    if s != [] {
      DistinctNoDuplicates(s[..|s| - 1]);
    }
  }

  lemma {:induction false} FirstIndexSnoc(s: seq<string>, x: string, y: string)
    requires y in s
    ensures Util.FirstIndex(s + [x], y) == Util.FirstIndex(s, y)
  {
    var k := Util.FirstIndex(s, y);
    var k' := Util.FirstIndex(s + [x], y);
    assert (s + [x])[k] == y;
    assert (s + [x])[..k] == s[..k];
  }

  /** Distinct lists the labels in the order of their first appearance in `s`. */
  lemma {:induction false} DistinctFirstAppearance(s: seq<string>)
    ensures forall i, j :: 0 <= i < j < |Distinct(s)| ==>
      Util.FirstIndex(s, Distinct(s)[i]) < Util.FirstIndex(s, Distinct(s)[j])
  {
    if s != [] {
      var init, x := s[..|s| - 1], s[|s| - 1];
      assert s == init + [x];
      var d := Distinct(init);
      DistinctFirstAppearance(init);
      DistinctSameLabels(init);
      forall y | y in d
        ensures Util.FirstIndex(s, y) == Util.FirstIndex(init, y)
      {
        FirstIndexSnoc(init, x, y);
      }
      if x in d {
        assert Distinct(s) == d;
      } else {
        var d' := d + [x];
        assert Distinct(s) == d';
        assert Util.FirstIndex(s, x) == |init|;
        forall i, j | 0 <= i < j < |d'|
          ensures Util.FirstIndex(s, d'[i]) < Util.FirstIndex(s, d'[j])
        {
          assert d'[i] == d[i] && d[i] in init;
          if j < |d| {
            assert d'[j] == d[j];
          }
        }
      }
    }
  }

  /** The pattern with its class index set to the position of its raw label. */
  function WithClassIndex(p: Pattern, labels: seq<string>): Pattern
  {
    p.(singleExpectation := Util.FirstIndex(labels, p.singleRawExpectation) as real)
  }

  /** First loop of RawExpectedConversion: collect each raw label on its first
      appearance, using StringInSlice to test for an earlier one. */
  method CollectRawLabels(patterns: seq<Pattern>) returns (rawExpectedValues: seq<string>)
    ensures rawExpectedValues == Distinct(RawLabels(patterns))
  {
    ghost var raws := RawLabels(patterns);
    rawExpectedValues := [];
    var p := 0;
    while p < |patterns|
      invariant 0 <= p <= |patterns|
      invariant rawExpectedValues == Distinct(raws[..p])
    {
      var check, _ := Util.StringInSlice(patterns[p].singleRawExpectation, rawExpectedValues);
      assert raws[..p + 1][..p] == raws[..p];
      if !check {
        rawExpectedValues := rawExpectedValues + [patterns[p].singleRawExpectation];
      }
      p := p + 1;
    }
    assert raws[..p] == raws;
  }

  /** Inner loop of the second loop of RawExpectedConversion: the pattern at
      `index` gets class index m for every labels[m] equal to its raw label;
      with no duplicates that is its first position. */
  method AssignClassIndex(patterns: array<Pattern>, labels: seq<string>, index: nat)
    requires NoDuplicates(labels)
    requires index < patterns.Length && patterns[index].singleRawExpectation in labels
    modifies patterns
    ensures patterns[index] == WithClassIndex(old(patterns[index]), labels)
    ensures forall i :: 0 <= i < patterns.Length && i != index ==> patterns[i] == old(patterns[i])
  {
    ghost var want := patterns[index].singleRawExpectation;
    var mapped := 0;
    while mapped < |labels|
      invariant 0 <= mapped <= |labels|
      invariant want !in labels[..mapped] ==> patterns[index] == old(patterns[index])
      invariant want in labels[..mapped] ==> patterns[index] == WithClassIndex(old(patterns[index]), labels)
      invariant forall i :: 0 <= i < patterns.Length && i != index ==> patterns[i] == old(patterns[i])
    {
      assert labels[..mapped + 1] == labels[..mapped] + [labels[mapped]];
      if labels[mapped] == patterns[index].singleRawExpectation {
        assert want !in labels[..mapped];
        assert Util.FirstIndex(labels, want) == mapped;
        patterns[index] := patterns[index].(singleExpectation := mapped as real);
      }
      mapped := mapped + 1;
    }
    assert labels[..mapped] == labels;
  }

  /** Second loop of RawExpectedConversion: every pattern gets the position of
      its raw label as class index. */
  method AssignClassIndices(patterns: array<Pattern>, labels: seq<string>)
    requires NoDuplicates(labels)
    requires forall i :: 0 <= i < patterns.Length ==> patterns[i].singleRawExpectation in labels
    modifies patterns
    ensures forall i :: 0 <= i < patterns.Length ==> patterns[i] == WithClassIndex(old(patterns[i]), labels)
  {
    var index := 0;
    while index < patterns.Length
      invariant 0 <= index <= patterns.Length
      invariant forall i :: 0 <= i < index ==> patterns[i] == WithClassIndex(old(patterns[i]), labels)
      invariant forall i :: index <= i < patterns.Length ==> patterns[i] == old(patterns[i])
    {
      AssignClassIndex(patterns, labels, index);
      index := index + 1;
    }
  }

  /** RawExpectedConversion: the distinct raw labels in order of first appearance;
      each pattern's class index becomes the position of its raw label in that
      list, and nothing else in the array changes. */
  method RawExpectedConversion(patterns: array<Pattern>) returns (rawExpectedValues: seq<string>)
    modifies patterns
    ensures rawExpectedValues == Distinct(RawLabels(old(patterns[..])))
    ensures NoDuplicates(rawExpectedValues)
    ensures forall x :: x in rawExpectedValues <==> x in RawLabels(old(patterns[..]))
    ensures patterns.Length == 0 ==> rawExpectedValues == []
    ensures forall i :: 0 <= i < patterns.Length ==>
      patterns[i] == WithClassIndex(old(patterns[i]), rawExpectedValues)
  {
    rawExpectedValues := CollectRawLabels(patterns[..]);
    ghost var raws := RawLabels(patterns[..]);
    DistinctNoDuplicates(raws);
    DistinctSameLabels(raws);
    assert forall i :: 0 <= i < patterns.Length ==> patterns[i].singleRawExpectation == raws[i];
    AssignClassIndices(patterns, rawExpectedValues);
  }
}
