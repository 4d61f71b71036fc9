/**
 * The tag function `analyzeString` of the string-tagged-templates lesson: it
 * rebuilds the template text, wrapping every substituted value in asterisks.
 */
module TaggedTemplates {
  import opened Js

  /** A placeholder's text as the tag writes it: its string form between two '*'. */
  function Starred(p: JsValue): (s: string)
    ensures |s| == |ToString(p)| + 2 && s[0] == '*' && s[|s| - 1] == '*'
  {
    "*" + ToString(p) + "*"
  }

  /** Stripping the two asterisks from a starred placeholder gives back its string form. */
  lemma StarredUnwraps(p: JsValue)
    ensures Starred(p)[1..|Starred(p)| - 1] == ToString(p)
  {
    var s := Starred(p);
    assert s == ['*'] + ToString(p) + ['*'];
  }

  /**
   * L0 ++ *P0* ++ L1 ++ *P1* ++ ... for as many literals as placeholders:
   * the text before the last literal.
   */
  function Interleave(literals: seq<string>, placeholders: seq<JsValue>): (text: string)
    requires |literals| == |placeholders|
  {
    if placeholders == [] then ""
    else literals[0] + Starred(placeholders[0]) + Interleave(literals[1..], placeholders[1..])
  }

  /** The whole text: the interleaving followed by the last literal. */
  function Tagged(literals: seq<string>, placeholders: seq<JsValue>): (text: string)
    requires |literals| == |placeholders| + 1
  {
    Interleave(literals[..|placeholders|], placeholders) + literals[|placeholders|]
  }

  function SumLengths(ss: seq<string>): (total: nat)
  {
    if ss == [] then 0 else |ss[0]| + SumLengths(ss[1..])
  }

  function PlaceholderLengths(ps: seq<JsValue>): (total: nat)
  {
    if ps == [] then 0 else |ToString(ps[0])| + PlaceholderLengths(ps[1..])
  }

  /** Appending one literal and one placeholder extends the interleaving at its end. */
  lemma {:induction false} InterleaveSnoc(ls: seq<string>, ps: seq<JsValue>, l: string, p: JsValue)
    requires |ls| == |ps|
    ensures Interleave(ls + [l], ps + [p]) == Interleave(ls, ps) + l + Starred(p)
  {
    if ps == [] {
      assert Interleave(ls + [l], ps + [p]) == l + Starred(p) + Interleave([], []);
    } else {
      assert (ls + [l])[1..] == ls[1..] + [l];
      assert (ps + [p])[1..] == ps[1..] + [p];
      InterleaveSnoc(ls[1..], ps[1..], l, p);
    }
  }

  /** The interleaving is as long as its literals and placeholder texts plus two stars each. */
  lemma {:induction false} InterleaveLength(ls: seq<string>, ps: seq<JsValue>)
    requires |ls| == |ps|
    ensures |Interleave(ls, ps)| == SumLengths(ls) + PlaceholderLengths(ps) + 2 * |ps|
  {
    if ps != [] {
      InterleaveLength(ls[1..], ps[1..]);
    }
  }

  lemma {:induction false} SumLengthsSnoc(ss: seq<string>, s: string)
    ensures SumLengths(ss + [s]) == SumLengths(ss) + |s|
  {
    if ss != [] {
      assert (ss + [s])[1..] == ss[1..] + [s];
      SumLengthsSnoc(ss[1..], s);
    }
  }

  /** The length of the tag's result: all literals, all placeholder texts, and 2 per placeholder. */
  lemma TaggedLength(literals: seq<string>, placeholders: seq<JsValue>)
    requires |literals| == |placeholders| + 1
    ensures |Tagged(literals, placeholders)|
            == SumLengths(literals) + PlaceholderLengths(placeholders) + 2 * |placeholders|
  {
    var n := |placeholders|;
    InterleaveLength(literals[..n], placeholders);
    SumLengthsSnoc(literals[..n], literals[n]);
    assert literals[..n] + [literals[n]] == literals;
  }

  /** The result always ends with the last literal. */
  lemma TaggedEndsWithLastLiteral(literals: seq<string>, placeholders: seq<JsValue>)
    requires |literals| == |placeholders| + 1
    ensures var r := Tagged(literals, placeholders);
            var last := literals[|literals| - 1];
            |last| <= |r| && r[|r| - |last|..] == last
  {
  }

  /** Without placeholders the result is exactly the (only, last) literal. */
  lemma TaggedWithoutPlaceholders(literals: seq<string>)
    requires |literals| == 1
    ensures Tagged(literals, []) == literals[0]
  {
  }

  /** Round i of the loop: the prefixes of length i + 1 interleave to those of length i, then literal i and starred placeholder i. */
  lemma InterleavePrefixStep(literals: seq<string>, placeholders: seq<JsValue>, i: nat)
    requires |literals| == |placeholders| + 1 && i < |placeholders|
    ensures Interleave(literals[..i + 1], placeholders[..i + 1])
            == Interleave(literals[..i], placeholders[..i]) + literals[i] + Starred(placeholders[i])
  {
    InterleaveSnoc(literals[..i], placeholders[..i], literals[i], placeholders[i]);
    assert literals[..i + 1] == literals[..i] + [literals[i]];
    assert placeholders[..i + 1] == placeholders[..i] + [placeholders[i]];
  }

  /**
   * The tag function. The template's literal pieces always number one more
   * than its placeholders; the loop appends literal i and placeholder i, then
   * the last literal closes the text.
   */
  method AnalyzeString(literals: seq<string>, placeholders: seq<JsValue>) returns (result: string)
    requires |literals| == |placeholders| + 1
    ensures result == Tagged(literals, placeholders)
  {
    result := "";
    var i := 0;
    while i < |placeholders|
      invariant 0 <= i <= |placeholders|
      invariant result == Interleave(literals[..i], placeholders[..i])
    {
      InterleavePrefixStep(literals, placeholders, i);
      result := result + literals[i];
      result := result + ("*" + ToString(placeholders[i]) + "*");
      i := i + 1;
    }
    assert placeholders[..i] == placeholders;
    result := result + literals[|literals| - 1];
  }

  lemma RenderSamplePlaceholders()
    ensures Starred(Number(84)) == "*84*" && Starred(Number(100)) == "*100*"
  {
    assert Digits(8) == "8" && Digits(84) == "84";
    assert Digits(1) == "1" && Digits(10) == "10" && Digits(100) == "100";
  }

  /** The lesson's call: analyzeString`The number is ${84} which is not like the second number ${100}`. */
  method SampleCall() returns (result: string)
    ensures result == "The number is " + "*84*" + " which is not like the second number " + "*100*"
  {
    var l0, l1 := "The number is ", " which is not like the second number ";
    result := AnalyzeString([l0, l1, ""], [Number(84), Number(100)]);
    RenderSamplePlaceholders();
    assert [l0, l1, ""][..2] == [l0, l1];
    calc {
      Tagged([l0, l1, ""], [Number(84), Number(100)]);
      Interleave([l0, l1], [Number(84), Number(100)]) + "";
      l0 + "*84*" + Interleave([l1], [Number(100)]);
      l0 + "*84*" + (l1 + "*100*" + Interleave([], []));
      l0 + "*84*" + l1 + "*100*";
    }
  }
}
