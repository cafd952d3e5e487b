/**
 The copilot's quantitative grounding: every number in an answer must occur in the tool evidence.
 Numbers are what `findall` of the number pattern returns; the pattern is modelled on ASCII digits.
 */
module Grounding {
  import opened Wrappers
  import opened Records

  predicate IsDigit(c: char) { '0' <= c <= '9' }

  predicate IsWord(c: char) {
    IsDigit(c) || 'a' <= c <= 'z' || 'A' <= c <= 'Z' || c == '_'
  }

  predicate IsSign(c: char) { c == '+' || c == '-' }

  // ----- the pattern as a language -----

  predicate Digits(s: string) {
    s != "" && forall i :: 0 <= i < |s| ==> IsDigit(s[i])
  }

  predicate PointAt(s: string, k: nat) {
    k < |s| && s[k] == '.' && (k == 0 || Digits(s[..k])) && Digits(s[k + 1..])
  }

  /** Digits with an optional fraction, or a bare fraction. */
  predicate Magnitude(s: string) {
    Digits(s) || exists k :: 0 <= k < |s| && PointAt(s, k)
  }

  predicate Unsigned(s: string) {
    Magnitude(s) || (s != "" && s[|s| - 1] == '%' && Magnitude(s[..|s| - 1]))
  }

  predicate IsNumber(s: string) {
    Unsigned(s) || (s != "" && IsSign(s[0]) && Unsigned(s[1..]))
  }

  // ----- the matcher -----

  /** Length of the leading run of digits. */
  function DigitRun(s: string): (n: nat)
    ensures n <= |s|
    ensures forall i :: 0 <= i < n ==> IsDigit(s[i])
    ensures n < |s| ==> !IsDigit(s[n])
  {
    if s != "" && IsDigit(s[0]) then 1 + DigitRun(s[1..]) else 0
  }

  /** A greedy fraction at the start: a point and at least one digit. */
  function FractionRun(s: string): (n: nat)
    ensures n <= |s| && n != 1
  {
    if s != "" && s[0] == '.' && DigitRun(s[1..]) > 0 then 1 + DigitRun(s[1..]) else 0
  }

  function MagnitudeRun(s: string): (n: nat)
    ensures n <= |s|
  {
    DigitRun(s) + FractionRun(s[DigitRun(s)..])
  }

  function UnsignedRun(s: string): (n: nat)
    ensures n <= |s|
  {
    var m := MagnitudeRun(s);
    if m > 0 && m < |s| && s[m] == '%' then m + 1 else m
  }

  /** Length of the match at the start of `s`, 0 when there is none. */
  function MatchLength(s: string): (n: nat)
    ensures n <= |s|
  {
    if s != "" && IsSign(s[0]) then
      var u := UnsignedRun(s[1..]);
      if u > 0 then u + 1 else 0
    else UnsignedRun(s)
  }

  /**
   `findall` from a position whose preceding character is, or is not, a word character. A match may
   not start after a word character; a position without a match is skipped.
   */
  function FindAll(afterWord: bool, s: string): seq<string>
    decreases |s|
  {
    if s == "" then []
    else
      var n := if afterWord then 0 else MatchLength(s);
      if n > 0 then [s[..n]] + FindAll(IsWord(s[n - 1]), s[n..])
      else FindAll(IsWord(s[0]), s[1..])
  }

  function Numbers(s: string): seq<string> {
    FindAll(false, s)
  }

  // ----- the matcher finds the longest prefix in the language -----

  lemma DigitRunIsLongest(s: string, k: nat)
    requires k <= |s| && Digits(s[..k])
    ensures k <= DigitRun(s)
  {
  }

  lemma MagnitudeRunMatches(s: string)
    ensures MagnitudeRun(s) > 0 ==> Magnitude(s[..MagnitudeRun(s)])
  {
    var d := DigitRun(s);
    var f := FractionRun(s[d..]);
    var t := s[..d + f];
    if f == 0 {
      assert d > 0 ==> Digits(t);
    } else {
      assert t[d] == '.' && t[..d] == s[..d];
      assert t[d + 1..] == s[d..][1..][..f - 1];
      assert PointAt(t, d);
    }
  }

  lemma PointIsDigitRun(s: string, k: nat, p: nat)
    requires k <= |s| && PointAt(s[..k], p)
    ensures p == DigitRun(s) && s[p] == '.' && p < k && Digits(s[p + 1..][..k - p - 1])
  {
    var t := s[..k];
    if p > 0 {
      assert t[..p] == s[..p];
      DigitRunIsLongest(s, p);
    }
    assert t[p + 1..] == s[p + 1..][..k - p - 1];
  }

  lemma MagnitudeRunIsLongest(s: string, k: nat)
    requires k <= |s| && Magnitude(s[..k])
    ensures k <= MagnitudeRun(s)
  {
    if Digits(s[..k]) {
      DigitRunIsLongest(s, k);
    } else {
      var p :| 0 <= p < |s[..k]| && PointAt(s[..k], p);
      PointIsDigitRun(s, k, p);
      assert s[p..][1..] == s[p + 1..];
      DigitRunIsLongest(s[p + 1..], k - p - 1);
    }
  }

  lemma MagnitudeEndsInDigit(s: string)
    requires Magnitude(s)
    ensures s != "" && IsDigit(s[|s| - 1])
  {
  }

  lemma UnsignedRunMatches(s: string)
    ensures UnsignedRun(s) > 0 ==> Unsigned(s[..UnsignedRun(s)])
  {
    hide Magnitude, MagnitudeRun;
    MagnitudeRunMatches(s);
    var m, u := MagnitudeRun(s), UnsignedRun(s);
    if u == m + 1 {
      assert s[..u][..u - 1] == s[..m];
    }
  }

  lemma UnsignedRunIsLongest(s: string, k: nat)
    requires k <= |s| && Unsigned(s[..k])
    ensures k <= UnsignedRun(s)
  {
    hide Magnitude, MagnitudeRun;
    var t := s[..k];
    if Magnitude(t) {
      MagnitudeRunIsLongest(s, k);
    } else {
      assert t[..k - 1] == s[..k - 1];
      MagnitudeRunIsLongest(s, k - 1);
      MagnitudeEndsInDigit(t[..k - 1]);
    }
  }

  lemma UnsignedStart(s: string)
    requires Unsigned(s)
    ensures s != "" && !IsSign(s[0])
  {
    MagnitudeStart(if Magnitude(s) then s else s[..|s| - 1]);
    hide Magnitude;
  }

  lemma MagnitudeStart(s: string)
    requires Magnitude(s)
    ensures s != "" && (IsDigit(s[0]) || s[0] == '.')
  {
    if !Digits(s) {
      var k :| 0 <= k < |s| && PointAt(s, k);
      if k > 0 { assert s[..k][0] == s[0]; }
    }
  }

  /** The match at a position is the longest prefix that is a number, and there is none when no prefix is. */
  lemma MatchIsLongestNumber(s: string)
    ensures MatchLength(s) > 0 ==> IsNumber(s[..MatchLength(s)])
    ensures forall k :: 0 <= k <= |s| && IsNumber(s[..k]) ==> k <= MatchLength(s)
  {
    hide Unsigned, UnsignedRun;
    var n := MatchLength(s);
    UnsignedRunMatches(s);
    if s != "" && IsSign(s[0]) {
      UnsignedRunMatches(s[1..]);
      if n > 0 { assert s[..n][1..] == s[1..][..n - 1]; }
    }
    forall k | 0 <= k <= |s| && IsNumber(s[..k]) ensures k <= n {
      NumberPrefixBound(s, k);
    }
  }

  lemma NumberPrefixBound(s: string, k: nat)
    requires k <= |s| && IsNumber(s[..k])
    ensures k <= MatchLength(s)
  {
    hide UnsignedRun;
    var t := s[..k];
    if Unsigned(t) {
      UnsignedStart(t);
      UnsignedRunIsLongest(s, k);
    } else {
      assert t[1..] == s[1..][..k - 1];
      UnsignedStart(t[1..]);
      UnsignedRunIsLongest(s[1..], k - 1);
    }
  }

  // ----- findall distributes over line breaks -----

  lemma {:induction false} DigitRunStops(a: string, b: string)
    ensures DigitRun(a + "\n" + b) == DigitRun(a)
  {
    var s := a + "\n" + b;
    if a == "" {
      assert s[0] == '\n';
    } else {
      assert s[1..] == a[1..] + "\n" + b;
      DigitRunStops(a[1..], b);
    }
  }

  lemma MagnitudeRunStops(a: string, b: string)
    ensures MagnitudeRun(a + "\n" + b) == MagnitudeRun(a)
  {
    var s := a + "\n" + b;
    DigitRunStops(a, b);
    var d := DigitRun(a);
    var rest := a[d..];
    assert s[d..] == rest + "\n" + b;
    if rest == "" {
      assert s[d] == '\n';
    } else {
      assert s[d..][1..] == rest[1..] + "\n" + b;
      DigitRunStops(rest[1..], b);
    }
  }

  lemma UnsignedRunStops(a: string, b: string)
    ensures UnsignedRun(a + "\n" + b) == UnsignedRun(a)
  {
    MagnitudeRunStops(a, b);
    hide MagnitudeRun;
    assert (a + "\n" + b)[|a|] == '\n';
  }

  lemma MatchLengthStops(a: string, b: string)
    ensures MatchLength(a + "\n" + b) == MatchLength(a)
  {
    hide UnsignedRun;
    UnsignedRunStops(a, b);
    if a == "" {
      assert (a + "\n" + b)[0] == '\n';
    } else {
      assert (a + "\n" + b)[1..] == a[1..] + "\n" + b;
      UnsignedRunStops(a[1..], b);
    }
  }

  /** No match crosses a line break, and a line break lets the next line start afresh. */
  lemma {:induction false} FindAllOverNewline(afterWord: bool, a: string, b: string)
    ensures FindAll(afterWord, a + "\n" + b) == FindAll(afterWord, a) + Numbers(b)
    decreases |a|
  {
    hide MatchLength, IsWord;
    var s := a + "\n" + b;
    MatchLengthStops(a, b);
    if a == "" {
      assert s[0] == '\n' && s[1..] == b;
      NewlineStartsAfresh(afterWord, s);
    } else {
      var n := if afterWord then 0 else MatchLength(a);
      var step := if n > 0 then n else 1;
      assert s[step..] == a[step..] + "\n" + b;
      assert s[..step] == a[..step];
      FindAllOverNewline(IsWord(a[step - 1]), a[step..], b);
    }
  }

  lemma NewlineStartsAfresh(afterWord: bool, s: string)
    requires s != "" && s[0] == '\n'
    ensures FindAll(afterWord, s) == Numbers(s[1..])
  {
  }

  lemma {:induction false} NoDigitsNoNumbers(afterWord: bool, s: string)
    requires forall i :: 0 <= i < |s| ==> !IsDigit(s[i])
    ensures FindAll(afterWord, s) == []
    decreases |s|
  {
    if s != "" {
      MatchIsLongestNumber(s);
      if MatchLength(s) > 0 {
        NumberHasDigit(s[..MatchLength(s)]);
      }
      NoDigitsNoNumbers(IsWord(s[0]), s[1..]);
    }
  }

  lemma NumberHasDigit(s: string)
    requires IsNumber(s)
    ensures exists i :: 0 <= i < |s| && IsDigit(s[i])
  {
    var u := if Unsigned(s) then s else s[1..];
    var m := if Magnitude(u) then u else u[..|u| - 1];
    MagnitudeEndsInDigit(m);
    var at := |m| - 1 + (if Unsigned(s) then 0 else 1);
    assert s[at] == m[|m| - 1];
  }

  // ----- rendering and synthesis -----

  function Join(lines: seq<string>): string {
    if lines == [] then ""
    else if |lines| == 1 then lines[0]
    else lines[0] + "\n" + Join(lines[1..])
  }

  function AllNumbers(lines: seq<string>): seq<string> {
    if lines == [] then [] else Numbers(lines[0]) + AllNumbers(lines[1..])
  }

  /** The numbers of a joined text are those of its lines, in order. */
  lemma {:induction false} NumbersOfJoin(lines: seq<string>)
    ensures Numbers(Join(lines)) == AllNumbers(lines)
  {
    if |lines| == 1 {
      assert lines[1..] == [];
    } else if |lines| > 1 {
      FindAllOverNewline(false, lines[0], Join(lines[1..]));
      NumbersOfJoin(lines[1..]);
    }
  }

  /** A successful tool result: its source label and its data rendered as JSON text. */
  datatype ToolResult = ToolResult(source: string, rendered: string)

  function EvidenceLines(results: seq<ToolResult>): seq<string> {
    if results == [] then []
    else EvidenceLines(results[..|results| - 1])
         + ["- source: " + results[|results| - 1].source, results[|results| - 1].rendered]
  }

  /** The rendered text, one block after the other: each source line is followed by that result's own data. */
  lemma {:induction false} BlocksInOrder(results: seq<ToolResult>, i: nat)
    requires i < |results|
    ensures Join(EvidenceLines(results)) ==
            (if i == 0 then "" else Join(EvidenceLines(results[..i])) + "\n")
            + "- source: " + results[i].source + "\n" + results[i].rendered
            + (if i + 1 == |results| then "" else "\n" + Join(EvidenceLines(results[i + 1..])))
  {
    hide Join, EvidenceLines;
    var before, after := results[..i], results[i + 1..];
    var block := ["- source: " + results[i].source, results[i].rendered];
    LinesOfOne(results[i]);
    assert results == (before + [results[i]]) + after;
    LinesConcat(before + [results[i]], after);
    LinesConcat(before, [results[i]]);
    BlockText(block[0], block[1]);
    LinesEmpty(before);
    LinesEmpty(after);
    JoinConcat(EvidenceLines(before), block);
    JoinConcat(EvidenceLines(before) + block, EvidenceLines(after));
  }

  lemma LinesOfOne(r: ToolResult)
    ensures EvidenceLines([r]) == ["- source: " + r.source, r.rendered]
  {
    assert [r][..0] == [];
  }

  lemma LinesEmpty(results: seq<ToolResult>)
    ensures EvidenceLines(results) == [] <==> results == []
  {
  }

  lemma {:induction false} LinesConcat(a: seq<ToolResult>, b: seq<ToolResult>)
    ensures EvidenceLines(a + b) == EvidenceLines(a) + EvidenceLines(b)
  {
    if b == [] {
      assert a + b == a;
    } else {
      LinesConcat(a, b[..|b| - 1]);
      assert (a + b)[..|a + b| - 1] == a + b[..|b| - 1];
    }
  }

  lemma BlockText(first: string, second: string)
    ensures Join([first, second]) == first + "\n" + second
  {
    assert [first, second][1..] == [second];
  }

  lemma {:induction false} JoinConcat(a: seq<string>, b: seq<string>)
    ensures Join(a + b) == if a == [] then Join(b) else if b == [] then Join(a) else Join(a) + "\n" + Join(b)
  {
    if a == [] {
      assert a + b == b;
    } else if b == [] {
      assert a + b == a;
    } else {
      JoinConcat(a[1..], b);
      assert (a + b)[1..] == a[1..] + b;
      if |a| == 1 { assert a[1..] == []; }
    }
  }

  method RenderEvidence(results: seq<ToolResult>) returns (text: string)
    ensures text == Join(EvidenceLines(results))
    ensures Numbers(text) == AllNumbers(EvidenceLines(results))
  {
    var lines := [];
    for i := 0 to |results|
      invariant lines == EvidenceLines(results[..i])
    {
      assert results[..i + 1][..i] == results[..i];
      lines := lines + ["- source: " + results[i].source];
      lines := lines + [results[i].rendered];
    }
    assert results[..|results|] == results;
    NumbersOfJoin(lines);
    text := Join(lines);
  }

  function NumberSet(s: string): set<string> {
    set n | n in Numbers(s)
  }

  predicate Grounded(narrative: string, evidence: string) {
    NumberSet(narrative) <= NumberSet(evidence)
  }

  /** The evidence branch of `synthesize`; the provider's reply is absent when the provider failed. */
  function FinalAnswer(reply: Option<string>, evidence: string): string {
    var narrative := if reply.Some? then Strip(reply.value) else "";
    if narrative != "" && Grounded(narrative, evidence) then narrative + "\n\nEvidence:\n" + evidence
    else "Based on the tool evidence:\n" + evidence
  }

  /**
   The provider's text is kept, trimmed, exactly when it says something and every number in it is in the evidence;
   otherwise only the evidence is shown. The whole evidence closes the answer either way.
   */
  lemma NarrativeIsKept(reply: Option<string>, evidence: string)
    ensures var kept := reply.Some? && NonBlank(reply.value)
                        && forall n :: n in Numbers(Strip(reply.value)) ==> n in Numbers(evidence);
      FinalAnswer(reply, evidence) ==
      if kept then Strip(reply.value) + "\n\nEvidence:\n" + evidence else "Based on the tool evidence:\n" + evidence
  {
    hide Numbers, NumberSet, Grounded, Strip, NonBlank;
    if reply.Some? {
      StripTrims(reply.value);
      GroundedMeans(Strip(reply.value), evidence);
    }
  }

  lemma GroundedMeans(narrative: string, evidence: string)
    ensures Grounded(narrative, evidence) <==> forall n :: n in Numbers(narrative) ==> n in Numbers(evidence)
  {
    hide Numbers;
    if Grounded(narrative, evidence) {
      forall n | n in Numbers(narrative) ensures n in Numbers(evidence) {
        assert n in NumberSet(narrative);
      }
    }
  }

  lemma NumbersAfterHeading(heading: string, evidence: string)
    requires forall i :: 0 <= i < |heading| ==> !IsDigit(heading[i])
    ensures Numbers(heading + "\n" + evidence) == Numbers(evidence)
  {
    FindAllOverNewline(false, heading, evidence);
    NoDigitsNoNumbers(false, heading);
  }

  lemma GroundedAnswer(narrative: string, evidence: string)
    requires Grounded(narrative, evidence)
    ensures NumberSet(narrative + "\n\nEvidence:\n" + evidence) == NumberSet(evidence)
  {
    hide FindAll, Numbers;
    var rest := "\nEvidence:" + "\n" + evidence;
    assert narrative + "\n\nEvidence:\n" + evidence == narrative + "\n" + rest;
    NumbersOverNewline(narrative, rest);
    NumbersAfterHeading("\nEvidence:", evidence);
  }

  lemma NumbersOverNewline(a: string, b: string)
    ensures Numbers(a + "\n" + b) == Numbers(a) + Numbers(b)
  {
    FindAllOverNewline(false, a, b);
  }

  /** Whatever the provider says, the numbers in the answer are exactly the numbers in the evidence. */
  lemma AnswerNumbersAreEvidenceNumbers(reply: Option<string>, evidence: string)
    ensures NumberSet(FinalAnswer(reply, evidence)) == NumberSet(evidence)
  {
    hide Numbers, Strip, Grounded;
    var narrative := if reply.Some? then Strip(reply.value) else "";
    if narrative != "" && Grounded(narrative, evidence) {
      GroundedAnswer(narrative, evidence);
    } else {
      assert FinalAnswer(reply, evidence) == "Based on the tool evidence:" + "\n" + evidence;
      NumbersAfterHeading("Based on the tool evidence:", evidence);
    }
  }
}
