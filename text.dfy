/**
  String operations the demo scripts take from Python's `str`, restated on
  `seq<char>`: ASCII lowering, substring search (`in`), `sep.join`,
  `splitlines`, `strip` and prefix slicing (`s[:n]`). It also holds the
  "User: " and "Assistant: " entry formats that both conversation demos keep
  in their histories.
 */
module Text {

  /** Characters for which Python's `str.isspace()` holds. */
  predicate IsSpace(c: char) {
    || c == ' '
    || ('\t' <= c <= '\r')
    || ('\U{1C}' <= c <= '\U{1F}')
    || c == '\U{85}' || c == '\U{A0}' || c == '\U{1680}'
    || ('\U{2000}' <= c <= '\U{200A}')
    || c == '\U{2028}' || c == '\U{2029}' || c == '\U{202F}' || c == '\U{205F}' || c == '\U{3000}'
  }

  /** Characters at which Python's `str.splitlines()` breaks a line. */
  predicate IsLineBreak(c: char) {
    || c == '\n' || c == '\r' || c == '\U{B}' || c == '\U{C}'
    || ('\U{1C}' <= c <= '\U{1E}')
    || c == '\U{85}' || c == '\U{2028}' || c == '\U{2029}'
  }

  predicate HasNoLineBreak(s: string) {
    forall i :: 0 <= i < |s| ==> !IsLineBreak(s[i])
  }

  predicate IsAsciiUpper(c: char) {
    'A' <= c <= 'Z'
  }

  function LowerChar(c: char): (r: char)
    ensures !IsAsciiUpper(r)
    ensures !IsAsciiUpper(c) ==> r == c
    ensures IsAsciiUpper(c) ==> r as int == c as int + 32
  {
    if IsAsciiUpper(c) then (c as int + 32) as char else c
  }

  /** `s.lower()`, restricted to the ASCII letters. */
  function Lower(s: string): string {
    if s == [] then [] else [LowerChar(s[0])] + Lower(s[1..])
  }

  /** Lowering keeps the length and lowers every character on its own. */
  lemma {:induction false} LowerPointwise(s: string)
    ensures |Lower(s)| == |s|
    ensures forall i :: 0 <= i < |s| ==> Lower(s)[i] == LowerChar(s[i])
  {
    if s != [] {
      LowerPointwise(s[1..]);
    }
  }

  lemma LowerIdempotent(s: string)
    ensures Lower(Lower(s)) == Lower(s)
  {
    var l := Lower(s);
    LowerPointwise(s);
    LowerPointwise(l);
    assert forall i :: 0 <= i < |l| ==> Lower(l)[i] == l[i];
  }

  /** `phrase` stands in `text` starting at index `i`. */
  predicate OccursAt(phrase: string, text: string, i: nat) {
    i + |phrase| <= |text| && text[i..i + |phrase|] == phrase
  }

  /** Reference meaning of Python's `phrase in text`. */
  ghost predicate Occurs(phrase: string, text: string) {
    exists i: nat :: OccursAt(phrase, text, i)
  }

  /** `text.startswith(phrase)`, compared character by character. */
  predicate StartsWith(text: string, phrase: string) {
    phrase == [] || (text != [] && text[0] == phrase[0] && StartsWith(text[1..], phrase[1..]))
  }

  lemma {:induction false} StartsWithMeansOccursAtStart(text: string, phrase: string)
    ensures StartsWith(text, phrase) <==> OccursAt(phrase, text, 0)
  {
    if phrase != [] && text != [] {
      StartsWithMeansOccursAtStart(text[1..], phrase[1..]);
      if OccursAt(phrase, text, 0) {
        assert text[1..][..|phrase| - 1] == phrase[1..];
      }
      if OccursAt(phrase[1..], text[1..], 0) && text[0] == phrase[0] {
        assert text[..|phrase|] == [text[0]] + text[1..][..|phrase| - 1];
      }
    }
  }

  /** Python's `phrase in text`, as a left-to-right search. */
  function Contains(text: string, phrase: string): bool
    decreases |text|
  {
    if StartsWith(text, phrase) then true
    else if text == [] then false
    else Contains(text[1..], phrase)
  }

  lemma OccursAtShift(phrase: string, text: string, i: nat)
    requires |text| > 0
    ensures OccursAt(phrase, text[1..], i) <==> OccursAt(phrase, text, i + 1)
  {
    if i + |phrase| <= |text[1..]| {
      assert text[1..][i..i + |phrase|] == text[i + 1..i + 1 + |phrase|];
    }
  }

  lemma {:induction false} ContainsMeansOccurs(text: string, phrase: string)
    ensures Contains(text, phrase) <==> Occurs(phrase, text)
    decreases |text|
  {
    StartsWithMeansOccursAtStart(text, phrase);
    if StartsWith(text, phrase) {
      assert OccursAt(phrase, text, 0);
    } else if text == [] {
      forall i: nat ensures !OccursAt(phrase, text, i) {
      }
    } else {
      ContainsMeansOccurs(text[1..], phrase);
      if Occurs(phrase, text[1..]) {
        var i: nat :| OccursAt(phrase, text[1..], i);
        OccursAtShift(phrase, text, i);
      }
      if Occurs(phrase, text) {
        var i: nat :| OccursAt(phrase, text, i);
        assert i != 0;
        OccursAtShift(phrase, text, i - 1);
      }
    }
  }

  /** Python's `sep.join(parts)`. */
  function Join(parts: seq<string>, sep: string): string
  {
    if |parts| == 0 then ""
    else if |parts| == 1 then parts[0]
    else parts[0] + sep + Join(parts[1..], sep)
  }

  /** Appending one part to a non-empty list appends the separator and that part. */
  lemma {:induction false} JoinSnoc(parts: seq<string>, p: string, sep: string)
    requires |parts| > 0
    ensures Join(parts + [p], sep) == Join(parts, sep) + sep + p
    decreases |parts|
  {
    if |parts| == 1 {
      assert (parts + [p])[1..] == [p];
    } else {
      assert (parts + [p])[1..] == parts[1..] + [p];
      JoinSnoc(parts[1..], p, sep);
    }
  }

  /** Index of the first line break in `s`, or `|s|` when there is none. */
  function FirstBreak(s: string): (i: nat)
    ensures i <= |s|
    ensures forall j :: 0 <= j < i ==> !IsLineBreak(s[j])
    ensures i < |s| ==> IsLineBreak(s[i])
  {
    if s == [] then 0
    else if IsLineBreak(s[0]) then 0
    else 1 + FirstBreak(s[1..])
  }

  /**
    Python's `s.splitlines()`: the pieces between line breaks, with "\r\n"
    taken as one break and no empty piece after a final break.
   */
  function SplitLines(s: string): seq<string>
    decreases |s|
  {
    if s == [] then []
    else
      var i := FirstBreak(s);
      if i == |s| then [s]
      else
        var next := if s[i] == '\r' && i + 1 < |s| && s[i + 1] == '\n' then i + 2 else i + 1;
        [s[..i]] + SplitLines(s[next..])
  }

  lemma FirstBreakAfterLine(line: string, rest: string)
    requires HasNoLineBreak(line)
    ensures FirstBreak(line + "\n" + rest) == |line|
  {
    var s := line + "\n" + rest;
    assert forall j :: 0 <= j < |line| ==> s[j] == line[j];
    assert s[|line|] == '\n';
  }

  /**
    Joining break-free lines with "\n" and splitting them again gives back the
    same lines, provided the last one is not empty.
   */
  lemma {:induction false} SplitLinesOfJoin(lines: seq<string>)
    requires forall k :: 0 <= k < |lines| ==> HasNoLineBreak(lines[k])
    requires lines != [] ==> lines[|lines| - 1] != ""
    ensures SplitLines(Join(lines, "\n")) == lines
    decreases |lines|
  {
    if |lines| == 1 {
      assert HasNoLineBreak(lines[0]);
    } else if |lines| > 1 {
      var rest := Join(lines[1..], "\n");
      var s := lines[0] + "\n" + rest;
      assert HasNoLineBreak(lines[0]);
      FirstBreakAfterLine(lines[0], rest);
      assert s[|lines[0]|] == '\n';
      assert s[..|lines[0]|] == lines[0];
      assert s[|lines[0]| + 1..] == rest;
      SplitLinesOfJoin(lines[1..]);
    }
  }

  /** `s.lstrip()` */
  function StripLeft(s: string): string {
    if s != [] && IsSpace(s[0]) then StripLeft(s[1..]) else s
  }

  /** `s.rstrip()` */
  function StripRight(s: string): string {
    if s != [] && IsSpace(s[|s| - 1]) then StripRight(s[..|s| - 1]) else s
  }

  /** `lstrip` removes a run of leading whitespace and stops at the first other character. */
  lemma {:induction false} StripLeftRemovesLeadingSpace(s: string)
    ensures var r := StripLeft(s);
      && |r| <= |s| && r == s[|s| - |r|..]
      && (forall k :: 0 <= k < |s| - |r| ==> IsSpace(s[k]))
      && (r != [] ==> !IsSpace(r[0]))
  {
    if s != [] && IsSpace(s[0]) {
      StripLeftRemovesLeadingSpace(s[1..]);
      var r := StripLeft(s);
      assert r == s[1..][|s| - 1 - |r|..];
      forall k | 1 <= k < |s| - |r| ensures IsSpace(s[k]) {
        assert s[k] == s[1..][k - 1];
      }
    }
  }

  /** `rstrip` removes a run of trailing whitespace and stops at the last other character. */
  lemma {:induction false} StripRightRemovesTrailingSpace(s: string)
    ensures var r := StripRight(s);
      && |r| <= |s| && r == s[..|r|]
      && (forall k :: |r| <= k < |s| ==> IsSpace(s[k]))
      && (r != [] ==> !IsSpace(r[|r| - 1]))
  {
    if s != [] && IsSpace(s[|s| - 1]) {
      var t := s[..|s| - 1];
      StripRightRemovesTrailingSpace(t);
      var r := StripRight(s);
      assert r == t[..|r|];
      forall k | |r| <= k < |s| - 1 ensures IsSpace(s[k]) {
        assert s[k] == t[k];
      }
    }
  }

  /** `s.strip()` */
  function Strip(s: string): string {
    StripRight(StripLeft(s))
  }

  /**
    What `strip` promises: the result is a contiguous part of `s`, everything cut
    off is whitespace, and the result neither starts nor ends with whitespace.
   */
  lemma StripIsTrimmedSlice(s: string)
    ensures var r := Strip(s);
      exists lo: nat, hi: nat ::
        && lo <= hi <= |s| && r == s[lo..hi]
        && (forall k :: 0 <= k < lo ==> IsSpace(s[k]))
        && (forall k :: hi <= k < |s| ==> IsSpace(s[k]))
        && (r != [] ==> !IsSpace(r[0]) && !IsSpace(r[|r| - 1]))
  {
    var l := StripLeft(s);
    var r := StripRight(l);
    StripLeftRemovesLeadingSpace(s);
    StripRightRemovesTrailingSpace(l);
    var lo := |s| - |l|;
    var hi := lo + |r|;
    assert r == s[lo..hi];
    forall k | hi <= k < |s| ensures IsSpace(s[k]) {
      assert s[k] == l[k - lo];
    }
    if r != [] {
      assert r[0] == l[0];
    }
  }

  lemma StripIdempotent(s: string)
    ensures Strip(Strip(s)) == Strip(s)
  {
    var r := Strip(s);
    StripIsTrimmedSlice(s);
    if r != [] {
      assert StripLeft(r) == r;
      assert StripRight(r) == r;
    }
  }

  /** Python's `s[:n]` for a non-negative `n`. */
  function Take(s: string, n: nat): (r: string)
    ensures |r| == if |s| <= n then |s| else n
    ensures r == s[..|r|]
  {
    if |s| <= n then s else s[..n]
  }

  /** The labelled history entries both conversation demos keep: `f"User: {text}"`. */
  function UserEntry(text: string): string {
    "User: " + text
  }

  /** `f"Assistant: {response}"` */
  function AssistantEntry(response: string): string {
    "Assistant: " + response
  }

  lemma AssistantEntryInjective(a: string, b: string)
    ensures AssistantEntry(a) == AssistantEntry(b) <==> a == b
  {
    if AssistantEntry(a) == AssistantEntry(b) {
      assert a == AssistantEntry(a)[11..];
      assert b == AssistantEntry(b)[11..];
    }
  }
}
