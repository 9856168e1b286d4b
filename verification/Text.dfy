/** String operations as the sources use them. */
module Text {
  import opened Prelude

  predicate IsSpace(c: char) {
    c == ' ' || '\t' <= c <= '\r'
  }

  function StripLeft(s: string): (r: string)
    ensures |r| <= |s|
  {
    if s != "" && IsSpace(s[0]) then StripLeft(s[1..]) else s
  }

  function StripRight(s: string): (r: string)
    ensures |r| <= |s|
  {
    if s != "" && IsSpace(s[|s| - 1]) then StripRight(s[..|s| - 1]) else s
  }

  function Strip(s: string): string {
    StripRight(StripLeft(s))
  }

  predicate StartsWith(s: string, prefix: string) {
    prefix <= s
  }

  predicate OccursAt(s: string, part: string, i: nat) {
    i + |part| <= |s| && s[i..i + |part|] == part
  }

  predicate Contains(s: string, part: string) {
    exists i: nat | i <= |s| :: OccursAt(s, part, i)
  }

  function Prefix(s: string, n: nat): string {
    if |s| <= n then s else s[..n]
  }

  function Join(parts: seq<string>, separator: string): string {
    if parts == [] then ""
    else if |parts| == 1 then parts[0]
    else parts[0] + separator + Join(parts[1..], separator)
  }

  lemma {:induction false} JoinJoins(a: seq<string>, b: seq<string>, separator: string)
    requires a != [] && b != []
    ensures Join(a + b, separator) == Join(a, separator) + separator + Join(b, separator)
  {
    HeadAndTail(a);
    if |a| == 1 {
      assert (a + b)[1..] == b;
    } else {
      assert (a + b)[1..] == a[1..] + b;
      JoinJoins(a[1..], b, separator);
    }
  }

  // ----- What stripping keeps -----

  lemma {:induction false} StripLeftKeeps(s: string, i: nat)
    requires i < |s| && !IsSpace(s[i])
    ensures |StripLeft(s)| >= |s| - i
    ensures StripLeft(s) == s[|s| - |StripLeft(s)|..]
  {
    if IsSpace(s[0]) {
      StripLeftKeeps(s[1..], i - 1);
    }
  }

  lemma {:induction false} StripRightKeeps(s: string, j: nat)
    requires j < |s| && !IsSpace(s[j])
    ensures |StripRight(s)| > j
    ensures StripRight(s) == s[..|StripRight(s)|]
  {
    if IsSpace(s[|s| - 1]) {
      StripRightKeeps(s[..|s| - 1], j);
    }
  }

  /** Stripping never cuts between two characters that are no spaces. */
  lemma StripSpans(s: string, i: nat, j: nat)
    requires i <= j < |s| && !IsSpace(s[i]) && !IsSpace(s[j])
    ensures |Strip(s)| >= j - i + 1
  {
    StripLeftKeeps(s, i);
    var left := StripLeft(s);
    assert left[j - (|s| - |left|)] == s[j];
    StripRightKeeps(left, j - (|s| - |left|));
  }

  /** Stripping changes nothing. */
  predicate Trim(s: string) {
    s == "" || (!IsSpace(s[0]) && !IsSpace(s[|s| - 1]))
  }

  lemma TrimIsStripped(s: string)
    requires Trim(s)
    ensures Strip(s) == s
  {
  }

  lemma {:induction false} StripLeftSkips(indent: string, s: string)
    requires s == "" || !IsSpace(s[0])
    requires forall k | 0 <= k < |indent| :: IsSpace(indent[k])
    ensures StripLeft(indent + s) == s
    decreases |indent|
  {
    if indent == [] {
      assert indent + s == s;
    } else {
      assert (indent + s)[0] == indent[0] && (indent + s)[1..] == indent[1..] + s;
      StripLeftSkips(indent[1..], s);
    }
  }

  predicate AllSpace(s: string) {
    forall k | 0 <= k < |s| :: IsSpace(s[k])
  }

  /** Space around a trimmed text goes away. */
  lemma {:induction false} StripAround(before: string, s: string, after: string)
    requires Trim(s) && AllSpace(before) && AllSpace(after)
    ensures Strip(before + s + after) == s
    decreases |after|
  {
    if after == [] {
      assert before + s + after == before + s;
      StripLeftSkips(before, s);
    } else {
      var front, last := after[..|after| - 1], after[|after| - 1];
      StripAround(before, s, front);
      StripForgetsSpaces(before + s + front, last);
      assert before + s + after == before + s + front + [last];
    }
  }

  lemma {:induction false} StripLeftTrims(s: string)
    ensures StripLeft(s) == "" || !IsSpace(StripLeft(s)[0])
    ensures forall c | c in StripLeft(s) :: c in s
  {
    if s != "" && IsSpace(s[0]) {
      StripLeftTrims(s[1..]);
    }
  }

  lemma {:induction false} StripRightTrims(s: string)
    ensures StripRight(s) == "" || !IsSpace(StripRight(s)[|StripRight(s)| - 1])
    ensures StripRight(s) != "" ==> StripRight(s)[0] == s[0]
    ensures forall c | c in StripRight(s) :: c in s
  {
    if s != "" && IsSpace(s[|s| - 1]) {
      StripRightTrims(s[..|s| - 1]);
    }
  }

  lemma StripTrims(s: string)
    ensures Trim(Strip(s))
    ensures forall c | c in Strip(s) :: c in s
  {
    StripLeftTrims(s);
    StripRightTrims(StripLeft(s));
  }

  /** `s[i..j]` is `s` without the space around it. */
  predicate IsMiddle(s: string, i: nat, j: nat) {
    && i <= j <= |s| && (forall k | 0 <= k < i :: IsSpace(s[k])) && (forall k | j <= k < |s| :: IsSpace(s[k]))
    && (i < j ==> !IsSpace(s[i]) && !IsSpace(s[j - 1]))
  }

  lemma {:induction false} StripLeftCuts(s: string) returns (i: nat)
    ensures i <= |s| && StripLeft(s) == s[i..] && forall k | 0 <= k < i :: IsSpace(s[k])
    ensures i < |s| ==> !IsSpace(s[i])
  {
    i := 0;
    if s != "" && IsSpace(s[0]) {
      var rest := s[1..];
      var n := StripLeftCuts(rest);
      i := n + 1;
      assert s[i..] == rest[n..] && forall k | 1 <= k < i :: s[k] == rest[k - 1];
    }
  }

  lemma {:induction false} StripRightCuts(s: string) returns (j: nat)
    ensures j <= |s| && StripRight(s) == s[..j] && forall k | j <= k < |s| :: IsSpace(s[k])
    ensures j > 0 ==> !IsSpace(s[j - 1])
  {
    j := |s|;
    if s != "" && IsSpace(s[|s| - 1]) {
      var front := s[..|s| - 1];
      j := StripRightCuts(front);
      assert s[..j] == front[..j];
    }
  }

  /** Stripping cuts off the space at both ends, and no more. */
  lemma StripCuts(s: string) returns (i: nat, j: nat)
    ensures IsMiddle(s, i, j) && Strip(s) == s[i..j]
  {
    i := StripLeftCuts(s);
    var left := s[i..];
    var n := StripRightCuts(left);
    j := i + n;
    assert left[..n] == s[i..j] && forall k | j <= k < |s| :: s[k] == left[k - i];
  }

  // ----- Lines -----

  predicate OneLine(s: string) {
    '\n' !in s
  }

  /** `text.split("\n")`. */
  function SplitLines(text: string): (lines: seq<string>)
    ensures lines != [] && forall k | 0 <= k < |lines| :: OneLine(lines[k])
  {
    if text == "" then [""]
    else
      var front, last := SplitLines(text[..|text| - 1]), text[|text| - 1];
      if last == '\n' then front + [""]
      else front[..|front| - 1] + [front[|front| - 1] + [last]]
  }

  /** `"\n".join(lines)`. */
  function JoinLines(lines: seq<string>): string {
    if lines == [] then ""
    else if |lines| == 1 then lines[0]
    else JoinLines(lines[..|lines| - 1]) + "\n" + lines[|lines| - 1]
  }

  lemma {:induction false} SplitOfAppended(text: string, s: string)
    requires OneLine(s)
    ensures
      var lines := SplitLines(text);
      SplitLines(text + s) == lines[..|lines| - 1] + [lines[|lines| - 1] + s]
    decreases |s|
  {
    var lines := SplitLines(text);
    if s == "" {
      assert text + s == text && lines[|lines| - 1] + s == lines[|lines| - 1];
      assert lines[..|lines| - 1] + [lines[|lines| - 1]] == lines;
    } else {
      var front, last := s[..|s| - 1], s[|s| - 1];
      assert s == front + [last] && last in s;
      assert (text + s)[..|text + s| - 1] == text + front;
      SplitOfAppended(text, front);
      assert (lines[|lines| - 1] + front) + [last] == lines[|lines| - 1] + s;
    }
  }

  /** What was joined from lines splits into the same lines again. */
  lemma {:induction false} SplitOfJoined(lines: seq<string>)
    requires lines != [] && forall k | 0 <= k < |lines| :: OneLine(lines[k])
    ensures SplitLines(JoinLines(lines)) == lines
    decreases |lines|
  {
    var front, last := lines[..|lines| - 1], lines[|lines| - 1];
    if |lines| == 1 {
      SplitOfAppended("", last);
      assert "" + last == last;
      assert lines == [last];
    } else {
      SplitOfJoined(front);
      var text := JoinLines(front) + "\n";
      assert text[..|text| - 1] == JoinLines(front);
      assert SplitLines(text) == front + [""];
      SplitOfAppended(text, last);
      assert "" + last == last;
      assert lines == front + [last];
    }
  }

  /** Joining with a newline puts the lines one after the other. */
  lemma {:induction false} SplitOfConcat(a: string, b: string)
    ensures SplitLines(a + "\n" + b) == SplitLines(a) + SplitLines(b)
    decreases |b|
  {
    var head := a + "\n";
    if b == "" {
      assert head + b == head && head[..|head| - 1] == a;
    } else {
      var front, last := b[..|b| - 1], b[|b| - 1];
      assert b == front + [last] && head + b == (head + front) + [last];
      SplitOfConcat(a, front);
      SplitGrows(head + front, SplitLines(a), SplitLines(front), last);
      SplitGrows(front, [], SplitLines(front), last);
    }
  }

  /** One more character at the end touches only the last line. */
  lemma {:induction false} SplitGrows(text: string, before: seq<string>, lines: seq<string>, c: char)
    requires SplitLines(text) == before + lines && lines != []
    ensures SplitLines(text + [c]) ==
            before + if c == '\n' then lines + [""] else lines[..|lines| - 1] + [lines[|lines| - 1] + [c]]
  {
    assert (text + [c])[..|text|] == text;
  }

  lemma {:induction false} StripLeftOfSpaces(s: string)
    requires forall k | 0 <= k < |s| :: IsSpace(s[k])
    ensures StripLeft(s) == ""
  {
    if s != "" {
      StripLeftOfSpaces(s[1..]);
    }
  }

  lemma {:induction false} StripLeftBeforeSpace(s: string, c: char)
    requires IsSpace(c)
    ensures StripLeft(s + [c]) == if StripLeft(s) == "" then "" else StripLeft(s) + [c]
    decreases |s|
  {
    if s == "" {
      assert s + [c] == [c];
      StripLeftOfSpaces([c]);
    } else if IsSpace(s[0]) {
      assert (s + [c])[1..] == s[1..] + [c];
      StripLeftBeforeSpace(s[1..], c);
    }
  }

  /** A space at either end makes no difference to the stripped text. */
  lemma StripForgetsSpaces(s: string, c: char)
    requires IsSpace(c)
    ensures Strip([c] + s) == Strip(s) && Strip(s + [c]) == Strip(s)
  {
    assert ([c] + s)[1..] == s;
    StripLeftBeforeSpace(s, c);
    var left := StripLeft(s);
    assert (left + [c])[..|left|] == left;
  }
}
