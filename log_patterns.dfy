/** The label pattern table of the log decoder, kept as the text of its regular
    expressions (their `source`), and the line-span bound derived from that text. */
module LogPatterns {

  /** The escaped logger tag `\[UnityCrossThreadLogger\]` that opens every pattern. */
  const LoggerTag: string := @"\[" + @"UnityCrossThreadLogger" + @"\]"

  /** The group `(?:\r\n|\n)` matching one line break. */
  const LineBreakGroup: string := @"(?:" + @"\r" + @"\n" + @"|" + @"\n" + @")"

  /** Sources of the two label+JSON patterns, in table order. */
  const LabelJsonPatternSources: seq<string> := [
    LoggerTag + @"(?<timestamp>.*): (?:Match to )?"
    + @"(?<playerId>" + @"\w" + @"*)(?: to Match)?: "
    + @"(?<label>.*)" + LineBreakGroup,
    LoggerTag + @"Received unhandled GREMessageType: "
    + @"(?<label>.*)" + LineBreakGroup + @"*"
  ]

  /** Source of the arrow label pattern. */
  const LabelArrowJsonPatternSource: string :=
    LoggerTag + @"(?<arrow>[<=]=[=>]) (?<label>.*?) "

  /** The plain patterns followed by the arrow pattern. */
  const AllPatternSources: seq<string> := LabelJsonPatternSources + [LabelArrowJsonPatternSource]

  /** What the regular expression `/\\n/g` matches: a backslash followed by 'n',
      i.e. a line break written into a pattern. */
  const EscapedNewline: string := @"\n"

  /** `needle` is written at position `k` of `text`. */
  predicate OccursAt(text: string, needle: string, k: int) {
    0 <= k && k + |needle| <= |text| && text[k..k + |needle|] == needle
  }

  /** Number of non-overlapping occurrences of `needle` in `text` at or after `i`,
      found left to right. */
  function OccurrencesFrom(text: string, needle: string, i: nat): nat
    requires |needle| > 0
    decreases |text| - i
  {
    if i + |needle| > |text| then 0
    else if text[i..i + |needle|] == needle then 1 + OccurrencesFrom(text, needle, i + |needle|)
    else OccurrencesFrom(text, needle, i + 1)
  }

  /** `occurrences(text, re)`: the number of matches of a global literal pattern,
      0 exactly when there is none, and at most as many as fit in the text. */
  function Occurrences(text: string, needle: string): (r: nat)
    requires |needle| > 0
    ensures r == 0 <==> forall k :: !OccursAt(text, needle, k)
    ensures r * |needle| <= |text|
  {
    OccurrencesFromMeaning(text, needle, 0);
    OccurrencesFrom(text, needle, 0)
  }

  /** The count from `i` is positive exactly when the needle is written at or after `i`,
      and the counted copies, being disjoint, fit in the rest of the text. */
  lemma {:induction false} OccurrencesFromMeaning(text: string, needle: string, i: nat)
    requires |needle| > 0 && i <= |text|
    ensures OccurrencesFrom(text, needle, i) > 0 <==> exists k :: i <= k && OccursAt(text, needle, k)
    ensures OccurrencesFrom(text, needle, i) * |needle| <= |text| - i
    decreases |text| - i
  {
    if i + |needle| <= |text| {
      if text[i..i + |needle|] == needle {
        OccurrencesFromMeaning(text, needle, i + |needle|);
        assert OccursAt(text, needle, i);
      } else {
        OccurrencesFromMeaning(text, needle, i + 1);
        assert !OccursAt(text, needle, i);
      }
    }
  }

  /** Text without the needle's first character holds no occurrence. */
  lemma {:induction false} NoneWithoutFirst(text: string, needle: string, i: nat)
    requires |needle| > 0 && needle[0] !in text
    ensures OccurrencesFrom(text, needle, i) == 0
    decreases |text| - i
  {
    if i + |needle| <= |text| {
      assert text[i] == text[i..i + |needle|][0];
      NoneWithoutFirst(text, needle, i + 1);
    }
  }

  lemma SliceOfAppend(a: string, b: string, j: nat, k: nat)
    requires j <= k <= |b|
    ensures (a + b)[|a| + j..|a| + k] == b[j..k]
  {
    assert forall x :: 0 <= x < k - j ==> (a + b)[|a| + j..|a| + k][x] == b[j..k][x];
  }

  /** Counting in `a + b` from position `|a| + j` is counting in `b` from `j`. */
  lemma {:induction false} ShiftedCount(a: string, b: string, needle: string, j: nat)
    requires |needle| > 0 && j <= |b|
    ensures OccurrencesFrom(a + b, needle, |a| + j) == OccurrencesFrom(b, needle, j)
    decreases |b| - j
  {
    if j + |needle| <= |b| {
      SliceOfAppend(a, b, j, j + |needle|);
      if b[j..j + |needle|] == needle {
        ShiftedCount(a, b, needle, j + |needle|);
      } else {
        ShiftedCount(a, b, needle, j + 1);
      }
    }
  }

  /** A two-character needle cannot straddle `a + b` when `a` does not end with its
      first character, so the counts add up. */
  lemma {:induction false} SplitCountFrom(a: string, b: string, needle: string, i: nat)
    requires |needle| == 2 && |a| > 0 && a[|a| - 1] != needle[0] && i <= |a|
    ensures OccurrencesFrom(a + b, needle, i) == OccurrencesFrom(a, needle, i) + Occurrences(b, needle)
    decreases |a| - i
  {
    if i == |a| {
      ShiftedCount(a, b, needle, 0);
    } else if i + 2 <= |a| {
      assert (a + b)[i..i + 2] == a[i..i + 2];
      if a[i..i + 2] == needle {
        SplitCountFrom(a, b, needle, i + 2);
      } else {
        SplitCountFrom(a, b, needle, i + 1);
      }
    } else {
      if i + 2 <= |a + b| {
        assert (a + b)[i..i + 2][0] == a[|a| - 1];
      }
      SplitCountFrom(a, b, needle, i + 1);
    }
  }

  lemma SplitCount(a: string, b: string)
    requires |a| > 0 && a[|a| - 1] != '\\'
    ensures Occurrences(a + b, EscapedNewline) == Occurrences(a, EscapedNewline) + Occurrences(b, EscapedNewline)
  {
    SplitCountFrom(a, b, EscapedNewline, 0);
  }

  /** `SplitCount` for `a == pre + last` with a backslash-free last piece. */
  lemma SplitAfter(pre: string, last: string, b: string)
    requires |last| > 0 && '\\' !in last
    ensures Occurrences(pre + last + b, EscapedNewline)
         == Occurrences(pre + last, EscapedNewline) + Occurrences(b, EscapedNewline)
  {
    assert (pre + last)[|pre + last| - 1] == last[|last| - 1];
    SplitCount(pre + last, b);
  }

  /** `SplitCount` for `a == pre + last` with a two-character escape as last piece. */
  lemma SplitAfterEscape(pre: string, c: char, b: string)
    requires c != '\\'
    ensures Occurrences(pre + [ '\\', c ] + b, EscapedNewline)
         == Occurrences(pre + [ '\\', c ], EscapedNewline) + Occurrences(b, EscapedNewline)
  {
    assert (pre + [ '\\', c ])[|pre| + 1] == c;
    SplitCount(pre + [ '\\', c ], b);
  }

  /** A backslash-free piece holds no escaped line break. */
  lemma Plain(t: string)
    requires '\\' !in t
    ensures Occurrences(t, EscapedNewline) == 0
  {
    NoneWithoutFirst(t, EscapedNewline, 0);
  }

  /** A two-character escape is an escaped line break exactly when it is `\n`. */
  lemma {:induction false} Escape(c: char)
    ensures Occurrences([ '\\', c ], EscapedNewline) == if c == 'n' then 1 else 0
  {
    var t := [ '\\', c ];
    assert t[0..2] == t;
    assert OccurrencesFrom(t, EscapedNewline, 2) == 0;
    if c != 'n' {
      assert OccurrencesFrom(t, EscapedNewline, 1) == 0;
    }
  }

  function MaxOf(xs: seq<nat>): (m: nat)
    ensures forall i :: 0 <= i < |xs| ==> xs[i] <= m
    ensures |xs| > 0 ==> exists i :: 0 <= i < |xs| && xs[i] == m
  {
    if xs == [] then 0
    else if xs[0] >= MaxOf(xs[1..]) then xs[0]
    else MaxOf(xs[1..])
  }

  /** The largest number of line breaks written into any one pattern. */
  function MaxLinesOfAnyPattern(): (n: nat)
    ensures forall i :: 0 <= i < |AllPatternSources| ==> Occurrences(AllPatternSources[i], EscapedNewline) <= n
    ensures exists i :: 0 <= i < |AllPatternSources| && Occurrences(AllPatternSources[i], EscapedNewline) == n
  {
    var counts := [Occurrences(AllPatternSources[0], EscapedNewline),
                   Occurrences(AllPatternSources[1], EscapedNewline),
                   Occurrences(AllPatternSources[2], EscapedNewline)];
    assert |AllPatternSources| == |counts| == 3;
    assert forall i :: 0 <= i < 3 ==> counts[i] == Occurrences(AllPatternSources[i], EscapedNewline);
    MaxOf(counts)
  }

  lemma LoggerTagLines()
    ensures |LoggerTag| > 0 && LoggerTag[|LoggerTag| - 1] == ']'
    ensures Occurrences(LoggerTag, EscapedNewline) == 0
  {
    Escape('[');
    Plain(@"UnityCrossThreadLogger");
    SplitCount(@"\[", @"UnityCrossThreadLogger");
    Escape(']');
    SplitCount(@"\[" + @"UnityCrossThreadLogger", @"\]");
  }

  lemma LineBreakGroupLines()
    ensures |LineBreakGroup| > 0 && LineBreakGroup[|LineBreakGroup| - 1] == ')'
    ensures Occurrences(LineBreakGroup, EscapedNewline) == 2
  {
    Plain(@"(?:");
    Escape('r');
    SplitCount(@"(?:", @"\r");
    Escape('n');
    SplitAfterEscape(@"(?:", 'r', @"\n");
    Plain(@"|");
    SplitAfterEscape(@"(?:" + @"\r", 'n', @"|");
    SplitAfter(@"(?:" + @"\r" + @"\n", @"|", @"\n");
    Plain(@")");
    SplitAfterEscape(@"(?:" + @"\r" + @"\n" + @"|", 'n', @")");
  }

  /** The first pattern up to its `\w` escape holds no escaped line break. */
  lemma FirstPatternHead()
    ensures Occurrences(LoggerTag + @"(?<timestamp>.*): (?:Match to )?" + @"(?<playerId>" + @"\w", EscapedNewline) == 0
  {
    LoggerTagLines();
    Plain(@"(?<timestamp>.*): (?:Match to )?");
    SplitCount(LoggerTag, @"(?<timestamp>.*): (?:Match to )?");
    Plain(@"(?<playerId>");
    SplitAfter(LoggerTag, @"(?<timestamp>.*): (?:Match to )?", @"(?<playerId>");
    Escape('w');
    SplitAfter(LoggerTag + @"(?<timestamp>.*): (?:Match to )?", @"(?<playerId>", @"\w");
  }

  lemma FirstPatternLines()
    ensures Occurrences(LabelJsonPatternSources[0], EscapedNewline) == 2
  {
    var p3 := LoggerTag + @"(?<timestamp>.*): (?:Match to )?" + @"(?<playerId>";
    FirstPatternHead();
    LineBreakGroupLines();
    Plain(@"*)(?: to Match)?: ");
    SplitAfterEscape(p3, 'w', @"*)(?: to Match)?: ");
    Plain(@"(?<label>.*)");
    SplitAfter(p3 + @"\w", @"*)(?: to Match)?: ", @"(?<label>.*)");
    SplitAfter(p3 + @"\w" + @"*)(?: to Match)?: ", @"(?<label>.*)", LineBreakGroup);
  }

  /** The second pattern up to its line-break group holds no escaped line break. */
  lemma SecondPatternHead()
    ensures Occurrences(LoggerTag + @"Received unhandled GREMessageType: " + @"(?<label>.*)", EscapedNewline) == 0
  {
    LoggerTagLines();
    Plain(@"Received unhandled GREMessageType: ");
    SplitCount(LoggerTag, @"Received unhandled GREMessageType: ");
    Plain(@"(?<label>.*)");
    SplitAfter(LoggerTag, @"Received unhandled GREMessageType: ", @"(?<label>.*)");
  }

  lemma SecondPatternLines()
    ensures Occurrences(LabelJsonPatternSources[1], EscapedNewline) == 2
  {
    var p2 := LoggerTag + @"Received unhandled GREMessageType: ";
    SecondPatternHead();
    LineBreakGroupLines();
    SplitAfter(p2, @"(?<label>.*)", LineBreakGroup);
    Plain(@"*");
    SplitCount(p2 + @"(?<label>.*)" + LineBreakGroup, @"*");
  }

  lemma ArrowPatternLines()
    ensures Occurrences(LabelArrowJsonPatternSource, EscapedNewline) == 0
  {
    LoggerTagLines();
    Plain(@"(?<arrow>[<=]=[=>]) (?<label>.*?) ");
    SplitCount(LoggerTag, @"(?<arrow>[<=]=[=>]) (?<label>.*?) ");
  }

  /** Each plain pattern spells out two line breaks and the arrow pattern none. */
  lemma MaxLinesIsTwo()
    ensures MaxLinesOfAnyPattern() == 2
  {
    FirstPatternLines();
    SecondPatternLines();
    ArrowPatternLines();
  }
}
