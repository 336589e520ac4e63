/**
 * The markup formatter of the AI output pane (`showAIOutput`, static/script.js:309-312).
 * Three global regular-expression replacements run in this order:
 *  1. every "\n" becomes "<br>";
 *  2. every non-greedy span "```...```" becomes a `<pre>` block holding the span's content;
 *  3. every span "`x`" with x non-empty and backtick-free becomes a `<code>` span.
 * Each replacement is modelled as the left-to-right scan a global `String.prototype.replace`
 * performs: try to match at the current position; on success emit the replacement and
 * resume after the match, otherwise emit one character and move on.
 */
module Markup {
  import opened Wrappers

  const Br: string := "<br>"
  const Fence: string := "```"
  // The two opening tags carry inline styles. They are assembled from short
  // pieces so that each fact about their characters stays a small proof.
  const PreOpen: string := PreTag + Background + PreShade + Padding + PrePadding + Radius + PreRadius
                   + Overflow + TagEnd
  const CodeOpen: string := CodeTag + Background + CodeShade + Padding + CodePadding + Radius + CodeRadius
                    + TagEnd
  const PreTag: string := "<pre style=\""
  const CodeTag: string := "<code style=\""
  const Background: string := "background: "
  const PreShade: string := "rgba(0,0,0,0.3); "
  const CodeShade: string := "rgba(0,0,0,0.2); "
  const Padding: string := "padding: "
  const PrePadding: string := "10px; "
  const CodePadding: string := "2px 6px; "
  const Radius: string := "border-radius: "
  const PreRadius: string := "8px; "
  const CodeRadius: string := "4px;"
  const Overflow: string := "overflow-x: auto;"
  const TagEnd: string := "\">"
  const PreClose: string := "</pre>"
  const CodeClose: string := "</code>"

  /** Characters the three replacements may introduce themselves. */
  predicate InTemplates(c: char)
  {
    c in Br || c in PreOpen || c in PreClose || c in CodeOpen || c in CodeClose
  }

  lemma TemplatesPlain()
    ensures !InTemplates('\n') && !InTemplates('`')
  {
    PiecesPlain1();
    PiecesPlain2();
    PiecesPlain3();
    PiecesPlain4();
    assert Plain(PreOpen) && Plain(CodeOpen);
  }

  /** Neither a newline nor a backtick occurs in `s`. */
  predicate Plain(s: string)
  {
    '\n' !in s && '`' !in s
  }

  lemma PiecesPlain1()
    ensures Plain(PreTag) && Plain(CodeTag) && Plain(Background) && Plain(TagEnd)
  {
  }

  lemma PiecesPlain2()
    ensures Plain(PreShade) && Plain(CodeShade) && Plain(Padding) && Plain(PrePadding)
  {
  }

  lemma PiecesPlain3()
    ensures Plain(CodePadding) && Plain(Radius) && Plain(PreRadius)
  {
  }

  lemma PiecesPlain4()
    ensures Plain(CodeRadius) && Plain(Overflow)
  {
  }

  // ---- step 1: /\n/g -> '<br>' ----

  function BreakLines(s: string): (r: string)
    ensures '\n' !in r
    ensures '\n' !in s ==> r == s
    ensures '`' !in s ==> '`' !in r
    decreases |s|
  {
    if s == [] then []
    else (if s[0] == '\n' then Br else [s[0]]) + BreakLines(s[1..])
  }

  // ---- step 2: /```([\s\S]*?)```/g -> PreOpen + $1 + PreClose ----

  predicate FenceAt(s: string, j: int)
  {
    0 <= j && j + 3 <= |s| && s[j] == '`' && s[j + 1] == '`' && s[j + 2] == '`'
  }

  /** The first fence at or after `from`, if any: the non-greedy closing fence. */
  function FindFence(s: string, from: nat): (r: Option<nat>)
    ensures r.Some? ==> from <= r.value && FenceAt(s, r.value)
    ensures r.Some? ==> forall j :: from <= j < r.value ==> !FenceAt(s, j)
    ensures r.None? ==> forall j :: from <= j ==> !FenceAt(s, j)
    decreases |s| - from
  {
    if from + 3 > |s| then None
    else if FenceAt(s, from) then Some(from)
    else FindFence(s, from + 1)
  }

  function ReplaceFences(s: string): (r: string)
    ensures '`' !in s ==> r == s
    ensures '\n' !in s ==> '\n' !in r
    decreases |s|
  {
    TemplatesPlain();
    if s == [] then []
    else if FenceAt(s, 0) then
      match FindFence(s, 3)
      case Some(j) => PreOpen + s[3..j] + PreClose + ReplaceFences(s[j + 3..])
      case None => [s[0]] + ReplaceFences(s[1..])
    else [s[0]] + ReplaceFences(s[1..])
  }

  // ---- step 3: /`([^`]+)`/g -> CodeOpen + $1 + CodeClose ----

  /** The first backtick at or after `from`, if any. */
  function FindBacktick(s: string, from: nat): (r: Option<nat>)
    ensures r.Some? ==> from <= r.value < |s| && s[r.value] == '`'
    ensures r.Some? ==> forall j :: from <= j < r.value ==> s[j] != '`'
    ensures r.None? ==> forall j :: from <= j < |s| ==> s[j] != '`'
    decreases |s| - from
  {
    if from >= |s| then None
    else if s[from] == '`' then Some(from)
    else FindBacktick(s, from + 1)
  }

  function ReplaceInline(s: string): (r: string)
    ensures '`' !in s ==> r == s
    ensures '\n' !in s ==> '\n' !in r
    decreases |s|
  {
    TemplatesPlain();
    if s == [] then []
    else if s[0] == '`' then
      match FindBacktick(s, 1)
      case Some(j) =>
        if j > 1 then CodeOpen + s[1..j] + CodeClose + ReplaceInline(s[j + 1..])
        else [s[0]] + ReplaceInline(s[1..])
      case None => [s[0]] + ReplaceInline(s[1..])
    else [s[0]] + ReplaceInline(s[1..])
  }

  /** The HTML `showAIOutput` writes into the pane for `text`; it never contains a newline. */
  function Format(text: string): (html: string)
    ensures '\n' !in html
  {
    TemplatesPlain();
    ReplaceInline(ReplaceFences(BreakLines(text)))
  }

  // ---- properties ----

  /** Backtick-free text only has its newlines turned into line breaks. */
  lemma FormatWithoutBackticks(text: string)
    requires '`' !in text
    ensures Format(text) == BreakLines(text)
  {
    TemplatesPlain();
    assert '`' !in BreakLines(text);
  }

  /** Text with neither newlines nor backticks is shown exactly as it is. */
  lemma FormatPlain(text: string)
    requires '\n' !in text && '`' !in text
    ensures Format(text) == text
  {
    FormatWithoutBackticks(text);
  }

  /**
   * A fenced span whose content holds no earlier closing fence becomes one
   * `<pre>` block, and the scan carries on after the closing fence.
   */
  lemma FencedSpan(x: string, y: string)
    requires forall j :: 0 <= j < |x| ==> !FenceAt(x + "```", j)
    ensures ReplaceFences("```" + x + "```" + y) == PreOpen + x + PreClose + ReplaceFences(y)
  {
    var s := "```" + x + "```" + y;
    assert FenceAt(s, 0);
    forall j | 3 <= j < 3 + |x| ensures !FenceAt(s, j) {
      assert !FenceAt(x + "```", j - 3);
      assert s[j..j + 3] == (x + "```")[j - 3..j];
    }
    assert FenceAt(s, 3 + |x|);
    assert FindFence(s, 3) == Some(3 + |x|);
    assert s[3..3 + |x|] == x;
    assert s[3 + |x| + 3..] == y;
  }

  /** An inline span with non-empty backtick-free content becomes one `<code>` span. */
  lemma InlineSpan(x: string, y: string)
    requires x != [] && '`' !in x
    ensures ReplaceInline("`" + x + "`" + y) == CodeOpen + x + CodeClose + ReplaceInline(y)
  {
    var s := "`" + x + "`" + y;
    assert s[1 + |x|] == '`';
    forall j | 1 <= j < 1 + |x| ensures s[j] != '`' {
      assert s[j] == x[j - 1];
    }
    assert FindBacktick(s, 1) == Some(1 + |x|);
    assert s[1..1 + |x|] == x;
    assert s[1 + |x| + 1..] == y;
  }

  /** Text without any backtick gives a fenced-span content with no closing fence inside it. */
  lemma NoFenceWithoutBackticks(x: string)
    requires '`' !in x
    ensures forall j :: 0 <= j < |x| ==> !FenceAt(x + "```", j)
  {
    forall j | 0 <= j < |x| ensures !FenceAt(x + "```", j) {
      assert (x + "```")[j] == x[j];
    }
  }

  /** A single backtick-free fenced span, after line breaking, becomes one `<pre>` block. */
  lemma FormatSingleFence(text: string, inner: string)
    requires BreakLines(text) == "```" + inner + "```"
    requires '`' !in inner
    ensures Format(text) == PreOpen + inner + PreClose
  {
    NoFenceWithoutBackticks(inner);
    FencedSpan(inner, "");
    assert "```" + inner + "```" + "" == "```" + inner + "```";
    assert ReplaceFences(BreakLines(text)) == PreOpen + inner + PreClose;
    TemplatesPlain();
    assert '`' !in PreOpen + inner + PreClose;
  }

  /**
   * Newlines are replaced before fenced blocks are matched: the line breaks
   * that open and close a fenced block end up inside the `<pre>` block as `<br>`.
   */
  lemma NewlinesInsideFence(x: string)
    requires '\n' !in x && '`' !in x
    ensures Format(Fence + "\n" + x + "\n" + Fence) == PreOpen + Br + x + Br + PreClose
  {
    var text := Fence + "\n" + (x + "\n" + Fence);
    BreakLinesAroundFences(x);
    TemplatesPlain();
    FormatSingleFence(text, Br + x + Br);
    RegroupNewlines(x);
  }

  lemma BreakLinesAroundFences(x: string)
    requires '\n' !in x
    ensures BreakLines(Fence + "\n" + (x + "\n" + Fence)) == Fence + (Br + x + Br) + Fence
  {
    assert BreakLines(Fence) == Fence;
    BreakLinesAtNewline(x, Fence);
    BreakLinesAtNewline(Fence, x + "\n" + Fence);
    RegroupBreaks(x);
  }

  /** A leading newline becomes one `<br>`. */
  lemma BreakLinesLeadingNewline(b: string)
    ensures BreakLines("\n" + b) == Br + BreakLines(b)
  {
    assert ("\n" + b)[0] == '\n';
    assert ("\n" + b)[1..] == b;
  }

  /** A newline-free prefix is copied unchanged by the line-break step. */
  lemma BreakLinesPlainPrefix(a: string, b: string)
    requires '\n' !in a
    ensures BreakLines(a + b) == a + BreakLines(b)
  {
    BreakLinesAppend(a, b);
  }

  /** A newline after a newline-free prefix becomes one `<br>`. */
  lemma BreakLinesAtNewline(a: string, b: string)
    requires '\n' !in a
    ensures BreakLines(a + "\n" + b) == a + Br + BreakLines(b)
  {
    BreakLinesPlainPrefix(a, "\n" + b);
    BreakLinesLeadingNewline(b);
    assert a + "\n" + b == a + ("\n" + b);
  }

  /** The line-break step distributes over concatenation. */
  lemma {:induction false} BreakLinesAppend(a: string, b: string)
    ensures BreakLines(a + b) == BreakLines(a) + BreakLines(b)
    decreases |a|
  {
    if a != [] {
      var head := if a[0] == '\n' then Br else [a[0]];
      assert (a + b)[0] == a[0];
      assert (a + b)[1..] == a[1..] + b;
      assert BreakLines(a + b) == head + BreakLines(a[1..] + b);
      BreakLinesAppend(a[1..], b);
      RegroupThree(head, BreakLines(a[1..]), BreakLines(b));
    } else {
      assert a + b == b;
    }
  }

  lemma RegroupThree(x: string, y: string, z: string)
    ensures x + (y + z) == (x + y) + z
  {
  }

  /** Where the backticks of "a`b`c" stand, when a, b and c hold none and b is not empty. */
  lemma TwoTicks(a: string, b: string, c: string)
    requires '`' !in a && '`' !in b && '`' !in c && b != [] && c != []
    ensures forall j :: 0 <= j < |a + "`" + b + "`" + c| ==> !FenceAt(a + "`" + b + "`" + c + "```", j)
  {
    var inner := a + "`" + b + "`" + c;
    var w := inner + "```";
    forall j | 0 <= j < |inner| ensures !FenceAt(w, j) {
      if j < |a| {
        assert w[j] == a[j];
      } else if j == |a| {
        assert w[j + 1] == b[0];
      } else if j < |a| + 1 + |b| {
        assert w[j] == b[j - |a| - 1];
      } else if j == |a| + 1 + |b| {
        assert w[j + 1] == c[0];
      } else {
        assert w[j] == c[j - |a| - 2 - |b|];
      }
    }
  }

  /**
   * The inline rule also runs inside a fenced block: a backtick span in a
   * `<pre>` block's content still turns into a `<code>` span.
   */
  lemma InlineRuleReachesFencedContent(a: string, b: string, c: string)
    requires '`' !in a && '`' !in b && '`' !in c && b != [] && c != []
    requires '\n' !in a && '\n' !in b && '\n' !in c
    ensures Format(Fence + a + "`" + b + "`" + c + Fence)
         == PreOpen + a + CodeOpen + b + CodeClose + c + PreClose
  {
    TickedSpanInFence(a, b, c);
    TemplatesPlain();
    TickedSpanBetween(PreOpen, a, b, c, PreClose);
    RegroupFence(a, b, c);
  }

  lemma TickedSpanInFence(a: string, b: string, c: string)
    requires '`' !in a && '`' !in b && '`' !in c && b != [] && c != []
    requires '\n' !in a && '\n' !in b && '\n' !in c
    ensures ReplaceFences(BreakLines(Fence + (a + "`" + b + "`" + c) + Fence))
         == PreOpen + (a + "`" + b + "`" + c) + PreClose
  {
    var inner := a + "`" + b + "`" + c;
    assert '\n' !in inner;
    assert '\n' !in Fence + inner + Fence;
    TwoTicks(a, b, c);
    FencedSpan(inner, "");
    RegroupEmpty(Fence + inner + Fence);
  }

  /** A backtick span between backtick-free text becomes a `<code>` span, and nothing else changes. */
  lemma TickedSpanBetween(p: string, a: string, b: string, c: string, q: string)
    requires '`' !in p && '`' !in a && '`' !in b && '`' !in c && '`' !in q && b != []
    ensures ReplaceInline(p + (a + "`" + b + "`" + c) + q) == p + a + CodeOpen + b + CodeClose + c + q
  {
    SpanAfterPlain(p + a, b, c + q);
    RegroupSpan(p, a, b, c, q);
  }

  lemma SpanAfterPlain(pa: string, b: string, tail: string)
    requires '`' !in pa && '`' !in b && '`' !in tail && b != []
    ensures ReplaceInline(pa + ("`" + b + "`" + tail)) == pa + (CodeOpen + b + CodeClose + tail)
  {
    PrefixWithoutBacktick(pa, "`" + b + "`" + tail);
    InlineSpan(b, tail);
  }

  // Regrouping of concatenations, kept apart from the lemmas about the
  // replacements so that the solver does not mix the two.

  lemma RegroupSpan(p: string, a: string, b: string, c: string, q: string)
    ensures p + (a + "`" + b + "`" + c) + q == (p + a) + ("`" + b + "`" + (c + q))
    ensures (p + a) + (CodeOpen + b + CodeClose + (c + q)) == p + a + CodeOpen + b + CodeClose + c + q
  {
  }

  lemma RegroupFence(a: string, b: string, c: string)
    ensures Fence + a + "`" + b + "`" + c + Fence == Fence + (a + "`" + b + "`" + c) + Fence
  {
  }

  lemma RegroupNewlines(x: string)
    ensures Fence + "\n" + x + "\n" + Fence == Fence + "\n" + (x + "\n" + Fence)
    ensures PreOpen + (Br + x + Br) + PreClose == PreOpen + Br + x + Br + PreClose
  {
  }

  lemma RegroupBreaks(x: string)
    ensures Fence + Br + (x + Br + Fence) == Fence + (Br + x + Br) + Fence
  {
  }

  lemma RegroupEmpty(s: string)
    ensures s + "" == s
  {
  }

  /** A backtick-free prefix is copied unchanged by the inline rule. */
  lemma {:induction false} PrefixWithoutBacktick(p: string, s: string)
    requires '`' !in p
    ensures ReplaceInline(p + s) == p + ReplaceInline(s)
    decreases |p|
  {
    if p != [] {
      assert (p + s)[0] == p[0] != '`';
      assert (p + s)[1..] == p[1..] + s;
      assert ReplaceInline(p + s) == [p[0]] + ReplaceInline(p[1..] + s);
      PrefixWithoutBacktick(p[1..], s);
      assert [p[0]] + p[1..] == p;
    } else {
      assert p + s == s;
    }
  }
}
