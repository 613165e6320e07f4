/** The string transformation behind `renderMessageContent` (App.tsx): split the
    content into lines, rewrite `**x**` to a strong tag, and classify each line as a
    list item, a spacer or a paragraph. The markup is kept as text; its HTML meaning
    is not modelled. */
module Render {
  import opened Wrappers
  import opened Text

  /** The element a line renders to, with the markup it is given. */
  datatype Element = ListItem(html: string) | Spacer | Paragraph(html: string)

  /** The opening tag of the replacement. Its first character is a separate
      literal so that proofs can see it: the verifier does not index into long
      string literals. */
  const StrongOpen: string := "<" + "strong class=\"font-extrabold text-slate-900\">"
  const StrongClose: string := "</strong>"

  predicate DoubleStarAt(t: string, k: int)
    requires 0 <= k
  {
    k + 1 < |t| && t[k] == '*' && t[k + 1] == '*'
  }

  predicate NoLineTerminator(t: string) {
    forall k :: 0 <= k < |t| ==> !IsLineTerminator(t[k])
  }

  predicate NoStar(t: string) {
    forall k :: 0 <= k < |t| ==> t[k] != '*'
  }

  /** The lazy `(.*?)\*\*` part of the pattern, after an opening `**`: the length of
      the shortest run without line terminators that is followed by `**`. */
  function FindClose(t: string): (r: Option<nat>)
    ensures r.Some? ==> r.value + 2 <= |t|
  {
    if |t| < 2 then None
    else if t[0] == '*' && t[1] == '*' then Some(0)
    else if IsLineTerminator(t[0]) then None
    else match FindClose(t[1..])
      case None => None
      case Some(j) => Some(j + 1)
  }

  /** FindClose finds the first `**`, provided no line terminator comes before it,
      and finds nothing exactly when every `**` has a line terminator before it. */
  lemma {:induction false} FindCloseFirst(t: string)
    ensures FindClose(t).Some? ==>
      && DoubleStarAt(t, FindClose(t).value) && NoLineTerminator(t[..FindClose(t).value])
      && forall k :: 0 <= k < FindClose(t).value ==> !DoubleStarAt(t, k)
    ensures FindClose(t).None? ==> forall j :: 0 <= j < |t| && DoubleStarAt(t, j) ==>
      exists k :: 0 <= k < j && IsLineTerminator(t[k])
  {
    if |t| >= 2 && !(t[0] == '*' && t[1] == '*') && !IsLineTerminator(t[0]) {
      var u := t[1..];
      FindCloseFirst(u);
      forall k | 1 <= k < |t| ensures DoubleStarAt(t, k) == DoubleStarAt(u, k - 1) { }
      if FindClose(u).Some? {
        var j := FindClose(u).value;
        assert t[..j + 1] == [t[0]] + u[..j];
      } else {
        forall j | 0 <= j < |t| && DoubleStarAt(t, j)
          ensures exists k :: 0 <= k < j && IsLineTerminator(t[k])
        {
          var k :| 0 <= k < j - 1 && IsLineTerminator(u[k]);
          assert IsLineTerminator(t[k + 1]);
        }
      }
    }
  }

  /** The global replace of the pattern `\*\*(.*?)\*\*` by StrongOpen, the group and
      StrongClose: scanning left
      to right, each `**` that has a closing `**` later on the same line opens a
      match; otherwise the character is kept and the scan moves one further. */
  function Bold(s: string): string
    decreases |s|
  {
    if |s| < 2 then s
    else if s[0] == '*' && s[1] == '*' && FindClose(s[2..]).Some? then
      StrongOpen + s[2..2 + FindClose(s[2..]).value] + StrongClose
        + Bold(s[2 + FindClose(s[2..]).value + 2..])
    else [s[0]] + Bold(s[1..])
  }

  /** One line of `renderMessageContent`. */
  function RenderLine(line: string): Element {
    var trimmed := Trim(line);
    if IsListLine(trimmed) then ListItem(Drop(Trim(Bold(line)), 2))
    else if trimmed == "" then Spacer
    else Paragraph(Bold(line))
  }

  /** `renderMessageContent(content)`: one element per line feed separated line. */
  function RenderMessageContent(content: string): (r: seq<Element>)
    ensures |r| == Count(content, '\n') + 1
    ensures forall i :: 0 <= i < |r| ==> r[i] == RenderLine(Split(content)[i])
  {
    var lines := Split(content);
    seq(|lines|, i requires 0 <= i < |lines| => RenderLine(lines[i]))
  }

  /** Rendering the join of lines gives one element per line, in order. */
  lemma RenderLines(lines: seq<string>)
    requires |lines| >= 1
    requires forall i :: 0 <= i < |lines| ==> NoNewline(lines[i])
    ensures |RenderMessageContent(Join(lines))| == |lines|
    ensures forall i :: 0 <= i < |lines| ==> RenderMessageContent(Join(lines))[i] == RenderLine(lines[i])
  {
    SplitJoin(lines);
  }

  /** A line with no `**` is left as it is. */
  lemma {:induction false} BoldIdentity(s: string)
    requires forall k :: 0 <= k < |s| ==> !DoubleStarAt(s, k)
    ensures Bold(s) == s
  {
    if |s| >= 2 {
      assert !DoubleStarAt(s, 0);
      forall k | 0 <= k < |s[1..]| ensures !DoubleStarAt(s[1..], k) {
        assert !DoubleStarAt(s, k + 1);
      }
      BoldIdentity(s[1..]);
      assert [s[0]] + s[1..] == s;
    }
  }

  /** Characters other than `*` before the first marker pass through unchanged. */
  lemma {:induction false} BoldPlainPrefix(a: string, b: string)
    requires NoStar(a)
    ensures Bold(a + b) == a + Bold(b)
  {
    if a == [] {
      assert a + b == b;
    } else {
      var t := a[1..] + b;
      calc {
        Bold(a + b);
      == { assert a + b == [a[0]] + t; }
        Bold([a[0]] + t);
      == { BoldCons(a[0], t); }
        [a[0]] + Bold(t);
      == { BoldPlainPrefix(a[1..], b); }
        [a[0]] + (a[1..] + Bold(b));
      == { assert a == [a[0]] + a[1..]; }
        a + Bold(b);
      }
    }
  }

  /** A character other than `*` is copied and the scan moves on. */
  lemma BoldCons(c: char, t: string)
    requires c != '*'
    ensures Bold([c] + t) == [c] + Bold(t)
  {
    var s := [c] + t;
    assert s[0] == c && s[1..] == t;
    BoldStep(s);
  }

  lemma {:induction false} FindCloseAfterPlain(x: string, rest: string)
    requires NoStar(x) && NoLineTerminator(x)
    ensures FindClose(x + "**" + rest) == Some(|x|)
  {
    if x != [] {
      var t := x + "**" + rest;
      assert t[1..] == x[1..] + "**" + rest;
      FindCloseAfterPlain(x[1..], rest);
    }
  }

  lemma {:induction false} FindCloseStopsAtTerminator(x: string, rest: string)
    requires NoStar(x) && !NoLineTerminator(x)
    ensures FindClose(x + rest) == None
  {
    var t := x + rest;
    if IsLineTerminator(x[0]) {
      assert t[0] == x[0];
    } else {
      assert t[1..] == x[1..] + rest;
      var k :| 0 <= k < |x| && IsLineTerminator(x[k]);
      assert x[1..][k - 1] == x[k];
      FindCloseStopsAtTerminator(x[1..], rest);
    }
  }

  /** `**x**` with plain single-line text `x` becomes `x` inside the strong tag. */
  lemma BoldWraps(x: string, rest: string)
    requires NoStar(x) && NoLineTerminator(x)
    ensures Bold("**" + x + "**" + rest) == StrongOpen + x + StrongClose + Bold(rest)
  {
    var s := "**" + x + "**" + rest;
    assert s[2..] == x + "**" + rest;
    FindCloseAfterPlain(x, rest);
    assert s[2..2 + |x|] == x;
    assert s[2 + |x| + 2..] == rest;
  }

  lemma {:induction false} FindCloseNoStar(t: string)
    requires NoStar(t)
    ensures FindClose(t) == None
  {
    if |t| >= 2 {
      FindCloseNoStar(t[1..]);
    }
  }

  /** A `**` with no closing `**` on its line is kept literally, and the rewrite
      goes on with the text after it. */
  lemma BoldUnclosed(x: string)
    requires FindClose(x) == None
    ensures Bold("**" + x) == "**" + Bold(x)
  {
    var s := "**" + x;
    assert s[2..] == x;
    BoldNoMatch(s);
    var u := s[1..];
    assert u == "*" + x;
    if x == [] {
      assert u == "*";
    } else if x[0] == '*' {
      assert FindClose(x[1..]) == None by {
        if |x| >= 2 { assert x[1] != '*'; }
      }
      assert u[2..] == x[1..];
      BoldNoMatch(u);
      assert u[1..] == x;
    } else {
      BoldStep(u);
      assert u[1..] == x;
    }
    assert "*" + ("*" + Bold(x)) == "**" + Bold(x);
  }

  /** The pattern does not match across a line terminator such as `\r`. */
  lemma BoldSingleLineOnly(x: string)
    requires NoStar(x) && !NoLineTerminator(x)
    ensures Bold("**" + x + "**") == "**" + x + "**"
  {
    var s := "**" + x + "**";
    assert s[2..] == x + "**";
    FindCloseStopsAtTerminator(x, "**");
    assert s[1..] == "*" + x + "**";
    assert x != [] && x[0] != '*';
    assert (s[1..])[1..] == x + "**";
    BoldPlainPrefix(x, "**");
    var t := "**";
    assert t[2..] == [];
    assert Bold(t) == "**";
  }

  /** A non-whitespace character in the input leaves one in the output. */
  lemma {:induction false} BoldKeepsText(s: string)
    requires !AllWhitespace(s)
    ensures !AllWhitespace(Bold(s))
  {
    if |s| >= 2 && DoubleStarAt(s, 0) && FindClose(s[2..]).Some? {
      var j := FindClose(s[2..]).value;
      BoldMatch(s, j);
      var r := StrongOpen + s[2..2 + j] + StrongClose + Bold(s[2 + j + 2..]);
      assert r[0] == StrongOpen[0] == '<';
      VisibleAt(Bold(s), 0);
    } else if |s| >= 2 && DoubleStarAt(s, 0) {
      BoldNoMatch(s);
      assert ([s[0]] + Bold(s[1..]))[0] == '*';
      VisibleAt(Bold(s), 0);
    } else {
      BoldStep(s);
      var b := Bold(s[1..]);
      if IsWhitespace(s[0]) {
        var k :| 0 <= k < |s| && !IsWhitespace(s[k]);
        assert s[1..][k - 1] == s[k];
        BoldKeepsText(s[1..]);
        var i :| 0 <= i < |b| && !IsWhitespace(b[i]);
        assert ([s[0]] + b)[i + 1] == b[i];
        VisibleAt(Bold(s), i + 1);
      } else {
        assert ([s[0]] + b)[0] == s[0];
        VisibleAt(Bold(s), 0);
      }
    }
  }

  lemma VisibleAt(r: string, i: int)
    requires 0 <= i < |r| && !IsWhitespace(r[i])
    ensures !AllWhitespace(r)
  {
  }

  /** The scan at a `**` that has a closing `**`. */
  lemma BoldMatch(s: string, j: nat)
    requires |s| >= 2 && DoubleStarAt(s, 0) && FindClose(s[2..]) == Some(j)
    ensures Bold(s) == StrongOpen + s[2..2 + j] + StrongClose + Bold(s[2 + j + 2..])
  {
  }

  /** The scan at a `**` without a closing `**` keeps the first `*`. */
  lemma BoldNoMatch(s: string)
    requires |s| >= 2 && DoubleStarAt(s, 0) && FindClose(s[2..]) == None
    ensures Bold(s) == [s[0]] + Bold(s[1..])
  {
  }

  /** One step of the scan at a character that does not open a match. */
  lemma BoldStep(s: string)
    requires s != [] && !DoubleStarAt(s, 0)
    ensures Bold(s) == [s[0]] + Bold(s[1..])
  {
    if |s| == 1 {
      assert s[1..] == [];
    }
  }

  /** `* ` or `- `: the two characters a list line starts with. */
  predicate IsMarker(m: string) {
    |m| == 2 && (m[0] == '*' || m[0] == '-') && m[1] == ' '
  }

  /** The test `renderMessageContent` applies to the trimmed line. */
  predicate IsListLine(trimmed: string) {
    StartsWith(trimmed, "* ") || StartsWith(trimmed, "- ")
  }

  lemma ListLineMarker(trimmed: string)
    requires IsListLine(trimmed)
    ensures |trimmed| >= 2 && IsMarker(trimmed[..2])
  {
  }

  /** A list marker followed by a space passes through the rewrite unchanged. */
  lemma BoldAfterMarker(m: string, b: string)
    requires IsMarker(m)
    ensures Bold(m + b) == m + Bold(b)
  {
    var s := m + b;
    assert s[0] == m[0] && s[1] == ' ';
    BoldStep(s);
    assert s[1..] == " " + b;
    BoldCons(' ', b);
    assert m == [m[0]] + " ";
  }

  /** A line whose trimmed form starts with a marker is leading whitespace, the
      marker, and a remainder that is not all whitespace. */
  lemma ListLineShape(line: string) returns (p: string, m: string, b: string)
    requires |Trim(line)| >= 2 && IsMarker(Trim(line)[..2])
    ensures m == Trim(line)[..2] && IsMarker(m)
    ensures line == p + (m + b) && AllWhitespace(p) && NoStar(p) && !AllWhitespace(b)
  {
    var t := TrimStart(line);
    p := LeadingWhitespace(line);
    m, b := MarkerBeforeTrailing(t);
  }

  /** A line is its leading whitespace followed by TrimStart of it. */
  lemma LeadingWhitespace(line: string) returns (p: string)
    ensures line == p + TrimStart(line) && AllWhitespace(p) && NoStar(p)
  {
    TrimStartSpec(line);
    var t := TrimStart(line);
    p := line[..|line| - |t|];
    assert line == p + t;
    forall i | 0 <= i < |p| ensures IsWhitespace(p[i]) && p[i] != '*' {
      assert p[i] == line[i];
    }
  }

  /** When TrimEnd of `t` starts with a marker, so does `t`, and what follows the
      marker in `t` is not all whitespace. */
  lemma MarkerBeforeTrailing(t: string) returns (m: string, b: string)
    requires |TrimEnd(t)| >= 2 && IsMarker(TrimEnd(t)[..2])
    ensures m == TrimEnd(t)[..2] && t == m + b && !AllWhitespace(b)
  {
    var r := TrimEnd(t);
    TrimEndSpec(t);
    m := r[..2];
    assert t[..2] == m;
    assert IsWhitespace(r[1]) && !IsWhitespace(r[|r| - 1]);
    b := t[2..];
    assert t == m + b;
    assert b[|r| - 3] == r[|r| - 1];
  }

  /** Trimming whitespace, a marker and some text keeps the marker in front. */
  lemma TrimKeepsMarker(p: string, m: string, x: string)
    requires IsMarker(m)
    requires AllWhitespace(p) && !AllWhitespace(x)
    ensures |Trim(p + (m + x))| >= 2 && Trim(p + (m + x))[..2] == m
  {
    var y := m + x;
    TrimLeadingWhitespace(p, y);
    var q := TrimEnd(y);
    TrimEndSpec(y);
    var i :| 0 <= i < |x| && !IsWhitespace(x[i]);
    assert y[2 + i] == x[i];
    assert |q| > 2 + i;
    assert q[..2] == y[..2] == m;
  }

  /** A list item drops exactly its marker: the trimmed, rewritten line starts
      with the same `* ` or `- ` that the trimmed line starts with. */
  lemma ListItemDropsMarker(line: string)
    requires IsListLine(Trim(line))
    ensures RenderLine(line).ListItem?
    ensures Trim(Bold(line)) == Trim(line)[..2] + RenderLine(line).html
  {
    ListLineMarker(Trim(line));
    var p, m, b := ListLineShape(line);
    BoldPlainPrefix(p, m + b);
    BoldAfterMarker(m, b);
    BoldKeepsText(b);
    var x := Bold(b);
    assert Bold(line) == p + (m + x);
    TrimKeepsMarker(p, m, x);
    DropAfterPrefix(Trim(Bold(line)), m);
  }

  lemma DropAfterPrefix(q: string, m: string)
    requires |m| == 2 && |q| >= 2 && q[..2] == m
    ensures q == m + Drop(q, 2)
  {
    assert q == q[..2] + q[2..];
  }

  lemma TrimLeadingWhitespace(p: string, y: string)
    requires AllWhitespace(p)
    requires y != [] && !IsWhitespace(y[0])
    ensures Trim(p + y) == TrimEnd(y)
    decreases |p|
  {
    if p != [] {
      assert (p + y)[1..] == p[1..] + y;
      TrimLeadingWhitespace(p[1..], y);
    } else {
      assert p + y == y;
    }
  }

  /** A line of whitespace only, such as the empty line between paragraphs,
      renders as a spacer. */
  lemma BlankLineIsSpacer(line: string)
    requires AllWhitespace(line)
    ensures RenderLine(line) == Spacer
  {
    TrimEmptyIff(line);
  }

  /** Any other line that is not a list item renders as a paragraph of the
      rewritten, untrimmed line. */
  lemma TextLineIsParagraph(line: string)
    requires !AllWhitespace(line)
    requires !IsListLine(Trim(line))
    ensures RenderLine(line) == Paragraph(Bold(line))
  {
    TrimEmptyIff(line);
  }

  /** A line `**x**rest`, with plain text `x` and no further markers, renders as
      one paragraph with `x` in bold. */
  lemma BoldParagraph(x: string, rest: string)
    requires NoStar(x) && NoLineTerminator(x) && NoStar(rest) && NoNewline(rest)
    ensures RenderMessageContent("**" + x + "**" + rest)
            == [Paragraph(StrongOpen + x + StrongClose + rest)]
  {
    var line := "**" + x + "**" + rest;
    BoldWrapsLine(x, rest);
    StarLineIsParagraph(line);
    WrappedHasNoNewline(x, rest);
    SplitNoNewline(line);
  }

  lemma BoldWrapsLine(x: string, rest: string)
    requires NoStar(x) && NoLineTerminator(x) && NoStar(rest)
    ensures Bold("**" + x + "**" + rest) == StrongOpen + x + StrongClose + rest
  {
    BoldWraps(x, rest);
    BoldPlainPrefix(rest, "");
    assert rest + "" == rest;
  }

  lemma WrappedHasNoNewline(x: string, rest: string)
    requires NoLineTerminator(x) && NoNewline(rest)
    ensures NoNewline("**" + x + "**" + rest)
  {
    var line := "**" + x + "**" + rest;
    forall i | 0 <= i < |line| ensures line[i] != '\n' {
      if 2 <= i < 2 + |x| { assert line[i] == x[i - 2]; }
      else if 4 + |x| <= i { assert line[i] == rest[i - 4 - |x|]; }
    }
  }

  /** A line that starts with `**` is neither blank nor a list item. */
  lemma StarLineIsParagraph(line: string)
    requires |line| >= 2 && line[0] == '*' && line[1] == '*'
    ensures RenderLine(line) == Paragraph(Bold(line))
  {
    StarLineIsText(line);
    TextLineIsParagraph(line);
  }

  lemma StarLineIsText(line: string)
    requires |line| >= 2 && line[0] == '*' && line[1] == '*'
    ensures !AllWhitespace(line) && !IsListLine(Trim(line))
  {
    assert !IsWhitespace(line[0]);
    assert TrimStart(line) == line;
    var t := TrimEnd(line);
    TrimEndSpec(line);
    assert !IsWhitespace(line[1]);
    assert |t| >= 2;
    assert t[0] == '*' && t[1] == '*';
    assert t[..2] != "* " by { assert t[..2][1] == '*'; }
    assert t[..2] != "- " by { assert t[..2][0] == '*'; }
  }

  /** The reply `**Top idea:** X` renders with `Top idea:` in bold. */
  lemma BoldReplyExample()
    ensures RenderMessageContent("**Top idea:** X")
            == [Paragraph(StrongOpen + "Top idea:" + StrongClose + " X")]
  {
    assert "**Top idea:** X" == "**" + "Top idea:" + "**" + " X";
    BoldParagraph("Top idea:", " X");
  }
}
