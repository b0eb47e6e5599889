/** What the string operations make of a text, told by the characters themselves. */
module TextLaws {
  import opened Text

  /** The characters that end a line (`str.splitlines`). */
  const BREAKS: set<char> := {'\n', '\r', '\U{0b}', '\U{0c}', '\U{1c}', '\U{1d}', '\U{1e}', '\U{85}', '\U{2028}',
                              '\U{2029}'}

  /** White space (`str.isspace`). */
  const SPACES: set<char> :=
    {'\t', '\n', '\U{0b}', '\U{0c}', '\r', '\U{1c}', '\U{1d}', '\U{1e}', '\U{1f}', ' ', '\U{85}', '\U{a0}',
     '\U{1680}', '\U{2000}', '\U{2001}', '\U{2002}', '\U{2003}', '\U{2004}', '\U{2005}', '\U{2006}', '\U{2007}',
     '\U{2008}', '\U{2009}', '\U{200a}', '\U{2028}', '\U{2029}', '\U{202f}', '\U{205f}', '\U{3000}'}

  lemma BreakIs(c: char)
    ensures IsBreak(c) <==> c in BREAKS
  {
  }

  lemma SpaceIs(c: char)
    ensures IsSpace(c) <==> c in SPACES
  {
  }

  predicate NoneOf(s: string, chars: set<char>) {
    forall i :: 0 <= i < |s| ==> s[i] !in chars
  }

  predicate AllOf(s: string, chars: set<char>) {
    forall i :: 0 <= i < |s| ==> s[i] in chars
  }

  lemma BreaksAre(s: string)
    ensures OneLine(s) <==> NoneOf(s, BREAKS)
  {
    forall i | 0 <= i < |s| ensures IsBreak(s[i]) <==> s[i] in BREAKS {
      BreakIs(s[i]);
    }
  }

  lemma SpacesAre(s: string)
    ensures Blank(s) <==> AllOf(s, SPACES)
    ensures Solid(s) <==> s != "" && NoneOf(s, SPACES)
  {
    forall i | 0 <= i < |s| ensures IsSpace(s[i]) <==> s[i] in SPACES {
      SpaceIs(s[i]);
    }
  }

  // ----- lines ----------------------------------------------------------------------------------------

  /** What ends a line: one of the characters, or a carriage return and a line feed. */
  predicate IsEnd(end: string) {
    end == "\r\n" || (|end| == 1 && end[0] in BREAKS)
  }

  lemma {:induction false} FirstBreakAt(l: string, rest: string)
    requires NoneOf(l, BREAKS) && rest != "" && rest[0] in BREAKS
    ensures FirstBreak(l + rest) == |l|
    decreases |l|
  {
    var s := l + rest;
    if l == "" {
      assert s == rest;
      BreakIs(rest[0]);
    } else {
      BreakIs(l[0]);
      assert s[0] == l[0] && s[1..] == l[1..] + rest;
      FirstBreakAt(l[1..], rest);
    }
  }

  /**
   * A text that begins with a line and its end has that line first, and then the lines of what follows; where a
   * carriage return ends the line, no line feed follows.
   */
  lemma LineThen(l: string, end: string, more: string)
    requires NoneOf(l, BREAKS) && IsEnd(end) && !(end == "\r" && more != "" && more[0] == '\n')
    ensures Lines(l + end + more) == [l] + Lines(more)
  {
    var s := l + end + more;
    assert end[0] in BREAKS by {
      if end == "\r\n" {
        assert end[0] == '\r';
      }
    }
    assert s == l + (end + more);
    FirstBreakAt(l, end + more);
    assert s[..|l|] == l && s[|l|] == end[0];
    if end == "\r\n" {
      assert s[|l| + 1] == '\n' && s[|l| + 2..] == more;
    } else {
      assert s[|l| + 1..] == more;
      if end[0] == '\r' {
        assert end == "\r";
      }
    }
  }

  /** A text without an end of line is one line, or none if it is empty. */
  lemma {:induction false} LastLine(l: string)
    requires NoneOf(l, BREAKS)
    ensures Lines(l) == if l == "" then [] else [l]
  {
    BreaksAre(l);
    if l != "" {
      assert FirstBreak(l) == |l|;
    }
  }

  // ----- trimming --------------------------------------------------------------------------------------

  /** White space at either end is taken off, and nothing else. */
  lemma StripIs(pre: string, core: string, post: string)
    requires AllOf(pre, SPACES) && AllOf(post, SPACES)
    requires core == "" ==> post == ""
    requires core != "" ==> core[0] !in SPACES && core[|core| - 1] !in SPACES
    ensures Strip(pre + core + post) == core
    ensures LStrip(pre + core + post) == core + post
  {
    if core != "" {
      SpaceIs(core[0]);
      SpaceIs(core[|core| - 1]);
    }
    assert pre + core + post == pre + (core + post);
    TakenOffLeft(pre, core + post);
    TakenOffRight(core, post);
  }

  lemma {:induction false} TakenOffLeft(pre: string, s: string)
    requires AllOf(pre, SPACES) && (s == "" || !IsSpace(s[0]))
    ensures LStrip(pre + s) == s
    decreases |pre|
  {
    if pre == "" {
      assert pre + s == s;
    } else {
      SpaceIs(pre[0]);
      assert (pre + s)[1..] == pre[1..] + s;
      TakenOffLeft(pre[1..], s);
    }
  }

  lemma {:induction false} TakenOffRight(s: string, post: string)
    requires AllOf(post, SPACES) && (s == "" || !IsSpace(s[|s| - 1]))
    ensures RStrip(s + post) == s
    decreases |post|
  {
    if post == "" {
      assert s + post == s;
    } else {
      SpaceIs(post[|post| - 1]);
      assert (s + post)[..|s + post| - 1] == s + post[..|post| - 1];
      TakenOffRight(s, post[..|post| - 1]);
    }
  }

  // ----- words -----------------------------------------------------------------------------------------

  /** A word after white space comes first, then the words of the rest. */
  lemma WordFirst(gap: string, word: string, rest: string)
    requires AllOf(gap, SPACES) && word != "" && NoneOf(word, SPACES) && (rest == "" || rest[0] in SPACES)
    ensures Words(gap + word + rest) == [word] + Words(rest)
  {
    if rest != "" {
      SpaceIs(rest[0]);
    }
    SpacesAre(word);
    assert gap + word + rest == gap + (word + rest);
    GapOff(gap, word + rest);
    WordThen(word, rest);
  }

  lemma {:induction false} GapOff(gap: string, s: string)
    requires AllOf(gap, SPACES)
    ensures Words(gap + s) == Words(s)
    decreases |gap|
  {
    if gap == "" {
      assert gap + s == s;
    } else {
      SpaceIs(gap[0]);
      assert (gap + s)[1..] == gap[1..] + s;
      GapOff(gap[1..], s);
    }
  }

  lemma NoWords(gap: string)
    requires AllOf(gap, SPACES)
    ensures Words(gap) == []
  {
    GapOff(gap, "");
    assert gap + "" == gap;
  }

  // ----- numbers ---------------------------------------------------------------------------------------

  const DIGITS := "0123456789"

  /** Decimal digits have their values, each ten times the next. */
  lemma NumberThen(s: string, d: nat)
    requires d < 10 && forall i :: 0 <= i < |s| ==> IsDigit(s[i])
    ensures IsDigit(DIGITS[d]) && Number(s + [DIGITS[d]]) == 10 * Number(s) + d && Number("") == 0
    ensures forall c: char :: IsDigit(c) <==> c in DIGITS
  {
    assert DIGITS[d] == ('0' as int + d) as char;
    assert (s + [DIGITS[d]])[..|s|] == s;
    forall c: char ensures IsDigit(c) <==> c in DIGITS {
      if IsDigit(c) {
        assert DIGITS[c as int - '0' as int] == c;
      }
    }
  }

  /** The digits of a number: its value, and no zero in front. */
  lemma {:induction false} DecimalIs(n: nat)
    ensures Digits(Decimal(n)) && Number(Decimal(n)) == n
    ensures if n == 0 then Decimal(n) == "0" else Decimal(n)[0] != '0'
  {
    NumberOfDecimal(n);
    if n >= 10 {
      DecimalIs(n / 10);
      assert Decimal(n)[0] == Decimal(n / 10)[0];
    }
  }
}
