/**
 * The service directive in a Grafana alert's text:
 * `re.split(r'.*service\ *=\ *', text)`, of which `pre_receive` keeps the second
 * piece when there is one. `.` does not match a line break, so the leftmost match
 * runs from the start of the first line holding `service`, spaces, `=`, to the
 * end of the last such occurrence on that line and the spaces after it; the
 * second piece runs from there to the start of the next line holding one, or to
 * the end of the text.
 */
module Directive {
  import opened Wrappers

  const Keyword: string := "service"

  /** The position of the first line break at or after `i`, or `|t|`. */
  function LineEnd(t: string, i: nat): (r: nat)
    requires i <= |t|
    ensures i <= r <= |t|
    ensures r < |t| ==> t[r] == '\n'
    decreases |t| - i
  {
    if i == |t| || t[i] == '\n' then i else LineEnd(t, i + 1)
  }

  /** No line break lies between `i` and the end of its line. */
  lemma {:induction false} BeforeLineEnd(t: string, i: nat, k: nat)
    requires i <= |t| && i <= k < LineEnd(t, i)
    ensures t[k] != '\n'
    decreases k - i
  {
    if i < k {
      BeforeLineEnd(t, i + 1, k);
    }
  }

  /** Every position of a line has the same line end. */
  lemma {:induction false} SameLineEnd(t: string, a: nat, b: nat)
    requires a <= |t| && a <= b <= LineEnd(t, a)
    ensures LineEnd(t, b) == LineEnd(t, a)
    decreases b - a
  {
    if a < b {
      SameLineEnd(t, a + 1, b);
    }
  }

  /** The end of the run of spaces that starts at `k`. */
  function SpacesEnd(t: string, k: nat): (e: nat)
    requires k <= |t|
    ensures k <= e <= |t|
    ensures e == |t| || t[e] != ' '
    ensures k < e ==> t[e - 1] == ' '
    decreases |t| - k
  {
    if k < |t| && t[k] == ' ' then SpacesEnd(t, k + 1) else k
  }

  /** A run of spaces that starts on a line stays on it. */
  lemma {:induction false} SpacesStayOnLine(t: string, i: nat, k: nat)
    requires i <= |t| && i <= k <= LineEnd(t, i)
    ensures SpacesEnd(t, k) <= LineEnd(t, i)
    decreases |t| - k
  {
    if k < |t| && t[k] == ' ' {
      SpacesStayOnLine(t, i, k + 1);
    }
  }

  /** The keyword starts at position `i`, spelled out one character at a time. */
  predicate KeywordAt(t: string, i: nat)
  {
    && i + |Keyword| <= |t|
    && t[i] == 's' && t[i + 1] == 'e' && t[i + 2] == 'r' && t[i + 3] == 'v'
    && t[i + 4] == 'i' && t[i + 5] == 'c' && t[i + 6] == 'e'
  }

  /** Spelling the keyword out is comparing with it. */
  lemma KeywordAtIsKeyword(t: string, i: nat)
    requires i + |Keyword| <= |t|
    ensures KeywordAt(t, i) <==> t[i..i + |Keyword|] == Keyword
  {
    if t[i..i + |Keyword|] == Keyword {
      assert forall j :: 0 <= j < |Keyword| ==> t[i + j] == Keyword[j];
    }
  }

  /**
   * Where an occurrence of `service *= *` that starts at `i` ends, if one starts
   * there: after the keyword, the spaces, the '=' and all the spaces after it.
   * An occurrence never crosses a line break.
   */
  function MatchEnd(t: string, i: nat): (r: Option<nat>)
    requires i <= |t|
    ensures r.Some? ==> i + |Keyword| + 1 <= r.value <= LineEnd(t, i)
    ensures r.Some? ==> KeywordAt(t, i) && t[r.value - 1] in " ="
    ensures r.Some? ==> r.value == |t| || t[r.value] != ' '
  {
    if KeywordAt(t, i) then
      var k := SpacesEnd(t, i + |Keyword|);
      if k < |t| && t[k] == '=' then
        var e := SpacesEnd(t, k + 1);
        assert e <= LineEnd(t, i) by {
          var l := LineEnd(t, i);
          assert i + |Keyword| <= l;
          SpacesStayOnLine(t, i, i + |Keyword|);
          assert k + 1 <= l;
          SpacesStayOnLine(t, i, k + 1);
        }
        Some(e)
      else None
    else None
  }

  /** Everything in the run that `SpacesEnd` skips is a space. */
  lemma {:induction false} SpacesAreSpaces(t: string, k: nat)
    requires k <= |t|
    ensures forall j :: k <= j < SpacesEnd(t, k) ==> t[j] == ' '
    decreases |t| - k
  {
    if k < |t| && t[k] == ' ' {
      SpacesAreSpaces(t, k + 1);
    }
  }

  /** A run of spaces that stops before a non-space ends there. */
  lemma {:induction false} SpacesRunTo(t: string, a: nat, k: nat)
    requires a <= k < |t| && t[k] != ' '
    requires forall j :: a <= j < k ==> t[j] == ' '
    ensures SpacesEnd(t, a) == k
    decreases k - a
  {
    if a < k {
      SpacesRunTo(t, a + 1, k);
    }
  }

  /**
   * An occurrence starts at `i` exactly when the keyword does and, after it, a
   * run of spaces leads to '='.
   */
  lemma MatchEndIff(t: string, i: nat)
    requires i <= |t|
    ensures MatchEnd(t, i).Some? <==>
      KeywordAt(t, i)
      && exists k :: i + |Keyword| <= k < |t| && t[k] == '='
                     && forall j :: i + |Keyword| <= j < k ==> t[j] == ' '
  {
    if KeywordAt(t, i) {
      var a := i + |Keyword|;
      var k := SpacesEnd(t, a);
      SpacesAreSpaces(t, a);
      if exists k' :: a <= k' < |t| && t[k'] == '=' && forall j :: a <= j < k' ==> t[j] == ' ' {
        var k' :| a <= k' < |t| && t[k'] == '=' && forall j :: a <= j < k' ==> t[j] == ' ';
        SpacesRunTo(t, a, k');
      }
    }
  }

  /**
   * An occurrence found at `i` is the keyword, then spaces, exactly one '=', then
   * spaces up to its end, with no space right after it.
   */
  lemma MatchEndShape(t: string, i: nat)
    requires i <= |t| && MatchEnd(t, i).Some?
    ensures var r := MatchEnd(t, i).value;
      && KeywordAt(t, i)
      && (r == |t| || t[r] != ' ')
      && exists k :: i + |Keyword| <= k < r && t[k] == '='
                     && forall j :: i + |Keyword| <= j < r && j != k ==> t[j] == ' '
  {
    var a := i + |Keyword|;
    var k := SpacesEnd(t, a);
    SpacesAreSpaces(t, a);
    SpacesAreSpaces(t, k + 1);
    assert MatchEnd(t, i).value == SpacesEnd(t, k + 1);
  }

  /** The first position at or after `i` where an occurrence starts. */
  function FirstMatch(t: string, i: nat): (r: Option<nat>)
    requires i <= |t|
    ensures r.Some? ==> i <= r.value <= |t| && MatchEnd(t, r.value).Some?
    decreases |t| - i
  {
    if MatchEnd(t, i).Some? then Some(i)
    else if i == |t| then None
    else FirstMatch(t, i + 1)
  }

  /** Nothing starts between `i` and the first occurrence the scan finds. */
  lemma {:induction false} BeforeFirstMatch(t: string, i: nat, j: nat)
    requires i <= j <= |t|
    requires FirstMatch(t, i).None? || j < FirstMatch(t, i).value
    ensures MatchEnd(t, j).None?
    decreases j - i
  {
    if i < j {
      BeforeFirstMatch(t, i + 1, j);
    }
  }

  /**
   * The last occurrence on the line of `best`, scanning on from `i`; `best` is
   * the last one found before `i`.
   */
  function LastOnLine(t: string, best: nat, i: nat): (q: nat)
    requires best < |t| && best < i <= LineEnd(t, best) && MatchEnd(t, best).Some?
    ensures best <= q < |t| && MatchEnd(t, q).Some? && LineEnd(t, q) == LineEnd(t, best)
    decreases |t| - i
  {
    if i == LineEnd(t, best) then
      best
    else if MatchEnd(t, i).Some? then
      SameLineEnd(t, best, i);
      LastOnLine(t, i, i + 1)
    else
      LastOnLine(t, best, i + 1)
  }

  /** Nothing starts on the same line after the occurrence `LastOnLine` finds. */
  lemma {:induction false} AfterLastOnLine(t: string, best: nat, i: nat, j: nat)
    requires best < |t| && best < i <= LineEnd(t, best) && MatchEnd(t, best).Some?
    requires i <= j <= LineEnd(t, best)
    ensures LastOnLine(t, best, i) < j ==> MatchEnd(t, j).None?
    decreases |t| - i
  {
    if i == LineEnd(t, best) {
      NoMatchAtLineEnd(t, i);
    } else if MatchEnd(t, i).Some? {
      SameLineEnd(t, best, i);
      if i < j {
        AfterLastOnLine(t, i, i + 1, j);
      }
    } else if i < j {
      AfterLastOnLine(t, best, i + 1, j);
    }
  }

  /** No occurrence starts at a line break or at the end of the text. */
  lemma NoMatchAtLineEnd(t: string, k: nat)
    requires k <= |t| && LineEnd(t, k) == k
    ensures MatchEnd(t, k).None?
  {
  }

  /** The start of the line holding position `p`. */
  function LineStart(t: string, p: nat): (s: nat)
    requires p <= |t|
    ensures s <= p
    ensures s == 0 || t[s - 1] == '\n'
  {
    if p == 0 || t[p - 1] == '\n' then p else LineStart(t, p - 1)
  }

  /** A line break before `p` lies before the start of `p`'s line. */
  lemma {:induction false} BreakBeforeLine(t: string, b: nat, p: nat)
    requires b < p <= |t| && t[b] == '\n'
    ensures b < LineStart(t, p)
    decreases p
  {
    if t[p - 1] != '\n' {
      BreakBeforeLine(t, b, p - 1);
    }
  }

  /**
   * Where the second piece of the split starts and ends, when the pattern
   * matches somewhere in the text.
   */
  function DirectiveSpan(t: string): (r: Option<(nat, nat)>)
    ensures r.Some? ==> r.value.0 <= r.value.1 <= |t|
  {
    if FirstMatch(t, 0).None? then None
    else Some(PieceAfter(t, FirstMatch(t, 0).value))
  }

  /** The end of the leftmost match of the pattern, which starts on the line of `p0`. */
  function SplitEnd(t: string, p0: nat): (e: nat)
    requires p0 < |t| && MatchEnd(t, p0).Some?
    ensures e <= |t|
  {
    MatchEnd(t, LastOnLine(t, p0, p0 + 1)).value
  }

  function PieceAfter(t: string, p0: nat): (r: (nat, nat))
    requires p0 < |t| && MatchEnd(t, p0).Some?
    ensures r.0 <= r.1 <= |t|
  {
    if FirstMatch(t, SplitEnd(t, p0)).None? then (SplitEnd(t, p0), |t|)
    else
      var p1 := FirstMatch(t, SplitEnd(t, p0)).value;
      NextMatchOnLaterLine(t, p0, p1);
      BreakBeforeLine(t, LineEnd(t, LastOnLine(t, p0, p0 + 1)), p1);
      (SplitEnd(t, p0), LineStart(t, p1))
  }

  /** The second piece of the split, when the pattern matches somewhere in the text. */
  function ServiceDirective(t: string): Option<string>
  {
    match DirectiveSpan(t)
    case None => None
    case Some((start, end)) => Some(t[start..end])
  }

  /** The line of `p` reaches at least to `p`. */
  lemma {:induction false} LineReaches(t: string, p: nat)
    requires p <= |t|
    ensures LineEnd(t, LineStart(t, p)) >= p
    decreases p
  {
    if p > 0 && t[p - 1] != '\n' {
      LineReaches(t, p - 1);
    }
  }

  /** A position after a line break lies on a line that starts after a break and reaches it. */
  lemma NextLine(t: string, b: nat, p: nat)
    requires b < p <= |t| && t[b] == '\n'
    ensures var e := LineStart(t, p); 0 < e && t[e - 1] == '\n' && e <= p <= LineEnd(t, e)
  {
    BreakBeforeLine(t, b, p);
    LineReaches(t, p);
  }

  /**
   * The directive starts right after an occurrence of `service`, spaces, `=` that
   * lies on the first line holding one.
   */
  lemma DirectiveStart(t: string)
    requires DirectiveSpan(t).Some?
    ensures var s := DirectiveSpan(t).value.0;
      exists q: nat :: q < s && MatchEnd(t, q) == Some(s) && LineEnd(t, q) == LineEnd(t, FirstMatch(t, 0).value)
  {
    var p0 := FirstMatch(t, 0).value;
    var q := LastOnLine(t, p0, p0 + 1);
    assert DirectiveSpan(t).value.0 == MatchEnd(t, q).value;
  }

  /** No occurrence of `service`, spaces, `=` starts inside the directive. */
  lemma DirectiveInside(t: string)
    requires DirectiveSpan(t).Some?
    ensures var s, e := DirectiveSpan(t).value.0, DirectiveSpan(t).value.1;
      forall j :: s <= j < e ==> MatchEnd(t, j).None?
  {
    var s, e := DirectiveSpan(t).value.0, DirectiveSpan(t).value.1;
    assert FirstMatch(t, s).None? || e <= FirstMatch(t, s).value;
    forall j | s <= j < e
      ensures MatchEnd(t, j).None?
    {
      BeforeFirstMatch(t, s, j);
    }
  }

  /**
   * The directive runs to the end of the text or to the start of the next line
   * that holds an occurrence.
   */
  lemma DirectiveEnd(t: string)
    requires DirectiveSpan(t).Some?
    ensures var e := DirectiveSpan(t).value.1;
      e == |t| || (0 < e && t[e - 1] == '\n' && exists p1: nat :: e <= p1 <= LineEnd(t, e) && MatchEnd(t, p1).Some?)
  {
    PieceEnd(t, FirstMatch(t, 0).value);
  }

  lemma PieceEnd(t: string, p0: nat)
    requires p0 < |t| && MatchEnd(t, p0).Some?
    ensures var e := PieceAfter(t, p0).1;
      e == |t| || (0 < e && t[e - 1] == '\n' && exists p1: nat :: e <= p1 <= LineEnd(t, e) && MatchEnd(t, p1).Some?)
  {
    var s := SplitEnd(t, p0);
    if FirstMatch(t, s).Some? {
      var p1 := FirstMatch(t, s).value;
      NextMatchOnLaterLine(t, p0, p1);
      NextLine(t, LineEnd(t, p0), p1);
      assert PieceAfter(t, p0).1 == LineStart(t, p1);
    }
  }

  /** There is a directive exactly when `service`, spaces, `=` occurs somewhere. */
  lemma DirectiveIff(t: string)
    ensures ServiceDirective(t).Some? <==> exists j :: 0 <= j <= |t| && MatchEnd(t, j).Some?
  {
    if FirstMatch(t, 0).None? {
      forall j | 0 <= j <= |t|
        ensures MatchEnd(t, j).None?
      {
        BeforeFirstMatch(t, 0, j);
      }
    }
  }

  /** The next occurrence after the last one on a line lies on a later line. */
  lemma NextMatchOnLaterLine(t: string, p0: nat, p1: nat)
    requires p0 < |t| && MatchEnd(t, p0).Some?
    requires LastOnLine(t, p0, p0 + 1) < p1 <= |t| && MatchEnd(t, p1).Some?
    ensures LineEnd(t, p0) < p1
  {
    if p1 <= LineEnd(t, p0) {
      AfterLastOnLine(t, p0, p0 + 1, p1);
    }
  }

  /**
   * On text of one line the directive is everything after the last occurrence of
   * `service`, spaces, `=` and the spaces that follow it.
   */
  lemma SingleLineDirective(t: string, p: nat)
    requires '\n' !in t
    requires p <= |t| && MatchEnd(t, p).Some?
    requires forall j :: p < j <= |t| ==> MatchEnd(t, j).None?
    ensures ServiceDirective(t) == Some(t[MatchEnd(t, p).value..])
  {
    SingleLineSpan(t, p);
    var e := MatchEnd(t, p).value;
    assert t[e..|t|] == t[e..];
  }

  lemma SingleLineSpan(t: string, p: nat)
    requires '\n' !in t
    requires p <= |t| && MatchEnd(t, p).Some?
    requires forall j :: p < j <= |t| ==> MatchEnd(t, j).None?
    ensures DirectiveSpan(t) == Some((MatchEnd(t, p).value, |t|))
  {
    if FirstMatch(t, 0).None? {
      BeforeFirstMatch(t, 0, p);
    }
    var p0 := FirstMatch(t, 0).value;
    LastOnOneLine(t, p0, p);
    NoMatchFrom(t, MatchEnd(t, p).value);
    SpanOfLast(t, p0, p);
  }

  /** The span when nothing starts after the last occurrence on the first line. */
  lemma SpanOfLast(t: string, p0: nat, p: nat)
    requires FirstMatch(t, 0) == Some(p0) && p0 < |t|
    requires LastOnLine(t, p0, p0 + 1) == p
    requires FirstMatch(t, MatchEnd(t, p).value).None?
    ensures DirectiveSpan(t) == Some((MatchEnd(t, p).value, |t|))
  {
    assert SplitEnd(t, p0) == MatchEnd(t, p).value;
  }

  /** On one line, the last occurrence is the one nothing follows. */
  lemma LastOnOneLine(t: string, p0: nat, p: nat)
    requires '\n' !in t
    requires p0 <= p <= |t| && MatchEnd(t, p0).Some? && MatchEnd(t, p).Some?
    requires forall j :: p < j <= |t| ==> MatchEnd(t, j).None?
    ensures p0 < |t| && LastOnLine(t, p0, p0 + 1) == p
  {
    OneLine(t, p0);
    if p0 < p {
      AfterLastOnLine(t, p0, p0 + 1, p);
    }
  }

  /** The scan finds nothing when no occurrence starts at `i` or later. */
  lemma NoMatchFrom(t: string, i: nat)
    requires i <= |t|
    requires forall j :: i <= j <= |t| ==> MatchEnd(t, j).None?
    ensures FirstMatch(t, i).None?
  {
  }

  /** Without line breaks, every position's line ends with the text. */
  lemma {:induction false} OneLine(t: string, k: nat)
    requires '\n' !in t && k <= |t|
    ensures LineEnd(t, k) == |t|
    decreases |t| - k
  {
    if k < |t| {
      OneLine(t, k + 1);
    }
  }
}
