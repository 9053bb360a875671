/**
 * `LinkParser`: an `HTMLParser` subclass that keeps the last `href` attribute of
 * a start tag and the last run of text it was fed. The parser is driven by the
 * events `HTMLParser.feed` reports; `Tokenize` gives those events for the inputs
 * this model covers.
 */
module Links {
  import opened Wrappers
  import opened Text

  type Attribute = (string, string)

  /** What `HTMLParser` reports to its subclass. */
  datatype Event =
    | StartTag(tag: string, attrs: seq<Attribute>)
    | Data(text: string)
    | EndTag(tag: string)

  /** The parser's state: `_href` and `_title`. */
  datatype Link = Link(href: Option<string>, title: Option<string>)

  /** The anchor `pre_receive` stores for a dashboard, up to the href. */
  const AnchorOpen: string := "<" + "a target=\"_blank\" rel=\"noopener noreferrer\" href=\""

  /** The anchor `pre_receive` stores: a link to `href` reading `caption`. */
  function Anchor(href: string, caption: string): string
  {
    AnchorOpen + href + "\">" + caption + "</a>"
  }

  /** Link text that reads back unchanged: no markup character at all. */
  predicate LabelSafe(t: string)
  {
    forall i :: 0 <= i < |t| ==> t[i] != '<' && t[i] != '>' && t[i] != '"' && t[i] != '&'
  }

  /**
   * Every '&' starts a `&var-` query parameter. No character-reference name holds
   * '-', and none of the names `html.unescape` accepts without ';' is `va` or `var`,
   * so `html.unescape` leaves such text as it is.
   */
  predicate VarAmpersands(h: string)
  {
    forall i :: 0 <= i < |h| && h[i] == '&' ==> i + 5 <= |h| && h[i + 1..i + 5] == "var-"
  }

  /** An href that reads back unchanged from a double-quoted attribute. */
  predicate HrefSafe(h: string)
  {
    && (forall i :: 0 <= i < |h| ==> h[i] != '<' && h[i] != '>' && h[i] != '"')
    && VarAmpersands(h)
  }

  /** What Python's `\s` matches in a `str` pattern: the characters `str.isspace()` accepts. */
  predicate IsSpace(c: char)
  {
    var n := c as int;
    || 9 <= n <= 13 || 28 <= n <= 32 || n == 0x85 || n == 0xA0 || n == 0x1680
    || 0x2000 <= n <= 0x200A || n == 0x2028 || n == 0x2029 || n == 0x202F
    || n == 0x205F || n == 0x3000
  }

  /**
   * Text without markup that ends in what may be a character reference cut in
   * two: its last '&' lies in the final 34 characters and no whitespace and no
   * ';' follows it. `HTMLParser.feed` keeps such text back, waiting for more
   * input, and reports nothing.
   */
  predicate Withheld(s: string)
  {
    var amp := LastIndexOf(s, '&');
    && amp < |s|
    && amp + 34 >= |s|
    && forall j :: amp <= j < |s| ==> !IsSpace(s[j]) && s[j] != ';'
  }

  /** Joining two safe hrefs gives a safe href. */
  lemma HrefSafeConcat(a: string, b: string)
    requires HrefSafe(a) && HrefSafe(b)
    ensures HrefSafe(a + b)
  {
    var s := a + b;
    forall i | 0 <= i < |s| && s[i] == '&'
      ensures i + 5 <= |s| && s[i + 1..i + 5] == "var-"
    {
      if i < |a| {
        assert s[i + 1..i + 5] == a[i + 1..i + 5];
      } else {
        assert s[i] == b[i - |a|];
        assert s[i + 1..i + 5] == b[i - |a| + 1..i - |a| + 5];
      }
    }
  }

  /** Safe link text is a safe href too. */
  lemma LabelIsHref(t: string)
    requires LabelSafe(t)
    ensures HrefSafe(t)
  {
  }

  /** The events for the anchor `Anchor(href, caption)`. */
  function AnchorEvents(href: string, caption: string): seq<Event>
  {
    [StartTag("a", [("target", "_blank"), ("rel", "noopener noreferrer"), ("href", href)])]
    + (if caption == "" then [] else [Data(caption)])
    + [EndTag("a")]
  }

  /**
   * The events `HTMLParser.feed(s)` reports, for the inputs this model covers:
   * the anchor `pre_receive` writes; withheld text; and other text without '<'
   * whose every '&' starts `&var-`, which is one run of data. None for anything
   * else.
   */
  function Tokenize(s: string): (r: Option<seq<Event>>)
  {
    if |AnchorOpen| + 4 <= |s| && s[..|AnchorOpen|] == AnchorOpen && s[|s| - 4..] == "</a>" then
      var m := s[|AnchorOpen|..|s| - 4];
      var q := IndexOf(m, '"');
      if q + 2 <= |m| && m[q + 1] == '>' && HrefSafe(m[..q]) && LabelSafe(m[q + 2..]) then
        Some(AnchorEvents(m[..q], m[q + 2..]))
      else None
    else if '<' in s then None
    else if Withheld(s) then Some([])
    else if VarAmpersands(s) then Some(if s == "" then [] else [Data(s)])
    else None
  }

  /**
   * `handle_starttag`'s effect on `_href`: the value of the last `href`
   * attribute, or the old value when the tag has none.
   */
  function LastHref(attrs: seq<Attribute>, current: Option<string>): (r: Option<string>)
    ensures NoHrefFrom(attrs, 0) ==> r == current
    ensures forall j :: 0 <= j < |attrs| && attrs[j].0 == "href" && NoHrefFrom(attrs, j + 1)
                        ==> r == Some(attrs[j].1)
  {
    if attrs == [] then current
    else if attrs[|attrs| - 1].0 == "href" then Some(attrs[|attrs| - 1].1)
    else
      var init := attrs[..|attrs| - 1];
      assert forall j :: 0 <= j <= |init| && NoHrefFrom(attrs, j) ==> NoHrefFrom(init, j);
      LastHref(init, current)
  }

  /** No `href` attribute at position `j` or later. */
  predicate NoHrefFrom(attrs: seq<Attribute>, j: nat)
  {
    forall k :: j <= k < |attrs| ==> attrs[k].0 != "href"
  }

  /** The parser's state after one event. */
  function Step(l: Link, e: Event): Link
  {
    match e
    case StartTag(_, attrs) => l.(href := LastHref(attrs, l.href))
    case Data(d) => l.(title := Some(d))
    case EndTag(_) => l
  }

  /** The parser's state after a run of events. */
  function Replay(events: seq<Event>, l: Link): Link
  {
    if events == [] then l
    else Step(Replay(events[..|events| - 1], l), events[|events| - 1])
  }

  /** A fresh parser fed `s`: its `(get_href(), get_title())`, where the model covers `s`. */
  function ParseLink(s: string): Option<Link>
  {
    match Tokenize(s)
    case None => None
    case Some(events) => Some(Replay(events, Link(None, None)))
  }

  /**
   * Reading back the stored anchor gives the href and the caption that went into
   * it (no caption when it is empty: the parser then sees no text).
   */
  lemma AnchorRoundTrip(href: string, caption: string)
    requires HrefSafe(href) && LabelSafe(caption)
    ensures ParseLink(Anchor(href, caption)) == Some(Link(Some(href), if caption == "" then None else Some(caption)))
  {
    AnchorTokens(href, caption);
    ReplayAnchor(href, caption);
  }

  /** The parser reports the start tag, the caption if any, and the end tag. */
  lemma AnchorTokens(href: string, caption: string)
    requires HrefSafe(href) && LabelSafe(caption)
    ensures Tokenize(Anchor(href, caption)) == Some(AnchorEvents(href, caption))
  {
    var s := Anchor(href, caption);
    var m := href + "\">" + caption;
    AnchorFrame(href, caption);
    AnchorMiddle(href, caption);
    assert s[|AnchorOpen|..|s| - 4] == m;
  }

  /** The stored anchor starts with the opening markup and ends with `</a>`. */
  lemma AnchorFrame(href: string, caption: string)
    ensures var s := Anchor(href, caption);
      && |AnchorOpen| + 4 <= |s|
      && s[..|AnchorOpen|] == AnchorOpen
      && s[|s| - 4..] == "</a>"
      && s[|AnchorOpen|..|s| - 4] == href + "\">" + caption
  {
    var s := Anchor(href, caption);
    assert s == AnchorOpen + (href + "\">" + caption) + "</a>";
  }

  /** Between the markup, the first '"' ends the href and '>' follows it. */
  lemma AnchorMiddle(href: string, caption: string)
    requires HrefSafe(href)
    ensures var m := href + "\">" + caption;
      && IndexOf(m, '"') == |href|
      && m[|href| + 1] == '>'
      && m[..|href|] == href
      && m[|href| + 2..] == caption
  {
    var m := href + "\">" + caption;
    assert forall j :: 0 <= j < |href| ==> m[j] == href[j];
    BeforeIndexOf(m, '"');
    assert m[|href|] == '"';
  }

  /** Replaying the anchor's events leaves its href and its caption, if any. */
  lemma ReplayAnchor(href: string, caption: string)
    ensures Replay(AnchorEvents(href, caption), Link(None, None))
      == Link(Some(href), if caption == "" then None else Some(caption))
  {
    var events := AnchorEvents(href, caption);
    var start := [events[0]];
    assert Replay(start, Link(None, None)) == Link(Some(href), None) by {
      assert start[..0] == [];
    }
    if caption == "" {
      assert events[..|events| - 1] == start;
    } else {
      var two := events[..|events| - 1];
      assert two == start + [Data(caption)];
      assert two[..|two| - 1] == start;
      assert Replay(two, Link(None, None)) == Link(Some(href), Some(caption));
    }
  }

  /**
   * Plain text (a bare URL, say) that is not withheld gives its text as title and
   * no href.
   */
  lemma PlainTextHasNoHref(s: string)
    requires s != "" && '<' !in s && VarAmpersands(s) && !Withheld(s)
    ensures ParseLink(s) == Some(Link(None, Some(s)))
  {
    NotAnAnchor(s);
    assert Tokenize(s) == Some([Data(s)]);
    assert [Data(s)][..0] == [];
    assert Replay([Data(s)], Link(None, None)) == Step(Link(None, None), Data(s));
  }

  /** Withheld text gives neither href nor title. */
  lemma WithheldTextIsLost(s: string)
    requires '<' !in s && Withheld(s)
    ensures ParseLink(s) == Some(Link(None, None))
  {
    NotAnAnchor(s);
  }

  /** Text without '<' cannot start like the stored anchor. */
  lemma NotAnAnchor(s: string)
    requires '<' !in s
    ensures !(|AnchorOpen| <= |s| && s[..|AnchorOpen|] == AnchorOpen)
  {
    if |AnchorOpen| <= |s| {
      assert s[..|AnchorOpen|][0] == s[0];
      assert AnchorOpen[0] == '<';
    }
  }

  /** The parser object, with its `_href` and `_title` fields and its callbacks. */
  class LinkParser {
    var href: Option<string>
    var title: Option<string>

    constructor ()
      ensures href == None && title == None
    {
      href := None;
      title := None;
    }

    /** `handle_starttag`: remembers the value of every `href` attribute in turn. */
    method HandleStartTag(tag: string, attrs: seq<Attribute>)
      modifies this
      ensures href == LastHref(attrs, old(href)) && title == old(title)
    {
      var i := 0;
      while i < |attrs|
        invariant 0 <= i <= |attrs|
        invariant href == LastHref(attrs[..i], old(href)) && title == old(title)
      {
        assert attrs[..i + 1][..i] == attrs[..i];
        if attrs[i].0 == "href" {
          href := Some(attrs[i].1);
        }
        i := i + 1;
      }
      assert attrs[..i] == attrs;
    }

    /** `handle_data`: remembers the latest text. */
    method HandleData(data: string)
      modifies this
      ensures href == old(href) && title == Some(data)
    {
      title := Some(data);
    }

    /**
     * `feed`: runs the callbacks for the events of `s`. Reports whether `s` is
     * one of the inputs the model covers; if not, nothing changes.
     */
    method Feed(s: string) returns (covered: bool)
      modifies this
      ensures covered <==> Tokenize(s).Some?
      ensures covered ==> Link(href, title) == Replay(Tokenize(s).value, old(Link(href, title)))
      ensures !covered ==> href == old(href) && title == old(title)
    {
      var tokens := Tokenize(s);
      if tokens.None? {
        return false;
      }
      var events := tokens.value;
      var i := 0;
      while i < |events|
        invariant 0 <= i <= |events|
        invariant Link(href, title) == Replay(events[..i], old(Link(href, title)))
      {
        assert events[..i + 1][..i] == events[..i];
        match events[i] {
          case StartTag(tag, attrs) => HandleStartTag(tag, attrs);
          case Data(d) => HandleData(d);
          case EndTag(_) =>
        }
        i := i + 1;
      }
      assert events[..i] == events;
      return true;
    }
  }
}
