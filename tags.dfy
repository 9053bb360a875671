/**
 * The `key=value` tags of an alert: how one tag is split, which tags are kept,
 * and the Grafana query string built from them (`_make_url_params_from_tags`).
 */
module Tags {
  import opened Wrappers
  import opened Text
  import opened Alerts

  datatype TagKind =
    | Plain                          // no '=': skipped
    | Pair(key: string, val: string) // exactly one '='
    | Malformed                      // two or more '=': the unpack raises

  /** What `k, v = tag.split('=')` does with a tag, once `'=' in tag` held. */
  function ParseTag(tag: string): (r: TagKind)
    ensures r.Plain? <==> '=' !in tag
  {
    if '=' !in tag then Plain
    else if Count(tag, '=') == 1 then
      var i := IndexOf(tag, '=');
      Pair(tag[..i], tag[i + 1..])
    else Malformed
  }

  /**
   * A tag is malformed exactly when it holds two or more '='; a pair is the
   * text on either side of the tag's only '='.
   */
  lemma ParseTagMeaning(tag: string)
    ensures ParseTag(tag).Malformed? <==> Count(tag, '=') >= 2
    ensures ParseTag(tag).Pair? ==>
      ParseTag(tag).key + "=" + ParseTag(tag).val == tag
      && '=' !in ParseTag(tag).key && '=' !in ParseTag(tag).val
  {
    if Count(tag, '=') == 1 {
      var i := IndexOf(tag, '=');
      CountSplitsAt(tag, i);
      assert tag == tag[..i] + "=" + tag[i + 1..];
    }
  }

  /** The count of a character on both sides of one occurrence of it. */
  lemma {:induction false} CountSplitsAt(s: string, i: nat)
    requires i < |s| && s[i] == '='
    ensures Count(s, '=') == Count(s[..i], '=') + 1 + Count(s[i + 1..], '=')
    decreases i
  {
    if i > 0 {
      CountSplitsAt(s[1..], i - 1);
      assert s[1..][..i - 1] == s[1..i];
      assert s[1..][i..] == s[i + 1..];
      assert s[..i][1..] == s[1..i];
    }
  }

  /** The pair agrees with Python's `split('=')` into exactly two pieces. */
  lemma ParseTagIsSplit(tag: string)
    requires '=' in tag
    ensures ParseTag(tag).Pair? <==> |Split(tag, '=')| == 2
    ensures ParseTag(tag).Pair? ==> Split(tag, '=') == [ParseTag(tag).key, ParseTag(tag).val]
  {
    ParseTagMeaning(tag);
    var parts := Split(tag, '=');
    if |parts| == 2 {
      assert parts[1..] == [parts[1]];
      assert Join(parts, "=") == parts[0] + "=" + parts[1];
      var i := IndexOf(tag, '=');
      assert |parts[0]| == i;
      assert parts[0] == tag[..i];
      assert parts[1] == tag[i + 1..];
    }
  }

  /** The index of the first tag whose unpack raises, if any. */
  function FirstMalformed(tags: seq<string>): (r: Option<nat>)
    ensures r.Some? ==> r.value < |tags| && ParseTag(tags[r.value]).Malformed?
    ensures forall j :: 0 <= j < |tags| && (r.None? || j < r.value) ==> !ParseTag(tags[j]).Malformed?
  {
    if tags == [] then None
    else if ParseTag(tags[0]).Malformed? then Some(0)
    else match FirstMalformed(tags[1..])
      case None => None
      case Some(i) => Some(i + 1)
  }

  /** The key/value pairs of the tags holding exactly one '=', in tag order. */
  function Pairs(tags: seq<string>): (ps: seq<(string, string)>)
    ensures |ps| <= |tags|
  {
    if tags == [] then []
    else
      var rest := Pairs(tags[..|tags| - 1]);
      match ParseTag(tags[|tags| - 1])
      case Pair(k, v) => rest + [(k, v)]
      case _ => rest
  }

  /** The number of tags that contain '='. */
  function CountWithEquals(tags: seq<string>): nat
  {
    if tags == [] then 0
    else CountWithEquals(tags[..|tags| - 1]) + (if '=' in tags[|tags| - 1] then 1 else 0)
  }

  /** When no tag is malformed, every tag holding '=' gives one pair. */
  lemma {:induction false} PairsLength(tags: seq<string>)
    requires FirstMalformed(tags).None?
    ensures |Pairs(tags)| == CountWithEquals(tags)
    decreases |tags|
  {
    if tags != [] {
      var init := tags[..|tags| - 1];
      assert forall j :: 0 <= j < |init| ==> init[j] == tags[j];
      PairsLength(init);
    }
  }

  /** Every pair is a tag of the list, read as `key=value`. */
  lemma {:induction false} PairsFromTags(tags: seq<string>)
    ensures forall j :: 0 <= j < |Pairs(tags)| ==> Pairs(tags)[j].0 + "=" + Pairs(tags)[j].1 in tags
    decreases |tags|
  {
    if tags != [] {
      var init := tags[..|tags| - 1];
      PairsFromTags(init);
      ParseTagMeaning(tags[|tags| - 1]);
      forall j | 0 <= j < |Pairs(init)|
        ensures Pairs(init)[j].0 + "=" + Pairs(init)[j].1 in tags
      {
        var i :| 0 <= i < |init| && init[i] == Pairs(init)[j].0 + "=" + Pairs(init)[j].1;
        assert tags[i] == init[i];
      }
    }
  }

  /** One query parameter: `var-<key>=<value>`. */
  function VarParam(p: (string, string)): string
  {
    "var-" + p.0 + "=" + p.1
  }

  /** The query string for some pairs: the first one after '?', each later one after '&'. */
  function QueryString(ps: seq<(string, string)>): string
  {
    if ps == [] then ""
    else QueryString(ps[..|ps| - 1]) + (if |ps| == 1 then "?" else "&") + VarParam(ps[|ps| - 1])
  }

  function VarParams(ps: seq<(string, string)>): (r: seq<string>)
    ensures |r| == |ps|
  {
    seq(|ps|, j requires 0 <= j < |ps| => VarParam(ps[j]))
  }

  /**
   * The query string agrees with the reference form: nothing for no pairs,
   * otherwise '?' followed by the parameters joined with '&'.
   */
  lemma {:induction false} QueryStringIsJoin(ps: seq<(string, string)>)
    ensures QueryString(ps) == if ps == [] then "" else "?" + Join(VarParams(ps), "&")
    decreases |ps|
  {
    if |ps| > 1 {
      var init, last := ps[..|ps| - 1], VarParam(ps[|ps| - 1]);
      QueryStringIsJoin(init);
      VarParamsSnoc(ps);
      JoinSnoc(VarParams(init), last, "&");
      SnocAssoc("?", Join(VarParams(init), "&"), "&", last);
    } else if |ps| == 1 {
      assert ps[..0] == [];
    }
  }

  lemma SnocAssoc(a: string, b: string, c: string, d: string)
    ensures (a + b) + c + d == a + (b + c + d)
  {
  }

  lemma VarParamsSnoc(ps: seq<(string, string)>)
    requires ps != []
    ensures VarParams(ps) == VarParams(ps[..|ps| - 1]) + [VarParam(ps[|ps| - 1])]
  {
  }

  /**
   * `_make_url_params_from_tags`: the error of the first malformed tag, or else
   * the query string of the kept pairs.
   */
  function UrlParams(tags: seq<string>): (r: Result<string, Error>)
  {
    match FirstMalformed(tags)
    case Some(i) => Err(TagUnpack(tags[i]))
    case None => Ok(QueryString(Pairs(tags)))
  }

  /** The loop of `_make_url_params_from_tags`, with its `params` and `join` variables. */
  method MakeUrlParams(tags: seq<string>) returns (r: Result<string, Error>)
    ensures r == UrlParams(tags)
  {
    var params := "";
    var join := "?";
    var i := 0;
    while i < |tags|
      invariant 0 <= i <= |tags|
      invariant Scanned(tags, i, params, join)
    {
      var tag := tags[i];
      if '=' in tag {
        var kv := ParseTag(tag);  // k, v = tag.split('=')
        if kv.Malformed? {
          UrlParamsAtMalformed(tags, i);
          return Err(TagUnpack(tag));
        }
        UrlParamsStep(tags, i, params, join);
        params := params + join + VarParam((kv.key, kv.val));
        join := "&";
      } else {
        UrlParamsStep(tags, i, params, join);
      }
      i := i + 1;
    }
    ScannedAll(tags, params, join);
    return Ok(params);
  }

  /**
   * The state of `_make_url_params_from_tags` after the first `i` tags: none of
   * them malformed, `params` the query string of their pairs, and `join` the
   * separator for the next pair.
   */
  predicate Scanned(tags: seq<string>, i: nat, params: string, join: string)
    requires i <= |tags|
  {
    && FirstMalformed(tags[..i]).None?
    && params == QueryString(Pairs(tags[..i]))
    && join == if Pairs(tags[..i]) == [] then "?" else "&"
  }

  /** Once every tag is scanned, `params` is the result. */
  lemma ScannedAll(tags: seq<string>, params: string, join: string)
    requires Scanned(tags, |tags|, params, join)
    ensures UrlParams(tags) == Ok(params)
  {
    assert tags[..|tags|] == tags;
  }

  /** One well-formed tag more, as the loop of `MakeUrlParams` takes it. */
  lemma UrlParamsStep(tags: seq<string>, i: nat, params: string, join: string)
    requires i < |tags| && Scanned(tags, i, params, join) && !ParseTag(tags[i]).Malformed?
    ensures ParseTag(tags[i]).Pair? ==>
      Scanned(tags, i + 1, params + join + VarParam((ParseTag(tags[i]).key, ParseTag(tags[i]).val)), "&")
    ensures !ParseTag(tags[i]).Pair? ==> Scanned(tags, i + 1, params, join)
  {
    PairsStep(tags, i);
    WellFormedStep(tags, i);
    if ParseTag(tags[i]).Pair? {
      var p := (ParseTag(tags[i]).key, ParseTag(tags[i]).val);
      QueryStringSnoc(Pairs(tags[..i]), p);
      assert params + join + VarParam(p) == QueryString(Pairs(tags[..i]) + [p]);
    }
  }

  /** A prefix without malformed tags stays so when a well-formed tag follows. */
  lemma WellFormedStep(tags: seq<string>, i: nat)
    requires i < |tags| && FirstMalformed(tags[..i]).None? && !ParseTag(tags[i]).Malformed?
    ensures FirstMalformed(tags[..i + 1]).None?
  {
    var next := tags[..i + 1];
    forall j | 0 <= j < |next|
      ensures !ParseTag(next[j]).Malformed?
    {
      if j < i {
        assert next[j] == tags[..i][j];
      }
    }
  }

  /** A malformed tag after a prefix without any is the first malformed one. */
  lemma FirstMalformedAt(tags: seq<string>, i: nat)
    requires i < |tags| && ParseTag(tags[i]).Malformed?
    requires FirstMalformed(tags[..i]).None?
    ensures FirstMalformed(tags) == Some(i)
  {
    forall j | 0 <= j < i
      ensures !ParseTag(tags[j]).Malformed?
    {
      assert tags[j] == tags[..i][j];
    }
  }

  /** The first malformed tag decides the error. */
  lemma UrlParamsAtMalformed(tags: seq<string>, i: nat)
    requires i < |tags| && ParseTag(tags[i]).Malformed?
    requires FirstMalformed(tags[..i]).None?
    ensures UrlParams(tags) == Err(TagUnpack(tags[i]))
  {
    FirstMalformedAt(tags, i);
  }

  /** One more pair adds '?' or '&' and its parameter at the end. */
  lemma QueryStringSnoc(ps: seq<(string, string)>, p: (string, string))
    ensures QueryString(ps + [p]) == QueryString(ps) + (if ps == [] then "?" else "&") + VarParam(p)
  {
    assert (ps + [p])[..|ps|] == ps;
  }

  /** One more tag of the list: what it adds to the pairs. */
  lemma PairsStep(tags: seq<string>, i: nat)
    requires i < |tags|
    ensures ParseTag(tags[i]).Pair? ==>
      Pairs(tags[..i + 1]) == Pairs(tags[..i]) + [(ParseTag(tags[i]).key, ParseTag(tags[i]).val)]
    ensures !ParseTag(tags[i]).Pair? ==> Pairs(tags[..i + 1]) == Pairs(tags[..i])
  {
    assert tags[..i + 1][..i] == tags[..i];
  }

  /** The parameters are empty exactly when no tag contains '='. */
  lemma {:induction false} UrlParamsEmptyIff(tags: seq<string>)
    ensures UrlParams(tags) == Ok("") <==> forall t :: t in tags ==> '=' !in t
  {
    if FirstMalformed(tags).None? {
      PairsLength(tags);
      NoEqualsCount(tags);
      if Pairs(tags) != [] {
        assert QueryString(Pairs(tags)) != "";
      }
    } else {
      var i := FirstMalformed(tags).value;
      assert '=' in tags[i];
    }
  }

  lemma {:induction false} NoEqualsCount(tags: seq<string>)
    ensures CountWithEquals(tags) == 0 <==> forall t :: t in tags ==> '=' !in t
    decreases |tags|
  {
    if tags != [] {
      var init := tags[..|tags| - 1];
      NoEqualsCount(init);
      assert tags == init + [tags[|tags| - 1]];
    }
  }

  /** The unpack fails exactly when some tag holds two or more '='. */
  lemma UrlParamsErrIff(tags: seq<string>)
    ensures UrlParams(tags).Err? <==> exists t :: t in tags && Count(t, '=') >= 2
  {
    if exists t :: t in tags && Count(t, '=') >= 2 {
      var t :| t in tags && Count(t, '=') >= 2;
      var j :| 0 <= j < |tags| && tags[j] == t;
    }
  }

  /**
   * Adding a tag at the end: one without '=' changes nothing; a well-formed one
   * adds `?var-k=v` if it is the first kept tag and `&var-k=v` otherwise; a
   * malformed one turns the result into its error.
   */
  lemma UrlParamsSnoc(tags: seq<string>, tag: string)
    requires UrlParams(tags).Ok?
    ensures '=' !in tag ==> UrlParams(tags + [tag]) == UrlParams(tags)
    ensures ParseTag(tag).Pair? ==>
      UrlParams(tags + [tag]) ==
        Ok(UrlParams(tags).value + (if UrlParams(tags).value == "" then "?" else "&")
           + VarParam((ParseTag(tag).key, ParseTag(tag).val)))
    ensures ParseTag(tag).Malformed? ==> UrlParams(tags + [tag]) == Err(TagUnpack(tag))
  {
    var all := tags + [tag];
    assert forall j :: 0 <= j < |tags| ==> all[j] == tags[j];
    if ParseTag(tag).Pair? {
      SnocPair(tags, tag);
      QueryStringEmpty(Pairs(tags));
    } else if ParseTag(tag).Plain? {
      assert all[..|all| - 1] == tags;
      assert Pairs(all) == Pairs(tags);
    }
  }

  /** The query string is empty exactly when there are no pairs. */
  lemma QueryStringEmpty(ps: seq<(string, string)>)
    ensures QueryString(ps) == "" <==> ps == []
  {
  }

  lemma SnocPair(tags: seq<string>, tag: string)
    requires FirstMalformed(tags).None? && ParseTag(tag).Pair?
    ensures UrlParams(tags + [tag]) ==
      Ok(QueryString(Pairs(tags)) + (if Pairs(tags) == [] then "?" else "&")
         + VarParam((ParseTag(tag).key, ParseTag(tag).val)))
  {
    var all := tags + [tag];
    var p := (ParseTag(tag).key, ParseTag(tag).val);
    assert all[..|all| - 1] == tags;
    assert Pairs(all) == Pairs(tags) + [p];
    assert forall j :: 0 <= j < |all| ==> !ParseTag(all[j]).Malformed?;
    QueryStringSnoc(Pairs(tags), p);
  }
}
