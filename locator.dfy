/** The embedded-document locator: finds the inline script that assigns the
    page's data blob to `window['__espnfitt__']`, cuts the object literal out
    of it with the pattern `window\['__espnfitt__'\]={(.*)};`, and re-wraps
    the capture in braces for the JSON parser. The women's scraper instead
    takes the fourth script and strips the marker text. */
module Locator {
  import opened Wrappers
  import opened Text
  import opened PyJson

  const WINDOW_STRING: string := "window['__espnfitt__']="

  /** What the pattern needs before its capture group. */
  const OPEN: string := WINDOW_STRING + "{"

  /** What the pattern needs after its capture group. */
  const CLOSE: string := "};"

  /** Index of the first script whose text holds the marker. */
  function FirstMarked(scripts: seq<string>): (r: Option<nat>)
    ensures r.Some? ==> r.value < |scripts| && Contains(scripts[r.value], WINDOW_STRING)
    ensures r.Some? ==> forall j :: 0 <= j < r.value ==> !Contains(scripts[j], WINDOW_STRING)
    ensures r.None? ==> forall j :: 0 <= j < |scripts| ==> !Contains(scripts[j], WINDOW_STRING)
  {
    if scripts == [] then None
    else if Contains(scripts[0], WINDOW_STRING) then Some(0)
    else
      match FirstMarked(scripts[1..])
      case None => None
      case Some(k) => Some(k + 1)
  }

  /** `_find_json_in_content`: the text of the first script holding the
      marker, or "" when there is none. */
  method FindJsonInContent(scripts: seq<string>) returns (script: string)
    ensures script == (match FirstMarked(scripts) case Some(k) => scripts[k] case None => "")
    ensures script != "" ==> script in scripts && Contains(script, WINDOW_STRING)
    ensures script == "" <==> forall j :: 0 <= j < |scripts| ==> !Contains(scripts[j], WINDOW_STRING)
  {
    script := "";
    var i := 0;
    while i < |scripts|
      invariant 0 <= i <= |scripts|
      invariant forall j :: 0 <= j < i ==> !Contains(scripts[j], WINDOW_STRING)
    {
      if Contains(scripts[i], WINDOW_STRING) {
        script := scripts[i];
        FirstMarkedIs(scripts, i);
        MarkerNotEmpty(script);
        return;
      }
      i := i + 1;
    }
  }

  lemma MarkerNotEmpty(s: string)
    requires Contains(s, WINDOW_STRING)
    ensures s != ""
  {
    assert Occurs(s, WINDOW_STRING, Find(s, WINDOW_STRING).value);
  }

  lemma {:induction false} FirstMarkedIs(scripts: seq<string>, i: nat)
    requires i < |scripts| && Contains(scripts[i], WINDOW_STRING)
    requires forall j :: 0 <= j < i ==> !Contains(scripts[j], WINDOW_STRING)
    ensures FirstMarked(scripts) == Some(i)
  {
    if i > 0 {
      FirstMarkedIs(scripts[1..], i - 1);
    }
  }

  /** First index at or after `q` holding a newline, or the end of `s`:
      where `.` stops matching. */
  function LineEnd(s: string, q: nat): (e: nat)
    requires q <= |s|
    ensures q <= e <= |s|
    ensures '\n' !in s[q..e]
    ensures e < |s| ==> s[e] == '\n'
    decreases |s| - q
  {
    if q == |s| || s[q] == '\n' then q
    else
      var e := LineEnd(s, q + 1);
      assert s[q..e] == [s[q]] + s[q + 1..e];
      e
  }

  /** Largest `e` with `q <= e` and `e + 2 <= end` where `};` starts: the
      end of a greedy `(.*)` followed by `};`. */
  function LastClose(s: string, q: nat, end: nat): (r: Option<nat>)
    requires q <= end <= |s|
    ensures r.Some? ==> q <= r.value && r.value + 2 <= end && Occurs(s, CLOSE, r.value)
    ensures r.Some? ==> forall e :: r.value < e && e + 2 <= end ==> !Occurs(s, CLOSE, e)
    ensures r.None? ==> forall e :: q <= e && e + 2 <= end ==> !Occurs(s, CLOSE, e)
    decreases end
  {
    if end < q + 2 then None
    else if s[end - 2..end] == CLOSE then Some(end - 2)
    else LastClose(s, q, end - 1)
  }

  /** The pattern matches at `p` with capture `c`. */
  predicate IsMatch(s: string, p: int, c: string) {
    Occurs(s, OPEN + c + CLOSE, p) && '\n' !in c
  }

  /** `re.search(JSON_REGEX, s).group(1)` tried from position `p` on. */
  function CaptureFrom(s: string, p: nat): Option<string>
    decreases |s| - p
  {
    if p + |OPEN| > |s| then None
    else if s[p..p + |OPEN|] == OPEN then
      var q := p + |OPEN|;
      match LastClose(s, q, LineEnd(s, q))
      case Some(e) => Some(s[q..e])
      case None => CaptureFrom(s, p + 1)
    else CaptureFrom(s, p + 1)
  }

  /** `re.search(JSON_REGEX, s)`: the capture of the leftmost match. */
  function Capture(s: string): Option<string> {
    CaptureFrom(s, 0)
  }

  lemma OccursSplit(s: string, p: int, c: string)
    requires Occurs(s, OPEN + c + CLOSE, p)
    ensures s[p..p + |OPEN|] == OPEN
    ensures s[p + |OPEN|..p + |OPEN| + |c|] == c
    ensures Occurs(s, CLOSE, p + |OPEN| + |c|)
  {
    var w := OPEN + c + CLOSE;
    var l := |OPEN|;
    assert s[p..p + |w|] == w;
    assert w[..l] == OPEN && w[l..l + |c|] == c && w[l + |c|..|w|] == CLOSE;
    SubSlice(s, p, p + |w|, 0, l);
    SubSlice(s, p, p + |w|, l, l + |c|);
    SubSlice(s, p, p + |w|, l + |c|, |w|);
  }

  /** A slice of a slice is a slice of the whole. */
  lemma SubSlice(s: string, a: nat, b: nat, i: nat, j: nat)
    requires a <= b <= |s| && i <= j <= b - a
    ensures s[a..b][i..j] == s[a + i..a + j]
  {
    var u := s[a..b][i..j];
    assert |u| == j - i;
    forall k | 0 <= k < j - i
      ensures u[k] == s[a + i..a + j][k]
    {
      assert u[k] == s[a..b][i + k] == s[a + i + k];
    }
  }

  lemma OccursJoin(s: string, p: int, c: string)
    requires 0 <= p && p + |OPEN| + |c| + 2 <= |s|
    requires s[p..p + |OPEN|] == OPEN
    requires s[p + |OPEN|..p + |OPEN| + |c|] == c
    requires Occurs(s, CLOSE, p + |OPEN| + |c|)
    ensures Occurs(s, OPEN + c + CLOSE, p)
  {
    var q := p + |OPEN|;
    assert s[p..p + |OPEN| + |c| + 2] == s[p..q] + s[q..q + |c|] + s[q + |c|..q + |c| + 2];
  }

  /** A capture of the match at `p` ends at a `};` on the line the object
      starts on. */
  lemma MatchWithinLine(s: string, p: nat, c: string)
    requires IsMatch(s, p, c)
    ensures p + |OPEN| <= |s|
    ensures p + |OPEN| + |c| + 2 <= LineEnd(s, p + |OPEN|)
  {
    OccursSplit(s, p, c);
    var q := p + |OPEN|;
    var w := s[q..q + |c| + 2];
    assert w == c + CLOSE;
    assert forall k :: q <= k < q + |c| + 2 ==> s[k] != '\n' by {
      forall k | q <= k < q + |c| + 2 ensures s[k] != '\n' {
        assert s[k] == w[k - q];
      }
    }
  }

  /** Where `CaptureFrom` accepts position `p`, the match there is the
      longest one. */
  lemma MatchAt(s: string, p: nat)
    requires p + |OPEN| <= |s| && s[p..p + |OPEN|] == OPEN
    requires LastClose(s, p + |OPEN|, LineEnd(s, p + |OPEN|)).Some?
    ensures CaptureFrom(s, p).Some?
    ensures IsMatch(s, p, CaptureFrom(s, p).value)
    ensures forall c :: IsMatch(s, p, c) ==> |c| <= |CaptureFrom(s, p).value|
  {
    var q := p + |OPEN|;
    var end := LineEnd(s, q);
    var e := LastClose(s, q, end).value;
    var c := s[q..e];
    assert CaptureFrom(s, p) == Some(c);
    assert s[q..end] == c + s[e..end];
    assert '\n' !in c;
    OccursJoin(s, p, c);
    forall c' | IsMatch(s, p, c') ensures |c'| <= |c| {
      MatchWithinLine(s, p, c');
      OccursSplit(s, p, c');
    }
  }

  /** Where `CaptureFrom` moves past position `p`, nothing matches there. */
  lemma NoMatchAt(s: string, p: nat)
    requires p + |OPEN| > |s| || s[p..p + |OPEN|] != OPEN ||
      LastClose(s, p + |OPEN|, LineEnd(s, p + |OPEN|)).None?
    ensures forall c :: !IsMatch(s, p, c)
  {
    forall c | IsMatch(s, p, c) ensures false {
      OccursSplit(s, p, c);
      MatchWithinLine(s, p, c);
    }
  }

  /** No match starts in `[lo, hi)`. */
  ghost predicate NoMatchBetween(s: string, lo: int, hi: int) {
    forall p, c :: lo <= p < hi ==> !IsMatch(s, p, c)
  }

  /** No match starts at or after `lo`. */
  ghost predicate NoMatchFrom(s: string, lo: int) {
    forall p, c :: lo <= p ==> !IsMatch(s, p, c)
  }

  /** `c` is the longest capture of a match at `p`. */
  ghost predicate Longest(s: string, p: int, c: string) {
    IsMatch(s, p, c) && forall c' :: IsMatch(s, p, c') ==> |c'| <= |c|
  }

  lemma NoMatchPastEnd(s: string, p: nat)
    requires p + |OPEN| > |s|
    ensures NoMatchFrom(s, p)
  {
    forall p', c | p <= p' ensures !IsMatch(s, p', c) {
      NoMatchAt(s, p');
    }
  }

  lemma ExtendLeft(s: string, p: nat, p': int)
    requires NoMatchBetween(s, p + 1, p')
    requires forall c :: !IsMatch(s, p, c)
    ensures NoMatchBetween(s, p, p')
  {
  }

  lemma ExtendLeftFrom(s: string, p: nat)
    requires NoMatchFrom(s, p + 1)
    requires forall c :: !IsMatch(s, p, c)
    ensures NoMatchFrom(s, p)
  {
  }

  /** The capture is exactly the leftmost, then longest, match: the regex's
      semantics. */
  lemma {:induction false} CaptureFromSpec(s: string, p: nat)
    ensures CaptureFrom(s, p).Some? ==>
      exists p' :: p <= p' && NoMatchBetween(s, p, p') && Longest(s, p', CaptureFrom(s, p).value)
    ensures CaptureFrom(s, p).None? ==> NoMatchFrom(s, p)
    decreases |s| - p
  {
    if p + |OPEN| > |s| {
      NoMatchPastEnd(s, p);
    } else if s[p..p + |OPEN|] == OPEN && LastClose(s, p + |OPEN|, LineEnd(s, p + |OPEN|)).Some? {
      MatchAt(s, p);
      assert NoMatchBetween(s, p, p);
    } else {
      NoMatchAt(s, p);
      var r := CaptureFrom(s, p + 1);
      assert CaptureFrom(s, p) == r;
      CaptureFromSpec(s, p + 1);
      if r.Some? {
        var p' :| p + 1 <= p' && NoMatchBetween(s, p + 1, p') && Longest(s, p', r.value);
        ExtendLeft(s, p, p');
      } else {
        ExtendLeftFrom(s, p);
      }
    }
  }

  lemma CaptureSpec(s: string)
    ensures Capture(s).Some? ==>
      exists p :: 0 <= p && NoMatchBetween(s, 0, p) && Longest(s, p, Capture(s).value)
    ensures Capture(s).None? ==> NoMatchFrom(s, 0)
  {
    CaptureFromSpec(s, 0);
  }

  /** The text handed to `json.loads` by the marker-based locator
      (`_get_json_from_soup` up to the parse): `None` when no script holds
      the marker, an error when the pattern does not match (`.group` on
      `None`), else the capture wrapped in braces. */
  function JsonText(script: string): Res<Option<string>> {
    if script == "" then Ok(None)
    else
      match Capture(script)
      case None => Err(AttributeError)
      case Some(c) => Ok(Some("{" + c + "}"))
  }

  /** `_get_json_from_soup` and its siblings: locate, parse with the given
      JSON parser, then follow `path` (empty for the whole document,
      `page/content/gamepackage` for a game page, and so on). */
  method GetFromSoup(scripts: seq<string>, parse: string -> Option<Json>, path: seq<string>)
    returns (r: Res<Option<Json>>)
    ensures r == FromSoup(scripts, parse, path)
    ensures (forall j :: 0 <= j < |scripts| ==> !Contains(scripts[j], WINDOW_STRING)) ==> r == Ok(None)
  {
    var script := FindJsonInContent(scripts);
    var text := JsonText(script);
    r := ParseAndWalk(text, parse, path);
  }

  function ParseAndWalk(text: Res<Option<string>>, parse: string -> Option<Json>, path: seq<string>): Res<Option<Json>> {
    var t :- text;
    match t
    case None => Ok(None)
    case Some(js) =>
      match parse(js)
      case None => Err(ValueError)
      case Some(doc) =>
        var v :- Path(doc, path);
        Ok(Some(v))
  }

  function FromSoup(scripts: seq<string>, parse: string -> Option<Json>, path: seq<string>): Res<Option<Json>> {
    var script := match FirstMarked(scripts) case Some(k) => scripts[k] case None => "";
    ParseAndWalk(JsonText(script), parse, path)
  }

  const GAMEPACKAGE_PATH: seq<string> := ["page", "content", "gamepackage"]
  const PLAYER_PATH: seq<string> := ["page", "content", "player"]
  const SCOREBOARD_PATH: seq<string> := ["page", "content", "scoreboard", "evts"]

  /** The women's scraper's locator: the fourth script, the marker text
      removed wherever it occurs, the last character dropped (`[:-1]`). */
  function PositionalText(scripts: seq<string>): (r: Res<string>)
    ensures |scripts| < 4 <==> r == Err(IndexError)
  {
    if |scripts| < 4 then Err(IndexError)
    else
      var t := Replace(scripts[3], WINDOW_STRING, "");
      Ok(if t == "" then "" else t[..|t| - 1])
  }

  lemma {:induction false} ReplaceAbsent(s: string, pat: string, sub: string)
    requires |pat| > 0 && !Contains(s, pat)
    ensures Replace(s, pat, sub) == s
    decreases |s|
  {
    if |s| >= |pat| {
      assert !Occurs(s, pat, 0);
      assert s[..|pat|] != pat;
      forall j | 0 <= j ensures !Occurs(s[1..], pat, j) {
        OccursTail(s, pat, j);
      }
      assert !Contains(s[1..], pat);
      ReplaceAbsent(s[1..], pat, sub);
    }
  }

  lemma CaptureWhole(b: string)
    requires '\n' !in b
    ensures Capture(OPEN + b + CLOSE) == Some(b)
  {
    var s := OPEN + b + CLOSE;
    var q := |OPEN|;
    assert s[0..|OPEN|] == OPEN;
    assert s[q..] == b + CLOSE;
    assert '\n' !in s[q..];
    LineEndNone(s, q);
    assert s[|s| - 2..|s|] == CLOSE;
    assert LastClose(s, q, |s|) == Some(|s| - 2);
    assert s[q..|s| - 2] == b;
  }

  lemma {:induction false} LineEndNone(s: string, q: nat)
    requires q <= |s| && '\n' !in s[q..]
    ensures LineEnd(s, q) == |s|
    decreases |s| - q
  {
    if q < |s| {
      assert s[q] == s[q..][0];
      assert s[q + 1..] == s[q..][1..];
      LineEndNone(s, q + 1);
    }
  }

  lemma PositionalStrips(scripts: seq<string>, b: string)
    requires |scripts| >= 4
    requires scripts[3] == OPEN + b + CLOSE
    requires !Contains("{" + b + CLOSE, WINDOW_STRING)
    ensures PositionalText(scripts) == Ok("{" + b + "}")
  {
    var s := scripts[3];
    var rest := "{" + b + CLOSE;
    assert s == WINDOW_STRING + rest;
    assert s[..|WINDOW_STRING|] == WINDOW_STRING;
    assert s[|WINDOW_STRING|..] == rest;
    ReplaceAbsent(rest, WINDOW_STRING, "");
    assert Replace(s, WINDOW_STRING, "") == rest;
    assert rest[..|rest| - 1] == "{" + b + "}";
  }

  lemma MarkedAtThree(scripts: seq<string>, b: string)
    requires |scripts| >= 4
    requires scripts[3] == OPEN + b + CLOSE
    requires '\n' !in b
    requires forall j :: 0 <= j < 3 ==> !Contains(scripts[j], WINDOW_STRING)
    ensures JsonText(match FirstMarked(scripts) case Some(k) => scripts[k] case None => "") == Ok(Some("{" + b + "}"))
  {
    var s := scripts[3];
    assert s[0..|WINDOW_STRING|] == WINDOW_STRING;
    assert Occurs(s, WINDOW_STRING, 0);
    ContainsIff(s, WINDOW_STRING);
    FirstMarkedIs(scripts, 3);
    CaptureWhole(b);
  }

  /** On a page whose fourth script is exactly the marker assignment and is
      the first script holding the marker, the positional locator and the
      marker locator hand the same text to the JSON parser. */
  lemma PositionalAgreesWithMarker(scripts: seq<string>, b: string)
    requires |scripts| >= 4
    requires scripts[3] == OPEN + b + CLOSE
    requires '\n' !in b && !Contains("{" + b + CLOSE, WINDOW_STRING)
    requires forall j :: 0 <= j < 3 ==> !Contains(scripts[j], WINDOW_STRING)
    ensures PositionalText(scripts) == Ok("{" + b + "}")
    ensures JsonText(match FirstMarked(scripts) case Some(k) => scripts[k] case None => "") == Ok(Some("{" + b + "}"))
  {
    PositionalStrips(scripts, b);
    MarkedAtThree(scripts, b);
  }
}
