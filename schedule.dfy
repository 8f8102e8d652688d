/** The schedule helper: the events of a team's schedule page, season type
    by season type from the last, those with a date, one row each with the
    game id taken from the game link and the result line of a final
    game. */
module Schedule {
  import opened Wrappers
  import opened Text
  import opened PyJson
  import opened Scrape

  datatype ScheduleRow = ScheduleRow(team: Json, teamId: Json, season: Json, gameId: string,
                                     day: string, time: string, opponent: Json, opponentId: Json,
                                     seasonType: Json, status: Json, network: Json, result: Json)

  const MARK: string := "gameId/"

  /** The number of digits in the run starting at `q`. */
  function DigitRun(s: string, q: nat): (k: nat)
    requires q <= |s|
    ensures q + k <= |s|
    ensures forall i :: q <= i < q + k ==> IsDigit(s[i])
    ensures q + k < |s| ==> !IsDigit(s[q + k])
    decreases |s| - q
  {
    if q < |s| && IsDigit(s[q]) then 1 + DigitRun(s, q + 1) else 0
  }

  /** `gameId/(\d+)/` matches at `p`: the greedy digit run cannot give any
      digits back, so it must be non-empty and directly followed by `/`. */
  predicate IdAt(s: string, p: int) {
    Occurs(s, MARK, p) &&
    var k := DigitRun(s, p + |MARK|);
    k > 0 && p + |MARK| + k < |s| && s[p + |MARK| + k] == '/'
  }

  /** The leftmost match at or after `p`. */
  function SearchFrom(s: string, p: nat): (r: Option<nat>)
    ensures r.Some? ==> p <= r.value && IdAt(s, r.value)
    ensures r.Some? ==> forall j :: p <= j < r.value ==> !IdAt(s, j)
    ensures r.None? ==> forall j :: p <= j ==> !IdAt(s, j)
    decreases |s| - p
  {
    if p >= |s| then None
    else if IdAt(s, p) then Some(p)
    else SearchFrom(s, p + 1)
  }

  /** `mat.group(1) if mat is not None else ''` for
      `re.search(r'gameId/(\d+)/', s)`. */
  function GameIdText(s: string): string {
    match SearchFrom(s, 0)
    case None => ""
    case Some(p) => s[p + |MARK|..p + |MARK| + DigitRun(s, p + |MARK|)]
  }

  /** `re.search` needs a string. */
  function GameIdOf(link: Json): Res<string> {
    match link
    case JStr(s) => Ok(GameIdText(s))
    case _ => Err(TypeError)
  }

  /** The line of a final game, `"<W/L> <us>-<them>"`, or `"N/A"`. */
  function ResultLine(status: Json, res: Json): Res<Json> {
    if status == JStr("Final") then
      var w :- Get(res, "winLossSymbol");
      var a :- Plus(w, JStr(" "));
      var us :- Get(res, "currentTeamScore");
      var b :- Plus(a, us);
      var c :- Plus(b, JStr("-"));
      var them :- Get(res, "opponentTeamScore");
      Plus(c, them)
    else Ok(JStr("N/A"))
  }

  /** `ev['network'][0]['name'] if len(ev['network']) > 0 else ''` */
  function Network(ev: Json): Res<Json> {
    var net :- Get(ev, "network");
    var n :- Len(net);
    if n > 0 then
      var first :- At(net, 0);
      Get(first, "name")
    else Ok(JStr(""))
  }

  /** One event's row, its fields read in the order of the source. */
  function EventRow(team: Json, teamId: Json, season: Json, dates: DateParser, ev: Json): Res<ScheduleRow> {
    var link :- Path(ev, ["time", "link"]);
    var gameId :- GameIdOf(link);
    var d :- Path(ev, ["date", "date"]);
    var m :- ParseDate(dates, d);
    var opponent :- Path(ev, ["opponent", "displayName"]);
    var opponentId :- Path(ev, ["opponent", "id"]);
    var network :- Network(ev);
    var seasonType :- Path(ev, ["seasonType", "name"]);
    var outcome :- Outcome(ev);
    Ok(ScheduleRow(team, teamId, season, gameId, m.day, m.time, opponent, opponentId,
                   seasonType, outcome.0, network, outcome.1))
  }

  /** The game status and the result line read from it. */
  function Outcome(ev: Json): Res<(Json, Json)> {
    var status :- Path(ev, ["status", "description"]);
    var res :- Get(ev, "result");
    var result :- ResultLine(status, res);
    Ok((status, result))
  }

  /** `x['events']['pre'] + x['events']['post']`, as the items `extend`
      adds. */
  function EventsOf(x: Json): Res<seq<Json>> {
    var pre :- Path(x, ["events", "pre"]);
    var post :- Path(x, ["events", "post"]);
    match (pre, post)
    case (JArr(a), JArr(b)) => Ok(a + b)
    case (JStr(a), JStr(b)) => Iterate(JStr(a + b))
    case _ => Err(TypeError)
  }

  /** The events of the season types in the given order. */
  function Gathered(types: seq<Json>): Res<seq<Json>> {
    if types == [] then Ok([])
    else
      var first :- EventsOf(types[0]);
      var rest :- Gathered(types[1..]);
      Ok(first + rest)
  }

  /** `[x for x in events if 'date' in x]` */
  function Dated(events: seq<Json>): (r: Res<seq<Json>>)
    ensures r.Ok? ==> |r.value| <= |events|
  {
    if events == [] then Ok([])
    else
      var has :- In(events[0], "date");
      var rest :- Dated(events[1..]);
      Ok(if has then [events[0]] + rest else rest)
  }

  function Reversed<T>(s: seq<T>): (r: seq<T>)
    ensures |r| == |s|
  {
    seq(|s|, i requires 0 <= i < |s| => s[|s| - 1 - i])
  }

  /** `season_types[::-1]` */
  function SeasonTypes(jsn: Json): Res<seq<Json>> {
    var types :- Path(jsn, ["page", "content", "scheduleData", "teamSchedule"]);
    var items :- Iterate(types);
    Ok(Reversed(items))
  }

  /** `_get_schedule_helper` up to the final sort by team and date. */
  function Schedule(jsn: Json, team: Json, teamId: Json, season: Json, dates: DateParser): Res<seq<ScheduleRow>> {
    var events :- DatedEvents(jsn);
    Rows(events, team, teamId, season, dates)
  }

  /** The events of every season type, the last type first, that have a
      date. */
  function DatedEvents(jsn: Json): Res<seq<Json>> {
    var types :- SeasonTypes(jsn);
    var all :- Gathered(types);
    Dated(all)
  }

  /** One row per dated event, failing at the first event that fails. */
  function Rows(events: seq<Json>, team: Json, teamId: Json, season: Json, dates: DateParser): Res<seq<ScheduleRow>> {
    MapR(events, ev => EventRow(team, teamId, season, dates, ev))
  }

  /** `xs` in front of a successful result. */
  function Prefixed<T>(xs: seq<T>, r: Res<seq<T>>): Res<seq<T>> {
    if r.Ok? then Ok(xs + r.value) else r
  }

  lemma PrefixedEmpty<T>(r: Res<seq<T>>)
    ensures Prefixed([], r) == r
  {
    if r.Ok? { assert [] + r.value == r.value; }
  }

  lemma PrefixedTwice<T>(xs: seq<T>, ys: seq<T>, r: Res<seq<T>>)
    ensures Prefixed(xs, Prefixed(ys, r)) == Prefixed(xs + ys, r)
  {
    if r.Ok? { assert xs + (ys + r.value) == xs + ys + r.value; }
  }

  /** The `extend` loop over the season types. */
  method GatherEvents(types: seq<Json>) returns (r: Res<seq<Json>>)
    ensures r == Gathered(types)
  {
    var all: seq<Json> := [];
    var i := 0;
    assert types[0..] == types;
    PrefixedEmpty(Gathered(types));
    while i < |types|
      invariant i <= |types|
      invariant Gathered(types) == Prefixed(all, Gathered(types[i..]))
    {
      assert types[i..][1..] == types[i + 1..];
      var y :- EventsOf(types[i]);
      PrefixedTwice(all, y, Gathered(types[i + 1..]));
      all := all + y;
      i := i + 1;
    }
    assert types[i..] == [] && all + [] == all;
    r := Ok(all);
  }

  lemma RowsStep(events: seq<Json>, k: nat, team: Json, teamId: Json, season: Json, dates: DateParser)
    requires k < |events|
    ensures Rows(events[k..], team, teamId, season, dates) ==
      match EventRow(team, teamId, season, dates, events[k])
      case Err(e) => Err(e)
      case Ok(row) => Prefixed([row], Rows(events[k + 1..], team, teamId, season, dates))
  {
    assert events[k..][0] == events[k] && events[k..][1..] == events[k + 1..];
  }

  /** The row loop: one appended row per dated event. */
  method EventRows(events: seq<Json>, team: Json, teamId: Json, season: Json, dates: DateParser)
    returns (r: Res<seq<ScheduleRow>>)
    ensures r == Rows(events, team, teamId, season, dates)
  {
    var data: seq<ScheduleRow> := [];
    var k := 0;
    assert events[0..] == events;
    PrefixedEmpty(Rows(events, team, teamId, season, dates));
    while k < |events|
      invariant k <= |events|
      invariant Rows(events, team, teamId, season, dates) ==
                Prefixed(data, Rows(events[k..], team, teamId, season, dates))
    {
      RowsStep(events, k, team, teamId, season, dates);
      var row :- EventRow(team, teamId, season, dates, events[k]);
      PrefixedTwice(data, [row], Rows(events[k + 1..], team, teamId, season, dates));
      data := data + [row];
      k := k + 1;
    }
    assert events[k..] == [];
    assert data + [] == data;
    r := Ok(data);
  }

  /** The season types, the `extend` loop and the date filter. */
  method GetDatedEvents(jsn: Json) returns (r: Res<seq<Json>>)
    ensures r == DatedEvents(jsn)
  {
    var types :- SeasonTypes(jsn);
    var all :- GatherEvents(types);
    r := Dated(all);
  }

  /** The helper: the dated events, then the row loop. */
  method ScheduleHelper(jsn: Json, team: Json, teamId: Json, season: Json, dates: DateParser)
    returns (r: Res<seq<ScheduleRow>>)
    ensures r == Schedule(jsn, team, teamId, season, dates)
  {
    var events :- GetDatedEvents(jsn);
    r := EventRows(events, team, teamId, season, dates);
  }

  /** The first match at or after `p` is the match at `q` when nothing
      between them matches. */
  lemma SearchFromFirst(s: string, p: nat, q: nat)
    requires p <= q && IdAt(s, q)
    requires forall j :: p <= j < q ==> !IdAt(s, j)
    ensures SearchFrom(s, p) == Some(q)
  {
  }

  /** A block of digits followed by a slash is a digit run of exactly its
      own length. */
  lemma {:induction false} DigitRunOfBlock(s: string, q: nat, digits: string)
    requires q + |digits| < |s|
    requires s[q..q + |digits|] == digits && AllDigits(digits)
    requires s[q + |digits|] == '/'
    ensures DigitRun(s, q) == |digits|
    decreases |digits|
  {
    if digits != [] {
      assert s[q] == digits[0];
      assert s[q + 1..q + |digits|] == digits[1..];
      assert AllDigits(digits[1..]) by {
        forall i | 0 <= i < |digits[1..]| ensures IsDigit(digits[1..][i]) {
          assert digits[1..][i] == digits[i + 1];
        }
      }
      DigitRunOfBlock(s, q + 1, digits[1..]);
    }
  }

  /** The game id is empty exactly when the link has no match. */
  lemma GameIdEmpty(s: string)
    ensures GameIdText(s) == "" <==> forall j :: 0 <= j ==> !IdAt(s, j)
  {
    if SearchFrom(s, 0).Some? {
      var p := SearchFrom(s, 0).value;
      assert |GameIdText(s)| == DigitRun(s, p + |MARK|) > 0;
    }
  }

  /** At the leftmost match the game id is the non-empty run of digits
      between `gameId/` and the next slash. */
  lemma GameIdAt(s: string, p: nat)
    requires SearchFrom(s, 0) == Some(p)
    ensures var id := GameIdText(s);
      |id| > 0 && AllDigits(id) && p + |MARK| + |id| < |s| &&
      s[p..p + |MARK|] == MARK && s[p + |MARK|..p + |MARK| + |id|] == id && s[p + |MARK| + |id|] == '/'
  {
    var id := GameIdText(s);
    assert AllDigits(id) by {
      forall i | 0 <= i < |id| ensures IsDigit(id[i]) {
        assert id[i] == s[p + |MARK| + i];
      }
    }
  }

  /** When the first `gameId/` of a link is followed by digits and a slash,
      those digits are its game id. */
  lemma GameIdAtFirstMark(s: string, p: nat, digits: string)
    requires Occurs(s, MARK, p) && forall j :: 0 <= j < p ==> !Occurs(s, MARK, j)
    requires |digits| > 0 && AllDigits(digits)
    requires p + |MARK| + |digits| < |s|
    requires s[p + |MARK|..p + |MARK| + |digits|] == digits && s[p + |MARK| + |digits|] == '/'
    ensures GameIdText(s) == digits
  {
    DigitRunOfBlock(s, p + |MARK|, digits);
    SearchFromFirst(s, 0, p);
  }

  /** The digits written after the first `gameId/` of a link, and closed by
      a slash, are its game id. */
  lemma GameIdOfLink(pre: string, digits: string, post: string)
    requires forall j :: 0 <= j < |pre| ==> !Occurs(pre + MARK, MARK, j)
    requires |digits| > 0 && AllDigits(digits)
    ensures GameIdText(pre + MARK + digits + "/" + post) == digits
  {
    var head := pre + MARK;
    var tail := digits + "/" + post;
    var s := head + tail;
    assert s == pre + MARK + digits + "/" + post;
    forall j | 0 <= j < |pre| ensures !Occurs(s, MARK, j) {
      PrefixOccurs(head, tail, MARK, j);
    }
    PrefixOccurs(head, tail, MARK, |pre|);
    assert head[|pre|..] == MARK;
    var q := |head|;
    assert s[q..q + |digits|] == tail[..|digits|] == digits;
    assert s[q + |digits|] == tail[|digits|] == '/';
    GameIdAtFirstMark(s, |pre|, digits);
  }

  /** The round trip of a numeric game id through an event link. */
  lemma GameIdRoundTrip(pre: string, n: nat, post: string)
    requires forall j :: 0 <= j < |pre| ==> !Occurs(pre + MARK, MARK, j)
    ensures GameIdText(pre + MARK + NatToString(n) + "/" + post) == NatToString(n)
  {
    GameIdOfLink(pre, NatToString(n), post);
  }

  /** A final game with string fields gets `"<W/L> <us>-<them>"`; any other
      status gets `"N/A"`. */
  lemma ResultLineSpec(status: Json, res: Json, w: string, us: string, them: string)
    requires res.JObj? && "winLossSymbol" in res.fields && "currentTeamScore" in res.fields &&
             "opponentTeamScore" in res.fields
    requires res.fields["winLossSymbol"] == JStr(w) && res.fields["currentTeamScore"] == JStr(us) &&
             res.fields["opponentTeamScore"] == JStr(them)
    ensures status == JStr("Final") ==> ResultLine(status, res) == Ok(JStr(w + " " + us + "-" + them))
    ensures status != JStr("Final") ==> ResultLine(status, res) == Ok(JStr("N/A"))
  {
    if status == JStr("Final") {
      assert w + " " + us + "-" + them == ((w + " ") + us + "-") + them;
    }
  }

  /** The result is `"N/A"` exactly when the game is not final: a final
      game's line holds a space. */
  lemma ResultLineNotApplicable(status: Json, res: Json)
    requires ResultLine(status, res).Ok?
    ensures ResultLine(status, res).value == JStr("N/A") <==> status != JStr("Final")
  {
    if status == JStr("Final") {
      var w := Get(res, "winLossSymbol").value;
      var line := ResultLine(status, res).value;
      assert w.JStr? && line.JStr?;
      assert line.s[|w.s|] == ' ';
      assert ' ' !in "N/A";
    }
  }

  /** A final game's result fails when a part is missing or is not a
      string; a game that is not final never reads the result. */
  lemma ResultLineFails(status: Json, res: Json)
    ensures ResultLine(status, res).Err? ==> status == JStr("Final")
    ensures status == JStr("Final") && !res.JObj? ==> ResultLine(status, res).Err?
    ensures (status == JStr("Final") && res.JObj? && "winLossSymbol" in res.fields &&
             !res.fields["winLossSymbol"].JStr?) ==> ResultLine(status, res).Err?
  {
  }

  /** The two halves of a result line split back into the symbol and the
      score, and the score into the two team scores, when none of them
      holds a separator. */
  lemma ResultLineParts(w: string, us: string, them: string, space: char, dash: char)
    requires space == ' ' && dash == '-'
    requires space !in w && space !in us && space !in them
    requires dash !in us && dash !in them
    ensures Split(w + " " + us + "-" + them, " ") == [w, us + "-" + them]
    ensures Split(us + "-" + them, "-") == [us, them]
  {
    var score := us + "-" + them;
    assert Join([them], [dash]) == them;
    assert Join([us, them], [dash]) == score;
    ContainsChar(us, dash);
    ContainsChar(them, dash);
    SplitJoin([us, them], dash);
    assert space !in score;
    ContainsChar(w, space);
    ContainsChar(score, space);
    assert Join([score], [space]) == score;
    assert Join([w, score], [space]) == w + " " + us + "-" + them;
    SplitJoin([w, score], space);
  }

  /** The first network's name, or `""` for an empty list. */
  lemma NetworkSpec(ev: Json, nets: seq<Json>)
    requires ev.JObj? && "network" in ev.fields && ev.fields["network"] == JArr(nets)
    ensures nets == [] ==> Network(ev) == Ok(JStr(""))
    ensures nets != [] ==> Network(ev) == Get(nets[0], "name")
  {
  }

  /** A row's result is `"N/A"` exactly when its game is not final, and it
      belongs to the requested team. */
  lemma EventRowResult(team: Json, teamId: Json, season: Json, dates: DateParser,
                       ev: Json, row: ScheduleRow)
    requires EventRow(team, teamId, season, dates, ev) == Ok(row)
    ensures row.team == team && row.teamId == teamId && row.season == season
    ensures row.result == JStr("N/A") <==> row.status != JStr("Final")
  {
    var o := Outcome(ev).value;
    ResultLineNotApplicable(o.0, Get(ev, "result").value);
  }

  /** The date filter fails exactly when some event cannot be asked for a
      `date`, and otherwise keeps exactly the events that have one. */
  lemma {:induction false} DatedSpec(events: seq<Json>)
    ensures Dated(events).Ok? <==> forall i :: 0 <= i < |events| ==> In(events[i], "date").Ok?
    ensures Dated(events).Ok? ==>
              forall x :: x in Dated(events).value <==> x in events && In(x, "date") == Ok(true)
  {
    if events != [] {
      DatedSpec(events[1..]);
      if Dated(events).Ok? {
        forall x ensures x in Dated(events).value <==> x in events && In(x, "date") == Ok(true) {
          assert x in events <==> x == events[0] || x in events[1..];
        }
      } else if In(events[0], "date").Ok? {
        var i :| 0 <= i < |events[1..]| && !In(events[1..][i], "date").Ok?;
        assert events[1..][i] == events[i + 1];
      }
    }
  }

  /** Filtering dated events again changes nothing. */
  lemma {:induction false} DatedIdempotent(events: seq<Json>)
    requires Dated(events).Ok?
    ensures Dated(Dated(events).value) == Dated(events)
  {
    if events != [] {
      DatedIdempotent(events[1..]);
      var has := In(events[0], "date").value;
      var rest := Dated(events[1..]).value;
      if has {
        assert ([events[0]] + rest)[0] == events[0] && ([events[0]] + rest)[1..] == rest;
      }
    }
  }

  /** Gathering over two runs of season types concatenates their events. */
  lemma {:induction false} GatheredAppend(a: seq<Json>, b: seq<Json>)
    ensures Gathered(a).Err? ==> Gathered(a + b).Err?
    ensures Gathered(a).Ok? ==> Gathered(a + b) == Prefixed(Gathered(a).value, Gathered(b))
  {
    if a == [] {
      assert a + b == b;
      PrefixedEmpty(Gathered(b));
    } else {
      assert (a + b)[0] == a[0] && (a + b)[1..] == a[1..] + b;
      GatheredAppend(a[1..], b);
      if Gathered(a).Ok? {
        var first := EventsOf(a[0]).value;
        PrefixedTwice(first, Gathered(a[1..]).value, Gathered(b));
      }
    }
  }

  /** The season types are read from the last: the last type's events come
      before those of the others. */
  lemma LastSeasonFirst(items: seq<Json>, x: Json, y: seq<Json>)
    requires Gathered(Reversed(items + [x])).Ok? && EventsOf(x) == Ok(y)
    ensures Gathered(Reversed(items + [x])).value[..|y|] == y
  {
    assert Reversed(items + [x])[0] == x;
  }

  /** One row per dated event, each the row of its event, all for the
      requested team. */
  lemma ScheduleRows(jsn: Json, team: Json, teamId: Json, season: Json, dates: DateParser,
                     events: seq<Json>, rows: seq<ScheduleRow>)
    requires DatedEvents(jsn) == Ok(events)
    requires Schedule(jsn, team, teamId, season, dates) == Ok(rows)
    ensures |rows| == |events|
    ensures forall i :: 0 <= i < |rows| ==> EventRow(team, teamId, season, dates, events[i]) == Ok(rows[i])
    ensures forall i :: 0 <= i < |rows| ==> rows[i].team == team && rows[i].teamId == teamId
    ensures forall i :: 0 <= i < |rows| ==> In(events[i], "date") == Ok(true)
  {
    var f := ev => EventRow(team, teamId, season, dates, ev);
    assert Rows(events, team, teamId, season, dates) == Ok(rows);
    forall i | 0 <= i < |rows| ensures rows[i].team == team && rows[i].teamId == teamId {
      assert f(events[i]) == Ok(rows[i]);
      EventRowResult(team, teamId, season, dates, events[i], rows[i]);
    }
    var types := SeasonTypes(jsn).value;
    var all := Gathered(types).value;
    DatedSpec(all);
    forall i | 0 <= i < |rows| ensures In(events[i], "date") == Ok(true) {
      assert events[i] in Dated(all).value;
    }
  }
}
