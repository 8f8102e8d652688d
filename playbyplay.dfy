/** The play-by-play helper: flattens the play groups, computes each column
    with its own comprehension (so the first column that raises decides the
    error), types the plays with the classifier loop, derives shooter and
    assist columns, and attaches shot coordinates from the shot chart. */
module PlayByPlay {
  import opened Wrappers
  import opened Text
  import opened PyJson
  import opened Scrape
  import opened Plays
  import opened GameClock
  import opened ShotChart

  /** Columns the current and older helpers add and the women's helper
      lacks. */
  datatype Extra = Extra(isThree: bool, shotX: Option<int>, shotY: Option<int>)

  datatype PlayRow = PlayRow(
    gameId: string, homeTeam: Json, awayTeam: Json, desc: string,
    homeScore: Option<int>, awayScore: Option<int>, period: Option<int>,
    periodSecs: int, regSecs: int, team: Json, playType: string,
    shooting: bool, scoring: bool, shooter: string, assisted: bool,
    assistPlayer: string, extra: Option<Extra>)

  /** The helper's DataFrame: empty when the game has no plays, else one row
      per play; the rule names the period columns (`half`/`quarter`). */
  datatype PbpTable = EmptyTable | Table(rule: PeriodRule, rows: seq<PlayRow>)

  function Concat(groups: seq<seq<Json>>): seq<Json> {
    if groups == [] then [] else groups[0] + Concat(groups[1..])
  }

  /** `[play for period in pbp["playGrps"] for play in period]` */
  function AllPlays(pbp: Json): Res<seq<Json>> {
    var grps :- Get(pbp, "playGrps");
    var groups :- Iterate(grps);
    var plays :- MapR(groups, Iterate);
    Ok(Concat(plays))
  }

  /** `x["text"] if "text" in x.keys() else ""` */
  function DescOf(x: Json): Res<Json> {
    var has :- HasKey(x, "text");
    if has then Get(x, "text") else Ok(JStr(""))
  }

  /** What the classifier loop sees of a play: its text, or nothing. */
  function TextOf(x: Json): Res<Option<Json>> {
    var has :- HasKey(x, "text");
    if has then
      var t :- Get(x, "text");
      Ok(Some(t))
    else Ok(None)
  }

  /** `play_team`: "" without `homeAway`, else the home or away name. */
  function TeamOf(x: Json, home: Json, away: Json): Res<Json> {
    var has :- HasKey(x, "homeAway");
    if !has then Ok(JStr(""))
    else
      var side :- Get(x, "homeAway");
      Ok(if side == JStr("home") then home else away)
  }

  /** `int(x[key]) if key in x.keys() else np.nan` */
  function OptInt(x: Json, key: string): Res<Option<int>> {
    var has :- HasKey(x, key);
    if !has then Ok(None)
    else
      var v :- Get(x, key);
      var n :- ToInt(v);
      Ok(Some(n))
  }

  /** `int(x["period"]["number"]) if "period" in x.keys() else np.nan` */
  function PeriodOf(x: Json): Res<Option<int>> {
    var has :- HasKey(x, "period");
    if !has then Ok(None)
    else
      var v :- Path(x, ["period", "number"]);
      var n :- ToInt(v);
      Ok(Some(n))
  }

  /** `descs`, `teams`, `hscores`, `ascores` and `periods`. */
  datatype PlayFields = PlayFields(
    descs: seq<Json>, teams: seq<Json>, hscores: seq<Option<int>>,
    ascores: seq<Option<int>>, periods: seq<Option<int>>)

  function FieldColumns(plays: seq<Json>, home: Json, away: Json): (r: Res<PlayFields>)
    ensures r.Ok? ==> var f := r.value;
      |f.descs| == |plays| && |f.teams| == |plays| && |f.hscores| == |plays| &&
      |f.ascores| == |plays| && |f.periods| == |plays|
    ensures r.Ok? ==> forall i :: 0 <= i < |plays| ==>
      plays[i].JObj? && DescOf(plays[i]) == Ok(r.value.descs[i]) &&
      TeamOf(plays[i], home, away) == Ok(r.value.teams[i]) &&
      OptInt(plays[i], "homeScore") == Ok(r.value.hscores[i]) &&
      OptInt(plays[i], "awayScore") == Ok(r.value.ascores[i]) &&
      PeriodOf(plays[i]) == Ok(r.value.periods[i])
  {
    var descs :- MapR(plays, DescOf);
    var teams :- MapR(plays, (x: Json) => TeamOf(x, home, away));
    var hscores :- MapR(plays, (x: Json) => OptInt(x, "homeScore"));
    var ascores :- MapR(plays, (x: Json) => OptInt(x, "awayScore"));
    var periods :- MapR(plays, PeriodOf);
    assert forall i :: 0 <= i < |plays| ==> plays[i].JObj? by {
      forall i | 0 <= i < |plays| ensures plays[i].JObj? {
        assert DescOf(plays[i]).Ok?;
      }
    }
    Ok(PlayFields(descs, teams, hscores, ascores, periods))
  }

  /** `time_splits`, `minutes`, `seconds` and the seconds left in the
      period. Every play must carry a clock whose two fields parse. */
  function ClockColumn(plays: seq<Json>): (r: Res<seq<int>>)
    ensures r.Ok? ==> |r.value| == |plays|
    ensures r.Ok? ==> forall i :: 0 <= i < |plays| ==>
      SplitClock(plays[i]).Ok? && SplitClock(plays[i]).value.Fields? &&
      FieldInt(SplitClock(plays[i]).value, 0).Ok? && FieldInt(SplitClock(plays[i]).value, 1).Ok? &&
      r.value[i] == PeriodSecs(FieldInt(SplitClock(plays[i]).value, 0).value,
                               FieldInt(SplitClock(plays[i]).value, 1).value)
  {
    var splits :- MapR(plays, SplitClock);
    var minutes :- MapR(splits, (t: TimeSplit) => FieldInt(t, 0));
    var seconds :- MapR(splits, (t: TimeSplit) => FieldInt(t, 1));
    Ok(seq(|plays|, i requires 0 <= i < |plays| => PeriodSecs(minutes[i], seconds[i])))
  }

  /** A play (a dict) without a `clock` key makes the clock columns raise. */
  lemma MissingClockFails(plays: seq<Json>, i: nat)
    requires i < |plays| && plays[i].JObj? && "clock" !in plays[i].fields
    ensures ClockColumn(plays).Err?
  {
    NoClockFails(plays[i]);
  }

  /** The columns every snapshot computes, one comprehension at a time. */
  datatype Columns = Columns(
    descs: seq<string>, teams: seq<Json>, hscores: seq<Option<int>>,
    ascores: seq<Option<int>>, periods: seq<Option<int>>, pdSecs: seq<int>,
    regSecs: seq<int>, scoring: seq<bool>, assisted: seq<bool>,
    texts: seq<Option<Json>>)

  predicate WellShaped(c: Columns, n: nat) {
    |c.descs| == n && |c.teams| == n && |c.hscores| == n && |c.ascores| == n &&
    |c.periods| == n && |c.pdSecs| == n && |c.regSecs| == n && |c.scoring| == n &&
    |c.assisted| == n && |c.texts| == n
  }

  /** The comprehensions from `descs` to `is_assisted`, in source order.
      `is_assisted` calls `.lower()` on every present text, so it raises
      exactly when some description is not a string; converting the
      descriptions to strings at that point raises the same error. */
  function BaseColumns(plays: seq<Json>, home: Json, away: Json, rule: PeriodRule): (r: Res<Columns>)
    ensures r.Ok? ==> WellShaped(r.value, |plays|)
    ensures r.Ok? ==> forall i :: 0 <= i < |plays| ==>
      plays[i].JObj? && "clock" in plays[i].fields &&
      DescOf(plays[i]) == Ok(JStr(r.value.descs[i])) &&
      TextOf(plays[i]) == Ok(r.value.texts[i]) &&
      r.value.regSecs[i] == RegSecs(rule, r.value.periods[i], r.value.pdSecs[i]) &&
      r.value.scoring[i] == ("scoringPlay" in plays[i].fields) &&
      r.value.assisted[i] == IsAssisted(r.value.descs[i])
  {
    var f :- FieldColumns(plays, home, away);
    var pdSecs :- ClockColumn(plays);
    var regSecs := seq(|plays|, i requires 0 <= i < |plays| => RegSecs(rule, f.periods[i], pdSecs[i]));
    var scoring :- MapR(plays, (x: Json) => HasKey(x, "scoringPlay"));
    var strs :- MapR(f.descs, AsStr);
    var texts :- MapR(plays, TextOf);
    var assisted := seq(|plays|, i requires 0 <= i < |plays| => IsAssisted(strs[i]));
    Ok(Columns(strs, f.teams, f.hscores, f.ascores, f.periods, pdSecs, regSecs, scoring, assisted, texts))
  }

  /** One row from the columns, the play types and the optional extra
      columns. */
  function Row(gameId: string, home: Json, away: Json, c: Columns, types: seq<string>, i: nat,
               extra: Option<Extra>): PlayRow
    requires i < |c.descs| && i < |types|
    requires |c.hscores| == |c.ascores| == |c.periods| == |c.pdSecs| == |c.regSecs| == |c.teams| ==
      |c.scoring| == |c.assisted| == |c.descs|
  {
    PlayRow(gameId, home, away, c.descs[i], c.hscores[i], c.ascores[i], c.periods[i],
      c.pdSecs[i], c.regSecs[i], c.teams[i], types[i], IsShootingType(types[i]), c.scoring[i],
      Shooter(c.descs[i], c.scoring[i], types[i]), c.assisted[i],
      AssistPlayer(c.descs[i], c.assisted[i]), extra)
  }

  function Types(c: Columns): seq<string> {
    seq(|c.texts|, i requires 0 <= i < |c.texts| => PlayType(c.texts[i]))
  }

  /** The `(play_desc, shooting_play)` pairs the shot matcher walks. */
  function ShotInput(c: Columns, types: seq<string>): seq<(string, bool)>
    requires |types| == |c.descs|
  {
    seq(|c.descs|, i requires 0 <= i < |c.descs| => (c.descs[i], IsShootingType(types[i])))
  }

  /** A column of `n` missing values (`np.nan`). */
  function NoneColumn(n: nat): (r: seq<Option<int>>)
    ensures |r| == n && forall i :: 0 <= i < n ==> r[i].None?
  {
    if n == 0 then [] else NoneColumn(n - 1) + [None]
  }

  /** The shot feed read from `shtChrt.plays`. */
  function ChartFeed(gamepackage: Json): Res<seq<ShotEntry>> {
    var chart :- Path(gamepackage, ["shtChrt", "plays"]);
    ShotFeed(chart)
  }

  /** The shot columns: all missing without `shtChrt`, else the walk over
      the feed read from `shtChrt.plays`, failing exactly when that feed
      cannot be read. The fallback for a walk whose columns disagree in
      length with the table is kept, and never taken: both columns always
      have one entry per row. */
  function ShotColumns(gamepackage: Json, pairs: seq<(string, bool)>): (r: Res<(seq<Option<int>>, seq<Option<int>>)>)
    ensures r.Ok? ==> |r.value.0| == |pairs| && |r.value.1| == |pairs|
    ensures gamepackage.JObj? && "shtChrt" !in gamepackage.fields ==>
      r.Ok? && forall i :: 0 <= i < |pairs| ==> r.value.0[i].None? && r.value.1[i].None?
    ensures gamepackage.JObj? && "shtChrt" in gamepackage.fields ==>
      (r.Ok? <==> ChartFeed(gamepackage).Ok?) &&
      (r.Ok? ==> r.value == (Walk(pairs, ChartFeed(gamepackage).value).xs,
                             Walk(pairs, ChartFeed(gamepackage).value).ys))
  {
    var missing := NoneColumn(|pairs|);
    var has :- In(gamepackage, "shtChrt");
    if !has then Ok((missing, missing))
    else
      var chart :- Path(gamepackage, ["shtChrt", "plays"]);
      var feed :- ShotFeed(chart);
      var w := Walk(pairs, feed);
      WalkShape(pairs, feed);
      if |w.xs| != |pairs| || |w.ys| != |pairs| then Ok((missing, missing))
      else Ok((w.xs, w.ys))
  }

  /** The names and date of a game page, as the current and older helpers
      read them before looking at the plays. */
  function Header(gamepackage: Json, dates: DateParser): (r: Res<(Json, Json, Json, Moment)>)
    ensures r.Ok? ==> gamepackage.JObj? && Get(gamepackage, "pbp") == Ok(r.value.0)
  {
    var pbp :- Get(gamepackage, "pbp");
    var home :- Path(pbp, ["tms", "home", "displayName"]);
    var away :- Path(pbp, ["tms", "away", "displayName"]);
    var dt :- Path(gamepackage, ["gmInfo", "dtTm"]);
    var m :- ParseDate(dates, dt);
    Ok((pbp, home, away, m))
  }

  /** The seconds left in the period that a play's clock gives. */
  function PlayClock(play: Json): Res<int> {
    var t :- SplitClock(play);
    var minutes :- FieldInt(t, 0);
    var seconds :- FieldInt(t, 1);
    Ok(PeriodSecs(minutes, seconds))
  }

  /** What the helpers promise of each row against the play it comes from:
      the play had a clock, which gives the row's period seconds, the row
      keeps its text, team, scores and period, the play type is the
      classifier's, shooting plays are exactly those of a shot type, the
      regulation clock follows the period rule, and the shooter and
      assist columns follow from the text. */
  predicate RowFacts(play: Json, row: PlayRow, home: Json, away: Json, rule: PeriodRule) {
    play.JObj? && "clock" in play.fields &&
    DescOf(play) == Ok(JStr(row.desc)) &&
    TeamOf(play, home, away) == Ok(row.team) &&
    OptInt(play, "homeScore") == Ok(row.homeScore) &&
    OptInt(play, "awayScore") == Ok(row.awayScore) &&
    PeriodOf(play) == Ok(row.period) &&
    PlayClock(play) == Ok(row.periodSecs) &&
    TextOf(play).Ok? && row.playType == PlayType(TextOf(play).value) &&
    (row.shooting <==> row.playType in SHOT_LOWER) &&
    row.regSecs == RegSecs(rule, row.period, row.periodSecs) &&
    row.scoring == ("scoringPlay" in play.fields) &&
    row.assisted == IsAssisted(row.desc) &&
    row.shooter == Shooter(row.desc, row.scoring, row.playType) &&
    row.assistPlayer == AssistPlayer(row.desc, row.assisted)
  }

  /** The rows from the columns, with or without the extra columns. */
  function Rows(gameId: string, home: Json, away: Json, c: Columns, types: seq<string>,
                xs: seq<Option<int>>, ys: seq<Option<int>>, withExtra: bool): seq<PlayRow>
    requires WellShaped(c, |c.descs|) && |types| == |c.descs| && |xs| == |c.descs| && |ys| == |c.descs|
  {
    seq(|c.descs|, i requires 0 <= i < |c.descs| =>
      Row(gameId, home, away, c, types, i,
        if withExtra then Some(Extra(IsThree(c.descs[i]), xs[i], ys[i])) else None))
  }

  /** Row `i` of the table satisfies `RowFacts` against play `i`. */
  lemma RowFactsAt(plays: seq<Json>, gameId: string, home: Json, away: Json, rule: PeriodRule,
                   xs: seq<Option<int>>, ys: seq<Option<int>>, withExtra: bool, i: nat)
    requires BaseColumns(plays, home, away, rule).Ok?
    requires |xs| == |plays| && |ys| == |plays| && i < |plays|
    ensures var c := BaseColumns(plays, home, away, rule).value;
      var rows := Rows(gameId, home, away, c, Types(c), xs, ys, withExtra);
      |rows| == |plays| && RowFacts(plays[i], rows[i], home, away, rule) &&
      rows[i].gameId == gameId && rows[i].homeTeam == home && rows[i].awayTeam == away &&
      (withExtra <==> rows[i].extra.Some?) &&
      (withExtra ==> rows[i].extra == Some(Extra(IsThree(rows[i].desc), xs[i], ys[i])))
  {
    var c := BaseColumns(plays, home, away, rule).value;
    FieldsOfBase(plays, home, away, rule, i);
    var row := Rows(gameId, home, away, c, Types(c), xs, ys, withExtra)[i];
    assert row.playType == PlayType(c.texts[i]);
  }

  /** Rows built from the base columns and the classifier's types satisfy
      `RowFacts` against their plays. */
  lemma RowsFacts(plays: seq<Json>, gameId: string, home: Json, away: Json, rule: PeriodRule,
                  xs: seq<Option<int>>, ys: seq<Option<int>>, withExtra: bool)
    requires BaseColumns(plays, home, away, rule).Ok?
    requires |xs| == |plays| && |ys| == |plays|
    ensures var c := BaseColumns(plays, home, away, rule).value;
      var rows := Rows(gameId, home, away, c, Types(c), xs, ys, withExtra);
      |rows| == |plays| &&
      forall i :: 0 <= i < |plays| ==>
        (RowFacts(plays[i], rows[i], home, away, rule) &&
         rows[i].gameId == gameId && rows[i].homeTeam == home && rows[i].awayTeam == away &&
         (withExtra <==> rows[i].extra.Some?) &&
         (withExtra ==> rows[i].extra == Some(Extra(IsThree(rows[i].desc), xs[i], ys[i]))))
  {
    var c := BaseColumns(plays, home, away, rule).value;
    var rows := Rows(gameId, home, away, c, Types(c), xs, ys, withExtra);
    forall i | 0 <= i < |plays|
      ensures RowFacts(plays[i], rows[i], home, away, rule) &&
        rows[i].gameId == gameId && rows[i].homeTeam == home && rows[i].awayTeam == away &&
        (withExtra <==> rows[i].extra.Some?) &&
        (withExtra ==> rows[i].extra == Some(Extra(IsThree(rows[i].desc), xs[i], ys[i])))
    {
      RowFactsAt(plays, gameId, home, away, rule, xs, ys, withExtra, i);
    }
  }

  /** The team, score, period and clock columns of the base columns are
      the plays'. */
  lemma FieldsOfBase(plays: seq<Json>, home: Json, away: Json, rule: PeriodRule, i: nat)
    requires BaseColumns(plays, home, away, rule).Ok? && i < |plays|
    ensures var c := BaseColumns(plays, home, away, rule).value;
      TeamOf(plays[i], home, away) == Ok(c.teams[i]) && PeriodOf(plays[i]) == Ok(c.periods[i]) &&
      OptInt(plays[i], "homeScore") == Ok(c.hscores[i]) &&
      OptInt(plays[i], "awayScore") == Ok(c.ascores[i]) &&
      PlayClock(plays[i]) == Ok(c.pdSecs[i])
  {
    var c := BaseColumns(plays, home, away, rule).value;
    var f := FieldColumns(plays, home, away).value;
    var pd := ClockColumn(plays).value;
    assert c.teams == f.teams && c.periods == f.periods && c.hscores == f.hscores &&
      c.ascores == f.ascores && c.pdSecs == pd;
    var t := SplitClock(plays[i]).value;
    assert pd[i] == PeriodSecs(FieldInt(t, 0).value, FieldInt(t, 1).value);
  }

  /** `_get_game_pbp_helper` of the current and older files, up to the final
      sort of the current file. */
  function GamePbp(gamepackage: Json, gameId: string, gameType: string, dates: DateParser): Res<PbpTable> {
    var (pbp, home, away, m) :- Header(gamepackage, dates);
    var plays :- AllPlays(pbp);
    if |plays| == 0 then Ok(EmptyTable)
    else
      var rule := Rule(Current, gameType, m.beforeCutoffUtc);
      var c :- BaseColumns(plays, home, away, rule);
      var types := Types(c);
      var (xs, ys) :- ShotColumns(gamepackage, ShotInput(c, types));
      Ok(Table(rule, Rows(gameId, home, away, c, types, xs, ys, true)))
  }

  /** The current file's play-by-play helper: the comprehensions, the
      classifier loop and the shot-matching loop, giving `GamePbp`. */
  method GamePbpHelper(gamepackage: Json, gameId: string, gameType: string, dates: DateParser)
    returns (r: Res<PbpTable>)
    ensures r == GamePbp(gamepackage, gameId, gameType, dates)
  {
    var h :- Header(gamepackage, dates);
    var (pbp, home, away, m) := h;
    var plays :- AllPlays(pbp);
    if |plays| == 0 {
      return Ok(EmptyTable);
    }
    var rule := Rule(Current, gameType, m.beforeCutoffUtc);
    var c :- BaseColumns(plays, home, away, rule);
    var types := AssignPlayTypes(c.texts);
    assert types == Types(c);
    var pairs := ShotInput(c, types);
    var missing := NoneColumn(|pairs|);
    var xs, ys := missing, missing;
    var isShotchart := "shtChrt" in gamepackage.fields;
    if isShotchart {
      var chart :- Path(gamepackage, ["shtChrt", "plays"]);
      var feed :- ShotFeed(chart);
      xs, ys := MatchShots(pairs, feed);
      WalkShape(pairs, feed);
      if |xs| != |pairs| || |ys| != |pairs| {
        xs, ys := missing, missing;
      }
    }
    r := Ok(Table(rule, Rows(gameId, home, away, c, types, xs, ys, true)));
  }

  /** The rows' texts and shooting flags are the shot matcher's input, and
      each row's extra columns carry the matched coordinates. */
  lemma RowsShots(gameId: string, home: Json, away: Json, c: Columns, types: seq<string>,
                  xs: seq<Option<int>>, ys: seq<Option<int>>)
    requires WellShaped(c, |c.descs|) && |types| == |c.descs| && |xs| == |c.descs| && |ys| == |c.descs|
    ensures var rows := Rows(gameId, home, away, c, types, xs, ys, true);
      ShotPairs(rows) == ShotInput(c, types) &&
      forall i :: 0 <= i < |rows| ==>
        rows[i].extra.Some? && rows[i].extra.value.shotX == xs[i] && rows[i].extra.value.shotY == ys[i]
  {
    var rows := Rows(gameId, home, away, c, types, xs, ys, true);
    assert ShotPairs(rows) == ShotInput(c, types) by {
      forall j | 0 <= j < |rows| ensures ShotPairs(rows)[j] == ShotInput(c, types)[j] {
        assert rows[j].desc == c.descs[j] && rows[j].shooting == IsShootingType(types[j]);
      }
    }
  }

  /** What the current and older helpers promise: the header must read, a
      game without plays gives the empty table, and otherwise there is one
      row per play, under the period rule of the game's type and date, each
      row satisfying `RowFacts` and carrying its shot columns. */
  lemma GamePbpSpec(gamepackage: Json, gameId: string, gameType: string, dates: DateParser)
    requires GamePbp(gamepackage, gameId, gameType, dates).Ok?
    ensures Header(gamepackage, dates).Ok? && AllPlays(Header(gamepackage, dates).value.0).Ok?
    ensures var (pbp, home, away, m) := Header(gamepackage, dates).value;
      var plays := AllPlays(pbp).value;
      var t := GamePbp(gamepackage, gameId, gameType, dates).value;
      (t == EmptyTable <==> plays == []) &&
      (t.Table? ==>
        t.rule == Rule(Current, gameType, m.beforeCutoffUtc) && |t.rows| == |plays| &&
        forall i :: 0 <= i < |plays| ==>
          (RowFacts(plays[i], t.rows[i], home, away, t.rule) && t.rows[i].gameId == gameId &&
           t.rows[i].extra.Some? && t.rows[i].extra.value.isThree == IsThree(t.rows[i].desc)))
  {
    var (pbp, home, away, m) := Header(gamepackage, dates).value;
    var plays := AllPlays(pbp).value;
    if plays != [] {
      var rule := Rule(Current, gameType, m.beforeCutoffUtc);
      var c := BaseColumns(plays, home, away, rule).value;
      var sc := ShotColumns(gamepackage, ShotInput(c, Types(c))).value;
      RowsFacts(plays, gameId, home, away, rule, sc.0, sc.1, true);
    }
  }

  /** With a shot chart, each row's coordinates are the walk of the rows'
      texts and shooting flags over the `shtChrt.plays` feed. */
  lemma GamePbpShots(gamepackage: Json, gameId: string, gameType: string, dates: DateParser)
    requires GamePbp(gamepackage, gameId, gameType, dates).Ok?
    ensures var t := GamePbp(gamepackage, gameId, gameType, dates).value;
      t.Table? && "shtChrt" in gamepackage.fields ==>
        ChartFeed(gamepackage).Ok? &&
        var feed := ChartFeed(gamepackage).value;
        var w := Walk(ShotPairs(t.rows), feed);
        |w.xs| == |t.rows| && |w.ys| == |t.rows| &&
        forall i :: 0 <= i < |t.rows| ==>
          t.rows[i].extra.Some? && t.rows[i].extra.value.shotX == w.xs[i] &&
          t.rows[i].extra.value.shotY == w.ys[i]
  {
    var (pbp, home, away, m) := Header(gamepackage, dates).value;
    var plays := AllPlays(pbp).value;
    if plays != [] {
      var rule := Rule(Current, gameType, m.beforeCutoffUtc);
      var c := BaseColumns(plays, home, away, rule).value;
      var types := Types(c);
      var pairs := ShotInput(c, types);
      var sc := ShotColumns(gamepackage, pairs).value;
      assert GamePbp(gamepackage, gameId, gameType, dates) ==
        Ok(Table(rule, Rows(gameId, home, away, c, types, sc.0, sc.1, true)));
      RowsShots(gameId, home, away, c, types, sc.0, sc.1);
    }
  }

  /** The `(play_desc, shooting_play)` pairs of a table's rows. */
  function ShotPairs(rows: seq<PlayRow>): (r: seq<(string, bool)>)
    ensures |r| == |rows|
  {
    seq(|rows|, j requires 0 <= j < |rows| => (rows[j].desc, rows[j].shooting))
  }

  /** Without a shot chart every row's shot coordinates are missing. */
  lemma NoShotChart(gamepackage: Json, gameId: string, gameType: string, dates: DateParser)
    requires GamePbp(gamepackage, gameId, gameType, dates).Ok?
    requires gamepackage.JObj? && "shtChrt" !in gamepackage.fields
    ensures var t := GamePbp(gamepackage, gameId, gameType, dates).value;
      t.Table? ==> forall i :: 0 <= i < |t.rows| ==>
        t.rows[i].extra.Some? && t.rows[i].extra.value.shotX.None? && t.rows[i].extra.value.shotY.None?
  {
  }

  /** The women's scraper's helper, given `pbp` itself: no date and no
      shot chart, halves only, and neither `is_three` nor shot columns. */
  function WomensPbp(pbp: Json, gameId: string): Res<PbpTable> {
    var home :- Path(pbp, ["tms", "home", "displayName"]);
    var away :- Path(pbp, ["tms", "away", "displayName"]);
    var plays :- AllPlays(pbp);
    if |plays| == 0 then Ok(EmptyTable)
    else
      var c :- BaseColumns(plays, home, away, Halves);
      var types := Types(c);
      var none := NoneColumn(|plays|);
      Ok(Table(Halves, Rows(gameId, home, away, c, types, none, none, false)))
  }

  /** The women's helper as a method with the classifier loop. */
  method WomensPbpHelper(pbp: Json, gameId: string) returns (r: Res<PbpTable>)
    ensures r == WomensPbp(pbp, gameId)
  {
    var home :- Path(pbp, ["tms", "home", "displayName"]);
    var away :- Path(pbp, ["tms", "away", "displayName"]);
    var plays :- AllPlays(pbp);
    if |plays| == 0 {
      return Ok(EmptyTable);
    }
    var c :- BaseColumns(plays, home, away, Halves);
    var types := AssignPlayTypes(c.texts);
    assert types == Types(c);
    var none := NoneColumn(|plays|);
    r := Ok(Table(Halves, Rows(gameId, home, away, c, types, none, none, false)));
  }

  /** The women's table: one row per play under halves, each satisfying
      `RowFacts`, with no extra columns. */
  lemma WomensPbpSpec(pbp: Json, gameId: string)
    requires WomensPbp(pbp, gameId).Ok?
    ensures AllPlays(pbp).Ok?
    ensures var plays := AllPlays(pbp).value;
      var t := WomensPbp(pbp, gameId).value;
      var home := Path(pbp, ["tms", "home", "displayName"]).value;
      var away := Path(pbp, ["tms", "away", "displayName"]).value;
      (t == EmptyTable <==> plays == []) &&
      (t.Table? ==>
        t.rule == Halves && |t.rows| == |plays| &&
        forall i :: 0 <= i < |plays| ==>
          (RowFacts(plays[i], t.rows[i], home, away, Halves) && t.rows[i].extra.None?))
  {
    var plays := AllPlays(pbp).value;
    if plays != [] {
      var home := Path(pbp, ["tms", "home", "displayName"]).value;
      var away := Path(pbp, ["tms", "away", "displayName"]).value;
      var none := NoneColumn(|plays|);
      RowsFacts(plays, gameId, home, away, Halves, none, none, false);
    }
  }
}
