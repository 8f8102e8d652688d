/** The game-info helper: one row of game metadata with defaults for the
    optional keys, a fallback team id built from the display name, the win
    flag, the overtime count and the postseason and neutral-site flags. */
module GameInfo {
  import opened Wrappers
  import opened Text
  import opened PyJson
  import opened Scrape
  import opened GameClock

  /** One team's columns: name, id, rank (`JNull` for NaN), record and
      score. */
  datatype TeamRow = TeamRow(name: Json, id: Json, rank: Json, record: Json, score: int)

  /** The venue, broadcast and officials columns; a missing attendance or
      capacity is `None` (NaN). */
  datatype Venue = Venue(attendance: Option<int>, capacity: Option<int>, network: Json,
                         day: string, time: string, arena: Json, loc: Json,
                         ref1: Json, ref2: Json, ref3: Json)

  /** The game-info row. `status` and `spread` are columns of the current
      file only and are `None` for the other two. */
  datatype InfoRow = InfoRow(gameId: string, status: Option<Json>, home: TeamRow, away: TeamRow,
                             spread: Option<Json>, homeWin: bool, numOts: int, isConference: Json,
                             isNeutral: bool, isPostseason: bool, tournament: Json, venue: Venue)

  /** `int(info[key]) if key in info.keys() else np.nan`, and the current
      file's `float(info.get(key, np.nan))`, on integers. */
  function Counted(info: Json, key: string): (r: Res<Option<int>>)
    ensures r.Ok? && r.value.Some? ==> Get(info, key).Ok? && ToInt(Get(info, key).value) == Ok(r.value.value)
  {
    var has :- HasKey(info, key);
    if !has then Ok(None)
    else
      var v :- Get(info, key);
      var n :- ToInt(v);
      Ok(Some(n))
  }

  /** `refs[k]["dspNm"] if len(refs) > k else ""` */
  function Referee(refs: Json, k: nat): Res<Json> {
    var n :- Len(refs);
    if n > k then
      var r :- At(refs, k);
      Get(r, "dspNm")
    else Ok(JStr(""))
  }

  /** `city + ", " + state` of `locAddr`, or `""` without one; Python
      evaluates left to right, so `city + ", "` is formed before `state`
      is read. */
  function Location(info: Json): Res<Json> {
    var has :- HasKey(info, "locAddr");
    if !has then Ok(JStr(""))
    else
      var city :- Path(info, ["locAddr", "city"]);
      var head :- Plus(city, JStr(", "));
      var state :- Path(info, ["locAddr", "state"]);
      Plus(head, state)
  }

  /** The venue columns, read from `gmInfo` in the order of the source,
      with the parsed date; `refs` defaults to an empty dict. The current
      file reads the game's status from `gmStrp` between the date and the
      arena, so it is read here too (`JNull` in the other two files). */
  function VenueOf(snap: Snapshot, info: Json, more: Json, dates: DateParser): Res<(Venue, Moment, Json)> {
    var attendance :- Counted(info, "attnd");
    var capacity :- Counted(info, "cpcty");
    var network :- GetOr(info, "cvrg", JStr(""));
    var dt :- Get(info, "dtTm");
    var m :- ParseDate(dates, dt);
    var status :- if snap == Current then Path(more, ["status", "desc"]) else Ok(JNull);
    var arena :- GetOr(info, "loc", JStr(""));
    var loc :- Location(info);
    var refs :- GetOr(info, "refs", JObj(map[]));
    var r1 :- Referee(refs, 0);
    var r2 :- Referee(refs, 1);
    var r3 :- Referee(refs, 2);
    Ok((Venue(attendance, capacity, network, m.day, m.time, arena, loc, r1, r2, r3), m, status))
  }

  /** The characters `[^0-9a-zA-Z-]` does not remove. */
  predicate Kept(c: char) {
    '0' <= c <= '9' || 'a' <= c <= 'z' || 'A' <= c <= 'Z' || c == '-'
  }

  /** The characters of a fallback id after `nd-`. */
  predicate Clean(c: char) {
    '0' <= c <= '9' || 'a' <= c <= 'z' || c == '-'
  }

  /** `re.sub(r"[^0-9a-zA-Z-]", "", s)` */
  function KeepChars(s: string): (r: string)
    ensures |r| <= |s|
    ensures forall i :: 0 <= i < |r| ==> Kept(r[i]) && r[i] in s
    ensures (forall i :: 0 <= i < |s| ==> Kept(s[i])) ==> r == s
  {
    if s == [] then []
    else if Kept(s[0]) then [s[0]] + KeepChars(s[1..])
    else KeepChars(s[1..])
  }

  /** `"nd-" + re.sub(r"[^0-9a-zA-Z-]", "", name.lower().replace(" ", "-"))` */
  function Slug(name: Json): Res<Json> {
    var s :- AsStr(name);
    Ok(JStr("nd-" + KeepChars(Replace(Lower(s), " ", "-"))))
  }

  /** The id column from the page's `id`: that id, unless the team has no
      links, or has links but no records, in which case the fallback built
      from its display name. */
  function Fallback(t: Json, name: Json, id: Json): Res<Json> {
    var links :- Get(t, "links");
    var nl :- Len(links);
    if nl == 0 then Slug(name)
    else
      var records :- Get(t, "records");
      var nr :- Len(records);
      if nr == 0 then Slug(name) else Ok(id)
  }

  /** One team's id column. */
  function TeamId(t: Json, name: Json): Res<Json> {
    var id :- Get(t, "id");
    Fallback(t, name, id)
  }

  /** `records[0]["displayValue"] if len(records) > 0 else ""` */
  function Record(t: Json): Res<Json> {
    var records :- Get(t, "records");
    var n :- Len(records);
    if n > 0 then
      var r :- At(records, 0);
      Get(r, "displayValue")
    else Ok(JStr(""))
  }

  /** `int(t.get("score", 0))` in the current file, `int(t["score"])` in
      the other two. */
  function Score(snap: Snapshot, t: Json): Res<int> {
    var v :- if snap == Current then GetOr(t, "score", JNum(0)) else Get(t, "score");
    ToInt(v)
  }

  /** One team's columns, each read as the source reads it. */
  function TeamRowOf(snap: Snapshot, t: Json): Res<TeamRow> {
    var name :- Get(t, "displayName");
    var id :- TeamId(t, name);
    var rank :- GetOr(t, "rank", JNull);
    var record :- Record(t);
    var score :- Score(snap, t);
    Ok(TeamRow(name, id, rank, record, score))
  }

  /** `home_win`: the current file also asks for a final status. */
  function HomeWin(snap: Snapshot, status: Json, home: int, away: int): bool {
    if snap == Current then home > away && status == JStr("Final") else home > away
  }

  /** `records[1]["type"] == want` guarded by `len(records) > 1`. */
  function SecondRecordIs(t: Json, want: string): Res<bool> {
    var records :- Get(t, "records");
    var n :- Len(records);
    if n > 1 then
      var r :- At(records, 1);
      var ty :- Get(r, "type");
      Ok(ty == JStr(want))
    else Ok(false)
  }

  /** `is_neutral`: the key `neutralSite` in the current and older files;
      in the women's file, neither the home team's second record is a home
      record nor the away team's an away record. */
  function Neutral(snap: Snapshot, more: Json, ht: Json, at: Json): Res<bool> {
    if snap == Womens then
      var home :- SecondRecordIs(ht, "home");
      if home then Ok(false)
      else
        var away :- SecondRecordIs(at, "away");
        Ok(!away)
    else In(more, "neutralSite")
  }

  /** `len(t["linescores"]) - d` */
  function ExtraPeriods(t: Json, d: nat): Res<int> {
    var ls :- Get(t, "linescores");
    var n :- Len(ls);
    Ok(n - d)
  }

  /** `num_ots`: periods beyond regulation, asserted equal for both teams;
      the current and older files give -1 when either team lacks
      linescores, the women's file has no such fallback. */
  function Overtimes(snap: Snapshot, gameType: string, beforeCutoff: bool, ht: Json, at: Json): Res<int> {
    var d := PeriodsInRegulation(Rule(snap, gameType, beforeCutoff));
    var both :-
      if snap == Womens then Ok(true)
      else
        var h :- In(ht, "linescores");
        if h then In(at, "linescores") else Ok(false);
    if !both then Ok(-1)
    else
      var h :- ExtraPeriods(ht, d);
      var a :- ExtraPeriods(at, d);
      if h == a then Ok(h) else Err(AssertionError)
  }

  /** `gamepackage['gameOdds']['odds'][-1]['pointSpread']['primary']`,
      or `""` when any step raises. */
  function Spread(gamepackage: Json): Json {
    var r :=
      var odds :- Path(gamepackage, ["gameOdds", "odds"]);
      var last :- At(odds, -1);
      Path(last, ["pointSpread", "primary"]);
    if r.Ok? then r.value else JStr("")
  }

  /** The two entries of `tms` and their columns, read column by column
      for both teams in turn as the source does: the names, the ids, the
      home fallback, the away fallback, the ranks, the records and the
      scores. */
  function Teams(snap: Snapshot, more: Json): Res<(Json, Json, TeamRow, TeamRow)> {
    var teams :- Get(more, "tms");
    var ht :- At(teams, 0);
    var at :- At(teams, 1);
    var homeName :- Get(ht, "displayName");
    var awayName :- Get(at, "displayName");
    var homePageId :- Get(ht, "id");
    var awayPageId :- Get(at, "id");
    var homeId :- Fallback(ht, homeName, homePageId);
    var awayId :- Fallback(at, awayName, awayPageId);
    var homeRank :- GetOr(ht, "rank", JNull);
    var awayRank :- GetOr(at, "rank", JNull);
    var homeRecord :- Record(ht);
    var awayRecord :- Record(at);
    var homeScore :- Score(snap, ht);
    var awayScore :- Score(snap, at);
    Ok((ht, at, TeamRow(homeName, homeId, homeRank, homeRecord, homeScore),
        TeamRow(awayName, awayId, awayRank, awayRecord, awayScore)))
  }

  datatype Flags = Flags(isPostseason: bool, isConference: Json, isNeutral: bool, tournament: Json, numOts: int)

  /** The flags read from `gmStrp` after the teams, and the overtimes. */
  function FlagsOf(snap: Snapshot, gameType: string, m: Moment, more: Json, ht: Json, at: Json): Res<Flags> {
    var season :- Get(more, "seasonType");
    var conference :- Get(more, "isConferenceGame");
    var neutral :- Neutral(snap, more, ht, at);
    var tournament :- GetOr(more, "nte", JStr(""));
    var ots :- Overtimes(snap, gameType, m.beforeCutoffPacific, ht, at);
    Ok(Flags(season == JNum(3), conference, neutral, tournament, ots))
  }

  /** `_get_game_info_helper` on the game package. The older and women's
      callers look `gmInfo` and `gmStrp` up themselves before the call;
      the lookups are the same. */
  function Info(snap: Snapshot, gamepackage: Json, gameId: string, gameType: string,
                dates: DateParser): Res<InfoRow> {
    var info :- Get(gamepackage, "gmInfo");
    var more :- Get(gamepackage, "gmStrp");
    var (venue, m, status) :- VenueOf(snap, info, more, dates);
    var (ht, at, home, away) :- Teams(snap, more);
    var f :- FlagsOf(snap, gameType, m, more, ht, at);
    Ok(InfoRow(gameId, if snap == Current then Some(status) else None, home, away,
               if snap == Current then Some(Spread(gamepackage)) else None,
               HomeWin(snap, status, home.score, away.score), f.numOts, f.isConference, f.isNeutral,
               f.isPostseason, f.tournament, venue))
  }

  /** Without the optional keys the venue columns take their defaults:
      no attendance or capacity, and empty network, arena, location and
      referees. */
  lemma VenueDefaults(snap: Snapshot, info: Json, more: Json, dates: DateParser, m: Moment)
    requires info.JObj? && "dtTm" in info.fields && dates(info.fields["dtTm"]) == Some(m)
    requires forall k :: k in ["attnd", "cpcty", "cvrg", "loc", "locAddr", "refs"] ==> k !in info.fields
    requires snap == Current ==> Path(more, ["status", "desc"]).Ok?
    ensures VenueOf(snap, info, more, dates) ==
      Ok((Venue(None, None, JStr(""), m.day, m.time, JStr(""), JStr(""), JStr(""), JStr(""), JStr("")), m,
          if snap == Current then Path(more, ["status", "desc"]).value else JNull))
  {
    assert "attnd" in ["attnd", "cpcty", "cvrg", "loc", "locAddr", "refs"];
    assert "cpcty" in ["attnd", "cpcty", "cvrg", "loc", "locAddr", "refs"];
    assert "cvrg" in ["attnd", "cpcty", "cvrg", "loc", "locAddr", "refs"];
    assert "loc" in ["attnd", "cpcty", "cvrg", "loc", "locAddr", "refs"];
    assert "locAddr" in ["attnd", "cpcty", "cvrg", "loc", "locAddr", "refs"];
    assert "refs" in ["attnd", "cpcty", "cvrg", "loc", "locAddr", "refs"];
  }

  /** A present attendance or capacity is its integer; a present value
      that is not one makes the helper fail rather than default. */
  lemma CountedSpec(info: Json, key: string)
    requires info.JObj?
    ensures key !in info.fields ==> Counted(info, key) == Ok(None)
    ensures key in info.fields ==>
      Counted(info, key) == (match ToInt(info.fields[key])
                             case Ok(n) => Ok(Some(n))
                             case Err(e) => Err(e))
  {
  }

  /** The location is `""` without `locAddr`, and `city, state` when both
      are strings; a city that is not a string raises `TypeError` before
      `state` is looked up, and a missing `state` after a string city
      raises `KeyError`. */
  lemma LocationSpec(info: Json, addr: map<string, Json>)
    requires info.JObj?
    ensures "locAddr" !in info.fields ==> Location(info) == Ok(JStr(""))
    ensures "locAddr" in info.fields && info.fields["locAddr"] == JObj(addr) && "city" in addr ==>
      var city := addr["city"];
      (!city.JStr? ==> Location(info) == Err(TypeError)) &&
      (city.JStr? && "state" !in addr ==> Location(info) == Err(KeyError("state"))) &&
      (city.JStr? && "state" in addr && addr["state"].JStr? ==>
        Location(info) == Ok(JStr(city.s + ", " + addr["state"].s)))
  {
    if "locAddr" in info.fields && info.fields["locAddr"] == JObj(addr) && "city" in addr {
      assert Get(info, "locAddr") == Ok(JObj(addr));
      assert ["locAddr", "city"][1..] == ["city"] && ["city"][1..] == [];
      assert Path(JObj(addr), ["city"]) == Path(addr["city"], []);
      assert ["locAddr", "state"][1..] == ["state"] && ["state"][1..] == [];
      if "state" in addr {
        assert Path(JObj(addr), ["state"]) == Path(addr["state"], []);
      } else {
        assert Path(JObj(addr), ["state"]) == Err(KeyError("state"));
      }
    }
  }

  /** The `k`-th referee of a list of referee records, or `""` when the
      list is shorter. */
  lemma RefereeSpec(refs: seq<Json>, k: nat)
    requires forall i :: 0 <= i < |refs| ==> refs[i].JObj? && "dspNm" in refs[i].fields
    ensures k < |refs| ==> Referee(JArr(refs), k) == Ok(refs[k].fields["dspNm"])
    ensures k >= |refs| ==> Referee(JArr(refs), k) == Ok(JStr(""))
  {
  }

  /** Every character after `nd-` of a fallback id is a digit, a lower-case
      letter or a dash, whatever the display name. */
  lemma SlugClean(s: string)
    ensures Slug(JStr(s)).Ok?
    ensures var r := Slug(JStr(s)).value.s;
      |r| >= 3 && r[..3] == "nd-" && forall i :: 3 <= i < |r| ==> Clean(r[i])
  {
    var d := Replace(Lower(s), " ", "-");
    ReplaceLength(Lower(s), ' ', "-");
    forall i | 0 <= i < |d| ensures !('A' <= d[i] <= 'Z') {
      ReplaceCharAt(Lower(s), ' ', "-", i);
    }
    var r := Slug(JStr(s)).value.s;
    assert r == "nd-" + KeepChars(d);
    forall i | 3 <= i < |r| ensures Clean(r[i]) {
      assert r[i] == KeepChars(d)[i - 3];
      assert r[i] in d;
    }
  }

  /** A name already made of digits, lower-case letters and dashes is its
      own fallback id after `nd-`. */
  lemma SlugOfClean(s: string)
    requires forall i :: 0 <= i < |s| ==> Clean(s[i])
    ensures Slug(JStr(s)) == Ok(JStr("nd-" + s))
  {
    ReplaceLength(Lower(s), ' ', "-");
    assert Lower(s) == s;
    forall i | 0 <= i < |s| ensures Replace(s, " ", "-")[i] == s[i] {
      ReplaceCharAt(s, ' ', "-", i);
    }
    assert Replace(s, " ", "-") == s;
  }

  /** Building the fallback id again from the part after `nd-` gives the
      same id. */
  lemma SlugIdempotent(s: string)
    ensures Slug(JStr(s)).Ok? && Slug(JStr(Slug(JStr(s)).value.s[3..])) == Slug(JStr(s))
  {
    SlugClean(s);
    var r := Slug(JStr(s)).value.s;
    SlugOfClean(r[3..]);
    assert "nd-" + r[3..] == r;
  }

  /** On a name of letters, digits and spaces, every space becomes a dash
      and every letter its lower case; nothing is dropped. */
  lemma SlugOfWords(s: string)
    requires forall i :: 0 <= i < |s| ==> Kept(s[i]) || s[i] == ' '
    ensures Slug(JStr(s)).Ok?
    ensures var r := Slug(JStr(s)).value.s;
      |r| == |s| + 3 && r[..3] == "nd-" &&
      forall i :: 0 <= i < |s| ==> r[i + 3] == if s[i] == ' ' then '-' else LowerChar(s[i])
  {
    var d := Replace(Lower(s), " ", "-");
    ReplaceLength(Lower(s), ' ', "-");
    forall i | 0 <= i < |d| ensures Kept(d[i]) && d[i] == if s[i] == ' ' then '-' else LowerChar(s[i]) {
      ReplaceCharAt(Lower(s), ' ', "-", i);
    }
    assert KeepChars(d) == d;
  }

  /** `SlugOfWords` with the mapped name given. */
  lemma SlugOfWordsIs(s: string, t: string)
    requires forall i :: 0 <= i < |s| ==> Kept(s[i]) || s[i] == ' '
    requires |t| == |s| && forall i :: 0 <= i < |s| ==> t[i] == if s[i] == ' ' then '-' else LowerChar(s[i])
    ensures Slug(JStr(s)) == Ok(JStr("nd-" + t))
  {
    SlugOfWords(s);
    var r := Slug(JStr(s)).value.s;
    assert r == "nd-" + t by {
      forall i | 3 <= i < |r| ensures r[i] == ("nd-" + t)[i] {
        assert r[i] == t[i - 3];
      }
    }
  }

  /** The worked example of a team page without links. */
  lemma SlugExample(s: string, t: string)
    requires s == "Example State" && t == "example-state"
    ensures Slug(JStr(s)) == Ok(JStr("nd-" + t))
  {
    forall i | 0 <= i < |s| ensures Kept(s[i]) || s[i] == ' ' {
    }
    forall i | 0 <= i < |s| ensures t[i] == if s[i] == ' ' then '-' else LowerChar(s[i]) {
    }
    SlugOfWordsIs(s, t);
  }

  /** A display name that is not a string cannot be lower-cased. */
  lemma SlugNotString(name: Json)
    requires !name.JStr?
    ensures Slug(name) == Err(AttributeError)
  {
  }

  /** The fallback id replaces the page's id exactly when the team has no
      links or no records. */
  lemma TeamIdSpec(t: Json, name: string, links: seq<Json>, records: seq<Json>)
    requires t.JObj? && "id" in t.fields
    requires "links" in t.fields && t.fields["links"] == JArr(links)
    requires "records" in t.fields && t.fields["records"] == JArr(records)
    ensures TeamId(t, JStr(name)).Ok?
    ensures |links| > 0 && |records| > 0 ==> TeamId(t, JStr(name)) == Ok(t.fields["id"])
    ensures |links| == 0 || |records| == 0 ==> TeamId(t, JStr(name)) == Slug(JStr(name))
  {
    SlugClean(name);
  }

  /** A missing score counts as 0 in the current file and is a `KeyError`
      in the other two. */
  lemma ScoreMissing(snap: Snapshot, t: Json)
    requires t.JObj? && "score" !in t.fields
    ensures snap == Current ==> Score(snap, t) == Ok(0)
    ensures snap != Current ==> Score(snap, t) == Err(KeyError("score"))
  {
  }

  /** The win flag: a higher home score, and in the current file also a
      final status; the current rule never holds where the older one does
      not. */
  lemma HomeWinSpec(snap: Snapshot, status: Json, home: int, away: int)
    ensures HomeWin(snap, status, home, away) ==>
      home > away && (snap == Current ==> status == JStr("Final"))
    ensures home > away && (snap == Current ==> status == JStr("Final")) ==>
      HomeWin(snap, status, home, away)
    ensures HomeWin(Current, status, home, away) ==> HomeWin(Older, status, home, away)
  {
  }

  /** Overtimes: -1 without linescores in the current and older files, a
      `KeyError` in the women's file; with two lists, their length less
      the regulation periods, and an `AssertionError` when the teams
      disagree. */
  lemma OvertimesSpec(snap: Snapshot, gameType: string, beforeCutoff: bool, ht: Json, at: Json)
    requires ht.JObj? && at.JObj?
    ensures snap != Womens && ("linescores" !in ht.fields || "linescores" !in at.fields) ==>
      Overtimes(snap, gameType, beforeCutoff, ht, at) == Ok(-1)
    ensures snap == Womens && "linescores" !in ht.fields ==>
      Overtimes(snap, gameType, beforeCutoff, ht, at) == Err(KeyError("linescores"))
    ensures "linescores" in ht.fields && ht.fields["linescores"].JArr? &&
            "linescores" in at.fields && at.fields["linescores"].JArr? ==>
      var d := PeriodsInRegulation(Rule(snap, gameType, beforeCutoff));
      var lh := |ht.fields["linescores"].items|;
      var la := |at.fields["linescores"].items|;
      Overtimes(snap, gameType, beforeCutoff, ht, at) ==
        if lh == la then Ok(lh - d) else Err(AssertionError)
  {
  }

  /** The women's neutral-site rule: neutral unless the home team's second
      record is of type `home` or the away team's of type `away`. */
  lemma NeutralWomens(more: Json, hr: seq<Json>, ar: seq<Json>, ht: Json, at: Json)
    requires ht.JObj? && "records" in ht.fields && ht.fields["records"] == JArr(hr)
    requires at.JObj? && "records" in at.fields && at.fields["records"] == JArr(ar)
    requires |hr| > 1 ==> hr[1].JObj? && "type" in hr[1].fields
    requires |ar| > 1 ==> ar[1].JObj? && "type" in ar[1].fields
    ensures Neutral(Womens, more, ht, at) ==
      Ok(!(|hr| > 1 && hr[1].fields["type"] == JStr("home")) &&
         !(|ar| > 1 && ar[1].fields["type"] == JStr("away")))
  {
  }

  /** The point spread is the last odds entry's primary spread, and `""`
      as soon as any key is missing. */
  lemma SpreadSpec(gamepackage: Json, odds: seq<Json>)
    requires gamepackage.JObj? && "gameOdds" in gamepackage.fields
    requires Get(gamepackage.fields["gameOdds"], "odds") == Ok(JArr(odds))
    ensures |odds| == 0 ==> Spread(gamepackage) == JStr("")
    ensures |odds| > 0 ==> (Spread(gamepackage) ==
      match Path(odds[|odds| - 1], ["pointSpread", "primary"])
      case Ok(v) => v
      case Err(_) => JStr(""))
  {
    var y := gamepackage.fields["gameOdds"];
    assert Path(y, ["odds"]) == Ok(JArr(odds)) by {
      assert ["odds"][0] == "odds" && ["odds"][1..] == [];
    }
    assert Path(gamepackage, ["gameOdds", "odds"]) == Ok(JArr(odds)) by {
      assert ["gameOdds", "odds"][0] == "gameOdds" && ["gameOdds", "odds"][1..] == ["odds"];
    }
  }

  lemma SpreadMissing(gamepackage: Json)
    requires gamepackage.JObj? && "gameOdds" !in gamepackage.fields
    ensures Spread(gamepackage) == JStr("")
  {
  }

  /** The win flag of a built row compares the two teams' scores, and in
      the current file also asks for the `Final` status; only the current
      file has the status and spread columns. */
  lemma InfoHomeWin(snap: Snapshot, gamepackage: Json, gameId: string, gameType: string,
                    dates: DateParser, row: InfoRow)
    requires Info(snap, gamepackage, gameId, gameType, dates) == Ok(row)
    ensures row.gameId == gameId
    ensures row.status.Some? <==> snap == Current
    ensures row.spread.Some? <==> snap == Current
    ensures row.homeWin <==>
      row.home.score > row.away.score && (snap == Current ==> row.status == Some(JStr("Final")))
  {
  }

  /** Reading the two teams column by column succeeds exactly when each
      team's own columns can be read, and gives the same columns; the
      interleaving decides only which error is raised first. */
  lemma TeamsSpec(snap: Snapshot, more: Json)
    ensures Teams(snap, more).Ok? <==>
      Get(more, "tms").Ok? && At(Get(more, "tms").value, 0).Ok? && At(Get(more, "tms").value, 1).Ok? &&
      TeamRowOf(snap, At(Get(more, "tms").value, 0).value).Ok? &&
      TeamRowOf(snap, At(Get(more, "tms").value, 1).value).Ok?
    ensures Teams(snap, more).Ok? ==>
      var (ht, at, home, away) := Teams(snap, more).value;
      ht == At(Get(more, "tms").value, 0).value && at == At(Get(more, "tms").value, 1).value &&
      TeamRowOf(snap, ht) == Ok(home) && TeamRowOf(snap, at) == Ok(away)
  {
  }

  /** The row's teams are the first and second entries of `tms`, and its
      postseason and neutral flags read `seasonType` and `neutralSite` of
      `gmStrp` (the women's neutral rule is `NeutralWomens`). */
  lemma InfoTeams(snap: Snapshot, gamepackage: Json, gameId: string, gameType: string,
                  dates: DateParser, row: InfoRow)
    requires Info(snap, gamepackage, gameId, gameType, dates) == Ok(row)
    ensures gamepackage.JObj? && "gmStrp" in gamepackage.fields
    ensures var more := gamepackage.fields["gmStrp"];
      more.JObj? && "tms" in more.fields &&
      At(more.fields["tms"], 0).Ok? && TeamRowOf(snap, At(more.fields["tms"], 0).value) == Ok(row.home) &&
      At(more.fields["tms"], 1).Ok? && TeamRowOf(snap, At(more.fields["tms"], 1).value) == Ok(row.away) &&
      (row.isPostseason <==> Get(more, "seasonType") == Ok(JNum(3))) &&
      (snap != Womens ==> (row.isNeutral <==> "neutralSite" in more.fields))
  {
    var more := Get(gamepackage, "gmStrp").value;
    TeamsSpec(snap, more);
  }
}
