/** The boxscore helper: per team a frame of starters, one of bench players
    and a one-row `TEAM`/`TOTAL` frame, concatenated team by team; then the
    `"m-a"` shooting fields are split into made and attempted counts, with
    the two-point counts derived, inserted at fixed positions. */
module Boxscore {
  import opened Wrappers
  import opened Text
  import opened PyJson
  import opened Frames

  /** The leading columns of a player frame, in the order the six inserts
      at position 0 leave them. */
  const META: seq<string> := ["game_id", "team", "player", "player_id", "position", "starter"]

  /** The leading columns of the empty frame used for an empty group. */
  const EMPTY_META: seq<string> := ["starter", "position", "player_id", "player", "team", "game_id"]

  /** The eight derived shooting columns, inserted at positions 7 to 14. */
  const DERIVED: seq<string> := ["fgm", "fga", "2pm", "2pa", "3pm", "3pa", "ftm", "fta"]

  /** The columns turned numeric after the inserts. */
  const COERCED: seq<string> := ["min", "oreb", "dreb", "reb", "ast", "stl", "blk", "to", "pf", "pts"]

  datatype BoxResult = EmptyBox | Box(table: Table)

  /** `range(n)` */
  function Range(n: nat): (r: seq<nat>)
    ensures |r| == n && forall i :: 0 <= i < n ==> r[i] == i
  {
    seq(n, i requires 0 <= i < n => i)
  }

  /** `labels[i].lower()` */
  function LabelKey(labels: Json, i: nat): Res<string> {
    var l :- At(labels, i);
    var s :- AsStr(l);
    Ok(Lower(s))
  }

  /** `[x.lower() for x in labels]` */
  function LowerLabels(labels: Json): Res<seq<string>> {
    var items :- Iterate(labels);
    var strs :- MapR(items, AsStr);
    Ok(seq(|strs|, k requires 0 <= k < |strs| => Lower(strs[k])))
  }

  /** `group[j]["stats"][i]` */
  function StatCell(group: Json, j: nat, i: nat): Res<Json> {
    var p :- At(group, j);
    var stats :- Get(p, "stats");
    At(stats, i)
  }

  /** One entry of the players' dict comprehension: the key is evaluated
      before the column. */
  function PlayerEntry(labels: Json, group: Json, n: nat, i: nat): (r: Res<(string, seq<Json>)>)
    ensures r.Ok? ==> |r.value.1| == n
  {
    var k :- LabelKey(labels, i);
    var col :- MapR(Range(n), (j: nat) => StatCell(group, j, i));
    Ok((k, col))
  }

  /** One entry of the totals' dict comprehension, `[totals[i]]`. */
  function TotalsEntry(labels: Json, totals: Json, i: nat): (r: Res<(string, seq<Json>)>)
    ensures r.Ok? ==> |r.value.1| == 1
  {
    var k :- LabelKey(labels, i);
    var v :- At(totals, i);
    Ok((k, [v]))
  }

  predicate Heights(d: seq<(string, seq<Json>)>, h: nat) {
    forall k :: 0 <= k < |d| ==> |d[k].1| == h
  }

  /** Storing one entry in a dict: a key already present keeps its place
      and takes the new column. */
  function Upsert(d: seq<(string, seq<Json>)>, e: (string, seq<Json>)): (r: seq<(string, seq<Json>)>)
    ensures forall h :: Heights(d, h) && |e.1| == h ==> Heights(r, h)
  {
    if d == [] then [e]
    else if d[0].0 == e.0 then [e] + d[1..]
    else
      assert forall h :: Heights(d, h) ==> Heights(d[1..], h);
      [d[0]] + Upsert(d[1..], e)
  }

  /** The dict a comprehension builds from its entries, in order. */
  function DictOf(entries: seq<(string, seq<Json>)>): (r: seq<(string, seq<Json>)>)
    ensures forall h :: Heights(entries, h) ==> Heights(r, h)
  {
    if entries == [] then []
    else
      var init := entries[..|entries| - 1];
      assert forall h :: Heights(entries, h) ==> Heights(init, h);
      Upsert(DictOf(init), entries[|entries| - 1])
  }

  /** `pd.DataFrame(d)` with `h` rows. */
  function DictTable(d: seq<(string, seq<Json>)>, h: nat): (t: Table)
    requires Heights(d, h)
    ensures WellFormed(t) && t.height == h
  {
    Table(seq(|d|, k requires 0 <= k < |d| => d[k].0), seq(|d|, k requires 0 <= k < |d| => d[k].1), h)
  }

  /** `group[i]["athlt"]` */
  function Athlete(group: Json, i: nat): Res<Json> {
    var p :- At(group, i);
    Get(p, "athlt")
  }

  /** `a[key] if key in a.keys() else ""` on the player's `athlt`. */
  function AthleteField(group: Json, i: nat, key: string): Res<Json> {
    var a :- Athlete(group, i);
    var has :- HasKey(a, key);
    if has then Get(a, key) else Ok(JStr(""))
  }

  /** `a["uid"].split(":")[-1] if "uid" in a.keys() else ""`. */
  function PlayerId(group: Json, i: nat): Res<Json> {
    var a :- Athlete(group, i);
    var has :- HasKey(a, "uid");
    if !has then Ok(JStr(""))
    else
      var uid :- Get(a, "uid");
      var s :- AsStr(uid);
      Ok(JStr(After(s, ":")))
  }

  /** The players' dict comprehension. */
  function PlayerEntries(labels: Json, group: Json, n: nat, nl: nat): (r: Res<seq<(string, seq<Json>)>>)
    ensures r.Ok? ==> Heights(r.value, n)
  {
    MapR(Range(nl), (i: nat) => PlayerEntry(labels, group, n, i))
  }

  /** The totals' dict comprehension. */
  function TotalsEntries(labels: Json, totals: Json, nl: nat): (r: Res<seq<(string, seq<Json>)>>)
    ensures r.Ok? ==> |r.value| == nl && Heights(r.value, 1)
  {
    MapR(Range(nl), (i: nat) => TotalsEntry(labels, totals, i))
  }

  /** `[a[key] if key in a.keys() else "" for each player]` */
  function AthleteColumn(group: Json, n: nat, key: string): (r: Res<seq<Json>>)
    ensures r.Ok? ==> |r.value| == n
  {
    MapR(Range(n), (i: nat) => AthleteField(group, i, key))
  }

  /** The `player_id` comprehension. */
  function PlayerIds(group: Json, n: nat): (r: Res<seq<Json>>)
    ensures r.Ok? ==> |r.value| == n
  {
    MapR(Range(n), (i: nat) => PlayerId(group, i))
  }

  /** The frame of an empty group: the columns only. */
  function EmptyGroup(labels: Json): (r: Res<Table>)
    ensures r.Ok? ==> WellFormed(r.value) && r.value.height == 0
  {
    var keys :- LowerLabels(labels);
    var cols := EMPTY_META + keys;
    Ok(Table(cols, seq(|cols|, _ => []), 0))
  }

  /** The six inserts at position 0 that put the player columns in
      front of the stat columns. */
  function MetaInserts(t0: Table, starter: seq<Json>, pos: seq<Json>, ids: seq<Json>,
                       names: seq<Json>, team: seq<Json>, gameId: seq<Json>): (r: Res<Table>)
    requires WellFormed(t0)
    ensures r.Ok? ==> WellFormed(r.value) && r.value.height == t0.height
  {
    var t1 :- Inserted(t0, 0, "starter", starter);
    var t2 :- Inserted(t1, 0, "position", pos);
    var t3 :- Inserted(t2, 0, "player_id", ids);
    var t4 :- Inserted(t3, 0, "player", names);
    var t5 :- Inserted(t4, 0, "team", team);
    Inserted(t5, 0, "game_id", gameId)
  }

  /** The frame of a group of players (starters or bench): the stat
      columns from the dict comprehension, then `starter`, `position`,
      `player_id`, `player`, `team` and `game_id` each inserted at 0. */
  function GroupTable(group: Json, labels: Json, team: Json, gameId: string, starter: bool): (r: Res<Table>)
    ensures r.Ok? ==> WellFormed(r.value)
  {
    var n :- Len(group);
    if n == 0 then EmptyGroup(labels)
    else
      var nl :- Len(labels);
      var entries :- PlayerEntries(labels, group, n, nl);
      var pos :- AthleteColumn(group, n, "pos");
      var ids :- PlayerIds(group, n);
      var names :- AthleteColumn(group, n, "shrtNm");
      MetaInserts(DictTable(DictOf(entries), n), Fill(JBool(starter), n), pos, ids, names,
                  Fill(team, n), Fill(JStr(gameId), n))
  }

  /** The one-row totals frame: player `TEAM`, id and position `TOTAL`,
      not a starter. A frame from an empty dict has no rows. */
  function TotalsTable(totals: Json, labels: Json, team: Json, gameId: string): (r: Res<Table>)
    ensures r.Ok? ==> WellFormed(r.value)
  {
    var n :- Len(totals);
    if n == 0 then EmptyGroup(labels)
    else
      var nl :- Len(labels);
      var entries :- TotalsEntries(labels, totals, nl);
      var h := if nl == 0 then 0 else 1;
      MetaInserts(DictTable(DictOf(entries), h), Fill(JBool(false), h), Fill(JStr("TOTAL"), h),
                  Fill(JStr("TOTAL"), h), Fill(JStr("TEAM"), h), Fill(team, h), Fill(JStr(gameId), h))
  }

  /** `x.split("-")[k]` on one cell of a shooting column. */
  function Part(x: Json, k: nat): Res<string> {
    var s :- AsStr(x);
    var f := Split(s, "-");
    if k < |f| then Ok(f[k]) else Err(IndexError)
  }

  /** `pd.to_numeric(..., errors="coerce")` on one string: its integer, or
      a missing value. */
  function Numeric(s: string): Json {
    match ParseDecimal(s)
    case Some(n) => JNum(n)
    case None => JNull
  }

  /** `pd.to_numeric(..., errors="coerce")` on one cell of a column. */
  function NumericCell(x: Json): Json {
    match x
    case JNum(_) => x
    case JStr(s) => Numeric(s)
    case _ => JNull
  }

  function NumericCells(col: seq<Json>): (r: seq<Json>)
    ensures |r| == |col|
  {
    seq(|col|, i requires 0 <= i < |col| => NumericCell(col[i]))
  }

  /** `pd.to_numeric([x.split("-")[k] for x in df[name]], errors="coerce")` */
  function SplitColumn(t: Table, name: string, k: nat): (r: Res<seq<Json>>)
    requires WellFormed(t)
    ensures r.Ok? ==> |r.value| == t.height
  {
    var col :- ColumnOf(t, name);
    var parts :- MapR(col, (x: Json) => Part(x, k));
    Ok(seq(|parts|, i requires 0 <= i < |parts| => Numeric(parts[i])))
  }

  /** Subtraction of two numeric cells; a missing operand gives a missing
      result. */
  function Minus(a: Json, b: Json): Json {
    if a.JNum? && b.JNum? then JNum(a.n - b.n) else JNull
  }

  function Diff(a: seq<Json>, b: seq<Json>): (r: seq<Json>)
    requires |a| == |b|
    ensures |r| == |a|
  {
    seq(|a|, i requires 0 <= i < |a| => Minus(a[i], b[i]))
  }

  /** `df[name] = pd.to_numeric(df[name], errors="coerce")` */
  function CoerceColumn(t: Table, name: string): (r: Res<Table>)
    requires WellFormed(t)
    ensures r.Ok? ==> WellFormed(r.value) && r.value.height == t.height
  {
    var col :- ColumnOf(t, name);
    Assigned(t, name, NumericCells(col))
  }

  /** The shooting splits and the column types, on the concatenated frame:
      the six split columns, the drop, the eight inserts at 7 to 14 and the
      ten numeric conversions. */
  function Shooting(df: Table): (r: Res<Table>)
    requires WellFormed(df)
  {
    var fgm :- SplitColumn(df, "fg", 0);
    var fga :- SplitColumn(df, "fg", 1);
    var thpm :- SplitColumn(df, "3pt", 0);
    var thpa :- SplitColumn(df, "3pt", 1);
    var ftm :- SplitColumn(df, "ft", 0);
    var fta :- SplitColumn(df, "ft", 1);
    var d :- Dropped(df, ["fg", "3pt", "ft"]);
    var t :- Derive(d, fgm, fga, thpm, thpa, ftm, fta);
    Coerce(t)
  }

  /** Inserts `names[k]` holding `cols[k]` at `at + k`, one after another,
      stopping at the first failure. */
  function InsertRun(t: Table, at: nat, names: seq<string>, cols: seq<seq<Json>>): (r: Res<Table>)
    requires WellFormed(t) && |names| == |cols|
    ensures r.Ok? ==> WellFormed(r.value) && r.value.height == t.height
    decreases |names|
  {
    if names == [] then Ok(t)
    else
      var t1 :- Inserted(t, at, names[0], cols[0]);
      InsertRun(t1, at + 1, names[1..], cols[1..])
  }

  /** The eight inserts at positions 7 to 14: made and attempted field
      goals, the two-point splits, threes and free throws. */
  function Derive(d: Table, fgm: seq<Json>, fga: seq<Json>, thpm: seq<Json>, thpa: seq<Json>,
                  ftm: seq<Json>, fta: seq<Json>): (r: Res<Table>)
    requires WellFormed(d)
    requires |fgm| == |fga| == |thpm| == |thpa| == |ftm| == |fta| == d.height
    ensures r.Ok? ==> WellFormed(r.value) && r.value.height == d.height
  {
    InsertRun(d, 7, DERIVED, DerivedCells(fgm, fga, thpm, thpa, ftm, fta))
  }

  /** The cells of the eight derived columns, in `DERIVED` order. */
  function DerivedCells(fgm: seq<Json>, fga: seq<Json>, thpm: seq<Json>, thpa: seq<Json>,
                        ftm: seq<Json>, fta: seq<Json>): (r: seq<seq<Json>>)
    requires |fgm| == |fga| == |thpm| == |thpa|
    ensures |r| == 8
  {
    [fgm, fga, Diff(fgm, thpm), Diff(fga, thpa), thpm, thpa, ftm, fta]
  }

  /** Converts each named column in turn, stopping at the first name the
      frame lacks. */
  function CoerceRun(t: Table, names: seq<string>): (r: Res<Table>)
    requires WellFormed(t)
    ensures r.Ok? ==> WellFormed(r.value) && r.value.height == t.height
    decreases |names|
  {
    if names == [] then Ok(t)
    else
      var t1 :- CoerceColumn(t, names[0]);
      CoerceRun(t1, names[1..])
  }

  /** The ten numeric conversions, `min` to `pts`. */
  function Coerce(t: Table): (r: Res<Table>)
    requires WellFormed(t)
    ensures r.Ok? ==> WellFormed(r.value) && r.value.height == t.height
  {
    CoerceRun(t, COERCED)
  }

  /** `stats[k][key]` */
  function StatsPart(stats: Json, k: nat, key: string): Res<Json> {
    var s :- At(stats, k);
    Get(s, key)
  }

  /** The six frames of a boxscore: starters, bench and totals of the
      first team, then of the second. */
  datatype Groups = Groups(st1: Table, bn1: Table, tot1: Table, st2: Table, bn2: Table, tot2: Table)

  predicate GroupsWellFormed(g: Groups) {
    WellFormed(g.st1) && WellFormed(g.bn1) && WellFormed(g.tot1) &&
    WellFormed(g.st2) && WellFormed(g.bn2) && WellFormed(g.tot2)
  }

  /** What the boxscore helper reads from the page before building any
      frame: the teams' names, the stat labels and the six groups. */
  datatype Parts = Parts(name1: Json, name2: Json, labels: Json,
                         st1: Json, bn1: Json, tot1: Json, st2: Json, bn2: Json, tot2: Json)

  /** The page's two team entries read in source order. */
  function ReadParts(boxscore: Json): Res<Parts> {
    var tm1 :- At(boxscore, 0);
    var tm2 :- At(boxscore, 1);
    var tm1Name :- Path(tm1, ["tm", "dspNm"]);
    var tm2Name :- Path(tm2, ["tm", "dspNm"]);
    var tm1Stats :- Get(tm1, "stats");
    var tm2Stats :- Get(tm2, "stats");
    var labels :- StatsPart(tm1Stats, 0, "lbls");
    var st1 :- StatsPart(tm1Stats, 0, "athlts");
    var bn1 :- StatsPart(tm1Stats, 1, "athlts");
    var tot1 :- StatsPart(tm1Stats, 2, "ttls");
    var st2 :- StatsPart(tm2Stats, 0, "athlts");
    var bn2 :- StatsPart(tm2Stats, 1, "athlts");
    var tot2 :- StatsPart(tm2Stats, 2, "ttls");
    Ok(Parts(tm1Name, tm2Name, labels, st1, bn1, tot1, st2, bn2, tot2))
  }

  /** The six frames, built in source order. */
  function PartsGroups(p: Parts, gameId: string): (r: Res<Groups>)
    ensures r.Ok? ==> GroupsWellFormed(r.value)
  {
    var (g1, b1, o1) :- TeamFrames(p.st1, p.bn1, p.tot1, p.labels, p.name1, gameId);
    var (g2, b2, o2) :- TeamFrames(p.st2, p.bn2, p.tot2, p.labels, p.name2, gameId);
    Ok(Groups(g1, b1, o1, g2, b2, o2))
  }

  /** One team's starters, bench and totals frames. */
  function TeamFrames(st: Json, bn: Json, tot: Json, labels: Json, name: Json, gameId: string)
    : (r: Res<(Table, Table, Table)>)
    ensures r.Ok? ==> WellFormed(r.value.0) && WellFormed(r.value.1) && WellFormed(r.value.2)
  {
    var g :- GroupTable(st, labels, name, gameId, true);
    var b :- GroupTable(bn, labels, name, gameId, false);
    var o :- TotalsTable(tot, labels, name, gameId);
    Ok((g, b, o))
  }

  /** The page's two team entries read in source order, and their six
      frames. */
  function BuildGroups(boxscore: Json, gameId: string): (r: Res<Groups>)
    ensures r.Ok? ==> GroupsWellFormed(r.value)
  {
    var p :- ReadParts(boxscore);
    PartsGroups(p, gameId)
  }

  /** `pd.concat([tm1_df, tm2_df])` of the two teams' concatenations, each
      `pd.concat` written as the pairwise concatenation it amounts to
      (`Frames.Concat3` and `Frames.ConcatPair`). */
  function Stack(g: Groups): (t: Table)
    requires GroupsWellFormed(g)
    ensures WellFormed(t)
  {
    Concat2(Concat2(Concat2(g.st1, g.bn1), g.tot1), Concat2(Concat2(g.st2, g.bn2), g.tot2))
  }

  /** `_get_game_boxscore_helper`, the same in all three files up to the
      final `astype(bool)`. */
  function Boxscore(boxscore: Json, gameId: string): Res<BoxResult> {
    var g :- BuildGroups(boxscore, gameId);
    var df := Stack(g);
    if df.height == 0 then Ok(EmptyBox)
    else
      var t :- Shooting(df);
      Ok(Box(t))
  }

  /** The six inserts at position 0, on a frame updated in place. */
  method InsertMeta(f: Frame, starter: seq<Json>, pos: seq<Json>, ids: seq<Json>,
                    names: seq<Json>, team: seq<Json>, gameId: seq<Json>) returns (r: Res<()>)
    requires f.Valid()
    modifies f
    ensures f.Valid()
    ensures Outcome(r, f.Value()) == MetaInserts(old(f.Value()), starter, pos, ids, names, team, gameId)
  {
    r := f.Insert(0, "starter", starter);
    if r.Err? { return; }
    r := f.Insert(0, "position", pos);
    if r.Err? { return; }
    r := f.Insert(0, "player_id", ids);
    if r.Err? { return; }
    r := f.Insert(0, "player", names);
    if r.Err? { return; }
    r := f.Insert(0, "team", team);
    if r.Err? { return; }
    r := f.Insert(0, "game_id", gameId);
  }

  /** A frame made from `t0` and given the six player columns in place. */
  method MetaFrame(t0: Table, starter: seq<Json>, pos: seq<Json>, ids: seq<Json>,
                   names: seq<Json>, team: seq<Json>, gameId: seq<Json>) returns (r: Res<Table>)
    requires WellFormed(t0)
    ensures r == MetaInserts(t0, starter, pos, ids, names, team, gameId)
  {
    var f := new Frame(t0);
    var u := InsertMeta(f, starter, pos, ids, names, team, gameId);
    r := Outcome(u, f.Value());
  }

  /** A group's frame built in place with the six inserts. */
  method BuildGroup(group: Json, labels: Json, team: Json, gameId: string, starter: bool)
    returns (r: Res<Table>)
    ensures r == GroupTable(group, labels, team, gameId, starter)
  {
    var n :- Len(group);
    if n == 0 {
      return EmptyGroup(labels);
    }
    var nl :- Len(labels);
    var entries :- PlayerEntries(labels, group, n, nl);
    var pos :- AthleteColumn(group, n, "pos");
    var ids :- PlayerIds(group, n);
    var names :- AthleteColumn(group, n, "shrtNm");
    var t0 := DictTable(DictOf(entries), n);
    var st, tm, gid := Fill(JBool(starter), n), Fill(team, n), Fill(JStr(gameId), n);
    assert GroupTable(group, labels, team, gameId, starter) == MetaInserts(t0, st, pos, ids, names, tm, gid);
    r := MetaFrame(t0, st, pos, ids, names, tm, gid);
  }

  /** The totals frame built in place. */
  method BuildTotals(totals: Json, labels: Json, team: Json, gameId: string) returns (r: Res<Table>)
    ensures r == TotalsTable(totals, labels, team, gameId)
  {
    var n :- Len(totals);
    if n == 0 {
      return EmptyGroup(labels);
    }
    var nl :- Len(labels);
    var entries :- TotalsEntries(labels, totals, nl);
    var h := if nl == 0 then 0 else 1;
    var t0 := DictTable(DictOf(entries), h);
    var st, pos, nm := Fill(JBool(false), h), Fill(JStr("TOTAL"), h), Fill(JStr("TEAM"), h);
    var tm, gid := Fill(team, h), Fill(JStr(gameId), h);
    assert TotalsTable(totals, labels, team, gameId) == MetaInserts(t0, st, pos, pos, nm, tm, gid);
    r := MetaFrame(t0, st, pos, pos, nm, tm, gid);
  }

  /** `df[name] = pd.to_numeric(df[name], errors="coerce")` in place. */
  method CoerceInPlace(f: Frame, name: string) returns (r: Res<()>)
    requires f.Valid()
    modifies f
    ensures f.Valid()
    ensures r.Ok? <==> CoerceColumn(old(f.Value()), name).Ok?
    ensures r.Ok? ==> f.Value() == CoerceColumn(old(f.Value()), name).value
    ensures r.Err? ==> r.error == CoerceColumn(old(f.Value()), name).error
  {
    var col :- f.Column(name);
    AssignedSpec(f.Value(), name, NumericCells(col), name);
    r := f.Assign(name, NumericCells(col));
  }

  /** The eight `df.insert` calls at 7 to 14, taken in order over
      `DERIVED`, on a frame updated in place. */
  method InsertDerived(f: Frame, fgm: seq<Json>, fga: seq<Json>, thpm: seq<Json>, thpa: seq<Json>,
                       ftm: seq<Json>, fta: seq<Json>) returns (r: Res<()>)
    requires f.Valid()
    requires |fgm| == |fga| == |thpm| == |thpa| == |ftm| == |fta| == f.height
    modifies f
    ensures f.Valid()
    ensures Outcome(r, f.Value()) == Derive(old(f.Value()), fgm, fga, thpm, thpa, ftm, fta)
  {
    var vals := DerivedCells(fgm, fga, thpm, thpa, ftm, fta);
    ghost var goal := Derive(f.Value(), fgm, fga, thpm, thpa, ftm, fta);
    assert DERIVED[0..] == DERIVED && vals[0..] == vals;
    for k := 0 to 8
      invariant f.Valid()
      invariant InsertRun(f.Value(), 7 + k, DERIVED[k..], vals[k..]) == goal
    {
      RunNext(f.Value(), 7, DERIVED, vals, k);
      var u :- f.Insert(7 + k, DERIVED[k], vals[k]);
    }
    return Ok(());
  }

  /** The ten `pd.to_numeric` assignments, taken in order over `COERCED`,
      on a frame updated in place. */
  method CoerceAll(f: Frame) returns (r: Res<()>)
    requires f.Valid()
    modifies f
    ensures f.Valid()
    ensures Outcome(r, f.Value()) == Coerce(old(f.Value()))
  {
    ghost var goal := Coerce(f.Value());
    assert COERCED[0..] == COERCED;
    for k := 0 to |COERCED|
      invariant f.Valid()
      invariant CoerceRun(f.Value(), COERCED[k..]) == goal
    {
      CoerceNext(f.Value(), COERCED, k);
      var u :- CoerceInPlace(f, COERCED[k]);
    }
    return Ok(());
  }

  /** The shooting splits and column types, on a frame updated in place. */
  method SplitShooting(df: Table) returns (r: Res<Table>)
    requires WellFormed(df)
    ensures r == Shooting(df)
  {
    var fgm :- SplitColumn(df, "fg", 0);
    var fga :- SplitColumn(df, "fg", 1);
    var thpm :- SplitColumn(df, "3pt", 0);
    var thpa :- SplitColumn(df, "3pt", 1);
    var ftm :- SplitColumn(df, "ft", 0);
    var fta :- SplitColumn(df, "ft", 1);
    var f := new Frame(df);
    var u :- f.Drop(["fg", "3pt", "ft"]);
    ghost var d := f.Value();
    u :- InsertDerived(f, fgm, fga, thpm, thpa, ftm, fta);
    ghost var t := f.Value();
    assert Derive(d, fgm, fga, thpm, thpa, ftm, fta) == Ok(t);
    u :- CoerceAll(f);
    r := Ok(f.Value());
  }

  /** The boxscore helper: the six frames, their concatenation, and the
      shooting splits, giving `Boxscore`. */
  method BoxscoreHelper(boxscore: Json, gameId: string) returns (r: Res<BoxResult>)
    ensures r == Boxscore(boxscore, gameId)
  {
    var p :- ReadParts(boxscore);
    var g1 :- BuildGroup(p.st1, p.labels, p.name1, gameId, true);
    var b1 :- BuildGroup(p.bn1, p.labels, p.name1, gameId, false);
    var o1 :- BuildTotals(p.tot1, p.labels, p.name1, gameId);
    var g2 :- BuildGroup(p.st2, p.labels, p.name2, gameId, true);
    var b2 :- BuildGroup(p.bn2, p.labels, p.name2, gameId, false);
    var o2 :- BuildTotals(p.tot2, p.labels, p.name2, gameId);
    var groups := Groups(g1, b1, o1, g2, b2, o2);
    assert BuildGroups(boxscore, gameId) == Ok(groups);
    var df := Stack(groups);
    if df.height == 0 {
      return Ok(EmptyBox);
    }
    var t :- SplitShooting(df);
    r := Ok(Box(t));
  }

  /** The six player columns can be inserted in front of the stat
      columns: none of their names is taken and each has one cell per row. */
  predicate MetaFits(t0: Table, starter: seq<Json>, pos: seq<Json>, ids: seq<Json>,
                     names: seq<Json>, team: seq<Json>, gameId: seq<Json>)
  {
    "starter" !in t0.columns && "position" !in t0.columns && "player_id" !in t0.columns &&
    "player" !in t0.columns && "team" !in t0.columns && "game_id" !in t0.columns &&
    |starter| == t0.height && |pos| == t0.height && |ids| == t0.height &&
    |names| == t0.height && |team| == t0.height && |gameId| == t0.height
  }

  /** The six inserts succeed exactly when the player columns fit. */
  lemma {:induction false} MetaInsertsOk(t0: Table, starter: seq<Json>, pos: seq<Json>, ids: seq<Json>,
                                         names: seq<Json>, team: seq<Json>, gameId: seq<Json>)
    requires WellFormed(t0)
    ensures MetaInserts(t0, starter, pos, ids, names, team, gameId).Ok? <==>
      MetaFits(t0, starter, pos, ids, names, team, gameId)
  {
    if MetaFits(t0, starter, pos, ids, names, team, gameId) {
      MetaInsertsShape(t0, starter, pos, ids, names, team, gameId);
    } else {
      MetaInsertsFail(t0, starter, pos, ids, names, team, gameId);
    }
  }

  /** An insert that does not fit makes the six inserts fail. */
  lemma {:induction false} MetaInsertsFail(t0: Table, starter: seq<Json>, pos: seq<Json>, ids: seq<Json>,
                                           names: seq<Json>, team: seq<Json>, gameId: seq<Json>)
    requires WellFormed(t0)
    requires !MetaFits(t0, starter, pos, ids, names, team, gameId)
    ensures MetaInserts(t0, starter, pos, ids, names, team, gameId).Err?
  {
    var h := t0.height;
    InsertedFront(t0, "starter", starter);
    if "starter" in t0.columns || |starter| != h { return; }
    var t1 := Table(["starter"] + t0.columns, [starter] + t0.data, h);
    assert Inserted(t0, 0, "starter", starter) == Ok(t1);
    InsertedFront(t1, "position", pos);
    if "position" in t0.columns || |pos| != h {
      assert Inserted(t1, 0, "position", pos).Err?;
      return;
    }
    var t2 := Table(["position"] + t1.columns, [pos] + t1.data, h);
    assert Inserted(t1, 0, "position", pos) == Ok(t2);
    InsertedFront(t2, "player_id", ids);
    if "player_id" in t0.columns || |ids| != h {
      assert Inserted(t2, 0, "player_id", ids).Err?;
      return;
    }
    var t3 := Table(["player_id"] + t2.columns, [ids] + t2.data, h);
    assert Inserted(t2, 0, "player_id", ids) == Ok(t3);
    InsertedFront(t3, "player", names);
    if "player" in t0.columns || |names| != h {
      assert Inserted(t3, 0, "player", names).Err?;
      return;
    }
    var t4 := Table(["player"] + t3.columns, [names] + t3.data, h);
    assert Inserted(t3, 0, "player", names) == Ok(t4);
    InsertedFront(t4, "team", team);
    if "team" in t0.columns || |team| != h {
      assert Inserted(t4, 0, "team", team).Err?;
      return;
    }
    var t5 := Table(["team"] + t4.columns, [team] + t4.data, h);
    assert Inserted(t4, 0, "team", team) == Ok(t5);
    assert "game_id" in t0.columns || |gameId| != h;
    assert t5.columns == ["team", "player", "player_id", "position", "starter"] + t0.columns;
    InsertedFront(t5, "game_id", gameId);
    assert Inserted(t5, 0, "game_id", gameId).Err?;
  }

  /** When they succeed, the six inserts put the player columns, in `META`
      order, in front of the stat columns. */
  lemma {:induction false} MetaInsertsShape(t0: Table, starter: seq<Json>, pos: seq<Json>, ids: seq<Json>,
                                            names: seq<Json>, team: seq<Json>, gameId: seq<Json>)
    requires WellFormed(t0)
    requires MetaFits(t0, starter, pos, ids, names, team, gameId)
    ensures MetaInserts(t0, starter, pos, ids, names, team, gameId) ==
      Ok(Table(META + t0.columns, [gameId, team, names, ids, pos, starter] + t0.data, t0.height))
  {
    MetaChain(t0, starter, pos, ids, names, team, gameId);
    Prepend6("game_id", "team", "player", "player_id", "position", "starter", t0.columns);
    Prepend6(gameId, team, names, ids, pos, starter, t0.data);
  }

  /** The six inserts, one in front of the other. */
  lemma MetaChain(t0: Table, starter: seq<Json>, pos: seq<Json>, ids: seq<Json>,
                  names: seq<Json>, team: seq<Json>, gameId: seq<Json>)
    requires WellFormed(t0)
    requires MetaFits(t0, starter, pos, ids, names, team, gameId)
    ensures MetaInserts(t0, starter, pos, ids, names, team, gameId) ==
      Ok(Table(["game_id"] + (["team"] + (["player"] + (["player_id"] + (["position"] + (["starter"] + t0.columns))))),
               [gameId] + ([team] + ([names] + ([ids] + ([pos] + ([starter] + t0.data))))), t0.height))
  {
    var h := t0.height;
    var t1 := Table(["starter"] + t0.columns, [starter] + t0.data, h);
    var t2 := Table(["position"] + t1.columns, [pos] + t1.data, h);
    var t3 := Table(["player_id"] + t2.columns, [ids] + t2.data, h);
    var t4 := Table(["player"] + t3.columns, [names] + t3.data, h);
    var t5 := Table(["team"] + t4.columns, [team] + t4.data, h);
    InsertedFront(t0, "starter", starter);
    assert Inserted(t0, 0, "starter", starter) == Ok(t1);
    InsertedFront(t1, "position", pos);
    assert Inserted(t1, 0, "position", pos) == Ok(t2);
    InsertedFront(t2, "player_id", ids);
    assert Inserted(t2, 0, "player_id", ids) == Ok(t3);
    InsertedFront(t3, "player", names);
    assert Inserted(t3, 0, "player", names) == Ok(t4);
    InsertedFront(t4, "team", team);
    assert Inserted(t4, 0, "team", team) == Ok(t5);
    InsertedFront(t5, "game_id", gameId);
  }

  lemma Prepend6<T>(a: T, b: T, c: T, d: T, e: T, f: T, s: seq<T>)
    ensures [a, b, c, d, e, f] + s == [a] + ([b] + ([c] + ([d] + ([e] + ([f] + s)))))
  {
  }

  /** After the six inserts each player column holds what was inserted. */
  lemma MetaInsertsSpec(t0: Table, starter: seq<Json>, pos: seq<Json>, ids: seq<Json>,
                        names: seq<Json>, team: seq<Json>, gameId: seq<Json>)
    requires WellFormed(t0)
    requires MetaFits(t0, starter, pos, ids, names, team, gameId)
    ensures MetaInserts(t0, starter, pos, ids, names, team, gameId).Ok?
    ensures var t := MetaInserts(t0, starter, pos, ids, names, team, gameId).value;
      |t.columns| == 6 + |t0.columns| && t.columns[..6] == META && t.height == t0.height &&
      ColumnOf(t, "starter") == Ok(starter) && ColumnOf(t, "position") == Ok(pos) &&
      ColumnOf(t, "player_id") == Ok(ids) && ColumnOf(t, "player") == Ok(names) &&
      ColumnOf(t, "team") == Ok(team) && ColumnOf(t, "game_id") == Ok(gameId)
  {
    MetaInsertsShape(t0, starter, pos, ids, names, team, gameId);
    var cols := t0.columns;
    assert (META + cols)[..6] == META;
    MetaIndex(cols, 0);
    MetaIndex(cols, 1);
    MetaIndex(cols, 2);
    MetaIndex(cols, 3);
    MetaIndex(cols, 4);
    MetaIndex(cols, 5);
  }

  /** Six inserts that succeeded hold the inserted player columns. */
  lemma MetaInsertsResult(t0: Table, starter: seq<Json>, pos: seq<Json>, ids: seq<Json>,
                          names: seq<Json>, team: seq<Json>, gameId: seq<Json>, t: Table)
    requires WellFormed(t0)
    requires MetaInserts(t0, starter, pos, ids, names, team, gameId) == Ok(t)
    ensures |t.columns| >= 6 && t.columns[..6] == META && t.height == t0.height
    ensures ColumnOf(t, "starter") == Ok(starter) && ColumnOf(t, "position") == Ok(pos)
    ensures ColumnOf(t, "player_id") == Ok(ids) && ColumnOf(t, "player") == Ok(names)
    ensures ColumnOf(t, "team") == Ok(team) && ColumnOf(t, "game_id") == Ok(gameId)
  {
    MetaInsertsOk(t0, starter, pos, ids, names, team, gameId);
    MetaInsertsSpec(t0, starter, pos, ids, names, team, gameId);
  }

  /** Each player column is found at its own place in front. */
  lemma MetaIndex(cols: seq<string>, k: nat)
    requires k < 6
    ensures IndexOf(META + cols, META[k]) == Some(k)
  {
    assert (META + cols)[..k] == META[..k];
    IndexOfAt(META + cols, META[k], k);
  }

  /** No key of a dict appears twice. */
  predicate DistinctKeys(d: seq<(string, seq<Json>)>) {
    forall a, b :: 0 <= a < b < |d| ==> d[a].0 != d[b].0
  }

  /** Storing an entry keeps the keys distinct, holds the entry, keeps
      every entry with another key and adds nothing else. */
  lemma {:induction false} UpsertSpec(d: seq<(string, seq<Json>)>, e: (string, seq<Json>))
    requires DistinctKeys(d)
    ensures DistinctKeys(Upsert(d, e))
    ensures e in Upsert(d, e)
    ensures forall p :: p in d && p.0 != e.0 ==> p in Upsert(d, e)
    ensures forall p :: p in Upsert(d, e) ==> p == e || p in d
  {
    if d != [] && d[0].0 != e.0 {
      UpsertSpec(d[1..], e);
      UpsertSkip(d, e);
    } else if d != [] {
      UpsertHere(d, e);
    }
  }

  /** What `Upsert` promises of `d` and `e`. */
  predicate Upserted(d: seq<(string, seq<Json>)>, e: (string, seq<Json>)) {
    var r := Upsert(d, e);
    DistinctKeys(r) && e in r &&
    (forall p :: p in d && p.0 != e.0 ==> p in r) &&
    (forall p :: p in r ==> p == e || p in d)
  }

  /** A first entry with another key stays first, in front of the rest. */
  lemma UpsertSkip(d: seq<(string, seq<Json>)>, e: (string, seq<Json>))
    requires DistinctKeys(d) && d != [] && d[0].0 != e.0
    requires Upserted(d[1..], e)
    ensures Upserted(d, e)
  {
    var rest := Upsert(d[1..], e);
    var r := [d[0]] + rest;
    assert Upsert(d, e) == r;
    SkipKeys(d, e, rest);
    forall p | p in d && p.0 != e.0 ensures p in r {
      if p != d[0] {
        var c :| 0 <= c < |d| && d[c] == p;
        assert d[1..][c - 1] == p;
      }
    }
  }

  /** Keys stay distinct when a first entry with another key goes in
      front of the stored rest. */
  lemma SkipKeys(d: seq<(string, seq<Json>)>, e: (string, seq<Json>), rest: seq<(string, seq<Json>)>)
    requires DistinctKeys(d) && d != [] && d[0].0 != e.0
    requires DistinctKeys(rest) && forall p :: p in rest ==> p == e || p in d[1..]
    ensures DistinctKeys([d[0]] + rest)
  {
    var r := [d[0]] + rest;
    forall a, b | 0 <= a < b < |r| ensures r[a].0 != r[b].0 {
      if a == 0 {
        assert r[b] in rest;
        if r[b] != e {
          var c :| 0 <= c < |d[1..]| && d[1..][c] == r[b];
          assert d[c + 1] == r[b];
        }
      } else {
        assert r[a] == rest[a - 1] && r[b] == rest[b - 1];
      }
    }
  }

  /** An entry with the first key replaces it. */
  lemma UpsertHere(d: seq<(string, seq<Json>)>, e: (string, seq<Json>))
    requires DistinctKeys(d) && d != [] && d[0].0 == e.0
    ensures Upserted(d, e)
  {
    var r := [e] + d[1..];
    assert Upsert(d, e) == r;
    forall a, b | 0 <= a < b < |r| ensures r[a].0 != r[b].0 {
      if a == 0 {
        assert r[b] == d[b];
      } else {
        assert r[a] == d[a] && r[b] == d[b];
      }
    }
    forall p | p in d && p.0 != e.0 ensures p in r {
      var c :| 0 <= c < |d| && d[c] == p;
      assert c != 0;
      assert r[c] == p;
    }
  }

  /** The dict built by a comprehension: its keys are distinct, an entry
      whose key comes back later is overwritten by the later one, the last
      entry of each key is kept, and nothing else is in the dict. */
  lemma {:induction false} DictOfSpec(entries: seq<(string, seq<Json>)>)
    ensures DistinctKeys(DictOf(entries))
    ensures forall p :: p in DictOf(entries) ==> p in entries
    ensures forall j :: 0 <= j < |entries| && LastOfKey(entries, j) ==> entries[j] in DictOf(entries)
  {
    if entries != [] {
      var init := entries[..|entries| - 1];
      var e := entries[|entries| - 1];
      DictOfSpec(init);
      UpsertSpec(DictOf(init), e);
      forall j | 0 <= j < |entries| && LastOfKey(entries, j) ensures entries[j] in DictOf(entries) {
        if j < |entries| - 1 {
          assert LastOfKey(init, j) by {
            forall l | j < l < |init| ensures init[l].0 != init[j].0 {
              assert entries[l].0 != entries[j].0;
            }
          }
          assert entries[j] in DictOf(init);
          assert entries[j].0 != e.0;
        }
      }
    }
  }

  /** Entry `j` is the last one with its key. */
  predicate LastOfKey(entries: seq<(string, seq<Json>)>, j: nat)
    requires j < |entries|
  {
    forall l :: j < l < |entries| ==> entries[l].0 != entries[j].0
  }

  /** An empty group gives a frame with no rows whose leading columns are
      the player columns in `EMPTY_META` order. */
  lemma GroupTableEmpty(group: Json, labels: Json, team: Json, gameId: string, starter: bool, t: Table)
    requires Len(group) == Ok(0)
    requires GroupTable(group, labels, team, gameId, starter) == Ok(t)
    ensures t.height == 0 && |t.columns| >= 6 && t.columns[..6] == EMPTY_META
  {
    var keys := LowerLabels(labels).value;
    assert t.columns == EMPTY_META + keys;
  }

  /** A group of players gives one row per player: the player columns lead
      in `META` order, `starter`, `team` and `game_id` repeat the group's
      values, and row `i` holds player `i`'s short name, position and id. */
  lemma GroupTableSpec(group: Json, labels: Json, team: Json, gameId: string, starter: bool, n: nat, t: Table)
    requires Len(group) == Ok(n) && n > 0
    requires GroupTable(group, labels, team, gameId, starter) == Ok(t)
    ensures t.height == n && |t.columns| >= 6 && t.columns[..6] == META
    ensures ColumnOf(t, "starter") == Ok(Fill(JBool(starter), n))
    ensures ColumnOf(t, "team") == Ok(Fill(team, n))
    ensures ColumnOf(t, "game_id") == Ok(Fill(JStr(gameId), n))
    ensures ColumnOf(t, "player").Ok? && ColumnOf(t, "position").Ok? && ColumnOf(t, "player_id").Ok?
    ensures forall i :: 0 <= i < n ==>
      AthleteField(group, i, "shrtNm") == Ok(ColumnOf(t, "player").value[i]) &&
      AthleteField(group, i, "pos") == Ok(ColumnOf(t, "position").value[i]) &&
      PlayerId(group, i) == Ok(ColumnOf(t, "player_id").value[i])
  {
    var nl := Len(labels).value;
    var entries := PlayerEntries(labels, group, n, nl).value;
    var pos := AthleteColumn(group, n, "pos").value;
    var ids := PlayerIds(group, n).value;
    var names := AthleteColumn(group, n, "shrtNm").value;
    var t0 := DictTable(DictOf(entries), n);
    var st, tm, gid := Fill(JBool(starter), n), Fill(team, n), Fill(JStr(gameId), n);
    assert MetaInserts(t0, st, pos, ids, names, tm, gid) == Ok(t);
    MetaInsertsResult(t0, st, pos, ids, names, tm, gid, t);
    AthleteColumnAt(group, n, "shrtNm");
    AthleteColumnAt(group, n, "pos");
    PlayerIdsAt(group, n);
  }

  /** Row `i` of an athlete column is player `i`'s field. */
  lemma AthleteColumnAt(group: Json, n: nat, key: string)
    requires AthleteColumn(group, n, key).Ok?
    ensures forall i :: 0 <= i < n ==> AthleteField(group, i, key) == Ok(AthleteColumn(group, n, key).value[i])
  {
    forall i | 0 <= i < n ensures AthleteField(group, i, key) == Ok(AthleteColumn(group, n, key).value[i]) {
      assert Range(n)[i] == i;
    }
  }

  /** Row `i` of the id column is player `i`'s id. */
  lemma PlayerIdsAt(group: Json, n: nat)
    requires PlayerIds(group, n).Ok?
    ensures forall i :: 0 <= i < n ==> PlayerId(group, i) == Ok(PlayerIds(group, n).value[i])
  {
    forall i | 0 <= i < n ensures PlayerId(group, i) == Ok(PlayerIds(group, n).value[i]) {
      assert Range(n)[i] == i;
    }
  }

  /** In a frame built from a dict with distinct keys, each key's column
      holds its entry's cells. */
  lemma DictColumn(d: seq<(string, seq<Json>)>, h: nat, p: (string, seq<Json>))
    requires Heights(d, h) && DistinctKeys(d) && p in d
    ensures ColumnOf(DictTable(d, h), p.0) == Ok(p.1)
  {
    var t := DictTable(d, h);
    var c :| 0 <= c < |d| && d[c] == p;
    assert t.columns[c] == p.0;
    assert p.0 !in t.columns[..c] by {
      forall a | 0 <= a < c ensures t.columns[..c][a] != p.0 {
        assert t.columns[..c][a] == d[a].0;
      }
    }
    IndexOfAt(t.columns, p.0, c);
  }

  /** Names in front of a column list shift where a later name is found. */
  lemma IndexOfShift(pre: seq<string>, cols: seq<string>, k: string)
    requires k !in pre
    ensures IndexOf(pre + cols, k) ==
      match IndexOf(cols, k) case None => None case Some(c) => Some(c + |pre|)
  {
    match IndexOf(cols, k)
    case None =>
    case Some(c) =>
      assert (pre + cols)[..c + |pre|] == pre + cols[..c];
      IndexOfAt(pre + cols, k, c + |pre|);
  }

  /** The six inserts leave every other column as it was. */
  lemma MetaKeeps(t0: Table, starter: seq<Json>, pos: seq<Json>, ids: seq<Json>,
                  names: seq<Json>, team: seq<Json>, gameId: seq<Json>, k: string)
    requires WellFormed(t0)
    requires MetaFits(t0, starter, pos, ids, names, team, gameId)
    requires k !in META
    ensures MetaInserts(t0, starter, pos, ids, names, team, gameId).Ok?
    ensures ColumnOf(MetaInserts(t0, starter, pos, ids, names, team, gameId).value, k) == ColumnOf(t0, k)
  {
    MetaInsertsShape(t0, starter, pos, ids, names, team, gameId);
    IndexOfShift(META, t0.columns, k);
    var data := [gameId, team, names, ids, pos, starter] + t0.data;
    match IndexOf(t0.columns, k)
    case None =>
    case Some(c) => assert data[c + 6] == t0.data[c];
  }

  /** Label `i` is the last label with its lowered name. */
  predicate LastLabel(labels: Json, nl: nat, i: nat) {
    forall l :: i < l < nl ==> LabelKey(labels, l) != LabelKey(labels, i)
  }

  /** A stat column of a group's frame: the lowered label `i` names a
      column holding each player's `i`-th stat, unless a later label has
      the same lowered name, which then takes the column. */
  lemma GroupStatColumn(group: Json, labels: Json, team: Json, gameId: string, starter: bool,
                        n: nat, nl: nat, t: Table, i: nat)
    requires Len(group) == Ok(n) && n > 0 && Len(labels) == Ok(nl)
    requires GroupTable(group, labels, team, gameId, starter) == Ok(t)
    requires i < nl && LastLabel(labels, nl, i)
    ensures LabelKey(labels, i).Ok?
    ensures var key := LabelKey(labels, i).value;
      key !in META && ColumnOf(t, key).Ok? &&
      forall j :: 0 <= j < n ==> StatCell(group, j, i) == Ok(ColumnOf(t, key).value[j])
  {
    var entries := PlayerEntries(labels, group, n, nl).value;
    var pos := AthleteColumn(group, n, "pos").value;
    var ids := PlayerIds(group, n).value;
    var names := AthleteColumn(group, n, "shrtNm").value;
    var st, tm, gid := Fill(JBool(starter), n), Fill(team, n), Fill(JStr(gameId), n);
    assert MetaInserts(DictTable(DictOf(entries), n), st, pos, ids, names, tm, gid) == Ok(t);
    PlayerEntriesAt(labels, group, n, nl);
    assert LastOfKey(entries, i);
    EntryColumn(entries, n, i, st, pos, ids, names, tm, gid, t);
  }

  /** The last entry of a key survives the dict and the player inserts as
      the column of that key. */
  lemma EntryColumn(entries: seq<(string, seq<Json>)>, n: nat, i: nat, st: seq<Json>, pos: seq<Json>,
                    ids: seq<Json>, names: seq<Json>, tm: seq<Json>, gid: seq<Json>, t: Table)
    requires Heights(entries, n) && i < |entries| && LastOfKey(entries, i)
    requires MetaInserts(DictTable(DictOf(entries), n), st, pos, ids, names, tm, gid) == Ok(t)
    ensures entries[i].0 !in META && ColumnOf(t, entries[i].0) == Ok(entries[i].1)
  {
    var d := DictOf(entries);
    var t0 := DictTable(d, n);
    var key := entries[i].0;
    MetaInsertsOk(t0, st, pos, ids, names, tm, gid);
    DictOfSpec(entries);
    DictColumn(d, n, entries[i]);
    assert key in t0.columns;
    MetaKeeps(t0, st, pos, ids, names, tm, gid, key);
  }

  /** Entry `l` of the players' dict comprehension is keyed by the lowered
      label `l` and holds every player's `l`-th stat. */
  lemma PlayerEntriesAt(labels: Json, group: Json, n: nat, nl: nat)
    requires PlayerEntries(labels, group, n, nl).Ok?
    ensures var e := PlayerEntries(labels, group, n, nl).value;
      |e| == nl &&
      forall l :: 0 <= l < nl ==>
        LabelKey(labels, l) == Ok(e[l].0) &&
        forall j :: 0 <= j < n ==> StatCell(group, j, l) == Ok(e[l].1[j])
  {
    var e := PlayerEntries(labels, group, n, nl).value;
    forall l | 0 <= l < nl
      ensures LabelKey(labels, l) == Ok(e[l].0)
      ensures forall j :: 0 <= j < n ==> StatCell(group, j, l) == Ok(e[l].1[j])
    {
      assert Range(nl)[l] == l;
      assert PlayerEntry(labels, group, n, l) == Ok(e[l]);
      forall j | 0 <= j < n ensures StatCell(group, j, l) == Ok(e[l].1[j]) {
        assert Range(n)[j] == j;
      }
    }
  }

  /** The totals frame of a team with stat labels is one row: player
      `TEAM`, id and position `TOTAL`, not a starter, with the team's name
      and the game id. */
  lemma TotalsTableSpec(totals: Json, labels: Json, team: Json, gameId: string, nl: nat, t: Table)
    requires Len(totals).Ok? && Len(totals).value > 0 && Len(labels) == Ok(nl) && nl > 0
    requires TotalsTable(totals, labels, team, gameId) == Ok(t)
    ensures t.height == 1 && |t.columns| >= 6 && t.columns[..6] == META
    ensures ColumnOf(t, "starter") == Ok([JBool(false)])
    ensures ColumnOf(t, "position") == Ok([JStr("TOTAL")])
    ensures ColumnOf(t, "player_id") == Ok([JStr("TOTAL")])
    ensures ColumnOf(t, "player") == Ok([JStr("TEAM")])
    ensures ColumnOf(t, "team") == Ok([team])
    ensures ColumnOf(t, "game_id") == Ok([JStr(gameId)])
  {
    var entries := TotalsEntries(labels, totals, nl).value;
    var t0 := DictTable(DictOf(entries), 1);
    var st, pos, ids, nm := Fill(JBool(false), 1), Fill(JStr("TOTAL"), 1), Fill(JStr("TOTAL"), 1), Fill(JStr("TEAM"), 1);
    var tm, gid := Fill(team, 1), Fill(JStr(gameId), 1);
    assert MetaInserts(t0, st, pos, ids, nm, tm, gid) == Ok(t);
    MetaInsertsResult(t0, st, pos, ids, nm, tm, gid, t);
    assert st == [JBool(false)] && pos == [JStr("TOTAL")] && nm == [JStr("TEAM")];
    assert tm == [team] && gid == [JStr(gameId)];
  }

  /** Without stat labels the totals dict is empty, and a frame built from
      an empty dict has no rows, so the totals frame is empty too. */
  lemma TotalsNoLabels(totals: Json, labels: Json, team: Json, gameId: string, t: Table)
    requires Len(labels) == Ok(0)
    requires TotalsTable(totals, labels, team, gameId) == Ok(t)
    ensures t.height == 0
  {
  }

  /** A stat column of the totals frame: the lowered label `i` names a
      column holding the team's `i`-th total, unless a later label has the
      same lowered name. */
  lemma TotalsStatColumn(totals: Json, labels: Json, team: Json, gameId: string, nl: nat, t: Table, i: nat)
    requires Len(totals).Ok? && Len(totals).value > 0 && Len(labels) == Ok(nl)
    requires TotalsTable(totals, labels, team, gameId) == Ok(t)
    requires i < nl && LastLabel(labels, nl, i)
    ensures LabelKey(labels, i).Ok? && At(totals, i).Ok?
    ensures ColumnOf(t, LabelKey(labels, i).value) == Ok([At(totals, i).value])
  {
    var entries := TotalsEntries(labels, totals, nl).value;
    var st, pos, ids, nm := Fill(JBool(false), 1), Fill(JStr("TOTAL"), 1), Fill(JStr("TOTAL"), 1), Fill(JStr("TEAM"), 1);
    var tm, gid := Fill(team, 1), Fill(JStr(gameId), 1);
    assert MetaInserts(DictTable(DictOf(entries), 1), st, pos, ids, nm, tm, gid) == Ok(t);
    TotalsEntriesAt(labels, totals, nl);
    assert LastOfKey(entries, i);
    EntryColumn(entries, 1, i, st, pos, ids, nm, tm, gid, t);
  }

  /** Entry `l` of the totals' dict comprehension is keyed by the lowered
      label `l` and holds the team's `l`-th total as its one cell. */
  lemma TotalsEntriesAt(labels: Json, totals: Json, nl: nat)
    requires TotalsEntries(labels, totals, nl).Ok?
    ensures var e := TotalsEntries(labels, totals, nl).value;
      forall l :: 0 <= l < nl ==>
        LabelKey(labels, l) == Ok(e[l].0) && At(totals, l).Ok? && e[l].1 == [At(totals, l).value]
  {
    var e := TotalsEntries(labels, totals, nl).value;
    forall l | 0 <= l < nl
      ensures LabelKey(labels, l) == Ok(e[l].0) && At(totals, l).Ok? && e[l].1 == [At(totals, l).value]
    {
      assert Range(nl)[l] == l;
      assert TotalsEntry(labels, totals, l) == Ok(e[l]);
    }
  }

  /** Every frame of a group has the `starter`, `team` and `game_id`
      columns, each repeating the group's value on every row, whether the
      group is empty or not. */
  lemma GroupFilled(group: Json, labels: Json, team: Json, gameId: string, starter: bool, t: Table)
    requires GroupTable(group, labels, team, gameId, starter) == Ok(t)
    ensures ColumnOf(t, "starter") == Ok(Fill(JBool(starter), t.height))
    ensures ColumnOf(t, "team") == Ok(Fill(team, t.height))
    ensures ColumnOf(t, "game_id") == Ok(Fill(JStr(gameId), t.height))
  {
    var n := Len(group).value;
    if n == 0 {
      EmptyFilled(labels, t);
    } else {
      GroupTableSpec(group, labels, team, gameId, starter, n, t);
    }
  }

  /** In the frame of an empty group every column is empty. */
  lemma EmptyFilled(labels: Json, t: Table)
    requires EmptyGroup(labels) == Ok(t)
    ensures t.height == 0 && t.columns[..6] == EMPTY_META
    ensures forall name :: name in EMPTY_META ==> ColumnOf(t, name) == Ok([])
  {
    var keys := LowerLabels(labels).value;
    assert t.columns == EMPTY_META + keys;
    forall name | name in EMPTY_META ensures ColumnOf(t, name) == Ok([]) {
      assert name in t.columns;
    }
  }

  /** Every totals frame has the `starter`, `team`, `game_id` and `player`
      columns, with `false`, the team's name, the game id and `TEAM` on
      every row. */
  lemma TotalsFilled(totals: Json, labels: Json, team: Json, gameId: string, t: Table)
    requires TotalsTable(totals, labels, team, gameId) == Ok(t)
    ensures ColumnOf(t, "starter") == Ok(Fill(JBool(false), t.height))
    ensures ColumnOf(t, "team") == Ok(Fill(team, t.height))
    ensures ColumnOf(t, "game_id") == Ok(Fill(JStr(gameId), t.height))
    ensures ColumnOf(t, "player") == Ok(Fill(JStr("TEAM"), t.height))
  {
    var n := Len(totals).value;
    if n == 0 {
      EmptyFilled(labels, t);
    } else {
      var nl := Len(labels).value;
      var entries := TotalsEntries(labels, totals, nl).value;
      var h := if nl == 0 then 0 else 1;
      var t0 := DictTable(DictOf(entries), h);
      var st, pos, nm := Fill(JBool(false), h), Fill(JStr("TOTAL"), h), Fill(JStr("TEAM"), h);
      var tm, gid := Fill(team, h), Fill(JStr(gameId), h);
      assert MetaInserts(t0, st, pos, pos, nm, tm, gid) == Ok(t);
      MetaInsertsResult(t0, st, pos, pos, nm, tm, gid, t);
    }
  }

  /** A column all six frames have is, in the stacked frame, the six
      frames' columns one after the other: first team's starters, bench and
      totals, then the second team's. */
  lemma StackColumn(g: Groups, name: string)
    requires GroupsWellFormed(g)
    requires name in g.st1.columns && name in g.bn1.columns && name in g.tot1.columns
    requires name in g.st2.columns && name in g.bn2.columns && name in g.tot2.columns
    ensures ColumnOf(Stack(g), name) == Ok(
      ColumnOf(g.st1, name).value + ColumnOf(g.bn1, name).value + ColumnOf(g.tot1, name).value +
      (ColumnOf(g.st2, name).value + ColumnOf(g.bn2, name).value + ColumnOf(g.tot2, name).value))
  {
    var a1 := Concat2(g.st1, g.bn1);
    var a2 := Concat2(g.st2, g.bn2);
    Concat2Both(g.st1, g.bn1, name);
    Concat2Both(g.st2, g.bn2, name);
    Concat2Both(a1, g.tot1, name);
    Concat2Both(a2, g.tot2, name);
    Concat2Both(Concat2(a1, g.tot1), Concat2(a2, g.tot2), name);
  }

  /** Two runs of the same value make one run. */
  lemma FillConcat(v: Json, a: nat, b: nat)
    ensures Fill(v, a) + Fill(v, b) == Fill(v, a + b)
  {
    assert forall i :: 0 <= i < a + b ==> (Fill(v, a) + Fill(v, b))[i] == v;
  }

  /** A frame whose column `name` repeats `v` on every row. */
  predicate FilledCol(t: Table, name: string, v: Json) {
    WellFormed(t) && ColumnOf(t, name) == Ok(Fill(v, t.height))
  }

  /** A frame whose `starter`, `team` and `game_id` columns repeat one
      value on every row. */
  predicate Filled(t: Table, starter: bool, team: Json, gameId: string) {
    FilledCol(t, "starter", JBool(starter)) && FilledCol(t, "team", team) && FilledCol(t, "game_id", JStr(gameId))
  }

  /** The first team's name, `boxscore[0]["tm"]["dspNm"]`. */
  function TeamName(boxscore: Json, k: nat): Res<Json> {
    var tm :- At(boxscore, k);
    Path(tm, ["tm", "dspNm"])
  }

  /** Each of the six frames repeats its team's name, the game id and its
      starter flag on every row. */
  lemma BuildGroupsFilled(boxscore: Json, gameId: string, g: Groups)
    requires BuildGroups(boxscore, gameId) == Ok(g)
    ensures TeamName(boxscore, 0).Ok? && TeamName(boxscore, 1).Ok?
    ensures var n1, n2 := TeamName(boxscore, 0).value, TeamName(boxscore, 1).value;
      Filled(g.st1, true, n1, gameId) && Filled(g.bn1, false, n1, gameId) && Filled(g.tot1, false, n1, gameId) &&
      Filled(g.st2, true, n2, gameId) && Filled(g.bn2, false, n2, gameId) && Filled(g.tot2, false, n2, gameId)
  {
    var p := ReadParts(boxscore).value;
    ReadPartsNames(boxscore);
    PartsFilled(p, gameId, g);
  }

  /** The names the helper reads are `TeamName`s. */
  lemma ReadPartsNames(boxscore: Json)
    requires ReadParts(boxscore).Ok?
    ensures TeamName(boxscore, 0) == Ok(ReadParts(boxscore).value.name1)
    ensures TeamName(boxscore, 1) == Ok(ReadParts(boxscore).value.name2)
  {
  }

  lemma PartsFilled(p: Parts, gameId: string, g: Groups)
    requires PartsGroups(p, gameId) == Ok(g)
    ensures Filled(g.st1, true, p.name1, gameId) && Filled(g.bn1, false, p.name1, gameId)
    ensures Filled(g.tot1, false, p.name1, gameId)
    ensures Filled(g.st2, true, p.name2, gameId) && Filled(g.bn2, false, p.name2, gameId)
    ensures Filled(g.tot2, false, p.name2, gameId)
  {
    PartsGroupsOk(p, gameId, g);
    GroupFilled(p.st1, p.labels, p.name1, gameId, true, g.st1);
    GroupFilled(p.bn1, p.labels, p.name1, gameId, false, g.bn1);
    TotalsFilled(p.tot1, p.labels, p.name1, gameId, g.tot1);
    GroupFilled(p.st2, p.labels, p.name2, gameId, true, g.st2);
    GroupFilled(p.bn2, p.labels, p.name2, gameId, false, g.bn2);
    TotalsFilled(p.tot2, p.labels, p.name2, gameId, g.tot2);
  }

  /** Each of the six frames is the one its group gives. */
  lemma PartsGroupsOk(p: Parts, gameId: string, g: Groups)
    requires PartsGroups(p, gameId) == Ok(g)
    ensures GroupTable(p.st1, p.labels, p.name1, gameId, true) == Ok(g.st1)
    ensures GroupTable(p.bn1, p.labels, p.name1, gameId, false) == Ok(g.bn1)
    ensures TotalsTable(p.tot1, p.labels, p.name1, gameId) == Ok(g.tot1)
    ensures GroupTable(p.st2, p.labels, p.name2, gameId, true) == Ok(g.st2)
    ensures GroupTable(p.bn2, p.labels, p.name2, gameId, false) == Ok(g.bn2)
    ensures TotalsTable(p.tot2, p.labels, p.name2, gameId) == Ok(g.tot2)
  {
    TeamFramesOk(p.st1, p.bn1, p.tot1, p.labels, p.name1, gameId, g.st1, g.bn1, g.tot1);
    TeamFramesOk(p.st2, p.bn2, p.tot2, p.labels, p.name2, gameId, g.st2, g.bn2, g.tot2);
  }

  lemma TeamFramesOk(st: Json, bn: Json, tot: Json, labels: Json, name: Json, gameId: string,
                     s: Table, b: Table, o: Table)
    requires TeamFrames(st, bn, tot, labels, name, gameId) == Ok((s, b, o))
    ensures GroupTable(st, labels, name, gameId, true) == Ok(s)
    ensures GroupTable(bn, labels, name, gameId, false) == Ok(b)
    ensures TotalsTable(tot, labels, name, gameId) == Ok(o)
  {
  }

  /** The rows of the stacked boxscore come team by team, starters, bench,
      then the totals row: `starter` is true exactly on the starters'
      rows. */
  lemma BoxscoreStarters(boxscore: Json, gameId: string, g: Groups)
    requires BuildGroups(boxscore, gameId) == Ok(g)
    ensures ColumnOf(Stack(g), "starter") == Ok(
        Fill(JBool(true), g.st1.height) + Fill(JBool(false), g.bn1.height) + Fill(JBool(false), g.tot1.height) +
        (Fill(JBool(true), g.st2.height) + Fill(JBool(false), g.bn2.height) + Fill(JBool(false), g.tot2.height)))
  {
    BuildGroupsFilled(boxscore, gameId, g);
    StackStarters(g);
  }

  /** `team` in the stacked boxscore is the first team's name on its rows
      and the second team's on the rest. */
  lemma BoxscoreTeams(boxscore: Json, gameId: string, g: Groups)
    requires BuildGroups(boxscore, gameId) == Ok(g)
    ensures TeamName(boxscore, 0).Ok? && TeamName(boxscore, 1).Ok?
    ensures ColumnOf(Stack(g), "team") == Ok(
        Fill(TeamName(boxscore, 0).value, g.st1.height + g.bn1.height + g.tot1.height) +
        Fill(TeamName(boxscore, 1).value, g.st2.height + g.bn2.height + g.tot2.height))
  {
    BuildGroupsFilled(boxscore, gameId, g);
    StackTeamValues(g, "team", TeamName(boxscore, 0).value, TeamName(boxscore, 1).value);
  }

  /** `game_id` in the stacked boxscore is the game on every row. */
  lemma BoxscoreGameIds(boxscore: Json, gameId: string, g: Groups)
    requires BuildGroups(boxscore, gameId) == Ok(g)
    ensures ColumnOf(Stack(g), "game_id") == Ok(Fill(JStr(gameId), Stack(g).height))
  {
    BuildGroupsFilled(boxscore, gameId, g);
    StackSameValue(g, "game_id", JStr(gameId));
  }

  /** A column repeating one value in all six frames repeats it in the
      stacked frame. */
  lemma StackSameValue(g: Groups, name: string, v: Json)
    requires GroupsWellFormed(g)
    requires FilledCol(g.st1, name, v) && FilledCol(g.bn1, name, v) && FilledCol(g.tot1, name, v)
    requires FilledCol(g.st2, name, v) && FilledCol(g.bn2, name, v) && FilledCol(g.tot2, name, v)
    ensures ColumnOf(Stack(g), name) == Ok(Fill(v, Stack(g).height))
  {
    var h1, h2 := g.st1.height + g.bn1.height + g.tot1.height, g.st2.height + g.bn2.height + g.tot2.height;
    StackTeamValues(g, name, v, v);
    StackHeight(g);
    assert Stack(g).height == h1 + h2;
    FillConcat(v, h1, h2);
  }

  /** `starter` in the stacked frame. */
  lemma StackStarters(g: Groups)
    requires GroupsWellFormed(g)
    requires FilledCol(g.st1, "starter", JBool(true)) && FilledCol(g.bn1, "starter", JBool(false))
    requires FilledCol(g.tot1, "starter", JBool(false)) && FilledCol(g.st2, "starter", JBool(true))
    requires FilledCol(g.bn2, "starter", JBool(false)) && FilledCol(g.tot2, "starter", JBool(false))
    ensures ColumnOf(Stack(g), "starter") == Ok(
        Fill(JBool(true), g.st1.height) + Fill(JBool(false), g.bn1.height) + Fill(JBool(false), g.tot1.height) +
        (Fill(JBool(true), g.st2.height) + Fill(JBool(false), g.bn2.height) + Fill(JBool(false), g.tot2.height)))
  {
    StackColumn(g, "starter");
  }

  /** A column repeating one value per team gives, in the stacked frame,
      the first value on the first team's rows and the second on the rest. */
  lemma StackTeamValues(g: Groups, name: string, v1: Json, v2: Json)
    requires GroupsWellFormed(g)
    requires FilledCol(g.st1, name, v1) && FilledCol(g.bn1, name, v1) && FilledCol(g.tot1, name, v1)
    requires FilledCol(g.st2, name, v2) && FilledCol(g.bn2, name, v2) && FilledCol(g.tot2, name, v2)
    ensures ColumnOf(Stack(g), name) == Ok(
        Fill(v1, g.st1.height + g.bn1.height + g.tot1.height) +
        Fill(v2, g.st2.height + g.bn2.height + g.tot2.height))
  {
    TeamRun(g.st1, g.bn1, g.tot1, name, v1);
    TeamRun(g.st2, g.bn2, g.tot2, name, v2);
    StackColumn(g, name);
  }

  /** One team's three frames repeating `v` give one run of `v`. */
  lemma TeamRun(st: Table, bn: Table, tot: Table, name: string, v: Json)
    requires FilledCol(st, name, v) && FilledCol(bn, name, v) && FilledCol(tot, name, v)
    ensures name in st.columns && name in bn.columns && name in tot.columns
    ensures ColumnOf(st, name).value + ColumnOf(bn, name).value + ColumnOf(tot, name).value ==
      Fill(v, st.height + bn.height + tot.height)
  {
    Fill3(v, st.height, bn.height, tot.height);
  }

  lemma Fill3(v: Json, a: nat, b: nat, c: nat)
    ensures Fill(v, a) + Fill(v, b) + Fill(v, c) == Fill(v, a + b + c)
  {
    FillConcat(v, a, b);
    FillConcat(v, a + b, c);
  }

  /** The stacked frame has the six frames' rows. */
  lemma StackHeight(g: Groups)
    requires GroupsWellFormed(g)
    ensures Stack(g).height ==
      g.st1.height + g.bn1.height + g.tot1.height + (g.st2.height + g.bn2.height + g.tot2.height)
  {
  }

  /** How the page writes a shooting field: made, a dash, attempted. */
  function ShotText(made: nat, attempted: nat): string {
    NatToString(made) + "-" + NatToString(attempted)
  }

  /** A run of digits holds no dash. */
  lemma DigitsNoDash(s: string)
    requires AllDigits(s)
    ensures !Contains(s, "-")
  {
    forall j | 0 <= j < |s| ensures !Occurs(s, "-", j) {
      assert s[j..j + 1] == [s[j]];
    }
    ContainsIff(s, "-");
  }

  /** Splitting a shooting field on the dash and converting the parts gives
      back the made and attempted counts. */
  lemma ShotTextSplit(made: nat, attempted: nat)
    ensures Part(JStr(ShotText(made, attempted)), 0) == Ok(NatToString(made))
    ensures Part(JStr(ShotText(made, attempted)), 1) == Ok(NatToString(attempted))
    ensures Numeric(NatToString(made)) == JNum(made)
    ensures Numeric(NatToString(attempted)) == JNum(attempted)
  {
    var m, a := NatToString(made), NatToString(attempted);
    DigitsNoDash(m);
    DigitsNoDash(a);
    assert Join([m, a], ['-']) == ShotText(made, attempted);
    SplitJoin([m, a], '-');
    ParseDecimalToString(made);
    ParseDecimalToString(attempted);
  }

  /** A field without a dash splits into one part: asking for the second
      raises `IndexError`; a cell that is not a string raises
      `AttributeError` before any split. */
  lemma PartErrors(x: Json)
    ensures x.JStr? && !Contains(x.s, "-") ==> Part(x, 0) == Ok(x.s) && Part(x, 1) == Err(IndexError)
    ensures !x.JStr? ==> Part(x, 0) == Err(AttributeError) && Part(x, 1) == Err(AttributeError)
  {
    if x.JStr? && !Contains(x.s, "-") {
      SplitNoSep(x.s, "-");
    }
  }

  /** The eight derived columns fit: the frame has the seven columns they
      go after, and none of their names is taken. */
  predicate DerivedFit(d: Table) {
    |d.columns| >= 7 && forall k :: 0 <= k < 8 ==> DERIVED[k] !in d.columns
  }

  /** The frame after the first `i` derived inserts. */
  function Stage(d: Table, vals: seq<seq<Json>>, i: nat): Table
    requires |d.columns| >= 7 && |d.data| == |d.columns| && |vals| == 8 && i <= 8
  {
    Table(d.columns[..7] + DERIVED[..i] + d.columns[7..], d.data[..7] + vals[..i] + d.data[7..], d.height)
  }

  /** Insert number `i` at `7 + i` takes stage `i` to stage `i + 1`. */
  lemma StageStep(d: Table, vals: seq<seq<Json>>, i: nat)
    requires WellFormed(d) && DerivedFit(d) && |vals| == 8 && i < 8
    requires forall k :: 0 <= k < 8 ==> |vals[k]| == d.height
    ensures WellFormed(Stage(d, vals, i))
    ensures Inserted(Stage(d, vals, i), 7 + i, DERIVED[i], vals[i]) == Ok(Stage(d, vals, i + 1))
  {
    var t := Stage(d, vals, i);
    var pre, post := d.columns[..7] + DERIVED[..i], d.columns[7..];
    var dpre, dpost := d.data[..7] + vals[..i], d.data[7..];
    assert t.columns == pre + post && t.data == dpre + dpost;
    forall c | 0 <= c < |t.data| ensures |t.data[c]| == t.height {
      if c < 7 { assert t.data[c] == d.data[c]; }
      else if c < 7 + i { assert t.data[c] == vals[c - 7]; }
      else { assert t.data[c] == d.data[c - i]; }
    }
    assert DERIVED[i] !in DERIVED[..i];
    assert DERIVED[i] !in t.columns;
    assert (pre + post)[..7 + i] == pre && (pre + post)[7 + i..] == post;
    assert (dpre + dpost)[..7 + i] == dpre && (dpre + dpost)[7 + i..] == dpost;
    assert DERIVED[..i + 1] == DERIVED[..i] + [DERIVED[i]];
    assert vals[..i + 1] == vals[..i] + [vals[i]];
    assert Stage(d, vals, i + 1).columns == pre + [DERIVED[i]] + post;
    assert Stage(d, vals, i + 1).data == dpre + [vals[i]] + dpost;
  }

  /** From stage `i` on, the remaining inserts reach the last stage. */
  lemma {:induction false} RunStages(d: Table, vals: seq<seq<Json>>, i: nat)
    requires WellFormed(d) && DerivedFit(d) && |vals| == 8 && i <= 8
    requires forall k :: 0 <= k < 8 ==> |vals[k]| == d.height
    ensures WellFormed(Stage(d, vals, i))
    ensures InsertRun(Stage(d, vals, i), 7 + i, DERIVED[i..], vals[i..]) == Ok(Stage(d, vals, 8))
    decreases 8 - i
  {
    if i < 8 {
      StageStep(d, vals, i);
      assert DERIVED[i..][1..] == DERIVED[i + 1..];
      assert vals[i..][1..] == vals[i + 1..];
      RunStages(d, vals, i + 1);
    } else {
      assert Stage(d, vals, i).columns == d.columns[..7] + DERIVED + d.columns[7..];
    }
  }

  /** When they fit, the eight inserts give the last stage. */
  lemma DeriveShape(d: Table, fgm: seq<Json>, fga: seq<Json>, thpm: seq<Json>, thpa: seq<Json>,
                    ftm: seq<Json>, fta: seq<Json>)
    requires WellFormed(d) && DerivedFit(d)
    requires |fgm| == |fga| == |thpm| == |thpa| == |ftm| == |fta| == d.height
    ensures Derive(d, fgm, fga, thpm, thpa, ftm, fta) == Ok(Stage(d, DerivedCells(fgm, fga, thpm, thpa, ftm, fta), 8))
  {
    var vals := DerivedCells(fgm, fga, thpm, thpa, ftm, fta);
    assert Stage(d, vals, 0) == d by {
      assert d.columns[..7] + DERIVED[..0] + d.columns[7..] == d.columns;
      assert d.data[..7] + vals[..0] + d.data[7..] == d.data;
    }
    RunStages(d, vals, 0);
    assert DERIVED[0..] == DERIVED && vals[0..] == vals;
  }

  /** The derived columns sit at 7 to 14, between the first seven columns
      and the rest, and six of them hold the split counts unchanged. */
  lemma DeriveSpec(d: Table, fgm: seq<Json>, fga: seq<Json>, thpm: seq<Json>, thpa: seq<Json>,
                   ftm: seq<Json>, fta: seq<Json>, t: Table)
    requires WellFormed(d) && DerivedFit(d)
    requires |fgm| == |fga| == |thpm| == |thpa| == |ftm| == |fta| == d.height
    requires Derive(d, fgm, fga, thpm, thpa, ftm, fta) == Ok(t)
    ensures t.columns == d.columns[..7] + DERIVED + d.columns[7..]
    ensures ColumnOf(t, "fgm") == Ok(fgm) && ColumnOf(t, "fga") == Ok(fga)
    ensures ColumnOf(t, "3pm") == Ok(thpm) && ColumnOf(t, "3pa") == Ok(thpa)
    ensures ColumnOf(t, "ftm") == Ok(ftm) && ColumnOf(t, "fta") == Ok(fta)
  {
    DeriveShape(d, fgm, fga, thpm, thpa, ftm, fta);
    LastStage(d, fgm, fga, thpm, thpa, ftm, fta);
  }

  /** `2pm` is made field goals less made threes and `2pa` attempted field
      goals less attempted threes, row by row. */
  lemma DeriveTwos(d: Table, fgm: seq<Json>, fga: seq<Json>, thpm: seq<Json>, thpa: seq<Json>,
                   ftm: seq<Json>, fta: seq<Json>, t: Table)
    requires WellFormed(d) && DerivedFit(d)
    requires |fgm| == |fga| == |thpm| == |thpa| == |ftm| == |fta| == d.height
    requires Derive(d, fgm, fga, thpm, thpa, ftm, fta) == Ok(t)
    ensures ColumnOf(t, "2pm").Ok? && |ColumnOf(t, "2pm").value| == d.height
    ensures ColumnOf(t, "2pa").Ok? && |ColumnOf(t, "2pa").value| == d.height
    ensures forall i :: 0 <= i < d.height ==>
      ColumnOf(t, "2pm").value[i] == Minus(fgm[i], thpm[i]) &&
      ColumnOf(t, "2pa").value[i] == Minus(fga[i], thpa[i])
  {
    DerivedTwoColumns(d, fgm, fga, thpm, thpa, ftm, fta, t);
  }

  /** The two derived columns hold the row-by-row differences. */
  lemma DerivedTwoColumns(d: Table, fgm: seq<Json>, fga: seq<Json>, thpm: seq<Json>, thpa: seq<Json>,
                          ftm: seq<Json>, fta: seq<Json>, t: Table)
    requires WellFormed(d) && DerivedFit(d)
    requires |fgm| == |fga| == |thpm| == |thpa| == |ftm| == |fta| == d.height
    requires Derive(d, fgm, fga, thpm, thpa, ftm, fta) == Ok(t)
    ensures ColumnOf(t, "2pm") == Ok(Diff(fgm, thpm)) && ColumnOf(t, "2pa") == Ok(Diff(fga, thpa))
  {
    DeriveShape(d, fgm, fga, thpm, thpa, ftm, fta);
    LastStage(d, fgm, fga, thpm, thpa, ftm, fta);
  }

  /** In the last stage the derived columns follow the first seven and each
      holds its own cells. */
  lemma LastStage(d: Table, fgm: seq<Json>, fga: seq<Json>, thpm: seq<Json>, thpa: seq<Json>,
                  ftm: seq<Json>, fta: seq<Json>)
    requires WellFormed(d) && DerivedFit(d)
    requires |fgm| == |fga| == |thpm| == |thpa| == |ftm| == |fta| == d.height
    ensures var t := Stage(d, DerivedCells(fgm, fga, thpm, thpa, ftm, fta), 8);
      && t.columns == d.columns[..7] + DERIVED + d.columns[7..]
      && ColumnOf(t, "fgm") == Ok(fgm) && ColumnOf(t, "fga") == Ok(fga)
      && ColumnOf(t, "2pm") == Ok(Diff(fgm, thpm)) && ColumnOf(t, "2pa") == Ok(Diff(fga, thpa))
      && ColumnOf(t, "3pm") == Ok(thpm) && ColumnOf(t, "3pa") == Ok(thpa)
      && ColumnOf(t, "ftm") == Ok(ftm) && ColumnOf(t, "fta") == Ok(fta)
  {
    var vals := DerivedCells(fgm, fga, thpm, thpa, ftm, fta);
    assert forall j :: 0 <= j < 8 ==> |vals[j]| == d.height;
    assert DERIVED[..8] == DERIVED;
    DerivedIndex(d, vals, 0);
    DerivedIndex(d, vals, 1);
    DerivedIndex(d, vals, 2);
    DerivedIndex(d, vals, 3);
    DerivedIndex(d, vals, 4);
    DerivedIndex(d, vals, 5);
    DerivedIndex(d, vals, 6);
    DerivedIndex(d, vals, 7);
  }

  /** Derived column `k` is found at `7 + k` in the last stage. */
  lemma DerivedIndex(d: Table, vals: seq<seq<Json>>, k: nat)
    requires WellFormed(d) && DerivedFit(d) && |vals| == 8 && k < 8
    requires forall j :: 0 <= j < 8 ==> |vals[j]| == d.height
    ensures WellFormed(Stage(d, vals, 8))
    ensures ColumnOf(Stage(d, vals, 8), DERIVED[k]) == Ok(vals[k])
  {
    var t := Stage(d, vals, 8);
    StageStep(d, vals, 7);
    InsertedWellFormed(Stage(d, vals, 7), 14, DERIVED[7], vals[7]);
    assert t.columns[..7 + k] == d.columns[..7] + DERIVED[..k];
    assert DERIVED[k] !in DERIVED[..k];
    assert t.columns[7 + k] == DERIVED[k];
    IndexOfAt(t.columns, DERIVED[k], 7 + k);
    assert t.data[7 + k] == vals[k];
  }

  /** A converted cell is a number or missing, so converting twice is
      converting once. */
  lemma NumericCellsTwice(col: seq<Json>)
    ensures NumericCells(NumericCells(col)) == NumericCells(col)
  {
  }

  /** The conversions succeed exactly when every named column exists; they
      keep the column order, turn each named column into its numeric
      cells and leave every other column alone. */
  lemma {:induction false} CoerceRunSpec(t: Table, names: seq<string>, n: string)
    requires WellFormed(t)
    ensures CoerceRun(t, names).Ok? <==> forall k :: 0 <= k < |names| ==> names[k] in t.columns
    ensures CoerceRun(t, names).Ok? ==>
      var u := CoerceRun(t, names).value;
      u.columns == t.columns &&
      (n in names ==> ColumnOf(t, n).Ok? && ColumnOf(u, n) == Ok(NumericCells(ColumnOf(t, n).value))) &&
      (n !in names ==> ColumnOf(u, n) == ColumnOf(t, n))
    decreases |names|
  {
    if names != [] {
      var a := names[0];
      if a in t.columns {
        var col := ColumnOf(t, a).value;
        AssignedSpec(t, a, NumericCells(col), n);
        var t1 := CoerceColumn(t, a).value;
        CoerceRunSpec(t1, names[1..], n);
        assert forall k :: 0 <= k < |names| ==> names[k] == a || names[k] in names[1..];
        assert names == [a] + names[1..];
        if n == a && n in names[1..] {
          NumericCellsTwice(col);
        }
      } else {
        assert names[0] !in t.columns;
      }
    }
  }

  /** Insert `k` of a run either fails the run or leaves the rest of it. */
  lemma RunNext(t: Table, at: nat, names: seq<string>, cols: seq<seq<Json>>, k: nat)
    requires WellFormed(t) && |names| == |cols| && k < |names|
    ensures var s := Inserted(t, at + k, names[k], cols[k]);
      InsertRun(t, at + k, names[k..], cols[k..]) ==
        if s.Ok? then InsertRun(s.value, at + k + 1, names[k + 1..], cols[k + 1..]) else Err(s.error)
  {
    assert names[k..][1..] == names[k + 1..];
    assert cols[k..][1..] == cols[k + 1..];
  }

  /** Conversion `k` of a run either fails the run or leaves the rest of it. */
  lemma CoerceNext(t: Table, names: seq<string>, k: nat)
    requires WellFormed(t) && k < |names|
    ensures var s := CoerceColumn(t, names[k]);
      CoerceRun(t, names[k..]) == if s.Ok? then CoerceRun(s.value, names[k + 1..]) else Err(s.error)
  {
    assert names[k..][1..] == names[k + 1..];
  }

  /** A run of inserts that succeeds had room for its first position and
      found none of its names taken. */
  lemma {:induction false} InsertRunFits(t: Table, at: nat, names: seq<string>, cols: seq<seq<Json>>)
    requires WellFormed(t) && |names| == |cols|
    requires InsertRun(t, at, names, cols).Ok?
    ensures names != [] ==> at <= |t.columns|
    ensures forall k :: 0 <= k < |names| ==> names[k] !in t.columns
    decreases |names|
  {
    if names != [] {
      InsertedSpec(t, at, names[0], cols[0]);
      var t1 := Inserted(t, at, names[0], cols[0]).value;
      InsertRunFits(t1, at + 1, names[1..], cols[1..]);
      assert t.columns == t.columns[..at] + t.columns[at..];
      forall k | 1 <= k < |names| ensures names[k] !in t.columns {
        assert names[k] == names[1..][k - 1];
      }
    }
  }

  /** A run of inserts leaves every column it does not insert as it was. */
  lemma {:induction false} InsertRunKeeps(t: Table, at: nat, names: seq<string>, cols: seq<seq<Json>>, n: string)
    requires WellFormed(t) && |names| == |cols| && n !in names
    requires InsertRun(t, at, names, cols).Ok?
    ensures ColumnOf(InsertRun(t, at, names, cols).value, n) == ColumnOf(t, n)
    decreases |names|
  {
    if names != [] {
      InsertedSpec(t, at, names[0], cols[0]);
      var t1 := Inserted(t, at, names[0], cols[0]).value;
      assert n !in names[1..];
      InsertRunKeeps(t1, at + 1, names[1..], cols[1..], n);
    }
  }

  /** The eight inserts succeed only on a frame they fit. */
  lemma DeriveFits(d: Table, fgm: seq<Json>, fga: seq<Json>, thpm: seq<Json>, thpa: seq<Json>,
                   ftm: seq<Json>, fta: seq<Json>)
    requires WellFormed(d)
    requires |fgm| == |fga| == |thpm| == |thpa| == |ftm| == |fta| == d.height
    requires Derive(d, fgm, fga, thpm, thpa, ftm, fta).Ok?
    ensures DerivedFit(d)
  {
    InsertRunFits(d, 7, DERIVED, DerivedCells(fgm, fga, thpm, thpa, ftm, fta));
  }

  /** The three shooting fields, dropped once split. */
  const SPLIT: seq<string> := ["fg", "3pt", "ft"]

  /** The split, derived and converted names are three separate sets. */
  lemma NamesApart(n: string)
    ensures n in COERCED ==> n !in DERIVED && n !in SPLIT
    ensures n in DERIVED ==> n !in COERCED
  {
  }

  /** A column neither split, derived nor converted passes through the
      shooting step unchanged. */
  lemma ShootingKeeps(df: Table, d: Table, u: Table, t: Table, vals: seq<seq<Json>>, n: string)
    requires WellFormed(df) && |vals| == 8
    requires Dropped(df, SPLIT) == Ok(d)
    requires InsertRun(d, 7, DERIVED, vals) == Ok(u)
    requires CoerceRun(u, COERCED) == Ok(t)
    requires n !in SPLIT && n !in DERIVED && n !in COERCED
    ensures ColumnOf(t, n) == ColumnOf(df, n)
  {
    DroppedSpec(df, SPLIT, n);
    InsertRunKeeps(d, 7, DERIVED, vals, n);
    CoerceRunSpec(u, COERCED, n);
  }

  /** A converted column is the numeric cells of the concatenated frame's
      column of that name. */
  lemma ShootingCoerced(df: Table, d: Table, u: Table, t: Table, vals: seq<seq<Json>>, n: string)
    requires WellFormed(df) && |vals| == 8
    requires Dropped(df, SPLIT) == Ok(d)
    requires InsertRun(d, 7, DERIVED, vals) == Ok(u)
    requires CoerceRun(u, COERCED) == Ok(t)
    requires n in COERCED
    ensures ColumnOf(df, n).Ok? && ColumnOf(t, n) == Ok(NumericCells(ColumnOf(df, n).value))
  {
    NamesApart(n);
    DroppedSpec(df, SPLIT, n);
    InsertRunKeeps(d, 7, DERIVED, vals, n);
    CoerceRunSpec(u, COERCED, n);
  }

  /** A derived column survives the conversions unchanged, and the
      conversions keep the column order. */
  lemma CoerceKeepsDerived(u: Table, t: Table)
    requires WellFormed(u) && CoerceRun(u, COERCED) == Ok(t)
    ensures t.columns == u.columns
    ensures forall n :: n in DERIVED ==> ColumnOf(t, n) == ColumnOf(u, n)
  {
    CoerceRunSpec(u, COERCED, "fgm");
    forall n | n in DERIVED ensures ColumnOf(t, n) == ColumnOf(u, n) {
      NamesApart(n);
      CoerceRunSpec(u, COERCED, n);
    }
  }

  /** A successful shooting step went through all six splits, the drop,
      the eight inserts and the ten conversions. */
  lemma ShootingSteps(df: Table, t: Table)
    requires WellFormed(df) && Shooting(df) == Ok(t)
    ensures SplitColumn(df, "fg", 0).Ok? && SplitColumn(df, "fg", 1).Ok?
    ensures SplitColumn(df, "3pt", 0).Ok? && SplitColumn(df, "3pt", 1).Ok?
    ensures SplitColumn(df, "ft", 0).Ok? && SplitColumn(df, "ft", 1).Ok?
    ensures Dropped(df, SPLIT).Ok?
    ensures var u := Derive(Dropped(df, SPLIT).value,
                            SplitColumn(df, "fg", 0).value, SplitColumn(df, "fg", 1).value,
                            SplitColumn(df, "3pt", 0).value, SplitColumn(df, "3pt", 1).value,
                            SplitColumn(df, "ft", 0).value, SplitColumn(df, "ft", 1).value);
      u.Ok? && CoerceRun(u.value, COERCED) == Ok(t)
  {
  }

  /** After the inserts and the conversions, the derived columns follow the
      first seven columns and six of them hold the split counts. */
  lemma DerivedThrough(d: Table, fgm: seq<Json>, fga: seq<Json>, thpm: seq<Json>, thpa: seq<Json>,
                       ftm: seq<Json>, fta: seq<Json>, u: Table, t: Table)
    requires WellFormed(d)
    requires |fgm| == |fga| == |thpm| == |thpa| == |ftm| == |fta| == d.height
    requires Derive(d, fgm, fga, thpm, thpa, ftm, fta) == Ok(u)
    requires CoerceRun(u, COERCED) == Ok(t)
    ensures WellFormed(t) && t.height == d.height
    ensures |d.columns| >= 7 && t.columns == d.columns[..7] + DERIVED + d.columns[7..]
    ensures ColumnOf(t, "fgm") == Ok(fgm) && ColumnOf(t, "fga") == Ok(fga)
    ensures ColumnOf(t, "3pm") == Ok(thpm) && ColumnOf(t, "3pa") == Ok(thpa)
    ensures ColumnOf(t, "ftm") == Ok(ftm) && ColumnOf(t, "fta") == Ok(fta)
  {
    DeriveFits(d, fgm, fga, thpm, thpa, ftm, fta);
    DeriveSpec(d, fgm, fga, thpm, thpa, ftm, fta, u);
    CoerceKeepsDerived(u, t);
  }

  /** After the inserts and the conversions, `2pm` and `2pa` hold the
      differences. */
  lemma TwosThrough(d: Table, fgm: seq<Json>, fga: seq<Json>, thpm: seq<Json>, thpa: seq<Json>,
                    ftm: seq<Json>, fta: seq<Json>, u: Table, t: Table)
    requires WellFormed(d)
    requires |fgm| == |fga| == |thpm| == |thpa| == |ftm| == |fta| == d.height
    requires Derive(d, fgm, fga, thpm, thpa, ftm, fta) == Ok(u)
    requires CoerceRun(u, COERCED) == Ok(t)
    ensures WellFormed(t)
    ensures ColumnOf(t, "2pm") == Ok(Diff(fgm, thpm)) && ColumnOf(t, "2pa") == Ok(Diff(fga, thpa))
  {
    DeriveFits(d, fgm, fga, thpm, thpa, ftm, fta);
    DerivedTwoColumns(d, fgm, fga, thpm, thpa, ftm, fta, u);
    CoerceKeepsDerived(u, t);
  }

  /** The converted columns and the untouched ones, after the whole
      shooting step. */
  lemma ShootingOthers(df: Table, d: Table, u: Table, t: Table, vals: seq<seq<Json>>)
    requires WellFormed(df) && |vals| == 8
    requires Dropped(df, SPLIT) == Ok(d)
    requires InsertRun(d, 7, DERIVED, vals) == Ok(u)
    requires CoerceRun(u, COERCED) == Ok(t)
    ensures forall n :: n in COERCED ==>
      ColumnOf(df, n).Ok? && ColumnOf(t, n) == Ok(NumericCells(ColumnOf(df, n).value))
    ensures forall n :: n !in SPLIT && n !in DERIVED && n !in COERCED ==> ColumnOf(t, n) == ColumnOf(df, n)
  {
    forall n | n in COERCED ensures ColumnOf(df, n).Ok? && ColumnOf(t, n) == Ok(NumericCells(ColumnOf(df, n).value)) {
      ShootingCoerced(df, d, u, t, vals, n);
    }
    forall n | n !in SPLIT && n !in DERIVED && n !in COERCED ensures ColumnOf(t, n) == ColumnOf(df, n) {
      ShootingKeeps(df, d, u, t, vals, n);
    }
  }

  /** What the shooting step's frame holds: the concatenated frame without
      `fg`, `3pt` and `ft`, the eight derived columns after its seventh
      column holding the split counts and the two-point differences, the
      ten stat columns as numbers, and every other column as it was. */
  lemma ShootingSpec(df: Table, t: Table)
    requires WellFormed(df) && Shooting(df) == Ok(t)
    ensures WellFormed(t) && t.height == df.height
    ensures Dropped(df, SPLIT).Ok? && |Dropped(df, SPLIT).value.columns| >= 7
    ensures var cols := Dropped(df, SPLIT).value.columns;
      t.columns == cols[..7] + DERIVED + cols[7..]
    ensures SplitColumn(df, "fg", 0).Ok? && SplitColumn(df, "fg", 1).Ok?
    ensures SplitColumn(df, "3pt", 0).Ok? && SplitColumn(df, "3pt", 1).Ok?
    ensures SplitColumn(df, "ft", 0).Ok? && SplitColumn(df, "ft", 1).Ok?
    ensures ColumnOf(t, "fgm") == SplitColumn(df, "fg", 0) && ColumnOf(t, "fga") == SplitColumn(df, "fg", 1)
    ensures ColumnOf(t, "3pm") == SplitColumn(df, "3pt", 0) && ColumnOf(t, "3pa") == SplitColumn(df, "3pt", 1)
    ensures ColumnOf(t, "ftm") == SplitColumn(df, "ft", 0) && ColumnOf(t, "fta") == SplitColumn(df, "ft", 1)
    ensures ColumnOf(t, "2pm") == Ok(Diff(SplitColumn(df, "fg", 0).value, SplitColumn(df, "3pt", 0).value))
    ensures ColumnOf(t, "2pa") == Ok(Diff(SplitColumn(df, "fg", 1).value, SplitColumn(df, "3pt", 1).value))
    ensures forall n :: n in COERCED ==>
      ColumnOf(df, n).Ok? && ColumnOf(t, n) == Ok(NumericCells(ColumnOf(df, n).value))
    ensures forall n :: n !in SPLIT && n !in DERIVED && n !in COERCED ==> ColumnOf(t, n) == ColumnOf(df, n)
  {
    ShootingSteps(df, t);
    var fgm, fga := SplitColumn(df, "fg", 0).value, SplitColumn(df, "fg", 1).value;
    var thpm, thpa := SplitColumn(df, "3pt", 0).value, SplitColumn(df, "3pt", 1).value;
    var ftm, fta := SplitColumn(df, "ft", 0).value, SplitColumn(df, "ft", 1).value;
    var d := Dropped(df, SPLIT).value;
    var u := Derive(d, fgm, fga, thpm, thpa, ftm, fta).value;
    DerivedThrough(d, fgm, fga, thpm, thpa, ftm, fta, u, t);
    TwosThrough(d, fgm, fga, thpm, thpa, ftm, fta, u, t);
    var vals := DerivedCells(fgm, fga, thpm, thpa, ftm, fta);
    ShootingOthers(df, d, u, t, vals);
  }

  /** A boxscore the helper returns is the shooting step applied to the
      stacked frames: one row per player and totals row, team by team, with
      `starter`, `team` and `game_id` as the stacked frame has them. */
  lemma BoxscoreSpec(boxscore: Json, gameId: string, g: Groups, t: Table)
    requires BuildGroups(boxscore, gameId) == Ok(g)
    requires Boxscore(boxscore, gameId) == Ok(Box(t))
    ensures Stack(g).height > 0 && Shooting(Stack(g)) == Ok(t)
    ensures WellFormed(t)
    ensures t.height == g.st1.height + g.bn1.height + g.tot1.height + (g.st2.height + g.bn2.height + g.tot2.height)
    ensures ColumnOf(t, "starter") == Ok(
        Fill(JBool(true), g.st1.height) + Fill(JBool(false), g.bn1.height) + Fill(JBool(false), g.tot1.height) +
        (Fill(JBool(true), g.st2.height) + Fill(JBool(false), g.bn2.height) + Fill(JBool(false), g.tot2.height)))
    ensures TeamName(boxscore, 0).Ok? && TeamName(boxscore, 1).Ok?
    ensures ColumnOf(t, "team") == Ok(
        Fill(TeamName(boxscore, 0).value, g.st1.height + g.bn1.height + g.tot1.height) +
        Fill(TeamName(boxscore, 1).value, g.st2.height + g.bn2.height + g.tot2.height))
    ensures ColumnOf(t, "game_id") == Ok(Fill(JStr(gameId), t.height))
  {
    BoxscoreShooting(boxscore, gameId, g, t);
    ShootingMeta(Stack(g), t);
    StackHeight(g);
    BoxscoreStarters(boxscore, gameId, g);
    BoxscoreTeams(boxscore, gameId, g);
    BoxscoreGameIds(boxscore, gameId, g);
  }

  /** A boxscore the helper returns comes from the shooting step on the
      stacked frames. */
  lemma BoxscoreShooting(boxscore: Json, gameId: string, g: Groups, t: Table)
    requires BuildGroups(boxscore, gameId) == Ok(g)
    requires Boxscore(boxscore, gameId) == Ok(Box(t))
    ensures Stack(g).height > 0 && Shooting(Stack(g)) == Ok(t)
  {
  }

  /** The shooting step keeps the row count and the `starter`, `team` and
      `game_id` columns. */
  lemma ShootingMeta(df: Table, t: Table)
    requires WellFormed(df) && Shooting(df) == Ok(t)
    ensures WellFormed(t) && t.height == df.height
    ensures ColumnOf(t, "starter") == ColumnOf(df, "starter")
    ensures ColumnOf(t, "team") == ColumnOf(df, "team")
    ensures ColumnOf(t, "game_id") == ColumnOf(df, "game_id")
  {
    ShootingSteps(df, t);
    var fgm, fga := SplitColumn(df, "fg", 0).value, SplitColumn(df, "fg", 1).value;
    var thpm, thpa := SplitColumn(df, "3pt", 0).value, SplitColumn(df, "3pt", 1).value;
    var ftm, fta := SplitColumn(df, "ft", 0).value, SplitColumn(df, "ft", 1).value;
    var d := Dropped(df, SPLIT).value;
    var u := Derive(d, fgm, fga, thpm, thpa, ftm, fta).value;
    var vals := DerivedCells(fgm, fga, thpm, thpa, ftm, fta);
    MetaApart();
    ShootingKeeps(df, d, u, t, vals, "starter");
    ShootingKeeps(df, d, u, t, vals, "team");
    ShootingKeeps(df, d, u, t, vals, "game_id");
  }

  /** `starter`, `team` and `game_id` are neither split, derived nor
      converted. */
  lemma MetaApart()
    ensures "starter" !in SPLIT && "starter" !in DERIVED && "starter" !in COERCED
    ensures "team" !in SPLIT && "team" !in DERIVED && "team" !in COERCED
    ensures "game_id" !in SPLIT && "game_id" !in DERIVED && "game_id" !in COERCED
  {
  }

  /** The helper answers "no boxscore" exactly when all six frames are
      empty. */
  lemma BoxscoreEmpty(boxscore: Json, gameId: string, g: Groups)
    requires BuildGroups(boxscore, gameId) == Ok(g)
    ensures Boxscore(boxscore, gameId) == Ok(EmptyBox) <==>
      g.st1.height == g.bn1.height == g.tot1.height == g.st2.height == g.bn2.height == g.tot2.height == 0
  {
    StackHeight(g);
  }
}
