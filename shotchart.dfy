/** The shot-chart matcher of the play-by-play helper: the shot feed is read
    column by column from `shtChrt.plays`, then a cursor walks it in step
    with the play rows, handing a feed entry's coordinates to the shooting
    play whose description equals the entry's. */
module ShotChart {
  import opened Wrappers
  import opened Text
  import opened PyJson

  /** One row of the shot feed; `x` is already mirrored. */
  datatype ShotEntry = ShotEntry(team: Json, desc: Json, x: int, y: int)

  /** `int(x["coordinate"][axis])` */
  function RawCoord(item: Json, axis: string): Res<int> {
    var v :- Path(item, ["coordinate", axis]);
    ToInt(v)
  }

  /** The mirrored chart x, `50 - int(x["coordinate"]["x"])`. */
  function ChartX(item: Json): Res<int> {
    var raw :- RawCoord(item, "x");
    Ok(50 - raw)
  }

  /** The shot feed: the four column comprehensions in source order, so the
      first column that raises decides the error. Each entry holds its
      item's side, text, mirrored x and unchanged y. */
  function ShotFeed(chart: Json): (r: Res<seq<ShotEntry>>)
    ensures r.Ok? ==> Iterate(chart).Ok? && |r.value| == |Iterate(chart).value|
    ensures r.Ok? ==> forall i :: 0 <= i < |r.value| ==>
      var item := Iterate(chart).value[i];
      Get(item, "homeAway") == Ok(r.value[i].team) &&
      Get(item, "text") == Ok(r.value[i].desc) &&
      RawCoord(item, "x") == Ok(50 - r.value[i].x) &&
      RawCoord(item, "y") == Ok(r.value[i].y)
    ensures Iterate(chart).Ok? ==>
      ((exists i :: 0 <= i < |Iterate(chart).value| && RawCoord(Iterate(chart).value[i], "y").Err?) ==> r.Err?)
  {
    var items :- Iterate(chart);
    var teams :- MapR(items, (x: Json) => Get(x, "homeAway"));
    var texts :- MapR(items, (x: Json) => Get(x, "text"));
    var xs :- MapR(items, ChartX);
    var ys :- MapR(items, (x: Json) => RawCoord(x, "y"));
    Ok(seq(|items|, i requires 0 <= i < |items| => ShotEntry(teams[i], texts[i], xs[i], ys[i])))
  }

  /** The matcher's state after some play rows: the coordinate columns built
      so far and the feed cursor (`shot_count`). */
  datatype Walked = Walked(xs: seq<Option<int>>, ys: seq<Option<int>>, cursor: nat)

  /** One play row against the feed entry under the cursor: the coordinates
      it gets and the cursor after it. */
  function Step(play: string, isShot: bool, feed: seq<ShotEntry>, k: nat): (Option<(int, int)>, nat) {
    if k >= |feed| then (None, k)
    else if !isShot then (None, k)
    else if Contains(Lower(play), "free throw") then (None, k + 1)
    else if JStr(play) == feed[k].desc then (Some((feed[k].x, feed[k].y)), k + 1)
    else (None, k)
  }

  function XOf(c: Option<(int, int)>): Option<int> {
    match c
    case Some(p) => Some(p.0)
    case None => None
  }

  function YOf(c: Option<(int, int)>): Option<int> {
    match c
    case Some(p) => Some(p.1)
    case None => None
  }

  /** The matcher run over the play rows `(play_desc, shooting_play)`. */
  function Walk(plays: seq<(string, bool)>, feed: seq<ShotEntry>): Walked {
    if plays == [] then Walked([], [], 0)
    else
      var w := Walk(plays[..|plays| - 1], feed);
      var last := plays[|plays| - 1];
      var (c, k) := Step(last.0, last.1, feed, w.cursor);
      Walked(w.xs + [XOf(c)], w.ys + [YOf(c)], k)
  }

  /** The shot-matching loop: the coordinate columns it builds are the
      walk's. */
  method MatchShots(plays: seq<(string, bool)>, feed: seq<ShotEntry>)
    returns (xs: seq<Option<int>>, ys: seq<Option<int>>)
    ensures xs == Walk(plays, feed).xs && ys == Walk(plays, feed).ys
  {
    xs, ys := [], [];
    var shotCount := 0;
    for i := 0 to |plays|
      invariant Walk(plays[..i], feed) == Walked(xs, ys, shotCount)
    {
      assert plays[..i + 1][..i] == plays[..i];
      var (play, isShot) := plays[i];
      if shotCount >= |feed| {
        xs, ys := xs + [None], ys + [None];
        continue;
      }
      if !isShot {
        xs, ys := xs + [None], ys + [None];
        continue;
      }
      if Contains(Lower(play), "free throw") {
        xs, ys := xs + [None], ys + [None];
        shotCount := shotCount + 1;
        continue;
      }
      var shotPlay := feed[shotCount].desc;
      if JStr(play) == shotPlay {
        xs, ys := xs + [Some(feed[shotCount].x)], ys + [Some(feed[shotCount].y)];
        shotCount := shotCount + 1;
      } else {
        xs, ys := xs + [None], ys + [None];
      }
    }
    assert plays[..|plays|] == plays;
  }

  /** The cursor before play row `i`. */
  function CursorAt(plays: seq<(string, bool)>, feed: seq<ShotEntry>, i: nat): nat
    requires i <= |plays|
  {
    Walk(plays[..i], feed).cursor
  }

  /** Both columns have one entry per play row, and the cursor never passes
      the end of the feed. */
  lemma {:induction false} WalkShape(plays: seq<(string, bool)>, feed: seq<ShotEntry>)
    ensures |Walk(plays, feed).xs| == |plays| && |Walk(plays, feed).ys| == |plays|
    ensures Walk(plays, feed).cursor <= |feed|
  {
    if plays != [] {
      WalkShape(plays[..|plays| - 1], feed);
    }
  }

  /** The columns after the first `i` rows are the prefixes of the final
      columns. */
  lemma {:induction false} WalkPrefix(plays: seq<(string, bool)>, feed: seq<ShotEntry>, i: nat)
    requires i <= |plays|
    ensures |Walk(plays, feed).xs| == |plays| && |Walk(plays, feed).ys| == |plays|
    ensures Walk(plays, feed).xs[..i] == Walk(plays[..i], feed).xs
    ensures Walk(plays, feed).ys[..i] == Walk(plays[..i], feed).ys
    decreases |plays|
  {
    WalkShape(plays, feed);
    if i < |plays| {
      var init := plays[..|plays| - 1];
      WalkPrefix(init, feed, i);
      WalkShape(init, feed);
      assert init[..i] == plays[..i];
      assert Walk(plays, feed).xs[..|init|] == Walk(init, feed).xs;
      assert Walk(plays, feed).ys[..|init|] == Walk(init, feed).ys;
    } else {
      assert plays[..i] == plays;
    }
  }

  /** Row `i` gets exactly what one step from the cursor before it gives,
      and that step sets the cursor before row `i + 1`. */
  lemma RowStep(plays: seq<(string, bool)>, feed: seq<ShotEntry>, i: nat)
    requires i < |plays|
    ensures |Walk(plays, feed).xs| == |plays| && |Walk(plays, feed).ys| == |plays|
    ensures var (c, k) := Step(plays[i].0, plays[i].1, feed, CursorAt(plays, feed, i));
      Walk(plays, feed).xs[i] == XOf(c) && Walk(plays, feed).ys[i] == YOf(c) &&
      CursorAt(plays, feed, i + 1) == k
  {
    WalkPrefix(plays, feed, i + 1);
    WalkShape(plays[..i], feed);
    var pre := plays[..i + 1];
    assert pre[..|pre| - 1] == plays[..i];
    assert Walk(plays, feed).xs[i] == Walk(pre, feed).xs[i];
    assert Walk(plays, feed).ys[i] == Walk(pre, feed).ys[i];
  }

  /** What each row gets, by the cases of the loop: nothing and no move when
      the feed is exhausted or the play is not a shot; nothing but a move on
      a free throw; the entry's coordinates and a move on an exact match;
      nothing and no move on a mismatch. */
  lemma RowCases(plays: seq<(string, bool)>, feed: seq<ShotEntry>, i: nat)
    requires i < |plays|
    ensures |Walk(plays, feed).xs| == |plays| && |Walk(plays, feed).ys| == |plays|
    ensures var k := CursorAt(plays, feed, i);
      var k' := CursorAt(plays, feed, i + 1);
      var (play, isShot) := plays[i];
      var x := Walk(plays, feed).xs[i];
      var y := Walk(plays, feed).ys[i];
      (k' == k || k' == k + 1) &&
      (k >= |feed| || !isShot ==> x.None? && y.None? && k' == k) &&
      (k < |feed| && isShot && Contains(Lower(play), "free throw") ==> x.None? && y.None? && k' == k + 1) &&
      (k < |feed| && isShot && !Contains(Lower(play), "free throw") && JStr(play) == feed[k].desc ==>
        x == Some(feed[k].x) && y == Some(feed[k].y) && k' == k + 1) &&
      (k < |feed| && isShot && !Contains(Lower(play), "free throw") && JStr(play) != feed[k].desc ==>
        x.None? && y.None? && k' == k)
  {
    RowStep(plays, feed, i);
  }

  /** The cursor never moves back and moves at most one entry per row. */
  lemma {:induction false} CursorMonotone(plays: seq<(string, bool)>, feed: seq<ShotEntry>, i: nat, j: nat)
    requires i <= j <= |plays|
    ensures CursorAt(plays, feed, i) <= CursorAt(plays, feed, j) <= CursorAt(plays, feed, i) + (j - i)
    decreases j - i
  {
    if i < j {
      CursorMonotone(plays, feed, i, j - 1);
      RowStep(plays, feed, j - 1);
    }
  }

  /** A row with coordinates took them from the entry under the cursor,
      whose text equals the row's description; rows with coordinates use
      strictly later entries as the rows go on. */
  lemma MatchedRowsAlign(plays: seq<(string, bool)>, feed: seq<ShotEntry>, i: nat, j: nat)
    requires i < j < |plays|
    ensures |Walk(plays, feed).xs| == |plays|
    ensures Walk(plays, feed).xs[i].Some? ==>
      var k := CursorAt(plays, feed, i);
      k < |feed| && plays[i].1 && JStr(plays[i].0) == feed[k].desc &&
      Walk(plays, feed).xs[i] == Some(feed[k].x)
    ensures Walk(plays, feed).xs[i].Some? && Walk(plays, feed).xs[j].Some? ==>
      CursorAt(plays, feed, i) < CursorAt(plays, feed, j)
  {
    RowStep(plays, feed, i);
    CursorMonotone(plays, feed, i + 1, j);
  }

  /** The three-row walk: a non-shot leaves the cursor alone, a free throw
      moves it without coordinates, and an exact match takes the entry's
      coordinates and moves it again. */
  lemma ThreeRowExample(feed: seq<ShotEntry>, p1: string, p2: string, p3: string, plays: seq<(string, bool)>)
    requires plays == [(p1, false), (p2, true), (p3, true)]
    requires Contains(Lower(p2), "free throw") && !Contains(Lower(p3), "free throw")
    requires |feed| == 2 && feed[1].desc == JStr(p3)
    ensures Walk(plays, feed).xs == [None, None, Some(feed[1].x)]
    ensures Walk(plays, feed).ys == [None, None, Some(feed[1].y)]
    ensures Walk(plays, feed).cursor == 2
  {
    var s1: seq<(string, bool)> := [(p1, false)];
    var s2: seq<(string, bool)> := s1 + [(p2, true)];
    assert s1[..|s1| - 1] == [];
    assert s2[..|s2| - 1] == s1;
    assert plays[..|plays| - 1] == s2;
    assert Walk(s1, feed) == Walked([None], [None], 0);
    assert Walk(s2, feed) == Walked([None, None], [None, None], 1);
  }
}
