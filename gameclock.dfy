/** The clock normaliser of the play-by-play helper: the displayed `M:SS`
    clock becomes seconds left in the period, and the period number adds the
    regulation time still to come, by halves or by quarters. */
module GameClock {
  import opened Wrappers
  import opened Text
  import opened PyJson
  import opened Scrape

  /** How a game's regulation time is divided. */
  datatype PeriodRule = Halves | Quarters

  /** Men's games, and women's games before the 2015-05-01 rule change, are
      played in halves; later women's games in quarters. The women's scraper
      knows only halves. */
  function Rule(snap: Snapshot, gameType: string, beforeCutoff: bool): PeriodRule {
    if snap == Womens then Halves
    else if gameType == "mens" || beforeCutoff then Halves
    else Quarters
  }

  function PeriodsInRegulation(rule: PeriodRule): nat {
    match rule
    case Halves => 2
    case Quarters => 4
  }

  function PeriodLength(rule: PeriodRule): nat {
    match rule
    case Halves => 1200
    case Quarters => 600
  }

  /** The seconds added to the period clock to get `secs_left_reg`; a
      missing period number (NaN) equals no integer and adds nothing. */
  function RegOffset(rule: PeriodRule, period: Option<int>): nat {
    match rule
    case Halves => if period == Some(1) then 1200 else 0
    case Quarters =>
      if period == Some(1) then 1800
      else if period == Some(2) then 1200
      else if period == Some(3) then 600
      else 0
  }

  function RegSecs(rule: PeriodRule, period: Option<int>, pdSecs: int): int {
    pdSecs + RegOffset(rule, period)
  }

  /** The offset is the length of the regulation periods still to come;
      overtime and unnumbered periods add nothing, so regulation seconds are
      never fewer than period seconds. */
  lemma RegSecsSpec(rule: PeriodRule, period: Option<int>, pdSecs: int)
    ensures RegSecs(rule, period, pdSecs) >= pdSecs
    ensures period.Some? && 1 <= period.value <= PeriodsInRegulation(rule) ==>
      RegSecs(rule, period, pdSecs) ==
        pdSecs + (PeriodsInRegulation(rule) - period.value) * PeriodLength(rule)
    ensures period.None? || period.value < 1 || period.value > PeriodsInRegulation(rule) ==>
      RegSecs(rule, period, pdSecs) == pdSecs
  {
  }

  /** The rule the current helpers choose is halves exactly for men's games
      and for games before the cutoff; the women's scraper always uses
      halves. */
  lemma RuleSpec(snap: Snapshot, gameType: string, beforeCutoff: bool)
    ensures snap == Womens ==> Rule(snap, gameType, beforeCutoff) == Halves
    ensures snap != Womens ==>
      (Rule(snap, gameType, beforeCutoff) == Halves <==> gameType == "mens" || beforeCutoff)
  {
  }

  /** `x["clock"]["displayValue"].split(":")` when the play has a clock,
      else the empty string that stands in for it. */
  datatype TimeSplit = NoClock | Fields(fields: seq<string>)

  function SplitClock(play: Json): Res<TimeSplit> {
    var has :- HasKey(play, "clock");
    if !has then Ok(NoClock)
    else
      var v :- Path(play, ["clock", "displayValue"]);
      var s :- AsStr(v);
      Ok(Fields(Split(s, ":")))
  }

  /** `x[i]` on a time split: indexing the empty stand-in raises. */
  function Field(t: TimeSplit, i: nat): Res<string> {
    match t
    case NoClock => Err(IndexError)
    case Fields(f) => if i < |f| then Ok(f[i]) else Err(IndexError)
  }

  /** `int(x[i])`. */
  function FieldInt(t: TimeSplit, i: nat): Res<int> {
    var f :- Field(t, i);
    ToInt(JStr(f))
  }

  /** Seconds left in the period: sixty times the minutes plus the seconds. */
  function PeriodSecs(minutes: int, seconds: int): int {
    minutes * 60 + seconds
  }

  /** A play without a clock cannot give minutes: `int(""[0])` raises. */
  lemma NoClockFails(play: Json)
    requires play.JObj? && "clock" !in play.fields
    ensures SplitClock(play) == Ok(NoClock)
    ensures FieldInt(NoClock, 0) == Err(IndexError) && FieldInt(NoClock, 1) == Err(IndexError)
  {
  }

  /** A displayed clock "M:SS" made of two digit runs splits into its two
      runs, which parse to the minutes and seconds. */
  lemma {:induction false} ClockParse(m: string, s: string)
    requires |m| > 0 && AllDigits(m) && |s| > 0 && AllDigits(s)
    ensures Split(m + ":" + s, ":") == [m, s]
    ensures FieldInt(Fields([m, s]), 0) == Ok(DigitsValue(m))
    ensures FieldInt(Fields([m, s]), 1) == Ok(DigitsValue(s))
  {
    ClockSplit(m, s);
    FieldsParse(m, s);
  }

  /** Two digit runs joined by a colon split back into the two runs. */
  lemma ClockSplit(m: string, s: string)
    requires AllDigits(m) && AllDigits(s)
    ensures Split(m + ":" + s, ":") == [m, s]
  {
    DigitsFree(m);
    DigitsFree(s);
    assert Join([m, s], ":") == m + ":" + s;
    SplitJoin([m, s], ':');
  }

  /** Two digit runs as the fields of a clock parse to their values. */
  lemma FieldsParse(m: string, s: string)
    requires |m| > 0 && AllDigits(m) && |s| > 0 && AllDigits(s)
    ensures FieldInt(Fields([m, s]), 0) == Ok(DigitsValue(m))
    ensures FieldInt(Fields([m, s]), 1) == Ok(DigitsValue(s))
  {
    var t := Fields([m, s]);
    assert Field(t, 0) == Ok(m) && Field(t, 1) == Ok(s);
    ParseDigits(m);
    assert ToInt(JStr(m)) == Ok(DigitsValue(m));
    ParseDigits(s);
    assert ToInt(JStr(s)) == Ok(DigitsValue(s));
  }

  /** A run of digits holds no colon. */
  lemma DigitsFree(d: string)
    requires AllDigits(d)
    ensures !Contains(d, ":")
  {
    forall j | 0 <= j < |d| ensures !Occurs(d, ":", j) {
      assert d[j..j + 1][0] == d[j];
    }
    ContainsIff(d, ":");
  }

  /** The clock "5:30" in the first half leaves 330 seconds in the half and
      1530 in regulation; "2:00" in the third quarter leaves 120 and 720. */
  lemma ClockExamples()
    ensures PeriodSecs(5, 30) == 330 && RegSecs(Halves, Some(1), 330) == 1530
    ensures PeriodSecs(2, 0) == 120 && RegSecs(Quarters, Some(3), 120) == 720
    ensures Split("5:30", ":") == ["5", "30"]
  {
    ClockSplit("5", "30");
    assert "5" + ":" + "30" == "5:30";
  }
}
