/** The status gate in front of the three page helpers: the game's status
    is read from `gmStrp.status.desc`, and a game that is not in a good
    state yields an empty table instead of running the helper. The current
    file accepts games in progress as well as final ones and, for the
    game-info page, only logs a bad status and builds the row anyway. */
module StatusGate {
  import opened Wrappers
  import opened PyJson
  import opened Scrape
  import opened Boxscore
  import opened PlayByPlay
  import opened GameInfo

  /** The statuses the current file treats as a game worth reading. */
  const GOOD_GAME_STATUSES: seq<Json> := [JStr("In Progress"), JStr("Final")]

  /** `gm_status in GOOD_GAME_STATUSES` in the current file,
      `gm_status == "Final"` in the older and women's files. */
  predicate Good(snap: Snapshot, status: Json) {
    if snap == Current then status in GOOD_GAME_STATUSES else status == JStr("Final")
  }

  /** `gamepackage["gmStrp"]["status"]["desc"]` */
  function GameStatus(gamepackage: Json): Res<Json> {
    Path(gamepackage, ["gmStrp", "status", "desc"])
  }

  /** The box-score page after the game package is located: the status
      check, then `gamepackage["bxscr"]` and the helper. */
  function BoxscorePage(snap: Snapshot, gamepackage: Json, gameId: string): Res<BoxResult> {
    var status :- GameStatus(gamepackage);
    if !Good(snap, status) then Ok(EmptyBox)
    else
      var box :- Get(gamepackage, "bxscr");
      Boxscore.Boxscore(box, gameId)
  }

  /** The play-by-play page: the status check, then the helper on the
      whole game package, or in the women's file on `gamepackage["pbp"]`. */
  function PbpPage(snap: Snapshot, gamepackage: Json, gameId: string, gameType: string,
                   dates: DateParser): Res<PbpTable> {
    var status :- GameStatus(gamepackage);
    if !Good(snap, status) then Ok(EmptyTable)
    else if snap == Womens then
      var pbp :- Get(gamepackage, "pbp");
      WomensPbp(pbp, gameId)
    else GamePbp(gamepackage, gameId, gameType, dates)
  }

  /** The game-info page: `None` is the empty table. The current file
      builds the row whatever the status. */
  function InfoPage(snap: Snapshot, gamepackage: Json, gameId: string, gameType: string,
                    dates: DateParser): Res<Option<InfoRow>> {
    var status :- GameStatus(gamepackage);
    if snap != Current && !Good(snap, status) then Ok(None)
    else
      var row :- Info(snap, gamepackage, gameId, gameType, dates);
      Ok(Some(row))
  }

  /** The older and women's gates accept only a final game; the current
      gate also accepts a game in progress, and that is the only status on
      which they differ. */
  lemma GoodSpec(snap: Snapshot, status: Json)
    ensures snap == Current ==> (Good(snap, status) <==> status == JStr("In Progress") || status == JStr("Final"))
    ensures snap != Current ==> (Good(snap, status) <==> status == JStr("Final"))
    ensures Good(snap, status) ==> Good(Current, status)
    ensures Good(Current, status) && !Good(snap, status) ==> status == JStr("In Progress")
  {
  }

  /** Reading the status walks `gmStrp` and then the team strip's own
      `status.desc`. */
  lemma GameStatusStrip(gamepackage: Json)
    ensures GameStatus(gamepackage) ==
      match Get(gamepackage, "gmStrp")
      case Err(e) => Err(e)
      case Ok(more) => Path(more, ["status", "desc"])
  {
    var keys := ["gmStrp", "status", "desc"];
    assert keys[0] == "gmStrp" && keys[1..] == ["status", "desc"];
  }

  /** A page without a readable status fails before anything else is read,
      on every page and in every snapshot. */
  lemma NoStatusFails(snap: Snapshot, gamepackage: Json, gameId: string, gameType: string,
                      dates: DateParser)
    requires GameStatus(gamepackage).Err?
    ensures BoxscorePage(snap, gamepackage, gameId) == Err(GameStatus(gamepackage).error)
    ensures PbpPage(snap, gamepackage, gameId, gameType, dates) == Err(GameStatus(gamepackage).error)
    ensures InfoPage(snap, gamepackage, gameId, gameType, dates) == Err(GameStatus(gamepackage).error)
  {
  }

  /** A game that is neither in progress nor final (postponed, cancelled,
      scheduled) gives empty box-score and play-by-play tables in every
      snapshot, and an empty info table except in the current file, which
      still builds the row. */
  lemma BadStatusEmpty(snap: Snapshot, gamepackage: Json, gameId: string, gameType: string,
                       dates: DateParser, status: Json)
    requires GameStatus(gamepackage) == Ok(status)
    requires status != JStr("In Progress") && status != JStr("Final")
    ensures BoxscorePage(snap, gamepackage, gameId) == Ok(EmptyBox)
    ensures PbpPage(snap, gamepackage, gameId, gameType, dates) == Ok(EmptyTable)
    ensures snap != Current ==> InfoPage(snap, gamepackage, gameId, gameType, dates) == Ok(None)
    ensures snap == Current ==>
      (InfoPage(snap, gamepackage, gameId, gameType, dates).Ok? <==> Info(snap, gamepackage, gameId, gameType, dates).Ok?)
  {
    GoodSpec(snap, status);
  }

  /** A game in progress is read by the current file and left empty by the
      older and women's files. */
  lemma InProgressGate(gamepackage: Json, gameId: string, gameType: string, dates: DateParser)
    requires GameStatus(gamepackage) == Ok(JStr("In Progress"))
    ensures BoxscorePage(Older, gamepackage, gameId) == Ok(EmptyBox)
    ensures BoxscorePage(Womens, gamepackage, gameId) == Ok(EmptyBox)
    ensures PbpPage(Older, gamepackage, gameId, gameType, dates) == Ok(EmptyTable)
    ensures PbpPage(Womens, gamepackage, gameId, gameType, dates) == Ok(EmptyTable)
    ensures InfoPage(Older, gamepackage, gameId, gameType, dates) == Ok(None)
    ensures InfoPage(Womens, gamepackage, gameId, gameType, dates) == Ok(None)
    ensures BoxscorePage(Current, gamepackage, gameId) ==
      match Get(gamepackage, "bxscr")
      case Err(e) => Err(e)
      case Ok(box) => Boxscore.Boxscore(box, gameId)
    ensures PbpPage(Current, gamepackage, gameId, gameType, dates) == GamePbp(gamepackage, gameId, gameType, dates)
  {
    assert JStr("In Progress") in GOOD_GAME_STATUSES;
    assert JStr("In Progress") != JStr("Final");
  }

  /** A final game is read in every snapshot. */
  lemma FinalGate(snap: Snapshot, gamepackage: Json, gameId: string, gameType: string, dates: DateParser)
    requires GameStatus(gamepackage) == Ok(JStr("Final"))
    ensures BoxscorePage(snap, gamepackage, gameId) ==
      match Get(gamepackage, "bxscr")
      case Err(e) => Err(e)
      case Ok(box) => Boxscore.Boxscore(box, gameId)
    ensures snap != Womens ==>
      PbpPage(snap, gamepackage, gameId, gameType, dates) == GamePbp(gamepackage, gameId, gameType, dates)
    ensures InfoPage(snap, gamepackage, gameId, gameType, dates).Ok? <==>
            Info(snap, gamepackage, gameId, gameType, dates).Ok?
  {
    assert JStr("Final") in GOOD_GAME_STATUSES;
  }

  /** An info row of the older and women's files is always that of a final
      game. */
  lemma OlderRowsAreFinal(snap: Snapshot, gamepackage: Json, gameId: string, gameType: string,
                          dates: DateParser, row: InfoRow)
    requires snap != Current
    requires InfoPage(snap, gamepackage, gameId, gameType, dates) == Ok(Some(row))
    ensures GameStatus(gamepackage) == Ok(JStr("Final"))
  {
  }

  /** In the current file the row carries the status the gate read, and a
      game that is not final (in progress, or let through with only a
      warning) never has a home win. */
  lemma {:induction false} CurrentRowStatus(gamepackage: Json, gameId: string, gameType: string,
                                            dates: DateParser, row: InfoRow)
    requires InfoPage(Current, gamepackage, gameId, gameType, dates) == Ok(Some(row))
    ensures GameStatus(gamepackage).Ok? && row.status == Some(GameStatus(gamepackage).value)
    ensures GameStatus(gamepackage) != Ok(JStr("Final")) ==> !row.homeWin
  {
    GameStatusStrip(gamepackage);
    assert Info(Current, gamepackage, gameId, gameType, dates) == Ok(row);
    InfoHomeWin(Current, gamepackage, gameId, gameType, dates, row);
  }
}
