# CBBpy page normalisation, modelled in Dafny

CBBpy scrapes ESPN's college-basketball pages. After a page has been
fetched, a set of pure helpers turns the page's embedded data blob into
tables. This project models those helpers:

- **Locator.** Finds the inline script holding `window['__espnfitt__']=`. It cuts the object literal out with the pattern `window\['__espnfitt__'\]={(.*)};` and re-wraps it in braces for the JSON parser. The women's scraper instead takes the fourth script and strips the marker.
- **Play classifier.** Its loop types each play by the first phrase of `NON_SHOT_TYPES`, then of `SHOT_TYPES`, found in the play's text. It also covers the shooter, assist and three-point columns derived from the text.
- **Game clock.** Turns `M:SS` into seconds left in the period. It then adds the regulation periods still to come, under halves or quarters.
- **Shot-chart matcher.** Its cursor loop walks the shot feed in step with the play rows.
- **Play-by-play helper.** Builds the table from the plays' columns, the classifier loop and the shot matcher.
- **Boxscore helper.**
  - Builds the starters', bench and totals frames of each team with the six `insert(0, ...)` calls.
  - Stacks the frames with `pd.concat`.
  - Splits the `m-a` shooting fields.
  - Inserts the eight derived columns at 7 to 14.
  - Converts ten columns to numbers.
- **Game-info helper.** Handles the defaults of the optional fields and builds the `nd-` fallback team id. It derives the win flag, the overtimes, the neutral-site and postseason flags, and the point spread.
- **Schedule helper.** Gathers the events of every season type and keeps the dated ones. Each row gets its game id from the game link and a result line.
- **Status gate.** Decides, page by page, whether a helper runs at all.

Three copies of these helpers exist in the repository, and `PyJson.Snapshot` selects one:

- `Current` is `src/cbbpy/utils/cbbpy_utils.py`.
- `Older` is `src/cbbpy/cbbpy_utils.py`.
- `Womens` is `src/cbbpy/womens_scraper.py`.

The rules that differ between the copies are written as cases on the snapshot:

- the status gate;
- the win flag and the missing-score default;
- the neutral-site rule;
- the halves-only clock;
- the overtime fallback;
- the positional locator.

A parsed page is a `PyJson.Json` tree. Every Python lookup the helpers make is a function returning `Result<_, PyError>`, so each `KeyError`, `IndexError`, `AttributeError`, `ValueError` or `AssertionError` the code can raise is an explicit error value. A missing value (`np.nan`) is `None` in an `Option`, or `JNull` inside a frame.

Where the code does something other than the obvious, the model follows the code:

- A shooting field without a dash makes `split("-")[1]` raise. It does not coerce to missing.
- A play without a clock makes `int(x[0])` raise.
- A page whose status is not good still yields a game-info row in the current file.
- The shot-chart length check after the matching loop can never fire: the loop appends exactly one entry per play row.

Imperative parts of the source are modelled as methods. Each is proved equal to a specification function, and the lemmas state the properties of that function:

- The classifier loop is `Plays.AssignPlayTypes`.
- The shot-matching loop is `ShotChart.MatchShots`.
- The schedule's `extend` and row loops are `Schedule.GatherEvents` and `Schedule.EventRows`.
- The boxscore's in-place frame updates are methods on the class `Frames.Frame`.

## Model

| member | source | states |
|---|---|---|
| Locator.FirstMarked | src/cbbpy/utils/cbbpy_utils.py:1649-1655 | the script chosen holds the marker and no earlier script does; none is chosen exactly when no script holds it |
| Locator.FindJsonInContent | src/cbbpy/utils/cbbpy_utils.py:1649-1655 | the loop returns the first marked script's text, and `""` exactly when no script holds the marker |
| Locator.CaptureSpec | src/cbbpy/utils/cbbpy_utils.py:100 | `re.search` with the pattern captures at the leftmost position where the pattern matches, and there the longest capture (greedy `.*` that stops at a newline); no capture means no match anywhere |
| Locator.CaptureFromSpec | src/cbbpy/utils/cbbpy_utils.py:100 | the same leftmost-then-longest characterisation for a search started at any position |
| Locator.MatchAt | src/cbbpy/utils/cbbpy_utils.py:100 | where the marker and `{` start at a position and a `};` follows on the same line, the pattern matches there and no other capture at that position is longer |
| Locator.NoMatchAt | src/cbbpy/utils/cbbpy_utils.py:100 | without the prefix, or without a `};` on the rest of the line, nothing matches at that position |
| Locator.MatchWithinLine | src/cbbpy/utils/cbbpy_utils.py:100 | a capture never crosses the end of the line the object starts on |
| Locator.GetFromSoup | src/cbbpy/utils/cbbpy_utils.py:1590-1646 | locating, wrapping the capture in braces, parsing and walking the key path give `FromSoup`; a page with no marked script gives `None`, not an error |
| Locator.CaptureWhole | src/cbbpy/utils/cbbpy_utils.py:1596-1598 | a one-line assignment `window['__espnfitt__']={b};` captures exactly `b` |
| Locator.MarkedAtThree | src/cbbpy/cbbpy_utils.py:1442-1453 | when the fourth script is the first marked one, the marker locator hands `{b}` to the parser |
| Locator.PositionalText | src/cbbpy/womens_scraper.py:207-208 | the positional locator raises `IndexError` exactly when the page has fewer than four scripts |
| Locator.PositionalStrips | src/cbbpy/womens_scraper.py:207-208 | removing the marker and the last character from `window['__espnfitt__']={b};` leaves `{b}` |
| Locator.PositionalAgreesWithMarker | src/cbbpy/womens_scraper.py:207-208 | on a page whose fourth script is the first marked one and is a one-line assignment, the positional and the marker locators hand the same text to the parser |
| Plays.LowerTables | src/cbbpy/utils/cbbpy_utils.py:80-98 | the play-type values are the phrases of `NON_SHOT_TYPES` and `SHOT_TYPES` lower-cased, position by position |
| Plays.NonShotNotShot | src/cbbpy/utils/cbbpy_utils.py:80-98 | no lower-cased non-shot phrase is a lower-cased shot phrase, so a non-shot type is never a shooting play |
| Plays.FirstMatchFrom | src/cbbpy/utils/cbbpy_utils.py:1123-1133 | the phrase found occurs in the text and no earlier phrase does; none is found exactly when no phrase occurs |
| Plays.TypeOfPlay | src/cbbpy/utils/cbbpy_utils.py:1117-1136 | the two `for ... break` loops give the first non-shot phrase found, else the first shot phrase, lower-cased, else `""` |
| Plays.AssignPlayTypes | src/cbbpy/utils/cbbpy_utils.py:1110-1136 | one play type per play, each the classifier's type of that play's text |
| Plays.NoTextType | src/cbbpy/utils/cbbpy_utils.py:1113-1115 | a play without a `text` key gets the empty type |
| Plays.TypeOfText | src/cbbpy/utils/cbbpy_utils.py:1117-1120 | the type depends only on the string the loop looks at; a text that is not a string counts as `""` |
| Plays.PlayTypeNonShot | src/cbbpy/utils/cbbpy_utils.py:1123-1127 | when a non-shot phrase occurs, the type is the first such phrase lower-cased |
| Plays.PlayTypeShot | src/cbbpy/utils/cbbpy_utils.py:1128-1133 | when no non-shot phrase occurs and a shot phrase does, the type is the first such shot phrase lower-cased |
| Plays.ShootingIff | src/cbbpy/utils/cbbpy_utils.py:1139-1141 | `shooting_play` holds exactly when no non-shot phrase occurs in the text and some shot phrase does |
| Plays.FreeThrowMentioned | src/cbbpy/utils/cbbpy_utils.py:1129-1131 | a play typed `free throw` mentions "free throw" in any letter case, which is what the shot matcher tests |
| Plays.ThreeJumperIsShot | src/cbbpy/utils/cbbpy_utils.py:1128-1133 | a play typed `three point jumper` contains no non-shot phrase and was typed from the shot phrases |
| Plays.ThreeJumperIsThree | src/cbbpy/utils/cbbpy_utils.py:1161 | a play typed `three point jumper` has `is_three` set |
| Plays.ShooterCases | src/cbbpy/utils/cbbpy_utils.py:1143-1154 | the shooter is the text before the first `" made "` on a scoring play, and before the first `" missed "` on a non-scoring shooting play, else `""`; an absent marker yields the whole text |
| Plays.AssistPlayerSpec | src/cbbpy/utils/cbbpy_utils.py:1156-1159 | the assister holds no full stop; it is `""` on an unassisted play; it is the dot-free text after the last `"Assisted by "`, or the whole dot-free text when only a lower-case "assisted" occurs |
| GameClock.RuleSpec | src/cbbpy/utils/cbbpy_utils.py:1079-1101 | halves exactly for men's games and games before the 2015-05-01 cutoff, quarters otherwise; the women's scraper always uses halves |
| GameClock.RegSecsSpec | src/cbbpy/utils/cbbpy_utils.py:1084-1099 | seconds left in regulation add the length of the regulation periods still to come; overtime and missing periods add nothing, so the result is never below the period clock |
| GameClock.NoClockFails | src/cbbpy/utils/cbbpy_utils.py:1070-1075 | a play without `clock` gets the `""` stand-in, and `int(x[0])` on it raises `IndexError` |
| GameClock.ClockParse | src/cbbpy/utils/cbbpy_utils.py:1070-1075 | a clock `M:SS` of two digit runs splits into the two runs, which parse to the minutes and seconds |
| GameClock.ClockSplit | src/cbbpy/utils/cbbpy_utils.py:1070-1073 | two digit runs joined by a colon split back into the two runs |
| GameClock.FieldsParse | src/cbbpy/utils/cbbpy_utils.py:1074-1075 | two digit runs as the fields of a clock parse to the minutes and seconds |
| GameClock.ClockExamples | src/cbbpy/utils/cbbpy_utils.py:1074-1099 | `5:30` in the first half gives 330 and 1530 seconds; `2:00` in the third quarter gives 120 and 720 |
| ShotChart.ShotFeed | src/cbbpy/utils/cbbpy_utils.py:1193-1199 | one entry per chart item, holding its side, its text, `50 - x` and `y` unchanged; an item whose `y` does not convert makes the feed fail |
| ShotChart.MatchShots | src/cbbpy/utils/cbbpy_utils.py:1205-1236 | the loop's two coordinate columns are those of the cursor walk `Walk` |
| ShotChart.WalkShape | src/cbbpy/utils/cbbpy_utils.py:1205-1236 | both coordinate columns have one entry per play row, and the cursor never passes the end of the feed |
| ShotChart.WalkPrefix | src/cbbpy/utils/cbbpy_utils.py:1205-1236 | the columns after the first `i` rows are prefixes of the final columns |
| ShotChart.RowStep | src/cbbpy/utils/cbbpy_utils.py:1207-1236 | row `i` gets what one step from the cursor before it gives, and that step sets the cursor for row `i + 1` |
| ShotChart.RowCases | src/cbbpy/utils/cbbpy_utils.py:1207-1236 | per row: no coordinates and no move once the feed is exhausted or on a non-shot; a move without coordinates on a free throw; the entry's coordinates and a move on an exact text match; nothing and no move on a mismatch |
| ShotChart.CursorMonotone | src/cbbpy/utils/cbbpy_utils.py:1207-1236 | the cursor never moves back and advances at most one entry per row |
| ShotChart.MatchedRowsAlign | src/cbbpy/utils/cbbpy_utils.py:1225-1229 | a row with coordinates is a shooting play whose text equals the entry under the cursor; later rows with coordinates use strictly later entries |
| ShotChart.ThreeRowExample | src/cbbpy/utils/cbbpy_utils.py:1207-1236 | a non-shot, a free throw and an exact match give no, no and the entry's coordinates, and leave the cursor past both shots |
| PlayByPlay.Header | src/cbbpy/utils/cbbpy_utils.py:1038-1041 | a header that reads comes from a game package holding `pbp` |
| PlayByPlay.FieldColumns | src/cbbpy/utils/cbbpy_utils.py:1050-1068 | one entry per play in each of the text, team, score and period columns, each that play's value or default; every play is a dict |
| PlayByPlay.ClockColumn | src/cbbpy/utils/cbbpy_utils.py:1070-1077 | every play has a clock whose two fields parse, and its period seconds are sixty times the minutes plus the seconds |
| PlayByPlay.MissingClockFails | src/cbbpy/utils/cbbpy_utils.py:1070-1075 | one play without a `clock` key makes the whole helper raise |
| PlayByPlay.BaseColumns | src/cbbpy/utils/cbbpy_utils.py:1050-1107 | per play: it had a clock, the text kept, the regulation seconds under the rule, `scoring_play` exactly when `scoringPlay` is a key, `is_assisted` from the text |
| PlayByPlay.ShotColumns | src/cbbpy/utils/cbbpy_utils.py:1186-1246 | one coordinate per play row; all missing without `shtChrt`; otherwise it fails exactly when reading `shtChrt.plays` as a shot feed fails, and the coordinates are the walk of the rows over that feed |
| PlayByPlay.RowFactsAt | src/cbbpy/utils/cbbpy_utils.py:1050-1161 | row `i` keeps play `i`'s text, team, home and away scores, period and clock seconds, takes the classifier's type, is shooting exactly on a shot type, follows the clock rule, and derives shooter and assister from its text |
| PlayByPlay.RowsFacts | src/cbbpy/utils/cbbpy_utils.py:1050-1161 | every row of the table satisfies `RowFacts` against its play and carries the game id and the two team names |
| PlayByPlay.GamePbpHelper | src/cbbpy/utils/cbbpy_utils.py:1037-1246 | the helper, with its classifier and shot-matching loops, gives `GamePbp` |
| PlayByPlay.GamePbpSpec | src/cbbpy/utils/cbbpy_utils.py:1037-1164 | the table is empty exactly when there are no plays, else one row per play under the rule of the game's type and date, each satisfying `RowFacts` (text, team, scores, period and clock of its play) and carrying `is_three` |
| PlayByPlay.RowsShots | src/cbbpy/utils/cbbpy_utils.py:1186-1249 | the rows' texts and shooting flags are the shot matcher's input, and each row carries the matched x and y |
| PlayByPlay.GamePbpShots | src/cbbpy/utils/cbbpy_utils.py:1186-1249 | with a shot chart, row `i`'s x and y are the `i`-th coordinates of the walk of the rows' texts and shooting flags over the `shtChrt.plays` feed, which must read |
| PlayByPlay.NoShotChart | src/cbbpy/cbbpy_utils.py:1168-1235 | without `shtChrt` every row's shot coordinates are missing |
| PlayByPlay.WomensPbpHelper | src/cbbpy/womens_scraper.py:725-833 | the women's helper, with its classifier loop, gives `WomensPbp` |
| PlayByPlay.WomensPbpSpec | src/cbbpy/womens_scraper.py:725-833 | empty exactly without plays, else one row per play under halves, each satisfying `RowFacts` (text, team, scores, period and clock of its play), with no `is_three` or shot columns |
| Frames.IndexOf | src/cbbpy/utils/cbbpy_utils.py:1001 | the position found holds the name and no earlier one does; none exactly when the name is absent |
| Frames.ColumnOf | src/cbbpy/utils/cbbpy_utils.py:1001-1006 | `df[name]` succeeds exactly when the column exists, has one cell per row, and otherwise raises `KeyError(name)` |
| Frames.InsertedSpec | src/cbbpy/utils/cbbpy_utils.py:800-806 | `insert` succeeds exactly on a new name, a column of the right length and a position in range; the new column sits at `loc` and every other column keeps its cells |
| Frames.InsertedIndexOf | src/cbbpy/utils/cbbpy_utils.py:1012-1019 | after an insert the new name is at `loc`, names before it stay and the others move one place on |
| Frames.InsertedFront | src/cbbpy/utils/cbbpy_utils.py:801-806 | `insert(0, ...)` puts the column and its cells in front, and raises `ValueError` exactly on a duplicate name or a length mismatch |
| Frames.DroppedSpec | src/cbbpy/utils/cbbpy_utils.py:1009 | `drop` succeeds exactly when every name is a column, removes them and keeps every other column |
| Frames.AssignedSpec | src/cbbpy/utils/cbbpy_utils.py:1022-1031 | assigning a column of the right length replaces it in place (or appends it) and leaves every other column alone |
| Frames.Concat2 | src/cbbpy/utils/cbbpy_utils.py:878 | `pd.concat` of two frames: rows of both, the first frame's columns first, and exactly the columns of either |
| Frames.Concat2Both | src/cbbpy/utils/cbbpy_utils.py:878 | a column both frames have is the first frame's cells followed by the second's |
| Frames.Concat3 | src/cbbpy/utils/cbbpy_utils.py:878 | concatenating three frames is concatenating the first two, then the third |
| Frames.Frame.constructor | src/cbbpy/utils/cbbpy_utils.py:800 | the new frame holds the given table |
| Frames.Frame.Insert | src/cbbpy/utils/cbbpy_utils.py:801-806 | the in-place insert leaves the frame that `Inserted` computes, or raises its error |
| Frames.Frame.Drop | src/cbbpy/utils/cbbpy_utils.py:1009 | the in-place drop leaves the frame that `Dropped` computes, or raises `KeyError` when a name is missing |
| Frames.Frame.Assign | src/cbbpy/utils/cbbpy_utils.py:1022-1031 | the in-place assignment leaves the frame that `Assigned` computes |
| Boxscore.UpsertSpec | src/cbbpy/utils/cbbpy_utils.py:768-773 | storing a key in a dict keeps keys distinct, holds the new entry, keeps every entry with another key and adds nothing else |
| Boxscore.DictOfSpec | src/cbbpy/utils/cbbpy_utils.py:768-773 | a dict comprehension has distinct keys, holds only its entries, and keeps the last entry of each key |
| Boxscore.DictColumn | src/cbbpy/utils/cbbpy_utils.py:800 | `pd.DataFrame(dict)` gives each key's column the entry's cells |
| Boxscore.PlayerEntriesAt | src/cbbpy/utils/cbbpy_utils.py:768-773 | entry `l` is keyed by label `l` lower-cased and holds every player's `l`-th stat |
| Boxscore.AthleteColumnAt | src/cbbpy/utils/cbbpy_utils.py:775-798 | row `i` of the position and name columns is player `i`'s field, or `""` |
| Boxscore.PlayerIdsAt | src/cbbpy/utils/cbbpy_utils.py:783-790 | row `i` of the id column is player `i`'s id |
| Boxscore.MetaFrame | src/cbbpy/utils/cbbpy_utils.py:800-806 | a frame given the six inserts in place ends as `MetaInserts` computes |
| Boxscore.InsertMeta | src/cbbpy/utils/cbbpy_utils.py:801-806 | the six in-place inserts leave the frame `MetaInserts` computes, or raise its error |
| Boxscore.MetaInsertsOk | src/cbbpy/utils/cbbpy_utils.py:801-806 | the six inserts succeed exactly when none of the six names is taken and each column has one cell per row |
| Boxscore.MetaInsertsFail | src/cbbpy/utils/cbbpy_utils.py:801-806 | an insert that does not fit makes the six inserts raise |
| Boxscore.MetaInsertsShape | src/cbbpy/utils/cbbpy_utils.py:801-806 | successful inserts put `game_id`, `team`, `player`, `player_id`, `position`, `starter` in front of the stat columns |
| Boxscore.MetaInsertsSpec | src/cbbpy/utils/cbbpy_utils.py:801-806 | after the inserts each player column holds what was inserted, and the height is unchanged |
| Boxscore.MetaInsertsResult | src/cbbpy/utils/cbbpy_utils.py:801-806 | any result of the six inserts leads with the player columns holding the inserted cells |
| Boxscore.MetaKeeps | src/cbbpy/utils/cbbpy_utils.py:801-806 | the six inserts leave every stat column as it was |
| Boxscore.EntryColumn | src/cbbpy/utils/cbbpy_utils.py:768-806 | the last dict entry of a key survives the dict and the inserts as that key's column |
| Boxscore.GroupTableEmpty | src/cbbpy/utils/cbbpy_utils.py:808-812 | an empty group gives a frame with no rows led by `starter`, `position`, `player_id`, `player`, `team`, `game_id` |
| Boxscore.GroupTableSpec | src/cbbpy/utils/cbbpy_utils.py:767-806 | a group of `n` players gives `n` rows led by the player columns; starter, team and game id repeat; row `i` holds player `i`'s name, position and id |
| Boxscore.GroupStatColumn | src/cbbpy/utils/cbbpy_utils.py:767-806 | a lowered label names a column holding each player's stat at that label, unless a later label lowers to the same name |
| Boxscore.BuildGroup | src/cbbpy/utils/cbbpy_utils.py:767-812 | the in-place construction of a group's frame gives `GroupTable` |
| Boxscore.TotalsTableSpec | src/cbbpy/utils/cbbpy_utils.py:861-870 | the totals frame is one row: player `TEAM`, id and position `TOTAL`, not a starter, the team's name and the game id |
| Boxscore.TotalsNoLabels | src/cbbpy/utils/cbbpy_utils.py:862-864 | without labels the totals dict is empty and the frame has no rows |
| Boxscore.TotalsStatColumn | src/cbbpy/utils/cbbpy_utils.py:862-864 | a lowered label names a one-cell column holding the team's total at that label |
| Boxscore.TotalsEntriesAt | src/cbbpy/utils/cbbpy_utils.py:862 | entry `l` of the totals dict is keyed by label `l` lower-cased and holds total `l` |
| Boxscore.BuildTotals | src/cbbpy/utils/cbbpy_utils.py:861-876 | the in-place construction of the totals frame gives `TotalsTable` |
| Boxscore.GroupFilled | src/cbbpy/utils/cbbpy_utils.py:800-812 | every group frame, empty or not, repeats its starter flag, team and game id on every row |
| Boxscore.EmptyFilled | src/cbbpy/utils/cbbpy_utils.py:808-812 | every player column of an empty group's frame is empty |
| Boxscore.TotalsFilled | src/cbbpy/utils/cbbpy_utils.py:861-876 | every totals frame repeats `false`, the team, the game id and `TEAM` on every row |
| Boxscore.PartsGroupsOk | src/cbbpy/utils/cbbpy_utils.py:749-992 | each of the six frames is the one its group, labels and team give |
| Boxscore.BuildGroupsFilled | src/cbbpy/utils/cbbpy_utils.py:749-992 | each frame repeats its team's display name, the game id and its starter flag |
| Boxscore.StackColumn | src/cbbpy/utils/cbbpy_utils.py:878-994 | a column all six frames have is, stacked, first team's starters, bench, totals, then the second team's |
| Boxscore.StackHeight | src/cbbpy/utils/cbbpy_utils.py:878-994 | the stacked frame has the six frames' rows |
| Boxscore.StackSameValue | src/cbbpy/utils/cbbpy_utils.py:878-994 | a column repeating one value in all six frames repeats it in the stacked frame |
| Boxscore.StackStarters | src/cbbpy/utils/cbbpy_utils.py:878-994 | stacked `starter` is true on the starters' rows and false on the bench and totals rows |
| Boxscore.StackTeamValues | src/cbbpy/utils/cbbpy_utils.py:878-994 | a column repeating one value per team is the first value on the first team's rows and the second on the rest |
| Boxscore.BoxscoreStarters | src/cbbpy/utils/cbbpy_utils.py:766-994 | rows come team by team as starters, bench, totals, with `starter` true exactly on the starters' rows |
| Boxscore.BoxscoreTeams | src/cbbpy/utils/cbbpy_utils.py:749-994 | `team` is the first team's name on its rows and the second team's on the rest |
| Boxscore.BoxscoreGameIds | src/cbbpy/utils/cbbpy_utils.py:749-994 | `game_id` is the game on every row |
| Boxscore.BoxscoreEmpty | src/cbbpy/utils/cbbpy_utils.py:994-998 | the helper answers "no boxscore" exactly when all six frames are empty |
| Boxscore.ShotTextSplit | src/cbbpy/utils/cbbpy_utils.py:1001-1006 | splitting `made-attempted` on the dash and converting gives back both counts |
| Boxscore.PartErrors | src/cbbpy/utils/cbbpy_utils.py:1001-1006 | a field without a dash raises `IndexError` on part 1; a cell that is not a string raises `AttributeError` |
| Boxscore.DeriveShape | src/cbbpy/utils/cbbpy_utils.py:1012-1019 | when they fit, the eight inserts reach the frame with every derived column in place |
| Boxscore.DeriveSpec | src/cbbpy/utils/cbbpy_utils.py:1012-1019 | the derived columns sit at 7 to 14 between the first seven and the rest, and six of them hold the split counts unchanged |
| Boxscore.DeriveTwos | src/cbbpy/utils/cbbpy_utils.py:1014-1015 | `2pm` is made field goals less made threes, and `2pa` attempted less attempted threes, row by row |
| Boxscore.DerivedTwoColumns | src/cbbpy/utils/cbbpy_utils.py:1014-1015 | the two columns are the row-by-row differences |
| Boxscore.LastStage | src/cbbpy/utils/cbbpy_utils.py:1012-1019 | after the eight inserts each derived column holds its own cells, in `fgm`..`fta` order after the seventh column |
| Boxscore.DerivedIndex | src/cbbpy/utils/cbbpy_utils.py:1012-1019 | derived column `k` is found at position `7 + k` |
| Boxscore.StageStep | src/cbbpy/utils/cbbpy_utils.py:1012-1019 | insert `i` at `7 + i` succeeds and takes one stage to the next |
| Boxscore.InsertRunFits | src/cbbpy/utils/cbbpy_utils.py:1012-1019 | inserts that all succeed had room at their first position and found none of their names taken |
| Boxscore.InsertRunKeeps | src/cbbpy/utils/cbbpy_utils.py:1012-1019 | inserts leave every column they do not insert as it was |
| Boxscore.DeriveFits | src/cbbpy/utils/cbbpy_utils.py:1012-1019 | the eight inserts succeed only on a frame with at least seven columns and none of the derived names |
| Boxscore.InsertDerived | src/cbbpy/utils/cbbpy_utils.py:1012-1019 | the eight in-place inserts leave the frame `Derive` computes, or raise its error |
| Boxscore.CoerceInPlace | src/cbbpy/utils/cbbpy_utils.py:1022 | the in-place conversion succeeds exactly when the column exists, and leaves the frame `CoerceColumn` computes |
| Boxscore.CoerceAll | src/cbbpy/utils/cbbpy_utils.py:1022-1031 | the ten in-place conversions leave the frame `Coerce` computes, or raise its error |
| Boxscore.CoerceRunSpec | src/cbbpy/utils/cbbpy_utils.py:1022-1031 | conversions succeed exactly when every named column exists; they keep the column order, convert each named column and leave the others |
| Boxscore.NumericCellsTwice | src/cbbpy/utils/cbbpy_utils.py:1022-1031 | converting a converted column changes nothing |
| Boxscore.ShootingSpec | src/cbbpy/utils/cbbpy_utils.py:1000-1031 | the shooting step's frame is the concatenated frame without `fg`, `3pt` and `ft`, with `fgm`..`fta` after its seventh column holding the six split columns and the two differences, the ten stat columns as their numeric cells, and every other column unchanged |
| Boxscore.DerivedThrough | src/cbbpy/utils/cbbpy_utils.py:1011-1031 | after the inserts and the conversions the derived columns follow the first seven and six of them hold the split counts |
| Boxscore.TwosThrough | src/cbbpy/utils/cbbpy_utils.py:1013-1031 | after the inserts and the conversions `2pm` and `2pa` hold the differences |
| Boxscore.ShootingOthers | src/cbbpy/utils/cbbpy_utils.py:1008-1031 | the ten stat columns end as the numeric cells of the concatenated frame's columns, and any column neither split, derived nor converted is unchanged |
| Boxscore.ShootingKeeps | src/cbbpy/utils/cbbpy_utils.py:1008-1031 | a column neither split, derived nor converted passes through unchanged |
| Boxscore.ShootingCoerced | src/cbbpy/utils/cbbpy_utils.py:1021-1031 | a converted column is the numeric cells of the concatenated frame's column |
| Boxscore.CoerceKeepsDerived | src/cbbpy/utils/cbbpy_utils.py:1021-1031 | the conversions keep the column order and every derived column |
| Boxscore.ShootingMeta | src/cbbpy/utils/cbbpy_utils.py:1000-1031 | the shooting step keeps the row count and the `starter`, `team` and `game_id` columns |
| Boxscore.SplitShooting | src/cbbpy/utils/cbbpy_utils.py:1001-1031 | the splits, drop, inserts and conversions on a frame updated in place give `Shooting` |
| Boxscore.BoxscoreHelper | src/cbbpy/utils/cbbpy_utils.py:748-1034 | the helper with its in-place frames gives `Boxscore` |
| Boxscore.BoxscoreSpec | src/cbbpy/utils/cbbpy_utils.py:748-1034 | a returned boxscore is the shooting step on the stacked frames, with one row per player and totals row, `starter` true exactly on the starters' rows, `team` each team's name on its rows and `game_id` the game on every row |
| GameInfo.VenueDefaults | src/cbbpy/utils/cbbpy_utils.py:1259-1279 | without the optional keys: no attendance or capacity, and empty network, arena, location and referees; the status, read between the date and the arena, is the current file's `status.desc` and absent in the other two |
| GameInfo.CountedSpec | src/cbbpy/utils/cbbpy_utils.py:1259-1260 | a present attendance or capacity is its integer, and one that does not convert raises; an absent one is missing |
| GameInfo.RefereeSpec | src/cbbpy/utils/cbbpy_utils.py:1276-1279 | referee `k` is the `k`-th official's display name, or `""` when there are fewer |
| GameInfo.LocationSpec | src/cbbpy/utils/cbbpy_utils.py:1270-1274 | the location is `""` without `locAddr` and `city, state` for two strings; a non-string city raises `TypeError` before `state` is read, and a missing `state` raises `KeyError` |
| GameInfo.SlugClean | src/cbbpy/utils/cbbpy_utils.py:1289-1301 | every character after `nd-` of a fallback id is a digit, a lower-case letter or a dash |
| GameInfo.SlugOfClean | src/cbbpy/utils/cbbpy_utils.py:1289-1301 | a name already made of digits, lower-case letters and dashes is its own fallback id after `nd-` |
| GameInfo.SlugIdempotent | src/cbbpy/utils/cbbpy_utils.py:1289-1301 | building the id again from the part after `nd-` gives the same id |
| GameInfo.SlugOfWords | src/cbbpy/utils/cbbpy_utils.py:1289-1301 | on letters, digits and spaces, each space becomes a dash and each letter its lower case, and nothing is dropped |
| GameInfo.SlugOfWordsIs | src/cbbpy/utils/cbbpy_utils.py:1289-1301 | the fallback id is `nd-` followed by that character-wise mapped name |
| GameInfo.SlugExample | src/cbbpy/cbbpy_utils.py:1279-1291 | "Example State" gives `nd-example-state` |
| GameInfo.SlugNotString | src/cbbpy/utils/cbbpy_utils.py:1290 | a display name that is not a string cannot be lower-cased and raises |
| GameInfo.TeamIdSpec | src/cbbpy/utils/cbbpy_utils.py:1286-1301 | the fallback id replaces the page's id exactly when the team has no links or no records |
| GameInfo.TeamsSpec | src/cbbpy/utils/cbbpy_utils.py:1281-1313 | reading the two teams column by column succeeds exactly when each team's own columns can be read, and gives those columns for the first and second entries of `tms` |
| GameInfo.ScoreMissing | src/cbbpy/cbbpy_utils.py:1303 | a missing score is 0 in the current file and a `KeyError` in the other two |
| GameInfo.HomeWinSpec | src/cbbpy/utils/cbbpy_utils.py:1315 | home win exactly when the home score is higher and, in the current file, the status is `Final`; the current rule implies the older one |
| GameInfo.InfoHomeWin | src/cbbpy/utils/cbbpy_utils.py:1313-1315 | a built row's win flag compares its two scores, with the `Final` condition in the current file; only the current file has status and spread columns |
| GameInfo.OvertimesSpec | src/cbbpy/utils/cbbpy_utils.py:1327-1342 | -1 when a team lacks linescores (current and older), `KeyError` in the women's file; else the periods beyond regulation, and `AssertionError` when the teams disagree |
| GameInfo.NeutralWomens | src/cbbpy/womens_scraper.py:904-911 | neutral unless the home team's second record is of type `home` or the away team's of type `away` |
| GameInfo.InfoTeams | src/cbbpy/utils/cbbpy_utils.py:1281-1323 | the row's teams are the first and second entries of `tms`; postseason exactly when `seasonType` is 3; neutral exactly when `neutralSite` is a key (current and older) |
| GameInfo.SpreadSpec | src/cbbpy/utils/cbbpy_utils.py:1344-1347 | the spread is the last odds entry's primary spread, or `""` as soon as a lookup fails |
| GameInfo.SpreadMissing | src/cbbpy/utils/cbbpy_utils.py:1344-1347 | without `gameOdds` the spread is `""` |
| Schedule.GatherEvents | src/cbbpy/utils/cbbpy_utils.py:1453-1458 | the `extend` loop gathers each season type's `pre` then `post` events in the given order |
| Schedule.GatheredAppend | src/cbbpy/utils/cbbpy_utils.py:1456-1458 | gathering two runs of season types concatenates their events |
| Schedule.LastSeasonFirst | src/cbbpy/utils/cbbpy_utils.py:1456 | with the types reversed, the last type's events come first |
| Schedule.DatedSpec | src/cbbpy/utils/cbbpy_utils.py:1460 | the filter fails exactly when some event cannot be asked for `date`, and keeps exactly the events that have one |
| Schedule.DatedIdempotent | src/cbbpy/utils/cbbpy_utils.py:1460 | filtering twice changes nothing |
| Schedule.GetDatedEvents | src/cbbpy/utils/cbbpy_utils.py:1451-1460 | the season types, the loop and the filter give `DatedEvents` |
| Schedule.GameIdEmpty | src/cbbpy/utils/cbbpy_utils.py:1466-1467 | the game id is `""` exactly when `gameId/(\d+)/` matches nowhere |
| Schedule.GameIdAt | src/cbbpy/utils/cbbpy_utils.py:1466-1467 | at the leftmost match the id is the non-empty digit run between `gameId/` and the next slash |
| Schedule.GameIdAtFirstMark | src/cbbpy/utils/cbbpy_utils.py:1466-1467 | digits and a slash after the first `gameId/` are the id |
| Schedule.GameIdOfLink | src/cbbpy/utils/cbbpy_utils.py:1466-1467 | a link `pre + "gameId/" + digits + "/" + post` gives `digits` |
| Schedule.GameIdRoundTrip | src/cbbpy/utils/cbbpy_utils.py:1466-1467 | a numeric id written into a link is read back |
| Schedule.NetworkSpec | src/cbbpy/utils/cbbpy_utils.py:1476 | the first network's name, or `""` for none |
| Schedule.ResultLineSpec | src/cbbpy/utils/cbbpy_utils.py:1482-1485 | a final game gets `"<W/L> <us>-<them>"`, any other status `"N/A"` |
| Schedule.ResultLineNotApplicable | src/cbbpy/utils/cbbpy_utils.py:1482-1485 | the result is `"N/A"` exactly when the game is not final |
| Schedule.ResultLineFails | src/cbbpy/utils/cbbpy_utils.py:1482-1485 | only a final game can fail; it fails on a result that is not a dict or a symbol that is not a string |
| Schedule.ResultLineParts | src/cbbpy/utils/cbbpy_utils.py:1483 | the result line splits back into the symbol and the two scores |
| Schedule.EventRowResult | src/cbbpy/utils/cbbpy_utils.py:1465-1488 | each row belongs to the requested team and season, and its result is `"N/A"` exactly when the game is not final |
| Schedule.EventRows | src/cbbpy/utils/cbbpy_utils.py:1465-1488 | the row loop gives one row per event, failing at the first event that fails |
| Schedule.ScheduleRows | src/cbbpy/utils/cbbpy_utils.py:1460-1488 | one row per dated event, each the row of its event, all for the requested team |
| Schedule.ScheduleHelper | src/cbbpy/utils/cbbpy_utils.py:1449-1505 | the helper's loops give `Schedule` |
| StatusGate.GoodSpec | src/cbbpy/utils/cbbpy_utils.py:103 | the current file accepts `In Progress` and `Final`, the others only `Final`; `In Progress` is the only status on which they differ |
| StatusGate.GameStatusStrip | src/cbbpy/utils/cbbpy_utils.py:419 | the status is `gmStrp`, then `status`, then `desc` |
| StatusGate.NoStatusFails | src/cbbpy/utils/cbbpy_utils.py:419 | a page whose status cannot be read fails on every page type in every snapshot |
| StatusGate.BadStatusEmpty | src/cbbpy/utils/cbbpy_utils.py:419-423 | any other status gives empty boxscore and play-by-play tables, and an empty info table except in the current file, which builds the row |
| StatusGate.CurrentRowStatus | src/cbbpy/utils/cbbpy_utils.py:556-561 | the current info row carries the status the gate read, and a game that is not final never has a home win |
| StatusGate.InProgressGate | src/cbbpy/cbbpy_utils.py:357-361 | a game in progress is left empty by the older and women's files and read by the current one |
| StatusGate.FinalGate | src/cbbpy/utils/cbbpy_utils.py:419-427 | a final game's boxscore is built from `bxscr` in every snapshot, its play-by-play by the game helper in the current and older files, and its info row exists exactly when the info helper succeeds |
| StatusGate.OlderRowsAreFinal | src/cbbpy/cbbpy_utils.py:508-512 | an older or women's info row always comes from a final game |
| Text.Find | src/cbbpy/utils/cbbpy_utils.py:1143 | `str.find`: the first occurrence, or none when the pattern occurs nowhere |
| Text.JoinSplit | src/cbbpy/utils/cbbpy_utils.py:1143-1157 | joining the fields of a `split` gives the text back |
| Text.SplitFieldsFree | src/cbbpy/utils/cbbpy_utils.py:1143-1157 | no field of a `split` contains the separator |
| Text.AfterIsSuffix | src/cbbpy/utils/cbbpy_utils.py:1157 | `split(sep)[-1]` is a suffix of the text that the separator immediately precedes (and that holds no separator) |
| Text.ParseIntToString | src/cbbpy/utils/cbbpy_utils.py:1060 | `int` reads back any rendered integer, negative ones included |
| Text.ParseDigits | src/cbbpy/utils/cbbpy_utils.py:1074-1075 | a run of digits parses to its value under `int` and under pandas' parser |
| Text.ParseIntSpaces | src/cbbpy/utils/cbbpy_utils.py:1060 | `int` skips surrounding whitespace |
| Text.ParseIntUnderscores | src/cbbpy/utils/cbbpy_utils.py:1060 | `int` skips single underscores between digits |
| Text.ParseIntRejectsUnderscores | src/cbbpy/utils/cbbpy_utils.py:1074-1075 | a doubled, leading or trailing underscore makes `int` raise |
| Text.ParseIntRejectsSign | src/cbbpy/utils/cbbpy_utils.py:1074-1075 | a space after the sign, or no digits at all, make `int` raise |
| Text.ParseDecimalToString | src/cbbpy/utils/cbbpy_utils.py:1001-1006 | pandas' parser reads back any rendered natural number |
| Text.ParseDecimalExamples | src/cbbpy/utils/cbbpy_utils.py:1001-1006 | pandas' parser skips surrounding whitespace but takes no underscore |
| PyJson.MapR | src/cbbpy/utils/cbbpy_utils.py:1050-1068 | a comprehension that succeeds has one value per element, each the element's value; one that fails has an element that raises |

## Left out

- Fetching, retries and pauses are left out. So are `joblib` fan-out, logging, fuzzy team matching and the player helpers. They are network I/O, concurrency and library calls around the helpers.
- BeautifulSoup and `json.loads` are not modelled. The scripts are given as their texts, and the JSON parser is a parameter `string -> Option<Json>`.
- The date library is a parameter. `dateutil`, the time-zone conversion and `strftime` become a function from `dtTm` to the day and time strings and the two before-2015-05-01 answers.
- pandas' final `sort_values` in the play-by-play and schedule helpers is left out. So are `reset_index` and the boxscore's closing `astype(bool)`. The model gives the rows in build order.
- Floating point is not modelled. JSON numbers, scores and `float(attendance)` are integers, and `pd.to_numeric` parses surrounding whitespace, an optional sign and decimal digits.
- `np.nan` and `None` are not told apart. A missing value in a frame is `JNull`.
- Lower-casing covers ASCII letters only, and `\d` and `[0-9a-zA-Z-]` are ASCII classes.
- Iterating over a dict (its keys) is reported as an error rather than modelled.
- When several lookups of one comprehension could fail, the model reports the first failing column's error. Python does the same, but the exception class for exotic inputs (for example, indexing a number) may differ.
- Boxscore.InsertDerived and Boxscore.CoerceAll: written as loops over `DERIVED` and `COERCED` where the source repeats one statement per column.
- Frames.Concat2: `pd.concat` of three frames is modelled as two pairwise concatenations.
- Frames.Concat2: a column whose name appears twice in one frame is not modelled; `IndexOf` finds the first one.
- Boxscore.EmptyGroup: builds the empty frame's columns from the lowered labels with the player columns in front, as the source does. It does not model pandas' treatment of duplicate labels.
- Schedule.GameIdOfLink: requires that no `gameId/` starts inside `pre` (the marker itself may not overlap the boundary), which is how a leftmost match is expressed here.
- Text.ParseInt: Unicode whitespace outside Latin-1 and non-ASCII decimal digits, which `int` also accepts, are not modelled.
- Text.ParseDecimal: pandas also reads fractions, exponents, `inf` and `nan`; the model reads integers only, as floating point is left out.
- Frames.Inserted: pandas reindexes a frame with an empty index when a non-empty list is inserted, filling the earlier columns with missing values; the model raises `ValueError` on that length mismatch instead. The boxscore helper meets this case only for a group with players but no labels. There the model builds the stat frame at the group's height from the start, so `starter` holds the flag where pandas leaves it missing after the reindex. Both then raise `KeyError('fg')` at the shooting split, so the helper's result is the same.
- Frames.Dropped: pandas raises one `KeyError` whose message lists every missing label; the model's `KeyError` carries the first missing name only. In the boxscore helper the drop follows the splits of the same three columns, so it never raises there.
