/** Per-play derivations of the play-by-play helper: the play type (first
    phrase that occurs, non-shot phrases before shot phrases), the shooter,
    the assisting player and the three-point flag. */
module Plays {
  import opened Wrappers
  import opened Text
  import opened PyJson

  /** Phrases tried first, in this order. */
  const NON_SHOT_TYPES: seq<string> :=
    ["TV Timeout", "Jump Ball", "Turnover", "Timeout", "Rebound", "Block", "Steal", "Foul", "End"]

  /** Phrases tried when no non-shot phrase occurs, in this order. */
  const SHOT_TYPES: seq<string> :=
    ["Three Point Jumper", "Two Point Tip Shot", "Free Throw", "Jumper", "Layup", "Dunk"]

  /** The lower-cased phrases, which are the values of `play_type`. */
  const NON_SHOT_LOWER: seq<string> :=
    ["tv timeout", "jump ball", "turnover", "timeout", "rebound", "block", "steal", "foul", "end"]

  const SHOT_LOWER: seq<string> :=
    ["three point jumper", "two point tip shot", "free throw", "jumper", "layup", "dunk"]

  lemma LowerNonShot()
    ensures |NON_SHOT_LOWER| == |NON_SHOT_TYPES|
    ensures forall i :: 0 <= i < |NON_SHOT_TYPES| ==> Lower(NON_SHOT_TYPES[i]) == NON_SHOT_LOWER[i]
  {
    assert Lower("TV Timeout") == "tv timeout";
    assert Lower("Jump Ball") == "jump ball";
    assert Lower("Turnover") == "turnover";
    assert Lower("Timeout") == "timeout";
    assert Lower("Rebound") == "rebound";
    assert Lower("Block") == "block";
    assert Lower("Steal") == "steal";
    assert Lower("Foul") == "foul";
    assert Lower("End") == "end";
  }

  lemma LowerShot()
    ensures |SHOT_LOWER| == |SHOT_TYPES|
    ensures forall i :: 0 <= i < |SHOT_TYPES| ==> Lower(SHOT_TYPES[i]) == SHOT_LOWER[i]
  {
    assert Lower("Three Point Jumper") == "three point jumper";
    assert Lower("Two Point Tip Shot") == "two point tip shot";
    assert Lower("Free Throw") == "free throw";
    assert Lower("Jumper") == "jumper";
    assert Lower("Layup") == "layup";
    assert Lower("Dunk") == "dunk";
  }

  lemma LowerTables()
    ensures |NON_SHOT_LOWER| == |NON_SHOT_TYPES| && |SHOT_LOWER| == |SHOT_TYPES|
    ensures forall i :: 0 <= i < |NON_SHOT_TYPES| ==> Lower(NON_SHOT_TYPES[i]) == NON_SHOT_LOWER[i]
    ensures forall i :: 0 <= i < |SHOT_TYPES| ==> Lower(SHOT_TYPES[i]) == SHOT_LOWER[i]
  {
    LowerNonShot();
    LowerShot();
  }

  /** Index of the first phrase at or after `k` that occurs in `s`. */
  function FirstMatchFrom(phrases: seq<string>, s: string, k: nat): (r: Option<nat>)
    requires k <= |phrases|
    ensures r.Some? ==> k <= r.value < |phrases| && Contains(s, phrases[r.value])
    ensures r.Some? ==> forall j :: k <= j < r.value ==> !Contains(s, phrases[j])
    ensures r.None? ==> forall j :: k <= j < |phrases| ==> !Contains(s, phrases[j])
    decreases |phrases| - k
  {
    if k == |phrases| then None
    else if Contains(s, phrases[k]) then Some(k)
    else FirstMatchFrom(phrases, s, k + 1)
  }

  /** Index of the first phrase that occurs in `s` (first match wins). */
  function FirstMatch(phrases: seq<string>, s: string): Option<nat> {
    FirstMatchFrom(phrases, s, 0)
  }

  lemma FirstMatchIs(phrases: seq<string>, s: string, k: nat)
    requires k < |phrases| && Contains(s, phrases[k])
    requires forall j :: 0 <= j < k ==> !Contains(s, phrases[j])
    ensures FirstMatch(phrases, s) == Some(k)
  {
  }

  /** The text the classifier looks at: the `text` field when it is a
      string, else "". */
  function PlayText(text: Option<Json>): string {
    match text
    case Some(JStr(s)) => s
    case _ => ""
  }

  /** `play_type` of one play, as the classifier loop decides it. */
  function PlayType(text: Option<Json>): string {
    var s := PlayText(text);
    match FirstMatch(NON_SHOT_TYPES, s)
    case Some(i) => Lower(NON_SHOT_TYPES[i])
    case None =>
      match FirstMatch(SHOT_TYPES, s)
      case Some(i) => Lower(SHOT_TYPES[i])
      case None => ""
  }

  /** The body of the classifier loop for one play text: the first
      non-shot phrase found, else the first shot phrase, else "". */
  method TypeOfPlay(play: string) returns (t: string)
    ensures t == PlayType(Some(JStr(play)))
  {
    var added := false;
    t := "";
    for k := 0 to |NON_SHOT_TYPES|
      invariant !added
      invariant forall j :: 0 <= j < k ==> !Contains(play, NON_SHOT_TYPES[j])
    {
      if Contains(play, NON_SHOT_TYPES[k]) {
        FirstMatchIs(NON_SHOT_TYPES, play, k);
        t := Lower(NON_SHOT_TYPES[k]);
        added := true;
        break;
      }
    }
    if !added {
      for k := 0 to |SHOT_TYPES|
        invariant !added
        invariant forall j :: 0 <= j < k ==> !Contains(play, SHOT_TYPES[j])
      {
        if Contains(play, SHOT_TYPES[k]) {
          FirstMatchIs(SHOT_TYPES, play, k);
          t := Lower(SHOT_TYPES[k]);
          added := true;
          break;
        }
      }
    }
  }

  /** The type depends only on the text the classifier looks at. */
  lemma TypeOfText(text: Option<Json>)
    ensures PlayType(text) == PlayType(Some(JStr(PlayText(text))))
  {
  }

  /** A play without a text gets the empty type. */
  lemma NoTextType(text: Option<Json>)
    requires text.None?
    ensures PlayType(text) == ""
  {
    var s := PlayText(text);
    var n := FirstMatch(NON_SHOT_TYPES, s);
    if n.Some? {
      ContainsIff(s, NON_SHOT_TYPES[n.value]);
    }
    var m := FirstMatch(SHOT_TYPES, s);
    if m.Some? {
      ContainsIff(s, SHOT_TYPES[m.value]);
    }
  }

  /** Each play type is the type of the play at the same position. */
  predicate Typed(types: seq<string>, texts: seq<Option<Json>>) {
    |types| == |texts| && forall i :: 0 <= i < |texts| ==> types[i] == PlayType(texts[i])
  }

  lemma Appended(types: seq<string>, t: string, texts: seq<Option<Json>>, text: Option<Json>)
    requires Typed(types, texts) && t == PlayType(text)
    ensures Typed(types + [t], texts + [text])
  {
  }

  /** The classifier loop of the play-by-play helper: one play type per
      play, "" for a play without a text. */
  method AssignPlayTypes(texts: seq<Option<Json>>) returns (types: seq<string>)
    ensures |types| == |texts|
    ensures forall i :: 0 <= i < |texts| ==> types[i] == PlayType(texts[i])
  {
    types := [];
    for n := 0 to |texts|
      invariant |types| == n
      invariant Typed(types, texts[..n])
    {
      var t := "";
      if texts[n].None? {
        NoTextType(texts[n]);
      } else {
        var play := PlayText(texts[n]);
        TypeOfText(texts[n]);
        t := TypeOfPlay(play);
      }
      Appended(types, t, texts[..n], texts[n]);
      assert texts[..n + 1] == texts[..n] + [texts[n]];
      types := types + [t];
    }
    assert texts[..|texts|] == texts;
  }

  /** `shooting_play`: the play type is one of the lower-cased shot phrases. */
  predicate IsShootingType(playType: string) {
    playType in SHOT_LOWER
  }

  /** No lower-cased non-shot phrase is a lower-cased shot phrase. */
  lemma NonShotNotShot(i: int)
    requires 0 <= i < |NON_SHOT_LOWER|
    ensures NON_SHOT_LOWER[i] !in SHOT_LOWER
  {
    var t := NON_SHOT_LOWER[i];
    forall j | 0 <= j < |SHOT_LOWER| ensures SHOT_LOWER[j] != t {
      var u := SHOT_LOWER[j];
      assert |u| != |t| || u[0] != t[0];
    }
  }

  lemma PlayTypeNonShot(text: Option<Json>)
    requires FirstMatch(NON_SHOT_TYPES, PlayText(text)).Some?
    ensures PlayType(text) == NON_SHOT_LOWER[FirstMatch(NON_SHOT_TYPES, PlayText(text)).value]
  {
    LowerTables();
  }

  lemma PlayTypeShot(text: Option<Json>)
    requires FirstMatch(NON_SHOT_TYPES, PlayText(text)).None?
    requires FirstMatch(SHOT_TYPES, PlayText(text)).Some?
    ensures PlayType(text) == SHOT_LOWER[FirstMatch(SHOT_TYPES, PlayText(text)).value]
  {
    LowerTables();
  }

  /** A play is a shooting play exactly when no non-shot phrase occurs in its
      text and some shot phrase does. */
  lemma ShootingIff(text: Option<Json>)
    ensures IsShootingType(PlayType(text)) <==>
      (forall j :: 0 <= j < |NON_SHOT_TYPES| ==> !Contains(PlayText(text), NON_SHOT_TYPES[j])) &&
      (exists j :: 0 <= j < |SHOT_TYPES| && Contains(PlayText(text), SHOT_TYPES[j]))
  {
    var s := PlayText(text);
    var n := FirstMatch(NON_SHOT_TYPES, s);
    if n.Some? {
      PlayTypeNonShot(text);
      NonShotNotShot(n.value);
    } else if FirstMatch(SHOT_TYPES, s).Some? {
      PlayTypeShot(text);
    } else {
      assert PlayType(text) == "";
      assert |SHOT_LOWER[5]| == 4;
    }
  }

  /** A play the classifier calls a free throw mentions "free throw" in any
      letter case; the shot matcher relies on this. */
  lemma FreeThrowMentioned(text: Option<Json>)
    requires PlayType(text) == "free throw"
    ensures Contains(Lower(PlayText(text)), "free throw")
  {
    var s := PlayText(text);
    var n := FirstMatch(NON_SHOT_TYPES, s);
    if n.Some? {
      PlayTypeNonShot(text);
      NonShotNotShot(n.value);
    } else {
      PlayTypeShot(text);
      var i := FirstMatch(SHOT_TYPES, s).value;
      LowerTables();
      LowerContains(s, SHOT_TYPES[i]);
    }
  }

  /** A three-point jumper was typed from the shot phrases. */
  lemma ThreeJumperIsShot(text: Option<Json>)
    requires PlayType(text) == "three point jumper"
    ensures FirstMatch(NON_SHOT_TYPES, PlayText(text)).None?
    ensures FirstMatch(SHOT_TYPES, PlayText(text)).Some?
  {
    assert SHOT_LOWER[0] == "three point jumper";
    var n := FirstMatch(NON_SHOT_TYPES, PlayText(text));
    if n.Some? {
      PlayTypeNonShot(text);
      NonShotNotShot(n.value);
      assert false;
    }
  }

  /** A play typed as a three-point jumper has `is_three` set. */
  lemma ThreeJumperIsThree(text: Option<Json>)
    requires PlayType(text) == "three point jumper"
    ensures IsThree(PlayText(text))
  {
    var s := PlayText(text);
    ThreeJumperIsShot(text);
    var i := FirstMatch(SHOT_TYPES, s).value;
    assert PlayType(text) == Lower(SHOT_TYPES[i]);
    LowerContains(s, SHOT_TYPES[i]);
    ContainsPrefix(Lower(s), "three point", PlayType(text));
  }

  /** `shooter`: on a scoring play the text before the first " made ", on
      another shooting play the text before the first " missed ", else "". */
  function Shooter(desc: string, scoring: bool, playType: string): string {
    var scorer := if scoring then Before(desc, " made ") else "";
    var nonScorer := if playType in SHOT_LOWER && !scoring then Before(desc, " missed ") else "";
    if scorer != "" then scorer else nonScorer
  }

  /** The two-column combination reduces to three cases, and an absent
      marker yields the whole description. */
  lemma ShooterCases(desc: string, scoring: bool, playType: string)
    ensures scoring ==> Shooter(desc, scoring, playType) == Before(desc, " made ")
    ensures !scoring && IsShootingType(playType) ==> Shooter(desc, scoring, playType) == Before(desc, " missed ")
    ensures !scoring && !IsShootingType(playType) ==> Shooter(desc, scoring, playType) == ""
    ensures scoring && !Contains(desc, " made ") ==> Shooter(desc, scoring, playType) == desc
    ensures !scoring && IsShootingType(playType) && !Contains(desc, " missed ") ==>
      Shooter(desc, scoring, playType) == desc
    ensures scoring && Contains(desc, " made ") ==>
      Shooter(desc, scoring, playType) == desc[..Find(desc, " made ").value]
  {
    BeforeIsPrefix(desc, " made ");
    BeforeIsPrefix(desc, " missed ");
  }

  /** `is_assisted`: the lower-cased text mentions "assisted". */
  predicate IsAssisted(desc: string) {
    Contains(Lower(desc), "assisted")
  }

  /** `assist_player`: the text after the last "Assisted by " with every
      full stop removed, or "" on an unassisted play. */
  function AssistPlayer(desc: string, assisted: bool): string {
    if assisted then Replace(After(desc, "Assisted by "), ".", "") else ""
  }

  /** The assisting player's name never holds a full stop; when the marker
      occurs it is the dot-free text after its last occurrence, and when
      only a lower-case "assisted" occurs it is the whole dot-free text. */
  lemma AssistPlayerSpec(desc: string, assisted: bool)
    ensures '.' !in AssistPlayer(desc, assisted)
    ensures !assisted ==> AssistPlayer(desc, assisted) == ""
    ensures assisted && Contains(desc, "Assisted by ") ==>
      exists a :: |a| + 12 <= |desc| && desc[|desc| - |a| - 12..] == "Assisted by " + a &&
        !Contains(a, "Assisted by ") && AssistPlayer(desc, assisted) == Replace(a, ".", "")
    ensures assisted && !Contains(desc, "Assisted by ") ==>
      AssistPlayer(desc, assisted) == Replace(desc, ".", "")
  {
    RemoveCharFree(After(desc, "Assisted by "), '.');
    if Contains(desc, "Assisted by ") {
      AfterIsSuffix(desc, "Assisted by ");
      AfterFree(desc, "Assisted by ");
    } else {
      AfterWhole(desc, "Assisted by ");
    }
  }

  /** `is_three`: the lower-cased text mentions "three point". */
  predicate IsThree(desc: string) {
    Contains(Lower(desc), "three point")
  }
}
