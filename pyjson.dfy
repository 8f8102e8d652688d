/** The parsed page document as a generic JSON value, and the Python
    operations the scraper applies to it (`x[k]`, `x[i]`, `len`, `in`,
    `.get`, `int()`), each returning the exception Python would raise. */
module PyJson {
  import opened Wrappers
  import opened Text

  /** A value produced by `json.loads`. Numbers are integers here. */
  datatype Json =
    | JNull
    | JBool(b: bool)
    | JNum(n: int)
    | JStr(s: string)
    | JArr(items: seq<Json>)
    | JObj(fields: map<string, Json>)

  /** The exceptions the helpers can raise. */
  datatype PyError =
    | KeyError(key: string)
    | IndexError
    | TypeError
    | AttributeError
    | ValueError
    | AssertionError

  type Res<T> = Result<T, PyError>

  /** `x[k]` with a string key. */
  function Get(x: Json, k: string): (r: Res<Json>)
    ensures r.Ok? <==> x.JObj? && k in x.fields
  {
    match x
    case JObj(m) => if k in m then Ok(m[k]) else Err(KeyError(k))
    case _ => Err(TypeError)
  }

  /** `x[k1][k2]...` */
  function Path(x: Json, keys: seq<string>): Res<Json> {
    if keys == [] then Ok(x)
    else
      var y :- Get(x, keys[0]);
      Path(y, keys[1..])
  }

  /** `x.get(k, d)` (a dict method). */
  function GetOr(x: Json, k: string, d: Json): Res<Json> {
    match x
    case JObj(m) => Ok(if k in m then m[k] else d)
    case _ => Err(AttributeError)
  }

  /** `k in x.keys()` (a dict method). */
  function HasKey(x: Json, k: string): Res<bool> {
    match x
    case JObj(m) => Ok(k in m)
    case _ => Err(AttributeError)
  }

  /** `k in x` for a string `k`: a key of a dict, an element of a list, a
      substring of a string. */
  function In(x: Json, k: string): Res<bool> {
    match x
    case JObj(m) => Ok(k in m)
    case JArr(items) => Ok(JStr(k) in items)
    case JStr(s) => Ok(Contains(s, k))
    case _ => Err(TypeError)
  }

  /** Position `i` of a sequence of length `n`, Python style: negative
      indexes count from the end. */
  function Normalize(i: int, n: nat): Option<nat> {
    if 0 <= i < n then Some(i) else if 0 - n as int <= i < 0 then Some(i + n) else None
  }

  /** `x[i]` with an integer index. */
  function At(x: Json, i: int): Res<Json> {
    match x
    case JArr(items) =>
      (match Normalize(i, |items|)
       case Some(k) => Ok(items[k])
       case None => Err(IndexError))
    case JStr(s) =>
      (match Normalize(i, |s|)
       case Some(k) => Ok(JStr([s[k]]))
       case None => Err(IndexError))
    case JObj(_) => Err(KeyError(IntToString(i)))
    case _ => Err(TypeError)
  }

  /** `len(x)`. */
  function Len(x: Json): Res<nat> {
    match x
    case JArr(items) => Ok(|items|)
    case JObj(m) => Ok(|m|)
    case JStr(s) => Ok(|s|)
    case _ => Err(TypeError)
  }

  /** `for y in x`. Iterating an object (its keys) is not modelled and is
      reported as an error. */
  function Iterate(x: Json): Res<seq<Json>> {
    match x
    case JArr(items) => Ok(items)
    case JStr(s) => Ok(seq(|s|, i requires 0 <= i < |s| => JStr([s[i]])))
    case _ => Err(TypeError)
  }

  /** The receiver of a string method such as `.split` or `.lower`. */
  function AsStr(x: Json): Res<string> {
    match x
    case JStr(s) => Ok(s)
    case _ => Err(AttributeError)
  }

  /** `a + b` on strings; any other operand raises. */
  function Plus(a: Json, b: Json): (r: Res<Json>)
    ensures r.Ok? <==> a.JStr? && b.JStr?
    ensures r.Ok? ==> r.value == JStr(a.s + b.s)
  {
    if a.JStr? && b.JStr? then Ok(JStr(a.s + b.s)) else Err(TypeError)
  }

  /** `int(x)`. */
  function ToInt(x: Json): Res<int> {
    match x
    case JNum(n) => Ok(n)
    case JBool(b) => Ok(if b then 1 else 0)
    case JStr(s) =>
      (match ParseInt(s)
       case Some(n) => Ok(n)
       case None => Err(ValueError))
    case _ => Err(TypeError)
  }

  /** A Python comprehension `[f(x) for x in xs]`: the first element whose
      `f` raises makes the whole comprehension raise. */
  function MapR<A, B>(xs: seq<A>, f: A -> Res<B>): (r: Res<seq<B>>)
    ensures r.Ok? ==> |r.value| == |xs|
    ensures r.Ok? ==> forall i :: 0 <= i < |xs| ==> f(xs[i]) == Ok(r.value[i])
    ensures r.Err? ==> exists i :: 0 <= i < |xs| && f(xs[i]).Err?
  {
    if xs == [] then Ok([])
    else
      match f(xs[0])
      case Err(e) => Err(e)
      case Ok(y) =>
        match MapR(xs[1..], f)
        case Err(e) =>
          assert exists i :: 0 <= i < |xs| - 1 && f(xs[1..][i]).Err?;
          var i :| 0 <= i < |xs| - 1 && f(xs[1..][i]).Err?;
          assert f(xs[i + 1]).Err?;
          Err(e)
        case Ok(ys) => Ok([y] + ys)
  }

  lemma MapROk<A, B>(xs: seq<A>, f: A -> Res<B>)
    requires forall i :: 0 <= i < |xs| ==> f(xs[i]).Ok?
    ensures MapR(xs, f).Ok?
  {
  }
}

/** Shared vocabulary of the three generations of the scraper. */
module Scrape {
  import opened Wrappers
  import opened PyJson

  /** Which copy of the helpers is modelled: `utils/cbbpy_utils.py`
      (current), `cbbpy_utils.py` (older) or `womens_scraper.py`. */
  datatype Snapshot = Current | Older | Womens

  /** What the date library derives from a game's `dtTm` field: the
      Pacific-time day and time strings, and whether the date is before the
      2015-05-01 women's rule change, compared as parsed (UTC, used by the
      play-by-play helper) and after conversion to Pacific time (used by the
      game-info helper). */
  datatype Moment = Moment(day: string, time: string, beforeCutoffUtc: bool, beforeCutoffPacific: bool)

  /** `dateutil.parser.parse` and the time-zone conversion; `None` when the
      text cannot be parsed. */
  type DateParser = Json -> Option<Moment>

  function ParseDate(dates: DateParser, x: Json): Res<Moment> {
    match dates(x)
    case Some(m) => Ok(m)
    case None => Err(ValueError)
  }
}
