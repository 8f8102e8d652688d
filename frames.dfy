/** The few pandas DataFrame operations the boxscore helper uses: building a
    frame from a dict of columns, `insert`, `drop(columns=...)`, reading and
    assigning a column, and `pd.concat` of frames stacked by rows. A frame
    is held column by column; a missing value (`np.nan`) is `JNull`. */
module Frames {
  import opened Wrappers
  import opened PyJson

  /** A frame as a value: its column names, one cell sequence per column,
      and its number of rows. */
  datatype Table = Table(columns: seq<string>, data: seq<seq<Json>>, height: nat)

  predicate WellFormed(t: Table) {
    |t.data| == |t.columns| && forall c :: 0 <= c < |t.data| ==> |t.data[c]| == t.height
  }

  /** The position of the first column called `name`. */
  function IndexOf(cols: seq<string>, name: string): (r: Option<nat>)
    ensures r.None? <==> name !in cols
    ensures r.Some? ==> r.value < |cols| && cols[r.value] == name && name !in cols[..r.value]
  {
    if cols == [] then None
    else if cols[0] == name then Some(0)
    else
      match IndexOf(cols[1..], name)
      case None => None
      case Some(i) =>
        assert cols[..i + 1] == [cols[0]] + cols[1..][..i];
        Some(i + 1)
  }

  /** `df[name]`: the column's cells, or `KeyError` when there is none. */
  function ColumnOf(t: Table, name: string): (r: Res<seq<Json>>)
    requires WellFormed(t)
    ensures r.Ok? <==> name in t.columns
    ensures r.Ok? ==> |r.value| == t.height
    ensures r.Err? ==> r.error == KeyError(name)
  {
    match IndexOf(t.columns, name)
    case None => Err(KeyError(name))
    case Some(c) => Ok(t.data[c])
  }

  /** `df.insert(loc, name, values)`: a name already present and a column of
      the wrong length raise `ValueError`, a position past the last column
      raises `IndexError`; otherwise the column lands at `loc`. */
  function Inserted(t: Table, loc: nat, name: string, values: seq<Json>): (r: Res<Table>)
    requires WellFormed(t)
    ensures r.Ok? ==> WellFormed(r.value) && r.value.height == t.height
  {
    if name in t.columns then Err(ValueError)
    else if |values| != t.height then Err(ValueError)
    else if loc > |t.columns| then Err(IndexError)
    else
      var data := t.data[..loc] + [values] + t.data[loc..];
      assert forall c :: 0 <= c < |data| ==> |data[c]| == t.height by {
        forall c | 0 <= c < |data| ensures |data[c]| == t.height {
          if c < loc { assert data[c] == t.data[c]; }
          else if c > loc { assert data[c] == t.data[c - 1]; }
        }
      }
      Ok(Table(t.columns[..loc] + [name] + t.columns[loc..], data, t.height))
  }

  /** A scalar given to `insert` fills the whole column. */
  function Fill(v: Json, n: nat): (r: seq<Json>)
    ensures |r| == n && forall i :: 0 <= i < n ==> r[i] == v
  {
    seq(n, _ => v)
  }

  /** The columns (and their cells) whose names are not in `names`. */
  function Keep(cols: seq<string>, data: seq<seq<Json>>, names: seq<string>): (r: (seq<string>, seq<seq<Json>>))
    requires |cols| == |data|
    ensures |r.0| == |r.1| <= |cols|
    ensures forall c :: c in r.0 <==> c in cols && c !in names
    ensures forall k :: 0 <= k < |r.1| ==> r.1[k] in data
  {
    if cols == [] then ([], [])
    else
      var rest := Keep(cols[1..], data[1..], names);
      if cols[0] in names then rest
      else ([cols[0]] + rest.0, [data[0]] + rest.1)
  }

  /** `df.drop(columns=names)`: `KeyError` when a name is not a column,
      else every column with one of the names is removed. pandas' error
      message lists every missing label; the error here carries the first
      one only. */
  function Dropped(t: Table, names: seq<string>): (r: Res<Table>)
    requires WellFormed(t)
    ensures r.Ok? ==> WellFormed(r.value) && r.value.height == t.height
  {
    if exists n :: n in names && n !in t.columns then
      var k := FirstMissing(t.columns, names);
      Err(KeyError(names[k]))
    else
      var (cols, data) := Keep(t.columns, t.data, names);
      KeepCells(t.columns, t.data, names, t.height);
      Ok(Table(cols, data, t.height))
  }

  function FirstMissing(cols: seq<string>, names: seq<string>): (k: nat)
    requires exists n :: n in names && n !in cols
    ensures k < |names| && names[k] !in cols
    ensures forall j :: 0 <= j < k ==> names[j] in cols
  {
    if names[0] !in cols then 0
    else 1 + FirstMissing(cols, names[1..])
  }

  /** `df[name] = values`: replaces the column in place, or appends it when
      the frame has no such column; a column of the wrong length raises. */
  function Assigned(t: Table, name: string, values: seq<Json>): (r: Res<Table>)
    requires WellFormed(t)
    ensures r.Ok? ==> WellFormed(r.value) && r.value.height == t.height
  {
    if |values| != t.height then Err(ValueError)
    else
      match IndexOf(t.columns, name)
      case Some(c) => Ok(Table(t.columns, t.data[c := values], t.height))
      case None => Ok(Table(t.columns + [name], t.data + [values], t.height))
  }

  /** The cells a frame contributes to a column of a concatenation: its
      own, or missing values when it lacks the column. */
  function CellsOr(t: Table, name: string): (r: seq<Json>)
    requires WellFormed(t)
    ensures |r| == t.height
  {
    match IndexOf(t.columns, name)
    case Some(c) => t.data[c]
    case None => Fill(JNull, t.height)
  }

  /** The column names of `b` that `a` lacks, in `b`'s order. */
  function NewNames(a: seq<string>, b: seq<string>): (r: seq<string>)
    ensures forall c :: c in r <==> c in b && c !in a
  {
    if b == [] then []
    else if b[0] in a || b[0] in b[1..] then NewNames(a, b[1..])
    else [b[0]] + NewNames(a, b[1..])
  }

  /** `pd.concat([a, b])`: the rows of `a` then those of `b`, under the
      columns of `a` followed by the columns only `b` has. */
  function Concat2(a: Table, b: Table): (r: Table)
    requires WellFormed(a) && WellFormed(b)
    ensures WellFormed(r) && r.height == a.height + b.height
    ensures |a.columns| <= |r.columns| && r.columns[..|a.columns|] == a.columns
    ensures forall c :: c in r.columns <==> c in a.columns || c in b.columns
  {
    var cols := a.columns + NewNames(a.columns, b.columns);
    Table(cols, seq(|cols|, k requires 0 <= k < |cols| => CellsOr(a, cols[k]) + CellsOr(b, cols[k])),
          a.height + b.height)
  }

  /** `pd.concat(frames)`, as repeated pairwise concatenation. */
  function Concat(ts: seq<Table>): (r: Table)
    requires forall i :: 0 <= i < |ts| ==> WellFormed(ts[i])
    ensures WellFormed(r)
  {
    if ts == [] then Table([], [], 0)
    else if |ts| == 1 then ts[0]
    else Concat2(Concat(ts[..|ts| - 1]), ts[|ts| - 1])
  }

  /** A frame that reaches every column keeps its cells in every column
      it had, and the new column holds the inserted cells. */
  lemma InsertedSpec(t: Table, loc: nat, name: string, values: seq<Json>)
    requires WellFormed(t)
    ensures Inserted(t, loc, name, values).Ok? <==>
      name !in t.columns && |values| == t.height && loc <= |t.columns|
    ensures Inserted(t, loc, name, values).Ok? ==>
      var u := Inserted(t, loc, name, values).value;
      WellFormed(u) && u.height == t.height &&
      u.columns == t.columns[..loc] + [name] + t.columns[loc..] && ColumnOf(u, name) == Ok(values) &&
      forall n :: n != name ==> ColumnOf(u, n) == ColumnOf(t, n)
  {
    if Inserted(t, loc, name, values).Ok? {
      var u := Inserted(t, loc, name, values).value;
      forall n | n != name ensures ColumnOf(u, n) == ColumnOf(t, n) {
        InsertedIndex(t, loc, name, values, n);
      }
      InsertedIndex(t, loc, name, values, name);
    }
  }

  /** Positions in a sequence after an element is inserted at `loc`. */
  lemma InsertAt<T>(xs: seq<T>, loc: nat, x: T, c: nat)
    requires loc <= |xs| && c <= |xs|
    ensures var ys := xs[..loc] + [x] + xs[loc..];
      (c < loc ==> ys[c] == xs[c]) && (c == loc ==> ys[c] == x) && (c > loc ==> ys[c] == xs[c - 1])
  {
  }

  lemma InsertedIndex(t: Table, loc: nat, name: string, values: seq<Json>, n: string)
    requires WellFormed(t)
    requires Inserted(t, loc, name, values).Ok?
    ensures var u := Inserted(t, loc, name, values).value;
      WellFormed(u) && (n == name ==> ColumnOf(u, n) == Ok(values)) &&
      (n != name ==> ColumnOf(u, n) == ColumnOf(t, n))
  {
    var u := Inserted(t, loc, name, values).value;
    assert u.data == t.data[..loc] + [values] + t.data[loc..];
    InsertedWellFormed(t, loc, name, values);
    InsertedIndexOf(t, loc, name, values, n);
    if n == name {
      InsertAt(t.data, loc, values, loc);
    } else if IndexOf(t.columns, n).Some? {
      var c := IndexOf(t.columns, n).value;
      InsertAt(t.data, loc, values, if c < loc then c else c + 1);
    }
  }

  lemma InsertedWellFormed(t: Table, loc: nat, name: string, values: seq<Json>)
    requires WellFormed(t)
    requires Inserted(t, loc, name, values).Ok?
    ensures WellFormed(Inserted(t, loc, name, values).value)
  {
    var u := Inserted(t, loc, name, values).value;
    forall c | 0 <= c < |u.data| ensures |u.data[c]| == u.height {
      if c < loc { assert u.data[c] == t.data[c]; }
      else if c > loc { assert u.data[c] == t.data[c - 1]; }
    }
  }

  /** Where a name sits after an insertion: the new name at `loc`, the
      names before `loc` where they were, the others one further on. */
  lemma InsertedIndexOf(t: Table, loc: nat, name: string, values: seq<Json>, n: string)
    requires WellFormed(t)
    requires Inserted(t, loc, name, values).Ok?
    ensures var u := Inserted(t, loc, name, values).value;
      (n == name ==> IndexOf(u.columns, n) == Some(loc)) &&
      (n != name && IndexOf(t.columns, n).None? ==> IndexOf(u.columns, n).None?) &&
      (n != name && IndexOf(t.columns, n).Some? ==>
        var c := IndexOf(t.columns, n).value;
        IndexOf(u.columns, n) == Some(if c < loc then c else c + 1))
  {
    IndexOfInserted(t.columns, loc, name, n);
  }

  /** The same on the column names alone. */
  lemma IndexOfInserted(cols: seq<string>, loc: nat, name: string, n: string)
    requires loc <= |cols| && name !in cols
    ensures var ys := cols[..loc] + [name] + cols[loc..];
      (n == name ==> IndexOf(ys, n) == Some(loc)) &&
      (n != name && IndexOf(cols, n).None? ==> IndexOf(ys, n).None?) &&
      (n != name && IndexOf(cols, n).Some? ==>
        var c := IndexOf(cols, n).value;
        IndexOf(ys, n) == Some(if c < loc then c else c + 1))
  {
    var ys := cols[..loc] + [name] + cols[loc..];
    if n == name {
      assert ys[..loc] == cols[..loc] && ys[loc] == name;
      IndexOfAt(ys, n, loc);
    } else if IndexOf(cols, n).None? {
      assert n !in ys;
    } else if IndexOf(cols, n).value < loc {
      IndexOfBeforeInsert(cols, loc, name, n);
    } else {
      IndexOfAfterInsert(cols, loc, name, n);
    }
  }

  lemma IndexOfBeforeInsert(cols: seq<string>, loc: nat, name: string, n: string)
    requires loc <= |cols| && IndexOf(cols, n).Some? && IndexOf(cols, n).value < loc
    ensures IndexOf(cols[..loc] + [name] + cols[loc..], n) == IndexOf(cols, n)
  {
    var ys := cols[..loc] + [name] + cols[loc..];
    var c := IndexOf(cols, n).value;
    assert ys[..c] == cols[..c] && ys[c] == cols[c];
    IndexOfAt(ys, n, c);
  }

  lemma IndexOfAfterInsert(cols: seq<string>, loc: nat, name: string, n: string)
    requires loc <= |cols| && n != name && IndexOf(cols, n).Some? && IndexOf(cols, n).value >= loc
    ensures IndexOf(cols[..loc] + [name] + cols[loc..], n) == Some(IndexOf(cols, n).value + 1)
  {
    var ys := cols[..loc] + [name] + cols[loc..];
    var c := IndexOf(cols, n).value;
    assert n !in cols[..loc] by {
      assert cols[..loc] == cols[..c][..loc];
    }
    assert ys[..c + 1] == cols[..loc] + [name] + cols[loc..c];
    assert ys[c + 1] == cols[c];
    IndexOfAt(ys, n, c + 1);
  }

  /** The first occurrence is where a name is found. */
  lemma IndexOfAt(cols: seq<string>, name: string, k: nat)
    requires k < |cols| && cols[k] == name && name !in cols[..k]
    ensures IndexOf(cols, name) == Some(k)
  {
  }

  /** `insert(0, name, values)` puts the new column in front, and fails
      only on a duplicate name or a length mismatch. */
  lemma InsertedFront(t: Table, name: string, values: seq<Json>)
    requires WellFormed(t)
    ensures Inserted(t, 0, name, values) ==
      if name !in t.columns && |values| == t.height
      then Ok(Table([name] + t.columns, [values] + t.data, t.height))
      else Err(ValueError)
  {
    assert t.columns[..0] + [name] + t.columns[0..] == [name] + t.columns;
    assert t.data[..0] + [values] + t.data[0..] == [values] + t.data;
  }

  /** Dropping succeeds exactly when every name is a column; it removes
      those columns and keeps every other column with its cells. */
  lemma DroppedSpec(t: Table, names: seq<string>, n: string)
    requires WellFormed(t)
    ensures Dropped(t, names).Ok? <==> forall m :: m in names ==> m in t.columns
    ensures Dropped(t, names).Ok? ==>
      var u := Dropped(t, names).value;
      WellFormed(u) && u.height == t.height &&
      (n in names ==> n !in u.columns) &&
      (n !in names ==> ColumnOf(u, n) == ColumnOf(t, n))
  {
    if Dropped(t, names).Ok? {
      var (cols, data) := Keep(t.columns, t.data, names);
      KeepCells(t.columns, t.data, names, t.height);
      if n !in names {
        KeepColumn(t.columns, t.data, names, n);
      }
    }
  }

  lemma {:induction false} KeepCells(cols: seq<string>, data: seq<seq<Json>>, names: seq<string>, h: nat)
    requires |cols| == |data| && forall c :: 0 <= c < |data| ==> |data[c]| == h
    ensures forall k :: 0 <= k < |Keep(cols, data, names).1| ==> |Keep(cols, data, names).1[k]| == h
  {
  }

  lemma {:induction false} KeepColumn(cols: seq<string>, data: seq<seq<Json>>, names: seq<string>, n: string)
    requires |cols| == |data|
    requires n !in names
    ensures var (kc, kd) := Keep(cols, data, names);
      (IndexOf(kc, n).Some? <==> IndexOf(cols, n).Some?) &&
      (IndexOf(kc, n).Some? ==> kd[IndexOf(kc, n).value] == data[IndexOf(cols, n).value])
  {
    if cols != [] {
      KeepColumn(cols[1..], data[1..], names, n);
    }
  }

  /** Assigning replaces the named column (or adds it at the end) and
      leaves every other column as it was. */
  lemma AssignedSpec(t: Table, name: string, values: seq<Json>, n: string)
    requires WellFormed(t)
    ensures Assigned(t, name, values).Ok? <==> |values| == t.height
    ensures Assigned(t, name, values).Ok? ==>
      var u := Assigned(t, name, values).value;
      WellFormed(u) && u.height == t.height && ColumnOf(u, name) == Ok(values) &&
      (name in t.columns ==> u.columns == t.columns) &&
      (n != name ==> ColumnOf(u, n) == ColumnOf(t, n))
  {
    if |values| == t.height {
      var u := Assigned(t, name, values).value;
      match IndexOf(t.columns, name)
      case Some(c) =>
      case None =>
        IndexOfAt(u.columns, name, |t.columns|);
        assert u.columns[..|t.columns|] == t.columns;
        if n in t.columns {
          var c := IndexOf(t.columns, n).value;
          assert u.columns[..c] == t.columns[..c];
          IndexOfAt(u.columns, n, c);
        }
    }
  }

  /** A frame's contribution to a column it has is that column. */
  lemma CellsOrOwn(t: Table, name: string)
    requires WellFormed(t) && name in t.columns
    ensures CellsOr(t, name) == ColumnOf(t, name).value
  {
  }

  /** A column every frame has is, in the concatenation, the frames'
      cells one after the other. */
  lemma Concat2Column(a: Table, b: Table, name: string)
    requires WellFormed(a) && WellFormed(b)
    ensures name in Concat2(a, b).columns ==>
      ColumnOf(Concat2(a, b), name) == Ok(CellsOr(a, name) + CellsOr(b, name))
  {
    var r := Concat2(a, b);
    if name in r.columns {
      var k := IndexOf(r.columns, name).value;
      assert r.data[k] == CellsOr(a, r.columns[k]) + CellsOr(b, r.columns[k]);
    }
  }

  /** Concatenating three frames is concatenating the first two, then the
      third. */
  lemma Concat3(x: Table, y: Table, z: Table)
    requires WellFormed(x) && WellFormed(y) && WellFormed(z)
    ensures Concat([x, y, z]) == Concat2(Concat2(x, y), z)
  {
    var ts := [x, y, z];
    assert ts[..2] == [x, y] && ts[2] == z;
    ConcatPair(x, y);
    assert Concat(ts) == Concat2(Concat(ts[..2]), ts[2]);
  }

  /** Concatenating two frames is `Concat2`. */
  lemma ConcatPair(x: Table, y: Table)
    requires WellFormed(x) && WellFormed(y)
    ensures Concat([x, y]) == Concat2(x, y)
  {
    assert [x, y][..1] == [x];
  }

  /** A column both frames have is, in their concatenation, the first
      frame's column followed by the second's. */
  lemma Concat2Both(a: Table, b: Table, name: string)
    requires WellFormed(a) && WellFormed(b)
    requires name in a.columns && name in b.columns
    ensures name in Concat2(a, b).columns
    ensures ColumnOf(Concat2(a, b), name) == Ok(ColumnOf(a, name).value + ColumnOf(b, name).value)
  {
    Concat2Column(a, b, name);
    CellsOrOwn(a, name);
    CellsOrOwn(b, name);
  }

  /** What a frame method's result and the frame after it say together:
      the new frame, or the exception raised. */
  function Outcome(r: Res<()>, t: Table): Res<Table> {
    if r.Ok? then Ok(t) else Err(r.error)
  }

  /** A frame as a pandas object updated in place by `insert`, `drop` and
      column assignment. */
  class Frame {
    var columns: seq<string>
    var data: seq<seq<Json>>
    var height: nat

    function Value(): Table
      reads this
    {
      Table(columns, data, height)
    }

    predicate Valid()
      reads this
    {
      WellFormed(Value())
    }

    constructor (t: Table)
      requires WellFormed(t)
      ensures Valid() && Value() == t
    {
      columns, data, height := t.columns, t.data, t.height;
    }

    /** `self[name]` */
    function Column(name: string): Res<seq<Json>>
      requires Valid()
      reads this
    {
      ColumnOf(Value(), name)
    }

    /** `self.insert(loc, name, values)` */
    method Insert(loc: nat, name: string, values: seq<Json>) returns (r: Res<()>)
      requires Valid()
      modifies this
      ensures Valid()
      ensures Outcome(r, Value()) == Inserted(old(Value()), loc, name, values)
    {
      if name in columns || |values| != height {
        return Err(ValueError);
      }
      if loc > |columns| {
        return Err(IndexError);
      }
      InsertedSpec(Value(), loc, name, values);
      columns := columns[..loc] + [name] + columns[loc..];
      data := data[..loc] + [values] + data[loc..];
      r := Ok(());
    }

    /** `self = self.drop(columns=names)` */
    method Drop(names: seq<string>) returns (r: Res<()>)
      requires Valid()
      modifies this
      ensures Valid()
      ensures Outcome(r, Value()) == Dropped(old(Value()), names)
    {
      var i := 0;
      while i < |names|
        invariant i <= |names|
        invariant forall j :: 0 <= j < i ==> names[j] in columns
      {
        if names[i] !in columns {
          assert FirstMissing(columns, names) == i by {
            FirstMissingIs(columns, names, i);
          }
          return Err(KeyError(names[i]));
        }
        i := i + 1;
      }
      DroppedSpec(Value(), names, "");
      var kept := Keep(columns, data, names);
      columns, data := kept.0, kept.1;
      r := Ok(());
    }

    /** `self[name] = values` */
    method Assign(name: string, values: seq<Json>) returns (r: Res<()>)
      requires Valid()
      modifies this
      ensures Valid()
      ensures Outcome(r, Value()) == Assigned(old(Value()), name, values)
    {
      if |values| != height {
        return Err(ValueError);
      }
      AssignedSpec(Value(), name, values, name);
      match IndexOf(columns, name) {
        case Some(c) =>
          data := data[c := values];
        case None =>
          columns, data := columns + [name], data + [values];
      }
      r := Ok(());
    }
  }

  lemma {:induction false} FirstMissingIs(cols: seq<string>, names: seq<string>, i: nat)
    requires i < |names| && names[i] !in cols
    requires forall j :: 0 <= j < i ==> names[j] in cols
    ensures FirstMissing(cols, names) == i
  {
    if i > 0 {
      FirstMissingIs(cols, names[1..], i - 1);
    }
  }
}
