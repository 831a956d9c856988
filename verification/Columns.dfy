// The columnar result builder: JSON rows in, typed columns with null bitmaps out.
module Columns {
  import opened Basics
  import Decimal

  datatype TypeId = BooleanType | TinyintType | SmallintType | IntType | BigintType | DoubleType | StringType

  // A decoded JSON value; numbers keep their text, arrays and objects theirs.
  datatype Json = JNull | JBool(b: bool) | JNumber(text: string) | JString(s: string) | JOther(raw: string)

  type Row = seq<Json>
  type Grid = seq<Row>

  datatype Values =
    | BoolValues(bools: seq<bool>)
    | I32Values(i32s: seq<int>)
    | I64Values(i64s: seq<int>)
    | DoubleValues(doubles: seq<real>)
    | StringValues(strings: seq<string>)

  datatype Column = Column(values: Values, nulls: seq<bv8>)

  datatype Table = Table(names: seq<string>, types: seq<TypeId>, cols: seq<Column>)

  // A value its column cannot hold, or a row that is not a row of the expected shape.
  datatype BuildError = BadCell(row: nat, col: nat) | BadRow(row: nat)

  datatype Result<+T> = Ok(value: T) | Err(error: BuildError)

  const EMPTY_TABLE := Table([], [], [])

  // How the platform parses and prints 64-bit floats.
  datatype Floats = Floats(parse: string -> Option<real>, show: real -> string)

  // ------------------------------------------------------------------- integers

  const MIN32: int := -0x8000_0000
  const MAX32: int := 0x7FFF_FFFF
  const MIN64: int := -0x8000_0000_0000_0000
  const MAX64: int := 0x7FFF_FFFF_FFFF_FFFF

  /** Decimal text as a 64-bit integer; out of range is an error. */
  function Int64(text: string): Option<int>
  {
    var n := Decimal.Parse(text);
    if n.Some? && MIN64 <= n.value <= MAX64 then n else None
  }

  /** The text is exactly how a 32-bit integer is printed. */
  predicate CanonicalInt32(text: string)
  {
    Int64(text).Some? && MIN32 <= Int64(text).value <= MAX32 && Decimal.Format(Int64(text).value) == text
  }

  function ValueType(v: Json): TypeId
    requires v != JNull
  {
    match v
    case JBool(_) => BooleanType
    case JNumber(text) =>
      if Int64(text).Some? then if CanonicalInt32(text) then IntType else BigintType else DoubleType
    case _ => StringType
  }

  // ---------------------------------------------------------------- the null bitmap

  /** The bit 1 << j. */
  function Bit(j: nat): bv8
    requires j < 8
  {
    if j == 0 then 1 else if j == 1 then 2 else if j == 2 then 4 else if j == 3 then 8
    else if j == 4 then 16 else if j == 5 then 32 else if j == 6 then 64 else 128
  }

  predicate HasBit(b: bv8, j: nat)
    requires j < 8
  {
    b & Bit(j) != 0
  }

  /** Row i's flag is bit i % 8 of its byte, the lowest first. */
  lemma BitIsShifted(j: nat)
    requires j < 8
    ensures Bit(j) == (1 as bv8) << j
  {
  }

  lemma SetBit(b: bv8, j: nat, k: nat)
    requires j < 8 && k < 8
    ensures HasBit(b | Bit(j), k) <==> k == j || HasBit(b, k)
  {
  }

  predicate NullAt(bits: seq<bv8>, i: nat)
  {
    i / 8 < |bits| && HasBit(bits[i / 8], i % 8)
  }

  /** Packs flags eight to a byte. Reading any index back, in range or not, gives the flag, and
      no padding bit is ever set. */
  method PackNulls(flags: seq<bool>) returns (bits: seq<bv8>)
    ensures |bits| == (|flags| + 7) / 8
    ensures forall i: nat :: NullAt(bits, i) <==> i < |flags| && flags[i]
  {
    if |flags| == 0 {
      return [];
    }
    var b := new bv8[(|flags| + 7) / 8](_ => 0);
    for i := 0 to |flags|
      invariant forall k: nat :: NullAt(b[..], k) <==> k < i && flags[k]
    {
      if flags[i] {
        ghost var was := b[..];
        b[i / 8] := b[i / 8] | Bit(i % 8);
        forall k: nat ensures NullAt(b[..], k) <==> k == i || NullAt(was, k) {
          SetOneNull(was, b[..], i, k);
        }
      }
    }
    bits := b[..];
  }

  lemma SetOneNull(was: seq<bv8>, now: seq<bv8>, i: nat, k: nat)
    requires i / 8 < |was| && now == was[i / 8 := was[i / 8] | Bit(i % 8)]
    ensures NullAt(now, k) <==> k == i || NullAt(was, k)
  {
    if k / 8 == i / 8 {
      SetBit(was[i / 8], i % 8, k % 8);
      assert k == i <==> k % 8 == i % 8;
    }
  }

  // -------------------------------------------------------------------- inference

  function CellAt(grid: Grid, i: nat, col: nat): Json
    requires i < |grid|
  {
    if col < |grid[i]| then grid[i][col] else JNull
  }

  /** The column's non-null values, top to bottom. */
  function Present(grid: Grid, col: nat): (vs: seq<Json>)
    ensures JNull !in vs
  {
    if grid == [] then []
    else
      var above := Present(grid[..|grid| - 1], col);
      var v := CellAt(grid, |grid| - 1, col);
      if v == JNull then above else above + [v]
  }

  predicate SomeBigint(vs: seq<Json>)
    requires JNull !in vs
  {
    exists v | v in vs :: ValueType(v) == BigintType
  }

  /** The first value decides, except that one wide integer widens an INT column. */
  function InferKind(vs: seq<Json>): TypeId
    requires JNull !in vs
  {
    if vs == [] then StringType
    else if ValueType(vs[0]) == IntType && SomeBigint(vs) then BigintType
    else ValueType(vs[0])
  }

  method InferType(grid: Grid, col: nat) returns (kind: TypeId)
    ensures kind == InferKind(Present(grid, col))
  {
    kind := StringType;
    var found := false;
    for i := 0 to |grid|
      invariant kind == InferKind(Present(grid[..i], col))
      invariant found <==> Present(grid[..i], col) != []
    {
      assert grid[..i + 1][..i] == grid[..i];
      ghost var above := Present(grid[..i], col);
      if col >= |grid[i]| || grid[i][col] == JNull {
        continue;
      }
      var got := ValueType(grid[i][col]);
      WidenByOne(above, grid[i][col]);
      if !found {
        kind, found := got, true;
      } else if kind == IntType && got == BigintType {
        kind := got;
      }
    }
    assert grid[..|grid|] == grid;
  }

  lemma WidenByOne(vs: seq<Json>, v: Json)
    requires JNull !in vs && v != JNull
    ensures
      InferKind(vs + [v]) ==
        if vs == [] then ValueType(v)
        else if InferKind(vs) == IntType && ValueType(v) == BigintType then BigintType
        else InferKind(vs)
  {
    assert forall x :: x in vs + [v] <==> x in vs || x == v;
    assert vs != [] ==> vs[0] in vs;
  }

  predicate IsInteger(v: Json) { v.JNumber? && Int64(v.text).Some? }

  predicate AllIntegers(vs: seq<Json>) { forall v | v in vs :: IsInteger(v) }

  predicate AllCanonicalInt32(vs: seq<Json>) { forall v | v in vs :: v.JNumber? && CanonicalInt32(v.text) }

  /** A non-empty integer column is INT exactly when every value is a canonical 32-bit integer,
      and BIGINT otherwise. */
  lemma {:induction false} IntegerKind(vs: seq<Json>)
    requires JNull !in vs && vs != [] && AllIntegers(vs)
    ensures InferKind(vs) == if AllCanonicalInt32(vs) then IntType else BigintType
  {
    assert vs[0] in vs;
    if !AllCanonicalInt32(vs) {
      var v :| v in vs && !(v.JNumber? && CanonicalInt32(v.text));
      assert IsInteger(v) && ValueType(v) == BigintType;
    }
  }

  /** So the inferred type of an integer column does not depend on the order of its rows. */
  lemma {:induction false} IntegerKindIgnoresOrder(a: seq<Json>, b: seq<Json>)
    requires JNull !in a && JNull !in b && AllIntegers(a) && multiset(a) == multiset(b)
    ensures InferKind(a) == InferKind(b)
  {
    assert forall v :: v in a <==> v in multiset(a);
    assert forall v :: v in b <==> v in multiset(b);
    if a != [] {
      assert |multiset(a)| == |a| && |multiset(b)| == |b|;
      IntegerKind(a);
      IntegerKind(b);
    }
  }

  /** What other columns are inferred as: by their first value, and STRING when there is none. */
  lemma FirstValueDecides(vs: seq<Json>)
    requires JNull !in vs
    ensures vs == [] || vs[0].JString? || vs[0].JOther? ==> InferKind(vs) == StringType
    ensures vs != [] && vs[0].JBool? ==> InferKind(vs) == BooleanType
    ensures vs != [] && vs[0].JNumber? && !IsInteger(vs[0]) ==> InferKind(vs) == DoubleType
  {
    assert vs != [] ==> vs[0] in vs;
  }

  predicate InColumn(grid: Grid, col: nat, v: Json) { exists k | 0 <= k < |grid| :: CellAt(grid, k, col) == v }

  /** The values inferred from are the column's non-null ones, and the first of them is the first row's that
      has one. */
  lemma {:induction false} PresentIsTheColumn(grid: Grid, col: nat, i: nat)
    ensures forall v :: v in Present(grid, col) <==> v != JNull && InColumn(grid, col, v)
    ensures i < |grid| && CellAt(grid, i, col) != JNull && (forall k | 0 <= k < i :: CellAt(grid, k, col) == JNull) ==>
      Present(grid, col) != [] && Present(grid, col)[0] == CellAt(grid, i, col)
  {
    if grid != [] {
      var n := |grid| - 1;
      PresentIsTheColumn(grid[..n], col, i);
      assert forall k | 0 <= k < n :: CellAt(grid[..n], k, col) == CellAt(grid, k, col);
      forall v ensures v in Present(grid, col) <==> v != JNull && InColumn(grid, col, v) {
        if v in Present(grid[..n], col) {
          var k :| 0 <= k < n && CellAt(grid[..n], k, col) == v;
          assert CellAt(grid, k, col) == v;
        }
        if k :| 0 <= k < |grid| && CellAt(grid, k, col) == v && k < n {
          assert CellAt(grid[..n], k, col) == v;
        }
      }
      if i == n && forall k | 0 <= k < i :: CellAt(grid, k, col) == JNull {
        NothingPresent(grid[..n], col);
      }
    }
  }

  lemma {:induction false} NothingPresent(grid: Grid, col: nat)
    requires forall k | 0 <= k < |grid| :: CellAt(grid, k, col) == JNull
    ensures Present(grid, col) == []
  {
    if grid != [] {
      var n := |grid| - 1;
      assert forall k | 0 <= k < n :: CellAt(grid[..n], k, col) == CellAt(grid, k, col);
      NothingPresent(grid[..n], col);
    }
  }

  /** A number alone, as it is printed: INT within 32 bits, BIGINT within 64, and DOUBLE beyond. */
  lemma WidthDecides(n: int)
    ensures
      InferKind([JNumber(Decimal.Format(n))]) ==
        if -2_147_483_648 <= n <= 2_147_483_647 then IntType
        else if -9_223_372_036_854_775_808 <= n <= 9_223_372_036_854_775_807 then BigintType
        else DoubleType
  {
    hide Decimal.Format, Decimal.Parse, InferKind;
    Decimal.ParseFormat(n);
    OneValueDecides(JNumber(Decimal.Format(n)));
  }

  lemma OneValueDecides(v: Json)
    requires v != JNull
    ensures InferKind([v]) == ValueType(v)
  {
    hide ValueType;
    assert forall x | x in [v] :: x == v;
  }

  predicate OneType(vs: seq<Json>)
    requires JNull !in vs
  {
    forall x, y | x in vs && y in vs :: ValueType(x) == ValueType(y)
  }

  /** No reordering of the values changes the inferred type. */
  ghost predicate OrderFree(vs: seq<Json>)
    requires JNull !in vs
  {
    forall b: seq<Json> | JNull !in b && multiset(b) == multiset(vs) :: InferKind(b) == InferKind(vs)
  }

  lemma SameMembers(a: seq<Json>, b: seq<Json>)
    requires multiset(a) == multiset(b)
    ensures forall v :: v in a <==> v in b
    ensures |a| == |b|
  {
    assert forall v :: v in a <==> v in multiset(a);
    assert forall v :: v in b <==> v in multiset(b);
    assert |multiset(a)| == |a| && |multiset(b)| == |b|;
  }

  /** The values with a chosen one first. */
  lemma {:induction false} Leading(vs: seq<Json>, v: Json) returns (b: seq<Json>)
    requires v in vs && JNull !in vs
    ensures b != [] && b[0] == v && JNull !in b && multiset(b) == multiset(vs)
  {
    var i :| 0 <= i < |vs| && vs[i] == v;
    b := [v] + (vs[..i] + vs[i + 1..]);
    assert vs == vs[..i] + [v] + vs[i + 1..];
    SameMembers(b, vs);
  }

  /** The inferred type does not depend on the order of rows exactly when the values are integers, or
      all of one type: any other column has two orders of its rows with different types. */
  lemma {:induction false} OrderFreeIff(a: seq<Json>)
    requires JNull !in a
    ensures OrderFree(a) <==> AllIntegers(a) || OneType(a)
  {
    if AllIntegers(a) || OneType(a) {
      forall b: seq<Json> | JNull !in b && multiset(b) == multiset(a) ensures InferKind(b) == InferKind(a) {
        SameMembers(a, b);
        if AllIntegers(a) {
          IntegerKindIgnoresOrder(a, b);
        } else if a != [] {
          assert a[0] in a && b[0] in a;
        }
      }
    } else {
      var z :| z in a && !IsInteger(z);
      var w :| w in a && ValueType(w) != ValueType(z);
      var first := Leading(a, z);
      var other := Leading(a, w);
      assert InferKind(first) != InferKind(other);
    }
  }

  /** One such column. */
  lemma BoolAndStringAreNot()
    ensures !OrderFree([JBool(true), JString("x")])
  {
    var a := [JBool(true), JString("x")];
    assert a[0] in a && a[1] in a && ValueType(a[0]) != ValueType(a[1]) && !IsInteger(a[0]);
    OrderFreeIff(a);
  }

  // ---------------------------------------------------------------------- packing

  /** The value can be stored in a column of the kind without loss. */
  predicate Fits(kind: TypeId, v: Json, fl: Floats)
  {
    v == JNull ||
    match kind
    case BooleanType => v.JBool?
    case IntType => IsInteger(v) && MIN32 <= Int64(v.text).value <= MAX32
    case BigintType => IsInteger(v)
    case DoubleType => v.JNumber? && fl.parse(v.text).Some?
    case _ => true
  }

  /** Any JSON value as the text of a string column. */
  function Stringify(v: Json): string
  {
    match v
    case JString(s) => s
    case JNumber(text) => text
    case JBool(b) => if b then "true" else "false"
    case JOther(raw) => raw
    case JNull => ""
  }

  function BoolOf(v: Json): bool { v.JBool? && v.b }
  function IntOf(v: Json): int { if IsInteger(v) then Int64(v.text).value else 0 }
  function DoubleOf(v: Json, fl: Floats): real
  {
    if v.JNumber? && fl.parse(v.text).Some? then fl.parse(v.text).value else 0.0
  }

  function Length(vs: Values): nat
  {
    match vs
    case BoolValues(xs) => |xs|
    case I32Values(xs) => |xs|
    case I64Values(xs) => |xs|
    case DoubleValues(xs) => |xs|
    case StringValues(xs) => |xs|
  }

  /** Index i of the values holds v; a null leaves the type's zero value. */
  predicate Holds(vs: Values, i: nat, v: Json, fl: Floats)
    requires i < Length(vs)
  {
    match vs
    case BoolValues(xs) => xs[i] == BoolOf(v)
    case I32Values(xs) => xs[i] == IntOf(v)
    case I64Values(xs) => xs[i] == IntOf(v)
    case DoubleValues(xs) => xs[i] == DoubleOf(v, fl)
    case StringValues(xs) => xs[i] == Stringify(v)
  }

  predicate OfKind(vs: Values, kind: TypeId)
  {
    match kind
    case BooleanType => vs.BoolValues?
    case IntType => vs.I32Values?
    case BigintType => vs.I64Values?
    case DoubleType => vs.DoubleValues?
    case _ => vs.StringValues?
  }

  /** The column is the grid's column: every row present, every value where it was, null bits
      exactly at the rows that were null or too short. */
  ghost predicate Packs(c: Column, kind: TypeId, grid: Grid, col: nat, fl: Floats)
  {
    && OfKind(c.values, kind) && Length(c.values) == |grid|
    && (forall i | 0 <= i < |grid| :: Holds(c.values, i, CellAt(grid, i, col), fl))
    && (forall i: nat :: NullAt(c.nulls, i) <==> i < |grid| && CellAt(grid, i, col) == JNull)
  }

  /** The first row whose value does not fit. */
  ghost predicate FirstMisfit(kind: TypeId, grid: Grid, col: nat, fl: Floats, row: nat)
  {
    && row < |grid| && !Fits(kind, CellAt(grid, row, col), fl)
    && forall i | 0 <= i < row :: Fits(kind, CellAt(grid, i, col), fl)
  }

  method PackBools(grid: Grid, col: nat, fl: Floats) returns (bad: Option<nat>, vals: array<bool>, nulls: array<bool>)
    ensures fresh(vals) && fresh(nulls) && vals.Length == nulls.Length == |grid|
    ensures bad.Some? ==> FirstMisfit(BooleanType, grid, col, fl, bad.value)
    ensures bad.None? ==> forall i | 0 <= i < |grid| ::
              && Fits(BooleanType, CellAt(grid, i, col), fl)
              && vals[i] == BoolOf(CellAt(grid, i, col)) && nulls[i] == (CellAt(grid, i, col) == JNull)
  {
    vals, nulls := new bool[|grid|](_ => false), new bool[|grid|](_ => false);
    for i := 0 to |grid|
      invariant forall k | 0 <= k < i ::
          && Fits(BooleanType, CellAt(grid, k, col), fl)
          && vals[k] == BoolOf(CellAt(grid, k, col)) && nulls[k] == (CellAt(grid, k, col) == JNull)
      invariant forall k | i <= k < |grid| :: !nulls[k] && !vals[k]
    {
      if col >= |grid[i]| || grid[i][col] == JNull {
        nulls[i] := true;
        continue;
      }
      if !grid[i][col].JBool? {
        return Some(i), vals, nulls;
      }
      vals[i] := grid[i][col].b;
    }
    bad := None;
  }

  /** Integers of a 32- or 64-bit column; one too wide for a 32-bit column is refused, never cut. */
  method PackInts(kind: TypeId, grid: Grid, col: nat, fl: Floats)
      returns (bad: Option<nat>, vals: array<int>, nulls: array<bool>)
    requires kind in {IntType, BigintType}
    ensures fresh(vals) && fresh(nulls) && vals.Length == nulls.Length == |grid|
    ensures bad.Some? ==> FirstMisfit(kind, grid, col, fl, bad.value)
    ensures bad.None? ==> forall i | 0 <= i < |grid| ::
              && Fits(kind, CellAt(grid, i, col), fl)
              && vals[i] == IntOf(CellAt(grid, i, col)) && nulls[i] == (CellAt(grid, i, col) == JNull)
  {
    vals, nulls := new int[|grid|](_ => 0), new bool[|grid|](_ => false);
    for i := 0 to |grid|
      invariant forall k | 0 <= k < i ::
          && Fits(kind, CellAt(grid, k, col), fl)
          && vals[k] == IntOf(CellAt(grid, k, col)) && nulls[k] == (CellAt(grid, k, col) == JNull)
      invariant forall k | i <= k < |grid| :: !nulls[k] && vals[k] == 0
    {
      if col >= |grid[i]| || grid[i][col] == JNull {
        nulls[i] := true;
        continue;
      }
      if !grid[i][col].JNumber? || Int64(grid[i][col].text).None? {
        return Some(i), vals, nulls;
      }
      var n := Int64(grid[i][col].text).value;
      if kind == IntType && (n > MAX32 || n < MIN32) {
        return Some(i), vals, nulls;
      }
      vals[i] := n;
    }
    bad := None;
  }

  method PackDoubles(grid: Grid, col: nat, fl: Floats) returns (bad: Option<nat>, vals: array<real>, nulls: array<bool>)
    ensures fresh(vals) && fresh(nulls) && vals.Length == nulls.Length == |grid|
    ensures bad.Some? ==> FirstMisfit(DoubleType, grid, col, fl, bad.value)
    ensures bad.None? ==> forall i | 0 <= i < |grid| ::
              && Fits(DoubleType, CellAt(grid, i, col), fl)
              && vals[i] == DoubleOf(CellAt(grid, i, col), fl) && nulls[i] == (CellAt(grid, i, col) == JNull)
  {
    vals, nulls := new real[|grid|](_ => 0.0), new bool[|grid|](_ => false);
    for i := 0 to |grid|
      invariant forall k | 0 <= k < i ::
          && Fits(DoubleType, CellAt(grid, k, col), fl)
          && vals[k] == DoubleOf(CellAt(grid, k, col), fl) && nulls[k] == (CellAt(grid, k, col) == JNull)
      invariant forall k | i <= k < |grid| :: !nulls[k] && vals[k] == 0.0
    {
      if col >= |grid[i]| || grid[i][col] == JNull {
        nulls[i] := true;
        continue;
      }
      if !grid[i][col].JNumber? || fl.parse(grid[i][col].text).None? {
        return Some(i), vals, nulls;
      }
      vals[i] := fl.parse(grid[i][col].text).value;
    }
    bad := None;
  }

  method PackStrings(grid: Grid, col: nat) returns (vals: array<string>, nulls: array<bool>)
    ensures fresh(vals) && fresh(nulls) && vals.Length == nulls.Length == |grid|
    ensures forall i | 0 <= i < |grid| ::
              vals[i] == Stringify(CellAt(grid, i, col)) && nulls[i] == (CellAt(grid, i, col) == JNull)
  {
    vals, nulls := new string[|grid|](_ => ""), new bool[|grid|](_ => false);
    for i := 0 to |grid|
      invariant forall k | 0 <= k < i ::
          vals[k] == Stringify(CellAt(grid, k, col)) && nulls[k] == (CellAt(grid, k, col) == JNull)
      invariant forall k | i <= k < |grid| :: !nulls[k] && vals[k] == ""
    {
      if col >= |grid[i]| || grid[i][col] == JNull {
        nulls[i] := true;
        continue;
      }
      vals[i] := Stringify(grid[i][col]);
    }
  }

  /** Packs one column, or names the first row whose value does not fit. */
  method PackColumn(kind: TypeId, grid: Grid, col: nat, fl: Floats) returns (r: Result<Column>)
    ensures r.Ok? ==> Packs(r.value, kind, grid, col, fl)
    ensures r.Ok? ==> forall i | 0 <= i < |grid| :: Fits(kind, CellAt(grid, i, col), fl)
    ensures r.Err? ==> r.error.BadCell? && r.error.col == col && FirstMisfit(kind, grid, col, fl, r.error.row)
  {
    var bad: Option<nat>, values: Values, flags: seq<bool> := None, BoolValues([]), [];
    match kind {
      case BooleanType =>
        var b, vals, nulls := PackBools(grid, col, fl);
        bad, values, flags := b, BoolValues(vals[..]), nulls[..];
      case IntType =>
        var b, vals, nulls := PackInts(kind, grid, col, fl);
        bad, values, flags := b, I32Values(vals[..]), nulls[..];
      case BigintType =>
        var b, vals, nulls := PackInts(kind, grid, col, fl);
        bad, values, flags := b, I64Values(vals[..]), nulls[..];
      case DoubleType =>
        var b, vals, nulls := PackDoubles(grid, col, fl);
        bad, values, flags := b, DoubleValues(vals[..]), nulls[..];
      case _ =>
        var vals, nulls := PackStrings(grid, col);
        values, flags := StringValues(vals[..]), nulls[..];
    }
    if bad.Some? {
      return Err(BadCell(bad.value, col));
    }
    var bits := PackNulls(flags);
    r := Ok(Column(values, bits));
  }

  // ------------------------------------------------------------------------ tables

  /** A hinted column keeps its hint; the others are inferred. */
  function KindOf(grid: Grid, hinted: seq<TypeId>, j: nat): TypeId
  {
    if j < |hinted| then hinted[j] else InferKind(Present(grid, j))
  }

  ghost predicate ColumnFits(kind: TypeId, grid: Grid, col: nat, fl: Floats)
  {
    forall i | 0 <= i < |grid| :: Fits(kind, CellAt(grid, i, col), fl)
  }

  /** The table is the grid: one column per name, each of its kind, each fitting it and packed. */
  ghost predicate Renders(t: Table, names: seq<string>, hinted: seq<TypeId>, grid: Grid, fl: Floats)
  {
    && t.names == names && |t.types| == |t.cols| == |names|
    && forall j | 0 <= j < |names| ::
         && t.types[j] == KindOf(grid, hinted, j) && ColumnFits(t.types[j], grid, j, fl)
         && Packs(t.cols[j], t.types[j], grid, j, fl)
  }

  method BuildTable(names: seq<string>, hinted: seq<TypeId>, grid: Grid, fl: Floats) returns (r: Result<Table>)
    ensures r.Ok? && names == [] ==> r.value == EMPTY_TABLE
    ensures r.Ok? ==> Renders(r.value, names, hinted, grid, fl)
    ensures r.Err? ==>
      && r.error.BadCell? && r.error.col < |names|
      && FirstMisfit(KindOf(grid, hinted, r.error.col), grid, r.error.col, fl, r.error.row)
      && forall j | 0 <= j < r.error.col :: ColumnFits(KindOf(grid, hinted, j), grid, j, fl)
    ensures r.Ok? <==>
      forall j, i | 0 <= j < |names| && 0 <= i < |grid| :: Fits(KindOf(grid, hinted, j), CellAt(grid, i, j), fl)
  {
    var n := |names|;
    if n == 0 {
      return Ok(EMPTY_TABLE);
    }
    var kinds: seq<TypeId> := [];
    for i := 0 to n
      invariant |kinds| == i && forall j | 0 <= j < i :: kinds[j] == KindOf(grid, hinted, j)
    {
      if i < |hinted| {
        kinds := kinds + [hinted[i]];
        continue;
      }
      var kind := InferType(grid, i);
      kinds := kinds + [kind];
    }
    var cols: seq<Column> := [];
    for j := 0 to n
      invariant |cols| == j && forall k | 0 <= k < j :: Packs(cols[k], kinds[k], grid, k, fl)
      invariant forall k, i | 0 <= k < j && 0 <= i < |grid| :: Fits(KindOf(grid, hinted, k), CellAt(grid, i, k), fl)
    {
      hide Packs, Fits, CellAt, InferKind;
      var packed := PackColumn(kinds[j], grid, j, fl);
      if packed.Err? {
        MisfitHere(kinds[j], grid, j, fl, packed.error.row);
        return Err(packed.error);
      }
      cols := cols + [packed.value];
    }
    r := Ok(Table(names, kinds, cols));
  }

  lemma MisfitHere(kind: TypeId, grid: Grid, col: nat, fl: Floats, row: nat)
    requires FirstMisfit(kind, grid, col, fl, row)
    ensures row < |grid| && !Fits(kind, CellAt(grid, row, col), fl)
  {
  }

  // A row as decoded: an array, an object, or something that is no row at all.
  datatype RawRow = ArrayRow(cells: seq<Json>) | ObjectRow(fields: map<string, Json>) | OtherRow

  function DefaultName(i: nat): string { "_c" + Decimal.Format(i) }

  function ColumnName(spec: seq<string>, i: nat): string
  {
    if i < |spec| && spec[i] != "" then spec[i] else DefaultName(i)
  }

  /** A declared name stands; the other columns are numbered from _c0, and no two of them alike. */
  lemma NamesStand(spec: seq<string>, i: nat, k: nat)
    ensures i < |spec| && spec[i] != "" ==> ColumnName(spec, i) == spec[i]
    ensures i >= |spec| || spec[i] == "" ==> ColumnName(spec, i) == "_c" + Decimal.Format(i)
    ensures (i >= |spec| || spec[i] == "") && (k >= |spec| || spec[k] == "") ==>
      (ColumnName(spec, i) == ColumnName(spec, k) <==> i == k)
  {
    hide Decimal.Format;
    assert ("_c" + Decimal.Format(i))[2..] == Decimal.Format(i) && ("_c" + Decimal.Format(k))[2..] == Decimal.Format(k);
    if Decimal.Format(i) == Decimal.Format(k) {
      Decimal.FormatInjective(i, k);
    }
  }

  /** Array-shaped rows: wide enough for the longest row and for every declared column, so that
      no cell is dropped; a row that is no array is refused. */
  method TableFromArrays(rows: seq<RawRow>, spec: seq<string>, types: seq<TypeId>, fl: Floats)
      returns (r: Result<Table>, ghost grid: Grid)
    ensures r.Ok? ==>
      && |grid| == |rows| && (forall i | 0 <= i < |rows| :: rows[i] == ArrayRow(grid[i]))
      && Renders(r.value, r.value.names, types, grid, fl)
      && |spec| <= |r.value.names| && (forall i | 0 <= i < |rows| :: |grid[i]| <= |r.value.names|)
      && (forall j | 0 <= j < |r.value.names| :: r.value.names[j] == ColumnName(spec, j))
    ensures r.Err? && r.error.BadRow? ==>
      r.error.row < |rows| && !rows[r.error.row].ArrayRow? && forall i | 0 <= i < r.error.row :: rows[i].ArrayRow?
    ensures (exists i | 0 <= i < |rows| :: !rows[i].ArrayRow?) ==> r.Err? && r.error.BadRow?
  {
    hide Packs, Fits, KindOf, CellAt, ColumnName;
    var width: nat := 0;
    var cells: Grid := [];
    grid := [];
    for i := 0 to |rows|
      invariant |cells| == i && forall k | 0 <= k < i :: rows[k] == ArrayRow(cells[k]) && |cells[k]| <= width
    {
      if !rows[i].ArrayRow? {
        return Err(BadRow(i)), [];
      }
      if |rows[i].cells| > width {
        width := |rows[i].cells|;
      }
      cells := cells + [rows[i].cells];
    }
    if |spec| > width {
      width := |spec|;
    }
    var names: seq<string> := [];
    for i := 0 to width
      invariant |names| == i && forall j | 0 <= j < i :: names[j] == ColumnName(spec, j)
    {
      names := names + [ColumnName(spec, i)];
    }
    grid := cells;
    r := BuildTable(names, types, cells, fl);
  }

  /** The number of rows the table reports. */
  function RowCount(t: Table): nat
  {
    if t.cols == [] then 0 else Length(t.cols[0].values)
  }

  /** A cell as text; a null or missing cell is the empty string. */
  function Cell(t: Table, row: nat, col: int, fl: Floats): string
  {
    if col < 0 || col >= |t.cols| || row >= Length(t.cols[col].values) || NullAt(t.cols[col].nulls, row) then ""
    else
      match t.cols[col].values
      case StringValues(xs) => xs[row]
      case BoolValues(xs) => if xs[row] then "true" else "false"
      case I32Values(xs) => Decimal.Format(xs[row])
      case I64Values(xs) => Decimal.Format(xs[row])
      case DoubleValues(xs) => fl.show(xs[row])
  }

  /** Every built table is rectangular, with as many rows as came in when it has a column. */
  lemma Rectangular(t: Table, names: seq<string>, hinted: seq<TypeId>, grid: Grid, fl: Floats)
    requires Renders(t, names, hinted, grid, fl)
    ensures forall j | 0 <= j < |t.cols| :: Length(t.cols[j].values) == |grid|
    ensures RowCount(t) == if names == [] then 0 else |grid|
  {
  }

  /** A cell's null bit is set exactly when its source row was short or held null there. */
  lemma NullExactlyWhereSourceIs(
      t: Table, names: seq<string>, hinted: seq<TypeId>, grid: Grid, fl: Floats, i: nat, j: nat)
    requires Renders(t, names, hinted, grid, fl) && j < |names|
    ensures NullAt(t.cols[j].nulls, i) <==> i < |grid| && (j >= |grid[i]| || grid[i][j] == JNull)
  {
  }

  /** What a client reads in a cell is the value the source row has there: text as it is, true and false as
      words, null as nothing, a number as its column prints it. */
  lemma {:induction false} CellReadsBack(
      t: Table, names: seq<string>, hinted: seq<TypeId>, grid: Grid, fl: Floats, i: nat, j: nat)
    requires Renders(t, names, hinted, grid, fl) && j < |names| && i < |grid|
    ensures j >= |grid[i]| || grid[i][j] == JNull ==> Cell(t, i, j, fl) == ""
    ensures j < |grid[i]| ==>
      match grid[i][j]
      case JNull => true
      case JBool(b) => Cell(t, i, j, fl) == if b then "true" else "false"
      case JString(s) => Cell(t, i, j, fl) == s
      case JOther(raw) => Cell(t, i, j, fl) == raw
      case JNumber(text) =>
        && (t.types[j] in {IntType, BigintType} ==>
              Decimal.Parse(text).Some? && Cell(t, i, j, fl) == Decimal.Format(Decimal.Parse(text).value))
        && (t.types[j] == DoubleType ==>
              fl.parse(text).Some? && Cell(t, i, j, fl) == fl.show(fl.parse(text).value))
        && (t.types[j] !in {IntType, BigintType, DoubleType} ==> Cell(t, i, j, fl) == text)
  {
    hide Decimal.Format, Decimal.Parse, InferKind, NullAt;
    assert Packs(t.cols[j], t.types[j], grid, j, fl) && ColumnFits(t.types[j], grid, j, fl);
    assert Holds(t.cols[j].values, i, CellAt(grid, i, j), fl);
    assert Fits(t.types[j], CellAt(grid, i, j), fl);
  }

  /** A column keeps the type the engine declared for it, and no other has one declared. */
  lemma HintsStand(t: Table, names: seq<string>, hinted: seq<TypeId>, grid: Grid, fl: Floats, j: nat)
    requires Renders(t, names, hinted, grid, fl) && j < |names|
    ensures j < |hinted| ==> t.types[j] == hinted[j]
    ensures j >= |hinted| ==> t.types[j] == InferKind(Present(grid, j))
    ensures t.types[j] == BooleanType <==> t.cols[j].values.BoolValues?
    ensures t.types[j] == IntType <==> t.cols[j].values.I32Values?
    ensures t.types[j] == BigintType <==> t.cols[j].values.I64Values?
    ensures t.types[j] == DoubleType <==> t.cols[j].values.DoubleValues?
  {
    hide Decimal.Format, Decimal.Parse, InferKind, Present, NullAt;
    assert Packs(t.cols[j], t.types[j], grid, j, fl);
  }

  lemma {:induction false} PresentHas(grid: Grid, col: nat, i: nat)
    requires i < |grid| && CellAt(grid, i, col) != JNull
    ensures CellAt(grid, i, col) in Present(grid, col)
  {
    var last := |grid| - 1;
    if i < last {
      assert CellAt(grid[..last], i, col) == CellAt(grid, i, col);
      PresentHas(grid[..last], col, i);
    }
  }

  /** An un-hinted column of integers always builds, and every one of its cells shows its source
      number unchanged: for a column inferred INT the very text the engine sent. */
  lemma {:induction false} IntegersAreExact(
      t: Table, names: seq<string>, hinted: seq<TypeId>, grid: Grid, fl: Floats, i: nat, j: nat)
    requires Renders(t, names, hinted, grid, fl) && |hinted| <= j < |names| && i < |grid|
    requires AllIntegers(Present(grid, j)) && CellAt(grid, i, j) != JNull
    ensures Fits(KindOf(grid, hinted, j), CellAt(grid, i, j), fl)
    ensures CellAt(grid, i, j).JNumber? && Decimal.Parse(Cell(t, i, j, fl)) == Decimal.Parse(CellAt(grid, i, j).text)
    ensures t.types[j] == IntType ==> Cell(t, i, j, fl) == CellAt(grid, i, j).text
  {
    var v := CellAt(grid, i, j);
    PresentHas(grid, j, i);
    IntegerKind(Present(grid, j));
    assert IsInteger(v);
    Decimal.ParseFormat(Int64(v.text).value);
    assert Packs(t.cols[j], t.types[j], grid, j, fl);
    assert Holds(t.cols[j].values, i, v, fl);
  }

  /** Nor does one of booleans alone, or one of text, nor, if they parse, one of fractions: and a STRING column
      takes anything. */
  lemma {:induction false} OneTypeFits(grid: Grid, hinted: seq<TypeId>, fl: Floats, i: nat, j: nat)
    requires i < |grid|
    ensures KindOf(grid, hinted, j) == StringType ==> Fits(KindOf(grid, hinted, j), CellAt(grid, i, j), fl)
    ensures CellAt(grid, i, j) == JNull ==> Fits(KindOf(grid, hinted, j), CellAt(grid, i, j), fl)
    ensures |hinted| <= j && (forall v | v in Present(grid, j) :: v.JBool?) ==>
      Fits(KindOf(grid, hinted, j), CellAt(grid, i, j), fl)
    ensures |hinted| <= j && (forall v | v in Present(grid, j) ::
                                v.JNumber? && !IsInteger(v) && fl.parse(v.text).Some?) ==>
      Fits(KindOf(grid, hinted, j), CellAt(grid, i, j), fl)
    ensures KindOf(grid, hinted, j) == BooleanType && Fits(BooleanType, CellAt(grid, i, j), fl) ==>
      CellAt(grid, i, j).JBool? || CellAt(grid, i, j) == JNull
  {
    hide Decimal.Parse, Decimal.Format;
    if CellAt(grid, i, j) != JNull {
      PresentHas(grid, j, i);
      assert Present(grid, j)[0] in Present(grid, j);
    }
    FirstValueDecides(Present(grid, j));
  }

  /** A null leaves nothing behind in the values. */
  lemma NullsAreZero(c: Column, kind: TypeId, grid: Grid, col: nat, fl: Floats, i: nat)
    requires Packs(c, kind, grid, col, fl) && i < |grid| && CellAt(grid, i, col) == JNull
    ensures
      match c.values
      case BoolValues(xs) => i < |xs| && !xs[i]
      case I32Values(xs) => i < |xs| && xs[i] == 0
      case I64Values(xs) => i < |xs| && xs[i] == 0
      case DoubleValues(xs) => i < |xs| && xs[i] == 0.0
      case StringValues(xs) => i < |xs| && xs[i] == ""
  {
    hide Decimal.Parse, NullAt;
    assert Holds(c.values, i, JNull, fl);
  }

  /** An un-hinted column of integers never makes a table fail. */
  lemma {:induction false} IntegersAlwaysFit(grid: Grid, hinted: seq<TypeId>, fl: Floats, i: nat, j: nat)
    requires |hinted| <= j && i < |grid| && AllIntegers(Present(grid, j))
    ensures Fits(KindOf(grid, hinted, j), CellAt(grid, i, j), fl)
  {
    if CellAt(grid, i, j) != JNull {
      PresentHas(grid, j, i);
      IntegerKind(Present(grid, j));
    }
  }

  /** A column the engine declared INT comes out exact or not at all: a value that does not fit
      32 bits fails the build instead of being truncated. */
  lemma {:induction false} DeclaredIntIsExactOrRefused(
      t: Table, names: seq<string>, hinted: seq<TypeId>, grid: Grid, fl: Floats, i: nat, j: nat)
    requires Renders(t, names, hinted, grid, fl) && j < |names| && j < |hinted| && hinted[j] == IntType && i < |grid|
    ensures CellAt(grid, i, j) == JNull ==> NullAt(t.cols[j].nulls, i)
    ensures CellAt(grid, i, j) != JNull ==>
      && IsInteger(CellAt(grid, i, j)) && MIN32 <= IntOf(CellAt(grid, i, j)) <= MAX32
      && Cell(t, i, j, fl) == Decimal.Format(IntOf(CellAt(grid, i, j)))
  {
    assert Packs(t.cols[j], t.types[j], grid, j, fl) && ColumnFits(t.types[j], grid, j, fl);
    assert Holds(t.cols[j].values, i, CellAt(grid, i, j), fl);
  }

  /** The columns of object-shaped rows: the order the engine wrote, when it is known and names
      the first row's keys, otherwise the keys in sorted order. */
  function ObjectColumns(first: map<string, Json>, order: seq<string>, sorted: seq<string>): seq<string>
  {
    if |order| == |first| && (forall k | k in order :: k in first) && order != [] then order else sorted
  }

  predicate NamesOnce(order: seq<string>, keys: set<string>)
  {
    (set k | k in order) == keys && forall i, j | 0 <= i < j < |order| :: order[i] != order[j]
  }

  /** Columns keep the order the engine wrote them in whenever it names each key of the first row once. */
  lemma {:induction false} WrittenOrderStands(first: map<string, Json>, order: seq<string>, sorted: seq<string>)
    ensures first != map[] && NamesOnce(order, first.Keys) ==>
      ObjectColumns(first, order, sorted) == order
    ensures order == [] || |order| != |first| || (exists k :: k in order && k !in first) ==>
      ObjectColumns(first, order, sorted) == sorted
  {
    if first != map[] && NamesOnce(order, first.Keys) {
      CountDistinct(order);
      var k :| k in first;
      assert k in (set l | l in order);
      forall l | l in order ensures l in first {
        assert l in (set m | m in order);
      }
      assert |first| == |first.Keys|;
    }
  }

  lemma {:induction false} CountDistinct(order: seq<string>)
    requires forall i, j | 0 <= i < j < |order| :: order[i] != order[j]
    ensures |set k | k in order| == |order|
  {
    if order == [] {
      assert (set k | k in order) == {};
    } else {
      var n := |order| - 1;
      CountDistinct(order[..n]);
      assert (set k | k in order) == (set k | k in order[..n]) + {order[n]};
      assert order[n] !in order[..n];
    }
  }

  function FieldOf(row: RawRow, name: string): Json
    requires row.ObjectRow?
  {
    if name in row.fields then row.fields[name] else JNull
  }

  /** Object-shaped rows: every row is read by the first row's columns, an absent field as null;
      a row that is no object is refused. */
  method TableFromObjects(
      rows: seq<RawRow>, first: map<string, Json>, order: seq<string>, sorted: seq<string>, fl: Floats)
      returns (r: Result<Table>, ghost grid: Grid)
    ensures r.Ok? ==>
      && Renders(r.value, ObjectColumns(first, order, sorted), [], grid, fl) && |grid| == |rows|
      && forall i, j | 0 <= i < |rows| && 0 <= j < |r.value.names| ::
           && rows[i].ObjectRow?
           && CellAt(grid, i, j) ==
                if r.value.names[j] in rows[i].fields then rows[i].fields[r.value.names[j]] else JNull
    ensures (exists i | 0 <= i < |rows| :: !rows[i].ObjectRow?) <==> r.Err? && r.error.BadRow?
  {
    var names := ObjectColumns(first, order, sorted);
    var cells: Grid := [];
    grid := [];
    for i := 0 to |rows|
      invariant |cells| == i && forall k | 0 <= k < i :: rows[k].ObjectRow? && |cells[k]| == |names|
      invariant forall k, j | 0 <= k < i && 0 <= j < |names| :: cells[k][j] == FieldOf(rows[k], names[j])
    {
      if !rows[i].ObjectRow? {
        return Err(BadRow(i)), [];
      }
      var row: Row := [];
      for j := 0 to |names|
        invariant |row| == j && forall k | 0 <= k < j :: row[k] == FieldOf(rows[i], names[k])
      {
        row := row + [FieldOf(rows[i], names[j])];
      }
      cells := cells + [row];
    }
    grid := cells;
    r := BuildTable(names, [], cells, fl);
  }
}
