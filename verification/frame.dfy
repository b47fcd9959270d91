/**
 * The table operations `ids` and `to_json` perform on the flattened records: building a
 * DataFrame (one column per key any record has), the distance mask, and the two outputs.
 */
module Frame {
  import opened Json
  import opened Errors

  /** The keyword arguments `distance` (km) and `tol`; `None` means the keyword was not passed. */
  datatype FilterArgs = FilterArgs(distance: Option<real>, tol: Option<real>)

  const DefaultTol: real := 0.1

  function Tol(args: FilterArgs): real {
    match args.tol
    case Some(t) => t
    case None => DefaultTol
  }

  /** `if kwargs.get('distance', None):` -- an absent distance and a distance of 0 both switch the filter off. */
  predicate DistanceGiven(args: FilterArgs) {
    args.distance.Some? && args.distance.value != 0.0
  }

  /** The lower bound in meters, `(1.0 - tol) * distance * 1000`. */
  function Threshold(km: real, tol: real): real {
    (1.0 - tol) * km * 1000.0
  }

  /**
   * One row of the mask `df['distance'] > threshold` (written twice, joined with `&`).
   * A row without a numeric distance is not kept.
   */
  predicate Passes(r: Record, threshold: real) {
    "distance" in r && r["distance"].Num? && r["distance"].n > threshold
  }

  /** The DataFrame's columns: every key that at least one record has. */
  function Columns(rs: seq<Record>): (cols: set<string>)
    ensures forall k :: k in cols <==> exists i :: 0 <= i < |rs| && k in rs[i]
    decreases |rs|
  {
    if rs == [] then {}
    else
      assert forall i :: 0 <= i < |rs| - 1 ==> rs[1..][i] == rs[i + 1];
      rs[0].Keys + Columns(rs[1..])
  }

  /** A cell of the DataFrame: the record's value, or the missing-value placeholder. */
  function Cell(r: Record, col: string): Value {
    if col in r then r[col] else Null
  }

  /** Boolean indexing `df[mask]`: the passing rows, in their original order. */
  function Filter(rs: seq<Record>, threshold: real): (kept: seq<Record>)
    ensures |kept| <= |rs|
    ensures forall r :: r in kept <==> r in rs && Passes(r, threshold)
    decreases |rs|
  {
    if rs == [] then []
    else (if Passes(rs[0], threshold) then [rs[0]] else []) + Filter(rs[1..], threshold)
  }

  /** A column as a list, `df[col].tolist()`. */
  function Column(rs: seq<Record>, col: string): (vs: seq<Value>)
    ensures |vs| == |rs|
    ensures forall i :: 0 <= i < |rs| ==> vs[i] == Cell(rs[i], col)
    decreases |rs|
  {
    if rs == [] then [] else [Cell(rs[0], col)] + Column(rs[1..], col)
  }

  /** A row as `to_json(orient='records')` writes it: every column, missing cells as `null`. */
  function Row(r: Record, cols: set<string>): Record {
    map k | k in cols :: Cell(r, k)
  }

  function Rows(rs: seq<Record>, cols: set<string>): (out: seq<Record>)
    ensures |out| == |rs|
    ensures forall i :: 0 <= i < |rs| ==> out[i] == Row(rs[i], cols)
    decreases |rs|
  {
    if rs == [] then [] else [Row(rs[0], cols)] + Rows(rs[1..], cols)
  }

  /**
   * The rows both `ids` and `to_json` keep: all of them when no distance is given, else the
   * rows past the lower bound; indexing the missing `distance` column raises KeyError.
   */
  function Select(rs: seq<Record>, args: FilterArgs): Result<seq<Record>> {
    if !DistanceGiven(args) then Ok(rs)
    else if "distance" !in Columns(rs) then Err(KeyError("distance"))
    else Ok(Filter(rs, Threshold(args.distance.value, Tol(args))))
  }

  /** `ids(**kwargs)` after flattening: the `id` column of the selected rows. */
  function SelectIds(rs: seq<Record>, args: FilterArgs): Result<seq<Value>> {
    match Select(rs, args)
    case Err(e) => Err(e)
    case Ok(kept) => if "id" !in Columns(rs) then Err(KeyError("id")) else Ok(Column(kept, "id"))
  }

  /** `to_json(**kwargs)` without a path, after flattening: the selected rows as JSON records. */
  function SelectRecords(rs: seq<Record>, args: FilterArgs): Result<seq<Record>> {
    match Select(rs, args)
    case Err(e) => Err(e)
    case Ok(kept) => Ok(Rows(kept, Columns(rs)))
  }

  /** The mask distributes over concatenation: filtering keeps the rows' relative order. */
  lemma {:induction false} FilterAppend(a: seq<Record>, b: seq<Record>, threshold: real)
    ensures Filter(a + b, threshold) == Filter(a, threshold) + Filter(b, threshold)
    decreases |a|
  {
    if a != [] {
      assert (a + b)[0] == a[0];
      assert (a + b)[1..] == a[1..] + b;
      FilterAppend(a[1..], b, threshold);
      var head := if Passes(a[0], threshold) then [a[0]] else [];
      calc {
        Filter(a + b, threshold);
        head + Filter(a[1..] + b, threshold);
        head + (Filter(a[1..], threshold) + Filter(b, threshold));
        (head + Filter(a[1..], threshold)) + Filter(b, threshold);
      }
    } else {
      assert a + b == b;
    }
  }

  /** When every row passes, the mask keeps the whole table unchanged. */
  lemma {:induction false} FilterAllPass(rs: seq<Record>, threshold: real)
    requires forall i :: 0 <= i < |rs| ==> Passes(rs[i], threshold)
    ensures Filter(rs, threshold) == rs
    decreases |rs|
  {
    if rs != [] {
      FilterAllPass(rs[1..], threshold);
    }
  }

  /**
   * Without a (truthy) distance `ids` returns the `id` of every record in order, whatever `tol` is;
   * it raises KeyError when no record has an `id`, including when there are no records at all.
   */
  lemma IdsWithoutDistance(rs: seq<Record>, args: FilterArgs)
    requires !DistanceGiven(args)
    ensures "id" in Columns(rs) ==> SelectIds(rs, args) == Ok(Column(rs, "id"))
    ensures "id" !in Columns(rs) ==> SelectIds(rs, args) == Err(KeyError("id"))
    ensures SelectRecords(rs, args) == Ok(Rows(rs, Columns(rs)))
  {
  }

  /**
   * With a truthy distance the rows kept are exactly those whose `distance` is strictly above
   * `(1 - tol) * distance * 1000`, with `tol` 0.1 unless given; there is no upper bound.
   */
  lemma SelectWithDistance(rs: seq<Record>, args: FilterArgs)
    requires DistanceGiven(args) && "distance" in Columns(rs)
    ensures Select(rs, args).Ok?
    ensures forall r: Record :: r in Select(rs, args).value <==>
      r in rs && "distance" in r && r["distance"].Num? &&
      r["distance"].n > (1.0 - Tol(args)) * args.distance.value * 1000.0
    ensures args.tol.None? ==> Tol(args) == 0.1
  {
  }

  /** A record exactly at the bound is excluded: the comparison is strict. */
  lemma BoundaryExcluded(km: real, tol: real)
    ensures !Passes(map["distance" := Num(Threshold(km, tol))], Threshold(km, tol))
  {
  }

  /**
   * The `id` list of `ids` is the `id` column of what `to_json` returns for the same
   * arguments; and whenever `to_json` succeeds on records that have an `id` column, so does `ids`.
   */
  lemma IdsAgreeWithRecords(rs: seq<Record>, args: FilterArgs)
    ensures SelectIds(rs, args).Ok? ==>
      SelectRecords(rs, args).Ok? && SelectIds(rs, args).value == Column(SelectRecords(rs, args).value, "id")
    ensures SelectRecords(rs, args).Ok? && "id" in Columns(rs) ==> SelectIds(rs, args).Ok?
  {
    if SelectIds(rs, args).Ok? {
      var kept := Select(rs, args).value;
      var cols := Columns(rs);
      var ids, rows := SelectIds(rs, args).value, SelectRecords(rs, args).value;
      assert ids == Column(kept, "id");
      assert rows == Rows(kept, cols);
      forall i | 0 <= i < |kept|
        ensures ids[i] == Column(rows, "id")[i]
      {
        assert Cell(Row(kept[i], cols), "id") == Cell(kept[i], "id");
      }
    }
  }

  /** On a table with no rows, `to_json` returns an empty list while `ids` raises KeyError. */
  lemma EmptyTable(args: FilterArgs)
    requires !DistanceGiven(args)
    ensures SelectRecords([], args) == Ok([])
    ensures SelectIds([], args) == Err(KeyError("id"))
  {
  }

  /** For a positive distance, a larger tolerance lowers the bound and so keeps every row a smaller one keeps. */
  lemma WiderToleranceKeepsMore(rs: seq<Record>, km: real, tol1: real, tol2: real)
    requires km > 0.0 && tol1 <= tol2
    ensures forall r :: r in Filter(rs, Threshold(km, tol1)) ==> r in Filter(rs, Threshold(km, tol2))
  {
    assert Threshold(km, tol1) - Threshold(km, tol2) == (tol2 - tol1) * km * 1000.0;
    assert (tol2 - tol1) * km >= 0.0;
  }

  /**
   * The documented "tolerance +/-" band: strictly between `(1 - tol)` and `(1 + tol)` times
   * the distance in meters. The mask as written applies only the lower bound.
   */
  predicate PassesBand(r: Record, km: real, tol: real) {
    "distance" in r && r["distance"].Num? &&
    Threshold(km, tol) < r["distance"].n < (1.0 + tol) * km * 1000.0
  }

  /**
   * The band filter keeps a subset of what the mask as written keeps: every row in the band passes
   * the mask, and for a positive distance and tolerance the record at the band's upper edge
   * passes the mask but is outside the band.
   */
  lemma BandNarrowerThanMask(r: Record, km: real, tol: real)
    ensures PassesBand(r, km, tol) ==> Passes(r, Threshold(km, tol))
    ensures km > 0.0 && tol > 0.0 ==>
      var edge := map["distance" := Num((1.0 + tol) * km * 1000.0)];
      Passes(edge, Threshold(km, tol)) && !PassesBand(edge, km, tol)
  {
    if km > 0.0 && tol > 0.0 {
      assert (1.0 + tol) * km * 1000.0 - Threshold(km, tol) == 2.0 * tol * km * 1000.0;
      assert tol * km > 0.0;
    }
  }
}
