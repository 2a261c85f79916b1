/** How `search_table` picks the columns it searches and binds its parameters. */
module Search {
  import opened Wrappers
  import opened Text
  import opened Values
  import opened Statements

  const SearchableMarkers: seq<string> :=
    ["char", "varchar", "text", "tinytext", "mediumtext", "longtext", "enum", "set"]

  /** A column of the catalog: its name and its declared data type. */
  datatype CatalogColumn = CatalogColumn(name: string, dataType: string)

  /** The marker loop: true as soon as one of `markers` occurs in `lowered`. */
  function AnyMarkerIn(lowered: string, markers: seq<string>): bool {
    if |markers| == 0 then false
    else if Contains(lowered, markers[0]) then true
    else AnyMarkerIn(lowered, markers[1..])
  }

  /** `isSearchableType`: the lower-cased type contains a text-like marker. */
  predicate IsSearchableType(dataType: string) {
    AnyMarkerIn(ToLower(dataType), SearchableMarkers)
  }

  lemma {:induction false} AnyMarkerInMeaning(lowered: string, markers: seq<string>)
    ensures AnyMarkerIn(lowered, markers) <==> exists k :: 0 <= k < |markers| && Contains(lowered, markers[k])
  {
    if |markers| > 0 {
      AnyMarkerInMeaning(lowered, markers[1..]);
      if exists k :: 0 <= k < |markers| && Contains(lowered, markers[k]) {
        var k :| 0 <= k < |markers| && Contains(lowered, markers[k]);
        if k > 0 {
          assert markers[1..][k - 1] == markers[k];
        }
      }
    }
  }

  /** A type is searchable exactly when one of the eight markers occurs in it, in
      any ASCII casing. */
  lemma SearchableMeansMarker(dataType: string)
    ensures IsSearchableType(dataType) <==>
              exists k :: 0 <= k < |SearchableMarkers| && Contains(ToLower(dataType), SearchableMarkers[k])
  {
    AnyMarkerInMeaning(ToLower(dataType), SearchableMarkers);
  }

  lemma ContainsTransitive(s: string, middle: string, small: string)
    requires Contains(s, middle) && Contains(middle, small)
    ensures Contains(s, small)
  {
    var i :| 0 <= i <= |s| - |middle| && OccursAt(s, middle, i);
    var j :| 0 <= j <= |middle| - |small| && OccursAt(middle, small, j);
    forall t | 0 <= t < |small|
      ensures s[i + j + t] == small[t]
    {
      assert s[i + j + t] == s[i..i + |middle|][j + t];
      assert middle[j + t] == middle[j..j + |small|][t];
    }
    assert s[i + j..i + j + |small|] == small;
    assert OccursAt(s, small, i + j);
  }

  /** Four of the eight markers contain others ("varchar" holds "char"; the three
      longer text types hold "text"), so four markers decide the answer. */
  lemma FourMarkersDecide(dataType: string)
    ensures var t := ToLower(dataType);
            IsSearchableType(dataType) <==>
              Contains(t, "char") || Contains(t, "text") || Contains(t, "enum") || Contains(t, "set")
  {
    var t := ToLower(dataType);
    SearchableMeansMarker(dataType);
    assert OccursAt("varchar", "char", 3);
    assert OccursAt("tinytext", "text", 4);
    assert OccursAt("mediumtext", "text", 6);
    assert OccursAt("longtext", "text", 4);
    if Contains(t, "varchar") { ContainsTransitive(t, "varchar", "char"); }
    if Contains(t, "tinytext") { ContainsTransitive(t, "tinytext", "text"); }
    if Contains(t, "mediumtext") { ContainsTransitive(t, "mediumtext", "text"); }
    if Contains(t, "longtext") { ContainsTransitive(t, "longtext", "text"); }
    if Contains(t, "char") { assert SearchableMarkers[0] == "char"; }
    if Contains(t, "text") { assert SearchableMarkers[2] == "text"; }
    if Contains(t, "enum") { assert SearchableMarkers[6] == "enum"; }
    if Contains(t, "set") { assert SearchableMarkers[7] == "set"; }
  }

  /** The classification gives the same answer for every ASCII casing of the type. */
  lemma SearchableIgnoresCase(dataType: string)
    ensures IsSearchableType(ToUpper(dataType)) == IsSearchableType(dataType)
  {
    CaseFoldings(dataType);
  }

  /** The `LIKE` clauses the catalog loop collects, in ordinal order. */
  function SearchableClauses(columns: seq<CatalogColumn>): seq<string> {
    if |columns| == 0 then []
    else
      var last := columns[|columns| - 1];
      SearchableClauses(columns[..|columns| - 1])
      + (if IsSearchableType(last.dataType) then [LikeClause(last.name)] else [])
  }

  /** Positions of the searchable columns, in increasing order. */
  function SearchablePositions(columns: seq<CatalogColumn>): seq<nat> {
    if |columns| == 0 then []
    else
      var n := |columns| - 1;
      SearchablePositions(columns[..n]) + (if IsSearchableType(columns[n].dataType) then [n] else [])
  }

  /** The searchable positions rise strictly and hold exactly the columns whose
      type is searchable. */
  lemma {:induction false} SearchablePositionsAreExact(columns: seq<CatalogColumn>)
    ensures var pos := SearchablePositions(columns);
            && (forall k :: 0 <= k < |pos| ==> pos[k] < |columns|)
            && (forall k, l :: 0 <= k < l < |pos| ==> pos[k] < pos[l])
            && (forall i :: 0 <= i < |columns| ==> (i in pos <==> IsSearchableType(columns[i].dataType)))
  {
    if |columns| > 0 {
      var n := |columns| - 1;
      var prefix := columns[..n];
      SearchablePositionsAreExact(prefix);
      assert forall i :: 0 <= i < n ==> prefix[i] == columns[i];
    }
  }

  /** The clause list is the searchable subset of the columns, in ordinal order: the
      k-th clause is the LIKE clause of the column at the k-th searchable position. */
  lemma {:induction false} SearchableClausesFollowPositions(columns: seq<CatalogColumn>)
    ensures var pos, clauses := SearchablePositions(columns), SearchableClauses(columns);
            && |clauses| == |pos|
            && (forall k :: 0 <= k < |pos| ==> pos[k] < |columns| && clauses[k] == LikeClause(columns[pos[k]].name))
  {
    if |columns| > 0 {
      var n := |columns| - 1;
      var prefix := columns[..n];
      SearchableClausesFollowPositions(prefix);
      SearchablePositionsAreExact(prefix);
      var pos, clauses := SearchablePositions(prefix), SearchableClauses(prefix);
      forall k | 0 <= k < |pos|
        ensures columns[pos[k]] == prefix[pos[k]]
      {
      }
    }
  }

  /** No clause is built exactly when no column has a searchable type. */
  lemma NoClausesIffNothingSearchable(columns: seq<CatalogColumn>)
    ensures SearchableClauses(columns) == [] <==>
              forall i :: 0 <= i < |columns| ==> !IsSearchableType(columns[i].dataType)
  {
    SearchablePositionsAreExact(columns);
    SearchableClausesFollowPositions(columns);
    var pos := SearchablePositions(columns);
    if pos != [] {
      assert pos[0] in pos;
    }
  }

  /** The column names in catalog order. */
  function Names(columns: seq<CatalogColumn>): (names: seq<string>)
    ensures |names| == |columns|
    ensures forall i :: 0 <= i < |columns| ==> names[i] == columns[i].name
  {
    seq(|columns|, i requires 0 <= i < |columns| => columns[i].name)
  }

  /** The catalog loop of `search_table`: every column name, and the LIKE clause of
      each searchable one; the first row `Scan` rejects ends the loop with its error. */
  method CollectColumns(rows: Rows<CatalogColumn>) returns (r: Result<(seq<string>, seq<string>), string>)
    ensures r.Success? <==> forall k :: 0 <= k < |rows| ==> rows[k].Success?
    ensures r.Success? ==>
              var columns := seq(|rows|, k requires 0 <= k < |rows| && rows[k].Success? => rows[k].value);
              r.value == (Names(columns), SearchableClauses(columns))
    ensures r.Failure? ==>
              exists k :: 0 <= k < |rows| && rows[k] == Failure(r.error) &&
                          forall j :: 0 <= j < k ==> rows[j].Success?
  {
    var names: seq<string> := [];
    var clauses: seq<string> := [];
    ghost var seen: seq<CatalogColumn> := [];
    var k := 0;
    while k < |rows|
      invariant 0 <= k <= |rows|
      invariant forall j :: 0 <= j < k ==> rows[j].Success?
      invariant |seen| == k && forall j :: 0 <= j < k ==> seen[j] == rows[j].value
      invariant names == Names(seen) && clauses == SearchableClauses(seen)
    {
      match rows[k]
      case Failure(e) =>
        return Failure(e);
      case Success(column) =>
        names := names + [column.name];
        if IsSearchableType(column.dataType) {
          clauses := clauses + [LikeClause(column.name)];
        }
        assert (seen + [column])[..k] == seen;
        seen := seen + [column];
      k := k + 1;
    }
    assert seen == seq(|rows|, k requires 0 <= k < |rows| && rows[k].Success? => rows[k].value);
    return Success((names, clauses));
  }

  /** The parameter slice of `search_table`: the same pattern once per clause. */
  method BindPatterns(count: nat, pattern: string) returns (params: seq<Param>)
    ensures |params| == count
    ensures forall i :: 0 <= i < count ==> params[i] == PStr(pattern)
  {
    var slots := new Param[count](_ => PStr(""));
    for i := 0 to count
      invariant forall j :: 0 <= j < i ==> slots[j] == PStr(pattern)
    {
      slots[i] := PStr(pattern);
    }
    params := slots[..];
  }
}
