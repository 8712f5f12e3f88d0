/** A `<tbody>` as the citizen, history and supplies pages manipulate it: rows of cell texts,
    each with its `style.display`, filtered by a search box and reordered by a sort menu. */
module Table {
  import opened Common
  import opened Sorting

  /** One `<tr>`: the text of its cells and its `style.display` ("" shown, "none" hidden). */
  datatype Row = Row(cells: seq<string>, display: string)

  /** A row holding a single message cell (the `colspan` placeholder rows). */
  function Placeholder(text: string): Row
  {
    Row([text], "")
  }

  /** `cells.some(cell => cell.toLowerCase().includes(needle))`. */
  predicate AnyCellIncludes(cells: seq<string>, needle: string)
    decreases |cells|
  {
    cells != [] && (Includes(Lower(cells[0]), needle) || AnyCellIncludes(cells[1..], needle))
  }

  lemma {:induction false} AnyCellIncludesAt(cells: seq<string>, needle: string)
    ensures AnyCellIncludes(cells, needle) <==> exists c :: 0 <= c < |cells| && Includes(Lower(cells[c]), needle)
    decreases |cells|
  {
    if cells != [] {
      AnyCellIncludesAt(cells[1..], needle);
      if exists c :: 0 <= c < |cells| && Includes(Lower(cells[c]), needle) {
        var c :| 0 <= c < |cells| && Includes(Lower(cells[c]), needle);
        if c > 0 {
          assert cells[1..][c - 1] == cells[c];
        }
      }
    }
  }

  /** The display a search for `input` gives a row. */
  function SearchDisplay(row: Row, input: string): string
  {
    if AnyCellIncludes(row.cells, Lower(input)) then "" else "none"
  }

  /** The rows after searchTable: same rows, same cells, each display recomputed. */
  function Searched(rows: seq<Row>, input: string): (r: seq<Row>)
    ensures |r| == |rows|
    ensures forall i :: 0 <= i < |rows| ==> r[i] == rows[i].(display := SearchDisplay(rows[i], input))
  {
    seq(|rows|, i requires 0 <= i < |rows| => rows[i].(display := SearchDisplay(rows[i], input)))
  }

  /** A search shows a row exactly when one of its cells contains the lower-cased input. */
  lemma SearchShowsExactMatches(rows: seq<Row>, input: string, i: int)
    requires 0 <= i < |rows|
    ensures Searched(rows, input)[i].display == ""
        <==> exists c :: 0 <= c < |rows[i].cells| && Includes(Lower(rows[i].cells[c]), Lower(input))
    ensures Searched(rows, input)[i].display != "" ==> Searched(rows, input)[i].display == "none"
  {
    AnyCellIncludesAt(rows[i].cells, Lower(input));
  }

  /** An empty search box shows every row that has at least one cell. */
  lemma EmptySearchShowsAll(rows: seq<Row>, i: int)
    requires 0 <= i < |rows| && |rows[i].cells| > 0
    ensures Searched(rows, "")[i].display == ""
  {
    assert Lower("") == "";
    assert "" <= Lower(rows[i].cells[0]);
  }

  /** Searching ignores case: a cell containing the input in any letter case shows its row. */
  lemma SearchIgnoresCase(rows: seq<Row>, input: string, i: int, c: int)
    requires 0 <= i < |rows| && 0 <= c < |rows[i].cells|
    requires Includes(rows[i].cells[c], input)
    ensures Searched(rows, input)[i].display == ""
  {
    IncludesLower(rows[i].cells[c], input);
    AnyCellIncludesAt(rows[i].cells, Lower(input));
  }

  /** The row list with its first occurrence of `r` taken out. */
  function RemoveFirst(s: seq<Row>, r: Row): seq<Row>
    decreases |s|
  {
    if s == [] then [] else if s[0] == r then s[1..] else [s[0]] + RemoveFirst(s[1..], r)
  }

  lemma {:induction false} RemoveFirstMultiset(s: seq<Row>, r: Row)
    requires r in s
    ensures multiset(RemoveFirst(s, r)) == multiset(s) - multiset{r}
    decreases |s|
  {
    if s[0] != r {
      RemoveFirstMultiset(s[1..], r);
      assert s == [s[0]] + s[1..];
    } else {
      assert s == [s[0]] + s[1..];
    }
  }

  lemma {:induction false} RemoveFirstPrefix(a: seq<Row>, b: seq<Row>, r: Row)
    requires r in a
    ensures RemoveFirst(a + b, r) == RemoveFirst(a, r) + b
    decreases |a|
  {
    if a[0] != r {
      RemoveFirstPrefix(a[1..], b, r);
      assert (a + b)[1..] == a[1..] + b;
    } else {
      assert (a + b)[1..] == a[1..] + b;
    }
  }

  /** One step of the re-append loop: the next sorted row is still among the rows not yet
      moved, and moving it extends the sorted suffix of the body by one. */
  lemma ReappendStep(rest: seq<Row>, sorted: seq<Row>, i: nat)
    requires i < |sorted| && multiset(rest) == multiset(sorted[i..])
    ensures sorted[i] in rest
    ensures RemoveFirst(rest + sorted[..i], sorted[i]) + [sorted[i]] == RemoveFirst(rest, sorted[i]) + sorted[..i + 1]
    ensures multiset(RemoveFirst(rest, sorted[i])) == multiset(sorted[i + 1..])
  {
    var r := sorted[i];
    assert sorted[i..] == [r] + sorted[i + 1..];
    assert r in multiset(rest);
    RemoveFirstPrefix(rest, sorted[..i], r);
    RemoveFirstMultiset(rest, r);
    assert sorted[..i] + [r] == sorted[..i + 1];
  }

  lemma RestEmpty(rest: seq<Row>, sorted: seq<Row>)
    requires multiset(rest) == multiset(sorted[|sorted|..])
    ensures rest + sorted[..|sorted|] == sorted
  {
    assert multiset(rest) == multiset{};
    assert sorted[..|sorted|] == sorted;
  }

  class TableBody {
    var rows: seq<Row>

    constructor (rows: seq<Row>)
      ensures this.rows == rows
    {
      this.rows := rows;
    }

    /** `tbody.innerHTML = ...`: the rows are replaced wholesale. */
    method Replace(rows: seq<Row>)
      modifies this
      ensures this.rows == rows
    {
      this.rows := rows;
    }

    /** searchTable: every row's display is set from whether one of its cells contains the
        lower-cased input (a `forEach` over the rows). */
    method Search(input: string)
      modifies this
      ensures rows == Searched(old(rows), input)
    {
      var needle := Lower(input);
      var i := 0;
      while i < |rows|
        invariant 0 <= i <= |rows| == |old(rows)|
        invariant forall k :: 0 <= k < i ==> rows[k] == old(rows)[k].(display := SearchDisplay(old(rows)[k], input))
        invariant forall k :: i <= k < |rows| ==> rows[k] == old(rows)[k]
      {
        var matched := AnyCellIncludes(rows[i].cells, needle);
        rows := rows[i := rows[i].(display := if matched then "" else "none")];
        i := i + 1;
      }
    }

    /** `tbody.appendChild(row)` for a row already in the body: it moves to the end. Rows equal
        as values cannot be told apart, so the first equal one is the one that moves. */
    method AppendChild(r: Row)
      requires r in rows
      modifies this
      ensures rows == RemoveFirst(old(rows), r) + [r]
    {
      rows := RemoveFirst(rows, r) + [r];
    }

    /** sortTable: copy the rows, sort the copy with the comparator on `key`, then re-append
        every row in sorted order. */
    method SortBy(key: Row -> Key, ascending: bool)
      modifies this
      ensures rows == Sort(old(rows), key, ascending)
    {
      var rowsArray := Sort(rows, key, ascending);
      SortPermutes(rows, key, ascending);
      ghost var rest := rows;
      var i := 0;
      while i < |rowsArray|
        invariant 0 <= i <= |rowsArray|
        invariant rows == rest + rowsArray[..i]
        invariant multiset(rest) == multiset(rowsArray[i..])
      {
        var r := rowsArray[i];
        ReappendStep(rest, rowsArray, i);
        AppendChild(r);
        rest := RemoveFirst(rest, r);
        i := i + 1;
      }
      RestEmpty(rest, rowsArray);
    }
  }
}
