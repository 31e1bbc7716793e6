/**
 * The man-days to story-points table and the form that edits it row by row:
 * change one cell, append a blank row, remove a row by position.
 */
module StoryPoints {
  import opened Optional
  import opened Positional

  /** One row of the table: `days` man-days of capacity are worth `points` story points. */
  datatype MappingRow = MappingRow(days: int, points: int)

  /** The two editable cells of a row. */
  datatype MappingField = Days | Points

  /** The row appended by "Add Row". */
  const BlankRow := MappingRow(0, 0)

  /** The table used when none is stored: days 1 to 10 mapped to 1, 1, 3, 3, 5, 5, 5, 8, 8, 8. */
  function DefaultMapping(): (m: seq<MappingRow>)
    ensures |m| == 10
    ensures forall i :: 0 <= i < |m| ==> m[i].days == i + 1
    ensures forall i, j :: 0 <= i <= j < |m| ==> m[i].points <= m[j].points
    ensures forall i :: 0 <= i < |m| ==> m[i].points in {1, 3, 5, 8}
  {
    [ MappingRow(1, 1), MappingRow(2, 1), MappingRow(3, 3), MappingRow(4, 3), MappingRow(5, 5),
      MappingRow(6, 5), MappingRow(7, 5), MappingRow(8, 8), MappingRow(9, 8), MappingRow(10, 8) ]
  }

  /** `storyPointsMapping` as read from storage, with the default table when nothing is stored. */
  function MappingOrDefault(stored: Option<seq<MappingRow>>): seq<MappingRow> {
    OrElse(stored, DefaultMapping())
  }

  /** `{...row, [field]: value}`: the named cell takes the value, the other cell is kept. */
  function WithField(row: MappingRow, field: MappingField, value: int): (r: MappingRow)
    ensures r.days == (if field == Days then value else row.days)
    ensures r.points == (if field == Points then value else row.points)
  {
    match field
    case Days => row.(days := value)
    case Points => row.(points := value)
  }

  /** One cell edit of the table: row `index` gets the value in `field`; every other row and cell is kept. */
  function UpdateMapping(s: seq<MappingRow>, index: int, field: MappingField, value: int): (r: seq<MappingRow>)
    ensures |r| == |s|
    ensures forall k :: 0 <= k < |s| && k != index ==> r[k] == s[k]
    ensures 0 <= index < |s| ==> r[index] == WithField(s[index], field, value)
    ensures !(0 <= index < |s|) ==> r == s
  {
    MapAt(s, index, (row: MappingRow) => WithField(row, field, value))
  }

  /** The story-points form: it holds the table and overwrites it on every handler. */
  class StoryPointsForm {
    var mapping: seq<MappingRow>

    constructor (stored: Option<seq<MappingRow>>)
      ensures mapping == MappingOrDefault(stored)
    {
      mapping := MappingOrDefault(stored);
    }

    /** Sets `field` of row `index` to `value`; an index outside the table changes nothing. */
    method HandleChange(index: int, field: MappingField, value: int)
      modifies this
      ensures mapping == UpdateMapping(old(mapping), index, field, value)
    {
      mapping := UpdateMapping(mapping, index, field, value);
    }

    /** Appends a blank row; the existing rows are kept. */
    method HandleAddRow()
      modifies this
      ensures |mapping| == |old(mapping)| + 1
      ensures mapping[..|old(mapping)|] == old(mapping) && mapping[|old(mapping)|] == BlankRow
    {
      mapping := mapping + [BlankRow];
    }

    /** Removes row `index`, keeping the order of the rest; an index outside the table changes nothing. */
    method HandleRemoveRow(index: int)
      modifies this
      ensures mapping == RemoveAt(old(mapping), index)
      ensures |mapping| == if 0 <= index < |old(mapping)| then |old(mapping)| - 1 else |old(mapping)|
    {
      mapping := RemoveAt(mapping, index);
    }
  }
}
