/**
 * The browser's view of the column registry: the label shown for each type code
 * (displayColumns), the badge row per column, and the rule that picks the default
 * Y-axis / pie value column (populateColumnSelects).
 */
module Registry {
  import opened Wrappers
  import opened ColumnTypes
  import opened UploadServer

  /** The label map `{T: 'Text', N: 'Numeric', TN: 'Text + Numeric', D: 'Date'}[code]`. */
  function TypeLabel(code: string): (text: Option<string>)
    ensures text.Some? <==> code == "T" || code == "N" || code == "TN" || code == "D"
  {
    if code == "T" then Some("Text")
    else if code == "N" then Some("Numeric")
    else if code == "TN" then Some("Text + Numeric")
    else if code == "D" then Some("Date")
    else None
  }

  /** Every tag the server can send has a label, and each label names its tag. */
  lemma TagLabels(tag: Tag)
    ensures TypeLabel(tag.Code()).Some?
    ensures tag == T <==> TypeLabel(tag.Code()) == Some("Text")
    ensures tag == N <==> TypeLabel(tag.Code()) == Some("Numeric")
    ensures tag == TN <==> TypeLabel(tag.Code()) == Some("Text + Numeric")
    ensures tag == D <==> TypeLabel(tag.Code()) == Some("Date")
  {
  }

  /** The type codes as they arrive in the JSON `column_types` object. */
  function Codes(types: map<string, Tag>): (codes: map<string, string>)
    ensures codes.Keys == types.Keys
    ensures forall k :: k in types ==> codes[k] == types[k].Code()
  {
    map k | k in types :: types[k].Code()
  }

  /** One entry of the column list: the name, the type code (`None`: undefined) and its caption (the label text). */
  datatype Badge = Badge(column: string, code: Option<string>, caption: Option<string>)

  function BadgeFor(column: string, types: map<string, string>): (badge: Badge)
    ensures badge.column == column
    ensures column !in types ==> badge.code.None? && badge.caption.None?
    ensures column in types ==> badge.code == Some(types[column]) && badge.caption == TypeLabel(types[column])
  {
    if column in types then Badge(column, Some(types[column]), TypeLabel(types[column]))
    else Badge(column, None, None)
  }

  /** The badges displayColumns appends, one per column, in column order. */
  function Badges(columns: seq<string>, types: map<string, string>): (badges: seq<Badge>)
    ensures |badges| == |columns|
    ensures forall i :: 0 <= i < |columns| ==> badges[i] == BadgeFor(columns[i], types)
  {
    if columns == [] then []
    else Badges(columns[..|columns| - 1], types) + [BadgeFor(columns[|columns| - 1], types)]
  }

  /** After a successful upload every listed column shows a label, never `undefined`. */
  lemma ProcessedColumnsAreLabelled(response: Response, frame: Frame, isNumeric: Column -> bool, isDate: Column -> bool)
    requires DescribesFrame(response, frame, isNumeric, isDate)
    ensures forall b :: b in Badges(response.columns, Codes(response.columnTypes)) ==> b.caption.Some?
  {
    var codes := Codes(response.columnTypes);
    var badges := Badges(response.columns, codes);
    forall b | b in badges
      ensures b.caption.Some?
    {
      var i :| 0 <= i < |badges| && badges[i] == b;
      var column := frame.columns[i];
      assert response.columns[i] == column.name;
      assert column.name in response.columnTypes;
      TagLabels(response.columnTypes[column.name]);
    }
  }

  predicate IsNumericIn(types: map<string, string>, column: string)
  {
    column in types && types[column] == "N"
  }

  /** `columns.filter(col => types[col] === 'N')`. */
  function NumericColumns(columns: seq<string>, types: map<string, string>): (numeric: seq<string>)
    ensures |numeric| <= |columns|
    ensures forall c :: c in numeric ==> c in columns && IsNumericIn(types, c)
  {
    if columns == [] then []
    else
      (if IsNumericIn(types, columns[0]) then [columns[0]] else [])
      + NumericColumns(columns[1..], types)
  }

  /** The column the Y-axis and pie value selects are set to, when there is one. */
  function DefaultValueColumn(columns: seq<string>, types: map<string, string>): Option<string>
  {
    var numeric := NumericColumns(columns, types);
    if numeric == [] then None else Some(numeric[0])
  }

  /** There is a default exactly when some column is numeric. */
  lemma {:induction false} DefaultExistsIff(columns: seq<string>, types: map<string, string>)
    ensures DefaultValueColumn(columns, types).None? <==>
      forall i :: 0 <= i < |columns| ==> !IsNumericIn(types, columns[i])
  {
    if columns != [] {
      var rest := columns[1..];
      DefaultExistsIff(rest, types);
      assert forall i :: 1 <= i < |columns| ==> columns[i] == rest[i - 1];
    }
  }

  /** The default is the first numeric column in column order. */
  lemma {:induction false} DefaultIsFirstNumeric(columns: seq<string>, types: map<string, string>)
    requires DefaultValueColumn(columns, types).Some?
    ensures exists i ::
      && 0 <= i < |columns|
      && columns[i] == DefaultValueColumn(columns, types).value
      && IsNumericIn(types, columns[i])
      && (forall j :: 0 <= j < i ==> !IsNumericIn(types, columns[j]))
  {
    var rest := columns[1..];
    if IsNumericIn(types, columns[0]) {
      assert DefaultValueColumn(columns, types) == Some(columns[0]);
    } else {
      assert NumericColumns(columns, types) == NumericColumns(rest, types);
      DefaultIsFirstNumeric(rest, types);
      var i :| 0 <= i < |rest| && rest[i] == DefaultValueColumn(rest, types).value
        && IsNumericIn(types, rest[i])
        && forall j :: 0 <= j < i ==> !IsNumericIn(types, rest[j]);
      var k := i + 1;
      assert columns[k] == rest[i];
      assert forall j :: 1 <= j < k ==> columns[j] == rest[j - 1];
      assert forall j :: 0 <= j < k ==> !IsNumericIn(types, columns[j]);
    }
  }
}
