/**
 * Column-type inference of the upload endpoint (app.py, identify_column_types and
 * has_text_and_numbers). The pandas numeric test and the date test are passed in as
 * predicates over a column: their internals (to_numeric, to_datetime format trials,
 * random sampling) are not part of this model.
 */
module ColumnTypes {
  import opened Text

  /** One column of the uploaded frame: its label and the `str()` form of each value. */
  datatype Column = Column(name: string, cells: seq<string>)

  datatype Frame = Frame(columns: seq<Column>)

  /** The four tags the server sends to the browser. */
  datatype Tag = N | D | TN | T {
    /** The JSON string the tag is sent as. */
    function Code(): (s: string)
      ensures s in {"N", "D", "TN", "T"}
    {
      match this
      case N => "N"
      case D => "D"
      case TN => "TN"
      case T => "T"
    }
  }

  /** Python's `any(...)` over a column's values. */
  predicate Any(values: seq<string>, p: string -> bool)
  {
    values != [] && (Any(values[..|values| - 1], p) || p(values[|values| - 1]))
  }

  lemma {:induction false} AnyWitness(values: seq<string>, p: string -> bool)
    ensures Any(values, p) <==> exists i :: 0 <= i < |values| && p(values[i])
  {
    if values != [] {
      var init := values[..|values| - 1];
      AnyWitness(init, p);
      if exists i :: 0 <= i < |init| && p(init[i]) {
        var i :| 0 <= i < |init| && p(init[i]);
        assert values[i] == init[i];
      }
      if exists i :: 0 <= i < |values| && p(values[i]) {
        var i :| 0 <= i < |values| && p(values[i]);
        if i < |init| { assert init[i] == values[i]; }
      }
    }
  }

  /** `re.search('[a-zA-Z]', s)` succeeds. */
  predicate HasLetter(s: string)
  {
    exists k :: 0 <= k < |s| && IsAsciiLetter(s[k])
  }

  /** `re.search(r'\d', s)` succeeds. */
  predicate HasDigit(s: string)
  {
    exists k :: 0 <= k < |s| && IsAsciiDigit(s[k])
  }

  /** has_text_and_numbers: some value has a letter and some value has a digit. */
  predicate HasTextAndNumbers(column: Column)
  {
    Any(column.cells, HasLetter) && Any(column.cells, HasDigit)
  }

  /** The letter and the digit need not be in the same value. */
  lemma HasTextAndNumbersIff(column: Column)
    ensures HasTextAndNumbers(column) <==>
      (exists i :: 0 <= i < |column.cells| && HasLetter(column.cells[i])) &&
      (exists j :: 0 <= j < |column.cells| && HasDigit(column.cells[j]))
  {
    AnyWitness(column.cells, HasLetter);
    AnyWitness(column.cells, HasDigit);
  }

  /** The tag of one column: the first test of the N, D, TN cascade that passes, else T. */
  function Classify(column: Column, isNumeric: Column -> bool, isDate: Column -> bool): (tag: Tag)
  {
    if isNumeric(column) then N
    else if isDate(column) then D
    else if HasTextAndNumbers(column) then TN
    else T
  }

  /** Each tag is produced exactly when its test passes and no earlier test did. */
  lemma ClassifyCascade(column: Column, isNumeric: Column -> bool, isDate: Column -> bool)
    ensures Classify(column, isNumeric, isDate) == N <==> isNumeric(column)
    ensures Classify(column, isNumeric, isDate) == D <==> !isNumeric(column) && isDate(column)
    ensures Classify(column, isNumeric, isDate) == TN <==>
      !isNumeric(column) && !isDate(column) && HasTextAndNumbers(column)
    ensures Classify(column, isNumeric, isDate) == T <==>
      !isNumeric(column) && !isDate(column) && !HasTextAndNumbers(column)
  {
  }

  function Names(columns: seq<Column>): (names: seq<string>)
    ensures |names| == |columns|
    ensures forall i :: 0 <= i < |columns| ==> names[i] == columns[i].name
  {
    if columns == [] then [] else Names(columns[..|columns| - 1]) + [columns[|columns| - 1].name]
  }

  /** The readers give every column a distinct label (pandas de-duplicates repeated headers). */
  predicate DistinctNames(frame: Frame)
  {
    forall i, j :: 0 <= i < j < |frame.columns| ==> frame.columns[i].name != frame.columns[j].name
  }

  /** The labels of `columns`, as a set. */
  ghost function LabelSet(columns: seq<Column>): set<string>
  {
    if columns == [] then {} else LabelSet(columns[..|columns| - 1]) + {columns[|columns| - 1].name}
  }

  lemma {:induction false} LabelSetIs(columns: seq<Column>)
    ensures LabelSet(columns) == set c | c in columns :: c.name
  {
    if columns != [] {
      var init := columns[..|columns| - 1];
      LabelSetIs(init);
      assert columns == init + [columns[|columns| - 1]];
    }
  }

  /**
   * identify_column_types: fills a dictionary with one tag per column, in column order.
   */
  method IdentifyColumnTypes(frame: Frame, isNumeric: Column -> bool, isDate: Column -> bool)
    returns (types: map<string, Tag>)
    requires DistinctNames(frame)
    ensures types.Keys == set c | c in frame.columns :: c.name
    ensures forall i :: 0 <= i < |frame.columns| ==>
      types[frame.columns[i].name] == Classify(frame.columns[i], isNumeric, isDate)
  {
    types := map[];
    var i := 0;
    while i < |frame.columns|
      invariant 0 <= i <= |frame.columns|
      invariant types.Keys == LabelSet(frame.columns[..i])
      invariant forall j :: 0 <= j < i ==> frame.columns[j].name in types
      invariant forall j :: 0 <= j < i ==>
        types[frame.columns[j].name] == Classify(frame.columns[j], isNumeric, isDate)
    {
      var column := frame.columns[i];
      ghost var before := types;
      if isNumeric(column) {
        types := types[column.name := N];
      } else if isDate(column) {
        types := types[column.name := D];
      } else if HasTextAndNumbers(column) {
        types := types[column.name := TN];
      } else {
        types := types[column.name := T];
      }
      assert types == before[column.name := Classify(column, isNumeric, isDate)];
      assert frame.columns[..i + 1][..i] == frame.columns[..i];
      i := i + 1;
    }
    assert frame.columns[..i] == frame.columns;
    LabelSetIs(frame.columns);
  }
}
