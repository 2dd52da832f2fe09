/**
 * Chart data aggregation of the browser (static/js/script.js, preparePieChartData and
 * prepareAxisBasedChartData): rows are grouped by the string form of the key column with
 * lodash's `_.groupBy`, the groups are listed in `Object.keys` order, and the value column
 * is reduced per group by sum (pie) or mean (bar, line) after `parseFloat(x) || 0`.
 */
module Aggregation {
  import opened Wrappers
  import opened Text

  /**
   * One uploaded record. Every cell is held in its JavaScript string form: `_.groupBy`
   * uses the cell as an object property name and `parseFloat` converts its argument to a
   * string first, so both operations see only that form.
   */
  type Row = map<string, string>

  /** `parseFloat` on a string: a number, or None for NaN. */
  type Parser = string -> Option<real>

  /** The string form of `row[column]`; a column the record lacks reads as `undefined`. */
  function Cell(row: Row, column: string): string
  {
    if column in row then row[column] else "undefined"
  }

  /** `parseFloat(row[column]) || 0`. */
  function Coerced(row: Row, column: string, parse: Parser): real
  {
    OrZero(parse(Cell(row, column)))
  }

  predicate Distinct(s: seq<string>)
  {
    forall i, j :: 0 <= i < j < |s| ==> s[i] != s[j]
  }

  /** The key values that occur in the key column. */
  function KeySet(rows: seq<Row>, column: string): set<string>
  {
    set i | 0 <= i < |rows| :: Cell(rows[i], column)
  }

  /** Reference definition of a group: the rows whose key is `key`, in row order. */
  function Group(rows: seq<Row>, column: string, key: string): (group: seq<Row>)
    ensures |group| <= |rows|
  {
    if rows == [] then []
    else
      var last := rows[|rows| - 1];
      Group(rows[..|rows| - 1], column, key) + (if Cell(last, column) == key then [last] else [])
  }

  /** A key that has no property yet has no rows. */
  lemma {:induction false} GroupEmpty(rows: seq<Row>, column: string, key: string)
    requires key !in KeySet(rows, column)
    ensures Group(rows, column, key) == []
  {
    if rows != [] {
      var init := rows[..|rows| - 1];
      GroupEmpty(init, column, key);
    }
  }

  /** The position of the first row whose key is `key`. */
  function FirstSeen(rows: seq<Row>, column: string, key: string): (i: nat)
    requires key in KeySet(rows, column)
    ensures i < |rows| && Cell(rows[i], column) == key
    ensures forall j :: 0 <= j < i ==> Cell(rows[j], column) != key
  {
    if Cell(rows[0], column) == key then 0
    else
      assert key in KeySet(rows[1..], column) by {
        var i :| 0 <= i < |rows| && Cell(rows[i], column) == key;
        assert rows[1..][i - 1] == rows[i];
      }
      1 + FirstSeen(rows[1..], column, key)
  }

  /**
   * The object `_.groupBy` builds: its property names in creation order and the array
   * held by each property.
   */
  datatype Groups = Groups(order: seq<string>, members: map<string, seq<Row>>)

  /** Push `row` onto the array of `key`, creating the property when it is new. */
  function Push(groups: Groups, key: string, row: Row): Groups
  {
    if key in groups.members then
      Groups(groups.order, groups.members[key := groups.members[key] + [row]])
    else
      Groups(groups.order + [key], groups.members[key := [row]])
  }

  /** `_.groupBy(rows, column)`: one pass over the rows, left to right. */
  function GroupBy(rows: seq<Row>, column: string): Groups
  {
    if rows == [] then Groups([], map[])
    else
      var last := rows[|rows| - 1];
      Push(GroupBy(rows[..|rows| - 1], column), Cell(last, column), last)
  }

  /** The shape of a grouping of `rows` by `column`. */
  ghost predicate GroupsOf(groups: Groups, rows: seq<Row>, column: string)
  {
    && Distinct(groups.order)
    && |groups.order| <= |rows|
    && (forall k :: k in groups.members <==> k in groups.order)
    && groups.members.Keys == KeySet(rows, column)
    && (forall k :: k in groups.members ==> groups.members[k] == Group(rows, column, k))
    && (forall k :: k in groups.members ==> groups.members[k] != [])
    && (forall i, j :: 0 <= i < j < |groups.order| ==>
          FirstSeen(rows, column, groups.order[i]) < FirstSeen(rows, column, groups.order[j]))
  }

  lemma FirstSeenSnoc(rows: seq<Row>, row: Row, column: string, key: string)
    requires key in KeySet(rows, column)
    ensures key in KeySet(rows + [row], column)
    ensures FirstSeen(rows + [row], column, key) == FirstSeen(rows, column, key)
  {
    var i := FirstSeen(rows, column, key);
    assert (rows + [row])[i] == rows[i];
  }

  lemma FirstSeenNew(rows: seq<Row>, row: Row, column: string)
    requires Cell(row, column) !in KeySet(rows, column)
    ensures Cell(row, column) in KeySet(rows + [row], column)
    ensures FirstSeen(rows + [row], column, Cell(row, column)) == |rows|
  {
    var all := rows + [row];
    assert all[|rows|] == row;
  }

  lemma KeySetSnoc(rows: seq<Row>, row: Row, column: string)
    ensures KeySet(rows + [row], column) == KeySet(rows, column) + {Cell(row, column)}
  {
    var all := rows + [row];
    forall k | k in KeySet(all, column) ensures k in KeySet(rows, column) + {Cell(row, column)} {
      var i :| 0 <= i < |all| && Cell(all[i], column) == k;
      if i < |rows| { assert all[i] == rows[i]; }
    }
    forall k | k in KeySet(rows, column) ensures k in KeySet(all, column) {
      var i :| 0 <= i < |rows| && Cell(rows[i], column) == k;
      assert all[i] == rows[i];
    }
    assert all[|rows|] == row;
  }

  /** The property names of `_.groupBy` are distinct and are exactly the keys that occur. */
  lemma {:induction false} GroupByKeys(rows: seq<Row>, column: string)
    ensures Distinct(GroupBy(rows, column).order)
    ensures |GroupBy(rows, column).order| <= |rows|
    ensures forall k :: k in GroupBy(rows, column).members <==> k in GroupBy(rows, column).order
    ensures GroupBy(rows, column).members.Keys == KeySet(rows, column)
  {
    if rows != [] {
      var init := rows[..|rows| - 1];
      var last := rows[|rows| - 1];
      assert rows == init + [last];
      GroupByKeys(init, column);
      KeySetSnoc(init, last, column);
    }
  }

  /** Each property of `_.groupBy` holds the reference group of its key, which is not empty. */
  lemma {:induction false} GroupByMembers(rows: seq<Row>, column: string)
    ensures forall k :: k in GroupBy(rows, column).members ==>
      GroupBy(rows, column).members[k] == Group(rows, column, k) && GroupBy(rows, column).members[k] != []
  {
    if rows != [] {
      var init := rows[..|rows| - 1];
      var last := rows[|rows| - 1];
      GroupByMembers(init, column);
      GroupByKeys(init, column);
      var before := GroupBy(init, column);
      var after := GroupBy(rows, column);
      forall k | k in after.members
        ensures after.members[k] == Group(rows, column, k) && after.members[k] != []
      {
        if k != Cell(last, column) {
          assert after.members[k] == before.members[k];
        } else if k in before.members {
          assert after.members[k] == before.members[k] + [last];
        } else {
          assert Group(init, column, k) == [] by { GroupEmpty(init, column, k); }
        }
      }
    }
  }

  /** Property names listed in first-encounter order. */
  ghost predicate InFirstSeenOrder(order: seq<string>, rows: seq<Row>, column: string)
  {
    && (forall k :: k in order ==> k in KeySet(rows, column))
    && (forall i, j :: 0 <= i < j < |order| ==>
          FirstSeen(rows, column, order[i]) < FirstSeen(rows, column, order[j]))
  }

  /** Appending a row keeps the first-encounter order of the names already created. */
  lemma FirstSeenOrderSnoc(order: seq<string>, rows: seq<Row>, row: Row, column: string)
    requires InFirstSeenOrder(order, rows, column)
    ensures InFirstSeenOrder(order, rows + [row], column)
  {
    KeySetSnoc(rows, row, column);
    forall k | k in order ensures FirstSeen(rows + [row], column, k) == FirstSeen(rows, column, k) {
      FirstSeenSnoc(rows, row, column, k);
    }
  }

  /** A name created by the last row comes after every earlier name. */
  lemma FirstSeenOrderNew(order: seq<string>, rows: seq<Row>, row: Row, column: string)
    requires InFirstSeenOrder(order, rows, column)
    requires Cell(row, column) !in KeySet(rows, column)
    ensures InFirstSeenOrder(order + [Cell(row, column)], rows + [row], column)
  {
    var all := rows + [row];
    var after := order + [Cell(row, column)];
    FirstSeenOrderSnoc(order, rows, row, column);
    FirstSeenNew(rows, row, column);
    forall i, j | 0 <= i < j < |after|
      ensures FirstSeen(all, column, after[i]) < FirstSeen(all, column, after[j])
    {
      assert after[i] == order[i];
      if j < |order| {
        assert after[j] == order[j];
      }
    }
  }

  /** The property names of `_.groupBy` are created in the order their keys are first met. */
  lemma {:induction false} GroupByOrder(rows: seq<Row>, column: string)
    ensures InFirstSeenOrder(GroupBy(rows, column).order, rows, column)
  {
    if rows != [] {
      var init := rows[..|rows| - 1];
      var last := rows[|rows| - 1];
      assert rows == init + [last];
      GroupByOrder(init, column);
      GroupByKeys(init, column);
      var before := GroupBy(init, column);
      if Cell(last, column) in before.members {
        FirstSeenOrderSnoc(before.order, init, last, column);
      } else {
        FirstSeenOrderNew(before.order, init, last, column);
      }
    }
  }

  /** `_.groupBy` yields exactly the reference groups, each non-empty, keyed in first-encounter order. */
  lemma GroupByCorrect(rows: seq<Row>, column: string)
    ensures GroupsOf(GroupBy(rows, column), rows, column)
  {
    GroupByKeys(rows, column);
    GroupByMembers(rows, column);
    GroupByOrder(rows, column);
  }

  /**
   * An array index: a canonical decimal integer below 2^32 - 1. `Object.keys` lists these
   * property names first, by numeric value, and every other name after them in creation order.
   */
  predicate IsArrayIndex(key: string)
  {
    && |key| > 0
    && AllDigits(key)
    && (key[0] != '0' || |key| == 1)
    && DecimalValue(key) < 0xFFFF_FFFF
  }

  /** The numeric value of an array index (0 for any other name). */
  function IndexValue(key: string): int
  {
    if IsArrayIndex(key) then DecimalValue(key) else 0
  }

  predicate AllIndices(keys: seq<string>)
  {
    forall k :: k in keys ==> IsArrayIndex(k)
  }

  predicate SortedBy(keys: seq<string>, rank: string -> int)
  {
    forall i, j :: 0 <= i < j < |keys| ==> rank(keys[i]) <= rank(keys[j])
  }

  /** The array-index names, in their original order. */
  function IndexKeys(keys: seq<string>): (r: seq<string>)
    ensures AllIndices(r)
  {
    if keys == [] then []
    else
      var last := keys[|keys| - 1];
      IndexKeys(keys[..|keys| - 1]) + (if IsArrayIndex(last) then [last] else [])
  }

  /** The other names, in their original order. */
  function OtherKeys(keys: seq<string>): (r: seq<string>)
    ensures forall k :: k in r ==> !IsArrayIndex(k)
  {
    if keys == [] then []
    else
      var last := keys[|keys| - 1];
      OtherKeys(keys[..|keys| - 1]) + (if IsArrayIndex(last) then [] else [last])
  }

  lemma {:induction false} SplitKeysPermutation(keys: seq<string>)
    ensures multiset(IndexKeys(keys)) + multiset(OtherKeys(keys)) == multiset(keys)
  {
    if keys != [] {
      var init := keys[..|keys| - 1];
      var last := keys[|keys| - 1];
      assert keys == init + [last];
      assert multiset(keys) == multiset(init) + multiset{last};
      SplitKeysPermutation(init);
      SplitKeysStep(init, last, IsArrayIndex(last));
    }
  }

  /** One step of the split: the last name goes to the indices or to the others. */
  lemma SplitKeysStep(init: seq<string>, last: string, isIndex: bool)
    requires isIndex == IsArrayIndex(last)
    ensures IndexKeys(init + [last]) == IndexKeys(init) + (if isIndex then [last] else [])
    ensures OtherKeys(init + [last]) == OtherKeys(init) + (if isIndex then [] else [last])
    ensures multiset(IndexKeys(init + [last])) + multiset(OtherKeys(init + [last]))
         == multiset(IndexKeys(init)) + multiset(OtherKeys(init)) + multiset{last}
  {
    assert (init + [last])[..|init|] == init;
  }

  /** Insert `key` before the first element of larger rank. */
  function InsertBy(key: string, sorted: seq<string>, rank: string -> int): seq<string>
  {
    if sorted == [] || rank(key) < rank(sorted[0]) then [key] + sorted
    else [sorted[0]] + InsertBy(key, sorted[1..], rank)
  }

  /** Insertion sort by `rank`, stable for equal ranks. */
  function SortBy(keys: seq<string>, rank: string -> int): seq<string>
  {
    if keys == [] then []
    else InsertBy(keys[|keys| - 1], SortBy(keys[..|keys| - 1], rank), rank)
  }

  lemma {:induction false} InsertByPermutation(key: string, sorted: seq<string>, rank: string -> int)
    ensures multiset(InsertBy(key, sorted, rank)) == multiset(sorted) + multiset{key}
  {
    if sorted != [] && rank(key) >= rank(sorted[0]) {
      InsertByPermutation(key, sorted[1..], rank);
      assert sorted == [sorted[0]] + sorted[1..];
    }
  }

  lemma {:induction false} InsertByBound(key: string, sorted: seq<string>, rank: string -> int, low: int)
    requires forall i :: 0 <= i < |sorted| ==> low <= rank(sorted[i])
    requires low <= rank(key)
    ensures forall x :: x in InsertBy(key, sorted, rank) ==> low <= rank(x)
  {
    var r := InsertBy(key, sorted, rank);
    if sorted != [] && rank(key) >= rank(sorted[0]) {
      var tail := sorted[1..];
      assert forall i :: 0 <= i < |tail| ==> tail[i] == sorted[i + 1];
      InsertByBound(key, tail, rank, low);
      var rest := InsertBy(key, tail, rank);
      assert r == [sorted[0]] + rest;
      forall x | x in r ensures low <= rank(x) {
        if x != sorted[0] {
          assert x in rest;
        }
      }
    } else {
      forall x | x in r ensures low <= rank(x) {
        if x != key {
          assert x in sorted;
        }
      }
    }
  }
  lemma {:induction false} InsertBySorted(key: string, sorted: seq<string>, rank: string -> int)
    requires SortedBy(sorted, rank)
    ensures SortedBy(InsertBy(key, sorted, rank), rank)
  {
    var r := InsertBy(key, sorted, rank);
    if sorted != [] && rank(key) >= rank(sorted[0]) {
      var head, tail := sorted[0], sorted[1..];
      assert forall i :: 0 <= i < |tail| ==> tail[i] == sorted[i + 1];
      InsertBySorted(key, tail, rank);
      InsertByBound(key, tail, rank, rank(head));
      var rest := InsertBy(key, tail, rank);
      assert r == [head] + rest;
      forall i, j | 0 <= i < j < |r| ensures rank(r[i]) <= rank(r[j]) {
        assert r[j] == rest[j - 1];
        assert r[j] in rest;
        if i > 0 {
          assert r[i] == rest[i - 1];
        }
      }
    } else {
      forall i, j | 0 <= i < j < |r| ensures rank(r[i]) <= rank(r[j]) {
        assert r[j] == sorted[j - 1];
        if i > 0 {
          assert r[i] == sorted[i - 1];
        } else if sorted != [] {
          assert rank(sorted[0]) <= rank(sorted[j - 1]);
        }
      }
    }
  }

  /** Insertion sort yields a sorted permutation of its input. */
  lemma {:induction false} SortBySortedPermutation(keys: seq<string>, rank: string -> int)
    ensures SortedBy(SortBy(keys, rank), rank)
    ensures multiset(SortBy(keys, rank)) == multiset(keys)
  {
    if keys != [] {
      var init := keys[..|keys| - 1];
      assert keys == init + [keys[|keys| - 1]];
      SortBySortedPermutation(init, rank);
      InsertBySorted(keys[|keys| - 1], SortBy(init, rank), rank);
      InsertByPermutation(keys[|keys| - 1], SortBy(init, rank), rank);
    }
  }

  /** `Object.keys` of an object whose properties were created in the order `created`. */
  function ObjectKeys(created: seq<string>): seq<string>
  {
    SortBy(IndexKeys(created), IndexValue) + OtherKeys(created)
  }

  lemma {:induction false} OtherKeysOfIndices(keys: seq<string>)
    requires AllIndices(keys)
    ensures OtherKeys(keys) == []
  {
    if keys != [] {
      OtherKeysOfIndices(keys[..|keys| - 1]);
    }
  }

  lemma {:induction false} OtherKeysAppend(a: seq<string>, b: seq<string>)
    ensures OtherKeys(a + b) == OtherKeys(a) + OtherKeys(b)
  {
    if b == [] {
      assert a + b == a;
    } else {
      var init := b[..|b| - 1];
      assert (a + b)[..|a + b| - 1] == a + init;
      var last := b[|b| - 1];
      assert (a + b)[|a + b| - 1] == last;
      OtherKeysAppend(a, init);
      var tail := if IsArrayIndex(last) then [] else [last];
      assert OtherKeys(a + b) == OtherKeys(a + init) + tail;
      assert OtherKeys(b) == OtherKeys(init) + tail;
    }
  }

  lemma {:induction false} OtherKeysIdempotent(keys: seq<string>)
    ensures OtherKeys(OtherKeys(keys)) == OtherKeys(keys)
  {
    if keys != [] {
      var init := keys[..|keys| - 1];
      var last := keys[|keys| - 1];
      OtherKeysIdempotent(init);
      OtherKeysAppend(OtherKeys(init), if IsArrayIndex(last) then [] else [last]);
    }
  }

  lemma {:induction false} NoIndicesKeepsOrder(keys: seq<string>)
    requires forall i :: 0 <= i < |keys| ==> !IsArrayIndex(keys[i])
    ensures IndexKeys(keys) == [] && OtherKeys(keys) == keys
  {
    if keys != [] {
      var init := keys[..|keys| - 1];
      var last := keys[|keys| - 1];
      assert forall i :: 0 <= i < |init| ==> init[i] == keys[i];
      NoIndicesKeepsOrder(init);
      assert keys == init + [last];
      SplitKeysStep(init, last, false);
    }
  }

  /** `Object.keys` lists every created name once: it is a permutation of the creation order. */
  lemma ObjectKeysPermutation(created: seq<string>)
    ensures multiset(ObjectKeys(created)) == multiset(created)
  {
    SplitKeysPermutation(created);
    SortBySortedPermutation(IndexKeys(created), IndexValue);
  }

  /** Array indices come first, in ascending numeric order. */
  lemma ObjectKeysIndicesFirst(created: seq<string>)
    ensures forall i, j :: 0 <= i < j < |ObjectKeys(created)| && IsArrayIndex(ObjectKeys(created)[j]) ==>
      IsArrayIndex(ObjectKeys(created)[i]) && IndexValue(ObjectKeys(created)[i]) <= IndexValue(ObjectKeys(created)[j])
  {
    var indices := IndexKeys(created);
    var sorted := SortBy(indices, IndexValue);
    var others := OtherKeys(created);
    var keys := sorted + others;
    SortBySortedPermutation(indices, IndexValue);
    forall i, j | 0 <= i < j < |keys| && IsArrayIndex(keys[j])
      ensures IsArrayIndex(keys[i]) && IndexValue(keys[i]) <= IndexValue(keys[j])
    {
      assert j < |sorted|;
      assert keys[i] == sorted[i] && keys[j] == sorted[j];
      assert sorted[i] in multiset(indices);
    }
  }

  /** The other names keep their creation order. */
  lemma ObjectKeysOthersInOrder(created: seq<string>)
    ensures OtherKeys(ObjectKeys(created)) == OtherKeys(created)
  {
    var indices := IndexKeys(created);
    var sorted := SortBy(indices, IndexValue);
    SortBySortedPermutation(indices, IndexValue);
    forall k | k in sorted ensures IsArrayIndex(k) {
      assert k in multiset(indices);
    }
    OtherKeysAppend(sorted, OtherKeys(created));
    OtherKeysOfIndices(sorted);
    OtherKeysIdempotent(created);
  }

  /** When no name is an array index, `Object.keys` is exactly the creation order. */
  lemma ObjectKeysWithoutIndices(created: seq<string>)
    requires forall k :: k in created ==> !IsArrayIndex(k)
    ensures ObjectKeys(created) == created
  {
    assert forall i :: 0 <= i < |created| ==> created[i] in created;
    NoIndicesKeepsOrder(created);
  }

  lemma {:induction false} DistinctCount(s: seq<string>, x: string)
    requires Distinct(s)
    ensures multiset(s)[x] <= 1
  {
    if s != [] {
      var init := s[..|s| - 1];
      assert s == init + [s[|s| - 1]];
      DistinctCount(init, x);
    }
  }

  /** A permutation of a list without repetitions has none either. */
  lemma DistinctPermutation(a: seq<string>, b: seq<string>)
    requires Distinct(a) && multiset(a) == multiset(b)
    ensures Distinct(b)
  {
    forall i, j | 0 <= i < j < |b| ensures b[i] != b[j] {
      DistinctCount(a, b[i]);
      assert b == b[..j] + [b[j]] + b[j + 1..];
      assert b[i] in b[..j];
    }
  }

  /** A list in which `rank` strictly increases. */
  predicate Increasing(keys: seq<string>, rank: string -> int)
  {
    forall i, j :: 0 <= i < j < |keys| ==> rank(keys[i]) < rank(keys[j])
  }

  lemma {:induction false} OtherKeysSubset(keys: seq<string>)
    ensures forall k :: k in OtherKeys(keys) ==> k in keys
  {
    if keys != [] {
      OtherKeysSubset(keys[..|keys| - 1]);
    }
  }

  /** Dropping the array indices keeps a list increasing. */
  lemma {:induction false} OtherKeysIncreasing(keys: seq<string>, rank: string -> int)
    requires Increasing(keys, rank)
    ensures Increasing(OtherKeys(keys), rank)
  {
    if keys != [] {
      var init := keys[..|keys| - 1];
      var last := keys[|keys| - 1];
      OtherKeysIncreasing(init, rank);
      OtherKeysSubset(init);
      var before := OtherKeys(init);
      if !IsArrayIndex(last) {
        var after := before + [last];
        forall i, j | 0 <= i < j < |after| ensures rank(after[i]) < rank(after[j]) {
          if j == |before| {
            assert after[i] == before[i] && before[i] in init;
            var k :| 0 <= k < |init| && init[k] == before[i];
            assert keys[k] == init[k];
          } else {
            assert after[i] == before[i] && after[j] == before[j];
          }
        }
      }
    }
  }

  /** The order in which key values first occur, as a rank (-1 for a value that never occurs). */
  function EncounterRank(rows: seq<Row>, column: string): string -> int
  {
    key => if key in KeySet(rows, column) then FirstSeen(rows, column, key) else -1
  }

  /**
   * The order `Object.keys` gives the groups: array-index keys first in ascending numeric
   * order, then every other key in the order its first row appears.
   */
  ghost predicate InKeyOrder(labels: seq<string>, rows: seq<Row>, column: string)
  {
    && (forall i, j :: 0 <= i < j < |labels| && IsArrayIndex(labels[j]) ==>
          IsArrayIndex(labels[i]) && IndexValue(labels[i]) <= IndexValue(labels[j]))
    && (forall i, j :: 0 <= i < j < |labels| && !IsArrayIndex(labels[i]) && !IsArrayIndex(labels[j]) ==>
          EncounterRank(rows, column)(labels[i]) < EncounterRank(rows, column)(labels[j]))
  }

  /** The group labels of a chart: `Object.keys(_.groupBy(rows, column))`. */
  function GroupLabels(rows: seq<Row>, column: string): seq<string>
  {
    ObjectKeys(GroupBy(rows, column).order)
  }

  /** The group labels are the distinct key values, each once, and each names a group. */
  lemma GroupLabelsKeys(rows: seq<Row>, column: string)
    ensures Distinct(GroupLabels(rows, column))
    ensures |GroupLabels(rows, column)| <= |rows|
    ensures forall k :: k in GroupLabels(rows, column) <==> k in KeySet(rows, column)
    ensures forall k :: k in GroupLabels(rows, column) ==> k in GroupBy(rows, column).members
  {
    var groups := GroupBy(rows, column);
    var labels := GroupLabels(rows, column);
    GroupByKeys(rows, column);
    ObjectKeysPermutation(groups.order);
    DistinctPermutation(groups.order, labels);
    assert |labels| == |multiset(labels)| == |multiset(groups.order)| == |groups.order|;
    forall k ensures k in labels <==> k in groups.order {
      assert k in labels <==> k in multiset(labels);
      assert k in groups.order <==> k in multiset(groups.order);
    }
  }

  lemma SortedIndicesAreIndices(created: seq<string>)
    ensures forall i :: 0 <= i < |SortBy(IndexKeys(created), IndexValue)| ==>
      IsArrayIndex(SortBy(IndexKeys(created), IndexValue)[i])
  {
    var sorted := SortBy(IndexKeys(created), IndexValue);
    SortBySortedPermutation(IndexKeys(created), IndexValue);
    forall i | 0 <= i < |sorted| ensures IsArrayIndex(sorted[i]) {
      assert sorted[i] in multiset(IndexKeys(created));
    }
  }

  /** Names that are not array indices keep any strictly increasing order they were created in. */
  lemma ObjectKeysOthersIncreasing(created: seq<string>, rank: string -> int)
    requires Increasing(created, rank)
    ensures forall i, j ::
      0 <= i < j < |ObjectKeys(created)| &&
      !IsArrayIndex(ObjectKeys(created)[i]) && !IsArrayIndex(ObjectKeys(created)[j])
      ==> rank(ObjectKeys(created)[i]) < rank(ObjectKeys(created)[j])
  {
    var keys := ObjectKeys(created);
    var sorted := SortBy(IndexKeys(created), IndexValue);
    var others := OtherKeys(created);
    assert keys == sorted + others;
    OtherKeysIncreasing(created, rank);
    SortedIndicesAreIndices(created);
    forall i, j | 0 <= i < j < |keys| && !IsArrayIndex(keys[i]) && !IsArrayIndex(keys[j])
      ensures rank(keys[i]) < rank(keys[j])
    {
      if i < |sorted| {
        assert false;
      }
      assert keys[i] == others[i - |sorted|] && keys[j] == others[j - |sorted|];
    }
  }

  /** The group labels come in `Object.keys` order. */
  lemma GroupLabelsOrder(rows: seq<Row>, column: string)
    ensures InKeyOrder(GroupLabels(rows, column), rows, column)
  {
    var order := GroupBy(rows, column).order;
    GroupByOrder(rows, column);
    ObjectKeysIndicesFirst(order);
    var rank := EncounterRank(rows, column);
    assert Increasing(order, rank) by {
      forall i, j | 0 <= i < j < |order| ensures rank(order[i]) < rank(order[j]) {
        assert order[i] in KeySet(rows, column) && order[j] in KeySet(rows, column);
      }
    }
    ObjectKeysOthersIncreasing(order, rank);
  }

  /** Sum of a list of numbers, accumulated left to right. */
  function Total(xs: seq<real>): real
  {
    if xs == [] then 0.0 else Total(xs[..|xs| - 1]) + xs[|xs| - 1]
  }

  /** `_.sumBy(rows, row => parseFloat(row[column]) || 0)`. */
  function SumBy(rows: seq<Row>, column: string, parse: Parser): real
  {
    if rows == [] then 0.0
    else SumBy(rows[..|rows| - 1], column, parse) + Coerced(rows[|rows| - 1], column, parse)
  }

  /** `_.meanBy(rows, row => parseFloat(row[column]) || 0)` on a non-empty array. */
  function MeanBy(rows: seq<Row>, column: string, parse: Parser): real
    requires rows != []
  {
    SumBy(rows, column, parse) / (|rows| as real)
  }

  /** The chart types offered by the chart-type control. */
  datatype ChartKind = Bar | Line | Pie

  /**
   * The data handed to the chart: one label and one value per group, the title, the
   * series label (axis charts only) and whether the area under a line is filled.
   */
  datatype ChartData = ChartData(
    labels: seq<string>,
    values: seq<real>,
    title: string,
    seriesLabel: Option<string>,
    fill: bool)

  /** `_.map(labels, label => _.sumBy(groups[label], ...))`. */
  function GroupSums(groups: Groups, labels: seq<string>, column: string, parse: Parser): (sums: seq<real>)
    requires forall k :: k in labels ==> k in groups.members
    ensures |sums| == |labels|
    ensures forall i :: 0 <= i < |labels| ==> sums[i] == SumBy(groups.members[labels[i]], column, parse)
  {
    seq(|labels|, i requires 0 <= i < |labels| => SumBy(groups.members[labels[i]], column, parse))
  }

  /** `_.map(labels, label => _.meanBy(groups[label], ...))`, every group being non-empty. */
  function GroupMeans(groups: Groups, labels: seq<string>, column: string, parse: Parser): (means: seq<real>)
    requires forall k :: k in labels ==> k in groups.members && groups.members[k] != []
    ensures |means| == |labels|
    ensures forall i :: 0 <= i < |labels| ==> means[i] == MeanBy(groups.members[labels[i]], column, parse)
  {
    seq(|labels|, i requires 0 <= i < |labels| => MeanBy(groups.members[labels[i]], column, parse))
  }

  /** preparePieChartData: the sum of the value column per label group. */
  function PreparePie(rows: seq<Row>, labelColumn: string, valueColumn: string, parse: Parser): (data: ChartData)
    ensures data.labels == GroupLabels(rows, labelColumn)
    ensures |data.labels| == |data.values|
    ensures forall i :: 0 <= i < |data.values| ==>
      data.values[i] == SumBy(Group(rows, labelColumn, data.labels[i]), valueColumn, parse)
    ensures data.title == labelColumn + " by " + valueColumn
    ensures data.seriesLabel == None && !data.fill
  {
    var groups := GroupBy(rows, labelColumn);
    var labels := GroupLabels(rows, labelColumn);
    GroupLabelsKeys(rows, labelColumn);
    GroupByMembers(rows, labelColumn);
    var values := GroupSums(groups, labels, valueColumn, parse);
    ChartData(labels, values, labelColumn + " by " + valueColumn, None, false)
  }

  /** The pie has one distinct label per distinct label value, at most one per row, in key order. */
  lemma PieLabels(rows: seq<Row>, labelColumn: string, valueColumn: string, parse: Parser)
    ensures var data := PreparePie(rows, labelColumn, valueColumn, parse);
      && |data.labels| == |data.values| <= |rows|
      && Distinct(data.labels)
      && (forall k :: k in data.labels <==> k in KeySet(rows, labelColumn))
      && InKeyOrder(data.labels, rows, labelColumn)
  {
    GroupLabelsKeys(rows, labelColumn);
    GroupLabelsOrder(rows, labelColumn);
  }

  /** prepareAxisBasedChartData: the mean of the y column per x group. */
  function PrepareAxis(kind: ChartKind, rows: seq<Row>, xColumn: string, yColumn: string, parse: Parser): (data: ChartData)
    ensures data.labels == GroupLabels(rows, xColumn)
    ensures |data.labels| == |data.values|
    ensures forall i :: 0 <= i < |data.values| ==>
      && |Group(rows, xColumn, data.labels[i])| > 0
      && data.values[i] ==
           SumBy(Group(rows, xColumn, data.labels[i]), yColumn, parse) / (|Group(rows, xColumn, data.labels[i])| as real)
    ensures data.title == yColumn + " by " + xColumn
    ensures data.seriesLabel == Some(yColumn)
    ensures data.fill <==> kind == Line
  {
    var groups := GroupBy(rows, xColumn);
    var labels := GroupLabels(rows, xColumn);
    GroupLabelsKeys(rows, xColumn);
    GroupByMembers(rows, xColumn);
    var values := GroupMeans(groups, labels, yColumn, parse);
    ChartData(labels, values, yColumn + " by " + xColumn, Some(yColumn), kind == Line)
  }

  /** An axis chart has one distinct label per distinct x value, at most one per row, in key order. */
  lemma AxisLabels(kind: ChartKind, rows: seq<Row>, xColumn: string, yColumn: string, parse: Parser)
    ensures var data := PrepareAxis(kind, rows, xColumn, yColumn, parse);
      && |data.labels| == |data.values| <= |rows|
      && Distinct(data.labels)
      && (forall k :: k in data.labels <==> k in KeySet(rows, xColumn))
      && InKeyOrder(data.labels, rows, xColumn)
  {
    GroupLabelsKeys(rows, xColumn);
    GroupLabelsOrder(rows, xColumn);
  }

  /** The group sums of `keys`, added up in order. */
  function GroupTotal(rows: seq<Row>, keyColumn: string, valueColumn: string, keys: seq<string>, parse: Parser): real
  {
    if keys == [] then 0.0
    else
      GroupTotal(rows, keyColumn, valueColumn, keys[..|keys| - 1], parse)
      + SumBy(Group(rows, keyColumn, keys[|keys| - 1]), valueColumn, parse)
  }

  lemma GroupSumSnoc(rows: seq<Row>, row: Row, keyColumn: string, valueColumn: string, key: string, parse: Parser)
    ensures SumBy(Group(rows + [row], keyColumn, key), valueColumn, parse)
      == SumBy(Group(rows, keyColumn, key), valueColumn, parse)
         + (if Cell(row, keyColumn) == key then Coerced(row, valueColumn, parse) else 0.0)
  {
    assert (rows + [row])[..|rows|] == rows;
    var g := Group(rows, keyColumn, key);
    if Cell(row, keyColumn) == key {
      assert (g + [row])[..|g|] == g;
    } else {
      assert g + [] == g;
    }
  }

  /** Adding a row adds its value to the total of the key it belongs to, and to no other. */
  lemma {:induction false} GroupTotalSnoc(
    rows: seq<Row>, row: Row, keyColumn: string, valueColumn: string, keys: seq<string>, parse: Parser)
    requires Distinct(keys)
    ensures GroupTotal(rows + [row], keyColumn, valueColumn, keys, parse)
      == GroupTotal(rows, keyColumn, valueColumn, keys, parse)
         + (if Cell(row, keyColumn) in keys then Coerced(row, valueColumn, parse) else 0.0)
  {
    if keys != [] {
      var init := keys[..|keys| - 1];
      var last := keys[|keys| - 1];
      assert keys == init + [last];
      GroupTotalSnoc(rows, row, keyColumn, valueColumn, init, parse);
      GroupSumSnoc(rows, row, keyColumn, valueColumn, last, parse);
      assert Cell(row, keyColumn) in keys <==> Cell(row, keyColumn) in init || Cell(row, keyColumn) == last;
      assert last !in init;
    }
  }

  lemma {:induction false} GroupTotalOfNoRows(keyColumn: string, valueColumn: string, keys: seq<string>, parse: Parser)
    ensures GroupTotal([], keyColumn, valueColumn, keys, parse) == 0.0
  {
    if keys != [] {
      GroupTotalOfNoRows(keyColumn, valueColumn, keys[..|keys| - 1], parse);
    }
  }

  /** Summing the group sums over any list of distinct keys that covers every row gives the grand total. */
  lemma {:induction false} GroupTotalPartition(
    rows: seq<Row>, keyColumn: string, valueColumn: string, keys: seq<string>, parse: Parser)
    requires Distinct(keys)
    requires forall k :: k in KeySet(rows, keyColumn) ==> k in keys
    ensures GroupTotal(rows, keyColumn, valueColumn, keys, parse) == SumBy(rows, valueColumn, parse)
  {
    if rows == [] {
      GroupTotalOfNoRows(keyColumn, valueColumn, keys, parse);
    } else {
      var init := rows[..|rows| - 1];
      var last := rows[|rows| - 1];
      assert rows == init + [last];
      KeySetSnoc(init, last, keyColumn);
      GroupTotalPartition(init, keyColumn, valueColumn, keys, parse);
      GroupTotalSnoc(init, last, keyColumn, valueColumn, keys, parse);
    }
  }

  lemma {:induction false} TotalOfGroupSums(
    values: seq<real>, rows: seq<Row>, keyColumn: string, valueColumn: string, keys: seq<string>, parse: Parser)
    requires |values| == |keys|
    requires forall i :: 0 <= i < |keys| ==> values[i] == SumBy(Group(rows, keyColumn, keys[i]), valueColumn, parse)
    ensures Total(values) == GroupTotal(rows, keyColumn, valueColumn, keys, parse)
  {
    if keys != [] {
      TotalOfGroupSums(values[..|values| - 1], rows, keyColumn, valueColumn, keys[..|keys| - 1], parse);
    }
  }

  /**
   * Conservation: the pie values add up to the sum of `parseFloat(cell) || 0` over every row,
   * so grouping neither loses nor double-counts a row.
   */
  lemma PieConservation(rows: seq<Row>, labelColumn: string, valueColumn: string, parse: Parser)
    ensures Total(PreparePie(rows, labelColumn, valueColumn, parse).values) == SumBy(rows, valueColumn, parse)
  {
    var data := PreparePie(rows, labelColumn, valueColumn, parse);
    PieLabels(rows, labelColumn, valueColumn, parse);
    TotalOfGroupSums(data.values, rows, labelColumn, valueColumn, data.labels, parse);
    GroupTotalPartition(rows, labelColumn, valueColumn, data.labels, parse);
  }

  /** Cells that do not parse contribute 0: a column with no parsable cell sums to 0. */
  lemma {:induction false} UnparsableCellsSumToZero(rows: seq<Row>, column: string, parse: Parser)
    requires forall i :: 0 <= i < |rows| ==> parse(Cell(rows[i], column)).None?
    ensures SumBy(rows, column, parse) == 0.0
  {
    if rows != [] {
      UnparsableCellsSumToZero(rows[..|rows| - 1], column, parse);
    }
  }
}
