/**
 * The pure helpers of the mentor page: filtering multiselect choices, the
 * five-axis skill radar, turning a statement result into row dictionaries,
 * finding a student record by name and the comma encoding of saved lists.
 */
module MentorBridge {
  import opened Wrappers
  import opened Text

  // ---------------------------------------------------------------------------
  // Choice filtering

  /** The values that are among the options, in order, duplicates kept. */
  function KeepOptions(values: seq<string>, options: seq<string>): (r: seq<string>)
    ensures forall j :: 0 <= j < |r| ==> r[j] in options
  {
    if values == [] then []
    else (if values[0] in options then [values[0]] else []) + KeepOptions(values[1..], options)
  }

  /** sanitize_choices: nothing for a missing or empty list, otherwise the values that are options. */
  function SanitizeChoices(values: Option<seq<string>>, options: seq<string>): (r: seq<string>)
    ensures values.None? || values.value == [] ==> r == []
    ensures forall j :: 0 <= j < |r| ==> r[j] in options
  {
    if values.None? || values.value == [] then [] else KeepOptions(values.value, options)
  }

  /** Each option keeps every one of its occurrences; anything else is dropped entirely. */
  lemma {:induction false} KeepOptionsCounts(values: seq<string>, options: seq<string>, x: string)
    ensures multiset(KeepOptions(values, options))[x] == if x in options then multiset(values)[x] else 0
  {
    if values != [] {
      KeepOptionsCounts(values[1..], options, x);
      assert values == [values[0]] + values[1..];
    }
  }

  /** Filtering keeps order: the kept values of a concatenation are the concatenation of the kept values. */
  lemma {:induction false} KeepOptionsAppend(a: seq<string>, b: seq<string>, options: seq<string>)
    ensures KeepOptions(a + b, options) == KeepOptions(a, options) + KeepOptions(b, options)
  {
    if a != [] {
      KeepOptionsAppend(a[1..], b, options);
      assert (a + b)[1..] == a[1..] + b;
    } else {
      assert a + b == b;
    }
  }

  /** A list of options only is kept as it is. */
  lemma {:induction false} KeepOptionsOfOptions(values: seq<string>, options: seq<string>)
    requires forall j :: 0 <= j < |values| ==> values[j] in options
    ensures KeepOptions(values, options) == values
  {
    if values != [] {
      KeepOptionsOfOptions(values[1..], options);
    }
  }

  /** Sanitizing twice is sanitizing once. */
  lemma SanitizeIdempotent(values: Option<seq<string>>, options: seq<string>)
    ensures SanitizeChoices(Some(SanitizeChoices(values, options)), options) == SanitizeChoices(values, options)
  {
    var once := SanitizeChoices(values, options);
    if once != [] {
      KeepOptionsOfOptions(once, options);
    }
  }

  // ---------------------------------------------------------------------------
  // Skill radar

  const Categories: seq<string> := ["Communication", "Tech Basics", "Problem Solving", "Creativity", "Business/Marketing"]

  /** Which radar axis each known skill or interest counts towards. */
  const AxisOf: map<string, string> := map[
    "Communication" := "Communication",
    "Teamwork" := "Communication",
    "Customer Service" := "Communication",
    "Basic Computer Literacy" := "Tech Basics",
    "Microsoft Office" := "Tech Basics",
    "Typing" := "Tech Basics",
    "Python (Basics)" := "Problem Solving",
    "Java (Basics)" := "Problem Solving",
    "SQL (Basics)" := "Problem Solving",
    "Problem Solving" := "Problem Solving",
    "Graphic Design (Beginner)" := "Creativity",
    "Video Editing (Beginner)" := "Creativity",
    "Creative Arts" := "Creativity",
    "Marketing" := "Business/Marketing",
    "Sales" := "Business/Marketing",
    "Social Media Management" := "Business/Marketing",
    "Entrepreneurship" := "Business/Marketing"
  ]

  /** Every mapped item lands on one of the five axes, so counting never meets an unknown axis. */
  lemma AxesAreCategories()
    ensures forall item :: item in AxisOf ==> AxisOf[item] in Categories
  {
  }

  predicate CountsFor(item: string, category: string) {
    item in AxisOf && AxisOf[item] == category
  }

  /** How many of the items count towards `category`. */
  function Count(items: seq<string>, category: string): nat {
    if items == [] then 0
    else Count(items[..|items| - 1], category) + (if CountsFor(items[|items| - 1], category) then 1 else 0)
  }

  /** Counting a concatenation adds the counts: the order of the items does not matter. */
  lemma {:induction false} CountAppend(a: seq<string>, b: seq<string>, category: string)
    ensures Count(a + b, category) == Count(a, category) + Count(b, category)
    decreases |b|
  {
    if b == [] {
      assert a + b == a;
    } else {
      var init := b[..|b| - 1];
      CountAppend(a, init, category);
      assert (a + b)[..|a + b| - 1] == a + init;
    }
  }

  /** Items outside the mapping are ignored, wherever they stand. */
  lemma UnmappedIgnored(a: seq<string>, x: string, b: seq<string>, category: string)
    requires x !in AxisOf
    ensures Count(a + [x] + b, category) == Count(a + b, category)
  {
    CountAppend(a + [x], b, category);
    CountAppend(a, b, category);
    assert (a + [x])[..|a + [x]| - 1] == a;
  }

  /** A mapped item adds exactly one to its own axis and nothing to the others. */
  lemma MappedCountsOnce(a: seq<string>, x: string, b: seq<string>, category: string)
    requires x in AxisOf
    ensures Count(a + [x] + b, category) == Count(a + b, category) + (if AxisOf[x] == category then 1 else 0)
  {
    CountAppend(a + [x], b, category);
    CountAppend(a, b, category);
    assert (a + [x])[..|a + [x]| - 1] == a;
  }

  function Counts(items: seq<string>): (r: seq<nat>)
    ensures |r| == |Categories|
  {
    seq(|Categories|, j requires 0 <= j < |Categories| => Count(items, Categories[j]))
  }

  /** The largest element of a non-empty list. */
  function Max(xs: seq<nat>): (m: nat)
    requires xs != []
    ensures forall j :: 0 <= j < |xs| ==> xs[j] <= m
    ensures exists j :: 0 <= j < |xs| && xs[j] == m
  {
    if |xs| == 1 then xs[0]
    else
      var rest := Max(xs[1..]);
      assert forall j :: 1 <= j < |xs| ==> xs[j] == xs[1..][j - 1];
      if xs[0] >= rest then xs[0] else rest
  }

  /** `max(1, max(scores.values()))`. */
  function MaxCount(items: seq<string>): (m: nat)
    ensures m >= 1
  {
    var top := Max(Counts(items));
    if top >= 1 then top else 1
  }

  /** The quotient of whole division, by repeated subtraction. */
  function Quot(num: nat, den: nat): nat
    requires den > 0
    decreases num
  {
    if num < den then 0 else 1 + Quot(num - den, den)
  }

  /** The remainder of whole division. */
  function Rem(num: nat, den: nat): (r: nat)
    requires den > 0
    ensures r < den && Quot(num, den) * den + r == num
    decreases num
  {
    if num < den then num else Rem(num - den, den)
  }

  /**
   * Python's `round` of the fraction num/den: the nearest whole number, a
   * tie going to the even neighbour.
   */
  function RoundHalfEven(num: nat, den: nat): nat
    requires den > 0
  {
    var q, rem := Quot(num, den), Rem(num, den);
    if 2 * rem > den then q + 1
    else if 2 * rem < den then q
    else if q % 2 == 0 then q else q + 1
  }

  /** The rounded value is a nearest whole number, and an even one on a tie. */
  lemma RoundIsNearest(num: nat, den: nat)
    requires den > 0
    ensures var r := RoundHalfEven(num, den);
      2 * (num - r * den) <= den && 2 * (r * den - num) <= den
    ensures var r := RoundHalfEven(num, den);
      (2 * (num - r * den) == den || 2 * (r * den - num) == den) ==> r % 2 == 0
  {
    var q, rem := Quot(num, den), Rem(num, den);
    var r := RoundHalfEven(num, den);
    assert q * den + rem == num;
    if r == q {
      assert num - r * den == rem;
    } else {
      assert r * den == q * den + den;
      assert r * den - num == den - rem;
    }
  }

  lemma {:induction false} QuotMonotone(a: nat, b: nat, den: nat)
    requires den > 0 && a <= b
    ensures Quot(a, den) <= Quot(b, den)
    decreases a
  {
    if a >= den {
      QuotMonotone(a - den, b - den, den);
    }
  }

  /** Rounding never reverses an order. */
  lemma RoundMonotone(a: nat, b: nat, den: nat)
    requires den > 0 && a <= b
    ensures RoundHalfEven(a, den) <= RoundHalfEven(b, den)
  {
    QuotMonotone(a, b, den);
  }

  lemma {:induction false} QuotOfMultiple(k: nat, den: nat)
    requires den > 0
    ensures Quot(k * den, den) == k && Rem(k * den, den) == 0
  {
    if k > 0 {
      QuotOfMultiple(k - 1, den);
      assert k * den - den == (k - 1) * den;
    }
  }

  /**
   * One axis: `min(5, max(1, int(round(1 + (count / maxCount) * 4))))`,
   * computed on the exact fraction (maxCount + 4 * count) / maxCount.
   */
  function Scale(count: nat, maxCount: nat): (r: int)
    requires maxCount >= 1
    ensures 1 <= r <= 5
  {
    var v := RoundHalfEven(maxCount + 4 * count, maxCount);
    if v > 5 then 5 else if v < 1 then 1 else v
  }

  /** No mentions scale to 1; the most mentioned axis, when it has any, scales to 5. */
  lemma ScaleEndpoints(maxCount: nat)
    requires maxCount >= 1
    ensures Scale(0, maxCount) == 1 && Scale(maxCount, maxCount) == 5
  {
    QuotOfMultiple(1, maxCount);
    QuotOfMultiple(5, maxCount);
  }

  /** More mentions never give a smaller value. */
  lemma ScaleMonotone(c1: nat, c2: nat, maxCount: nat)
    requires maxCount >= 1 && c1 <= c2
    ensures Scale(c1, maxCount) <= Scale(c2, maxCount)
  {
    RoundMonotone(maxCount + 4 * c1, maxCount + 4 * c2, maxCount);
  }

  /** The radar values of a skill and interest list, axis by axis. */
  function RadarValues(items: seq<string>): (r: seq<int>)
    ensures |r| == |Categories|
  {
    seq(|Categories|, j requires 0 <= j < |Categories| => Scale(Count(items, Categories[j]), MaxCount(items)))
  }

  /** An axis nobody mentioned reads 1. */
  lemma UnmentionedAxisIsOne(items: seq<string>, j: nat)
    requires j < |Categories| && Count(items, Categories[j]) == 0
    ensures RadarValues(items)[j] == 1
  {
    ScaleEndpoints(MaxCount(items));
  }

  /** An axis with the largest positive count reads 5. */
  lemma TopAxisIsFive(items: seq<string>, j: nat)
    requires j < |Categories| && Count(items, Categories[j]) >= 1
    requires forall k :: 0 <= k < |Categories| ==> Count(items, Categories[k]) <= Count(items, Categories[j])
    ensures RadarValues(items)[j] == 5
  {
    var counts := Counts(items);
    assert counts[j] == Count(items, Categories[j]);
    assert Max(counts) == counts[j];
    ScaleEndpoints(MaxCount(items));
  }

  /** Axes keep the order of their counts. */
  lemma RadarKeepsOrder(items: seq<string>, j: nat, k: nat)
    requires j < |Categories| && k < |Categories|
    requires Count(items, Categories[j]) <= Count(items, Categories[k])
    ensures RadarValues(items)[j] <= RadarValues(items)[k]
  {
    ScaleMonotone(Count(items, Categories[j]), Count(items, Categories[k]), MaxCount(items));
  }

  /**
   * compute_radar_scores: every item of skills then interests adds one to
   * its axis; the counts are scaled against the largest.
   */
  method ComputeRadarScores(skills: seq<string>, interests: seq<string>) returns (categories: seq<string>, scaled: seq<int>)
    ensures categories == Categories
    ensures scaled == RadarValues(skills + interests)
  {
    categories := Categories;
    var items := skills + interests;
    var scores := TallyAxes(items);
    var values := seq(|categories|, j requires 0 <= j < |categories| => scores[categories[j]]);
    assert values == Counts(items);
    var top := Max(values);
    var maxCount := if top >= 1 then top else 1;
    scaled := seq(|categories|, j requires 0 <= j < |categories| => Scale(scores[categories[j]], maxCount));
  }

  /** The counting loop of compute_radar_scores: one score per axis, each the number of items mapped to it. */
  method TallyAxes(items: seq<string>) returns (scores: map<string, nat>)
    ensures scores.Keys == set c | c in Categories
    ensures forall c :: c in Categories ==> scores[c] == Count(items, c)
  {
    scores := map c | c in Categories :: 0;
    AxesAreCategories();
    var i := 0;
    while i < |items|
      invariant 0 <= i <= |items|
      invariant scores.Keys == set c | c in Categories
      invariant forall c :: c in Categories ==> scores[c] == Count(items[..i], c)
    {
      var item := items[i];
      assert items[..i + 1][..i] == items[..i];
      if item in AxisOf {
        var mapped := AxisOf[item];
        scores := scores[mapped := scores[mapped] + 1];
      }
      i := i + 1;
    }
    assert items[..i] == items;
  }

  // ---------------------------------------------------------------------------
  // Statement rows

  /** The "name" entry of a schema column: text, JSON null, or absent. */
  datatype ColumnName = Named(text: string) | NullName | NoName

  /** A schema column. */
  datatype Column = Column(name: ColumnName)

  /** The "result" object of a statement reply; a missing list is `None`. */
  datatype StatementResult = StatementResult(dataArray: Option<seq<seq<Option<string>>>>, columns: Option<seq<Column>>)

  /** A statement reply; `None` when it has no "result". */
  datatype StatementPayload = StatementPayload(result: Option<StatementResult>)

  /** A dictionary key built from a column: a name, or Python's None for a null name. */
  type Key = Option<string>

  /** A row as a dictionary. */
  type Row = map<Key, Option<string>>

  function DefaultColumnName(idx: nat): string {
    "col_" + NatToString(idx)
  }

  /** Different positions give different default names. */
  lemma DefaultNamesDistinct(i: nat, j: nat)
    requires i != j
    ensures DefaultColumnName(i) != DefaultColumnName(j)
  {
    if DefaultColumnName(i) == DefaultColumnName(j) {
      assert NatToString(i) == DefaultColumnName(i)[4..];
      assert NatToString(j) == DefaultColumnName(j)[4..];
      NatToStringInjective(i, j);
    }
  }

  /** `col.get("name", f"col_{idx}")`: the key of column `idx`. */
  function ColumnKey(name: ColumnName, idx: nat): Key {
    match name
    case Named(t) => Some(t)
    case NullName => None
    case NoName => Some(DefaultColumnName(idx))
  }

  function ColumnNames(columns: seq<Column>): (r: seq<Key>)
    ensures |r| == |columns|
    ensures forall j :: 0 <= j < |columns| ==>
      (columns[j].name.Named? ==> r[j] == Some(columns[j].name.text))
      && (columns[j].name.NullName? ==> r[j] == None)
      && (columns[j].name.NoName? ==> r[j] == Some(DefaultColumnName(j)))
  {
    seq(|columns|, j requires 0 <= j < |columns| => ColumnKey(columns[j].name, j))
  }

  function Min(a: nat, b: nat): nat { if a <= b then a else b }

  /** `dict(zip(keys, values))`: pairs up to the shorter list; a repeated key keeps its last value. */
  function ZipDict<K(==), V>(keys: seq<K>, values: seq<V>): (d: map<K, V>)
    ensures d.Keys == set j | 0 <= j < Min(|keys|, |values|) :: keys[j]
    decreases |keys|
  {
    var n := Min(|keys|, |values|);
    if n == 0 then map[]
    else
      var init := keys[..n - 1];
      var d := ZipDict(init, values[..n - 1]);
      assert (set j | 0 <= j < n :: keys[j]) == (set j | 0 <= j < n - 1 :: init[j]) + {keys[n - 1]};
      d[keys[n - 1] := values[n - 1]]
  }

  /** The value of a key is the one paired with its last occurrence. */
  lemma {:induction false} ZipDictLastValue<K, V>(keys: seq<K>, values: seq<V>, j: nat)
    requires j < Min(|keys|, |values|) && LastAt(keys, Min(|keys|, |values|), j)
    ensures keys[j] in ZipDict(keys, values) && ZipDict(keys, values)[keys[j]] == values[j]
    decreases |keys|
  {
    var n := Min(|keys|, |values|);
    if j < n - 1 {
      assert keys[n - 1] != keys[j];
      ZipDictLastValue(keys[..n - 1], values[..n - 1], j);
    }
  }

  /** Position `j` holds the last occurrence of its key among the first `n`. */
  predicate LastAt<K(==)>(keys: seq<K>, n: nat, j: nat)
    requires j < n <= |keys|
  {
    forall k :: j < k < n ==> keys[k] != keys[j]
  }

  /** _databricks_rows_to_dicts: one dictionary per data row, keyed by the column names. */
  function RowsToDicts(payload: StatementPayload): (r: seq<Row>)
    ensures var result := payload.result.GetOr(StatementResult(None, None));
      var data := result.dataArray.GetOr([]);
      |r| == |data|
      && forall i :: 0 <= i < |data| ==> r[i] == ZipDict(ColumnNames(result.columns.GetOr([])), data[i])
  {
    var result := payload.result.GetOr(StatementResult(None, None));
    var data := result.dataArray.GetOr([]);
    var names := ColumnNames(result.columns.GetOr([]));
    seq(|data|, i requires 0 <= i < |data| => ZipDict(names, data[i]))
  }

  /**
   * Column `j`'s value is under column `j`'s key, unless a later column that
   * the row reaches has the same key.
   */
  lemma ColumnValueUnderItsKey(columns: seq<Column>, row: seq<Option<string>>, j: nat)
    requires j < |columns| && j < |row|
    requires forall k :: j < k < Min(|columns|, |row|) ==> ColumnNames(columns)[k] != ColumnNames(columns)[j]
    ensures var d := ZipDict(ColumnNames(columns), row);
      ColumnNames(columns)[j] in d && d[ColumnNames(columns)[j]] == row[j]
  {
    var names := ColumnNames(columns);
    assert LastAt(names, Min(|names|, |row|), j);
    ZipDictLastValue(names, row, j);
  }

  /**
   * Without column names, a row maps "col_<j>" to its j-th value for every
   * position the row and the schema share.
   */
  lemma UnnamedColumnsUseDefaults(columns: seq<Column>, row: seq<Option<string>>, j: nat)
    requires forall k :: 0 <= k < |columns| ==> columns[k].name.NoName?
    requires j < |columns| && j < |row|
    ensures ZipDict(ColumnNames(columns), row)[Some(DefaultColumnName(j))] == row[j]
  {
    var names := ColumnNames(columns);
    var n := Min(|names|, |row|);
    forall k | j < k < n
      ensures names[k] != names[j]
    {
      DefaultNamesDistinct(k, j);
    }
    ColumnValueUnderItsKey(columns, row, j);
  }

  /** A column whose name is null puts its value under None, unless a later column does too. */
  lemma NullNameIsNoneKey(columns: seq<Column>, row: seq<Option<string>>, j: nat)
    requires j < |columns| && j < |row| && columns[j].name.NullName?
    requires forall k :: j < k < Min(|columns|, |row|) ==> !columns[k].name.NullName?
    ensures var d := ZipDict(ColumnNames(columns), row); None in d && d[None] == row[j]
  {
    ColumnValueUnderItsKey(columns, row, j);
  }

  /** A row shorter or longer than the schema is cut to the shorter of the two. */
  lemma ZipTruncates(names: seq<Key>, row: seq<Option<string>>)
    ensures |ZipDict(names, row).Keys| <= Min(|names|, |row|)
  {
    var n := Min(|names|, |row|);
    CardinalityOfImage(names, n);
  }

  lemma {:induction false} CardinalityOfImage(names: seq<Key>, n: nat)
    requires n <= |names|
    ensures |set j | 0 <= j < n :: names[j]| <= n
  {
    if n > 0 {
      CardinalityOfImage(names, n - 1);
      assert (set j | 0 <= j < n :: names[j]) == (set j | 0 <= j < n - 1 :: names[j]) + {names[n - 1]};
    }
  }

  // ---------------------------------------------------------------------------
  // Student records

  /** The comparison form of a name: Python's strip, then lower case; a missing name is "". */
  function NameKey(name: Option<string>): string {
    Lower(PyStrip(name.GetOr("")))
  }

  /** A row's name in comparison form; a row without a name has "". */
  function RowName(row: map<string, string>): string {
    NameKey(if "name" in row then Some(row["name"]) else None)
  }

  /** The first row whose name, as `nameOf` reads it, is `key`, searching from the front. */
  function FirstNamed<R>(rows: seq<R>, nameOf: R -> string, key: string): Option<R> {
    if rows == [] then None
    else if nameOf(rows[0]) == key then Some(rows[0])
    else FirstNamed(rows[1..], nameOf, key)
  }

  /** When nothing is found, no row has the name. */
  lemma {:induction false} NotFoundMeansNoRow<R>(rows: seq<R>, nameOf: R -> string, key: string)
    requires FirstNamed(rows, nameOf, key).None?
    ensures forall i :: 0 <= i < |rows| ==> nameOf(rows[i]) != key
  {
    if rows != [] {
      NotFoundMeansNoRow(rows[1..], nameOf, key);
      assert forall i :: 1 <= i < |rows| ==> rows[i] == rows[1..][i - 1];
    }
  }

  /** A row that is found has the name, and every row before it has another name. */
  lemma {:induction false} FoundIsFirstRow<R>(rows: seq<R>, nameOf: R -> string, key: string) returns (i: nat)
    requires FirstNamed(rows, nameOf, key).Some?
    ensures i < |rows| && rows[i] == FirstNamed(rows, nameOf, key).value && nameOf(rows[i]) == key
    ensures forall j :: 0 <= j < i ==> nameOf(rows[j]) != key
  {
    if nameOf(rows[0]) == key {
      i := 0;
    } else {
      var k := FoundIsFirstRow(rows[1..], nameOf, key);
      i := k + 1;
      assert rows[i] == rows[1..][k];
      assert forall j :: 1 <= j < i ==> rows[j] == rows[1..][j - 1];
    }
  }

  /** The search from position `i` either stops at row `i` or goes on from the next one. */
  lemma FirstNamedFrom<R>(rows: seq<R>, nameOf: R -> string, key: string, i: nat)
    requires i < |rows|
    ensures FirstNamed(rows[i..], nameOf, key)
            == if nameOf(rows[i]) == key then Some(rows[i]) else FirstNamed(rows[i + 1..], nameOf, key)
  {
    assert rows[i..][0] == rows[i] && rows[i..][1..] == rows[i + 1..];
  }

  /** get_student_record: the first row whose name matches the query, else nothing. */
  method GetStudentRecord(name: Option<string>, rows: seq<map<string, string>>) returns (r: Option<map<string, string>>)
    ensures r == FirstNamed(rows, RowName, NameKey(name))
  {
    r := FindFirstNamed(rows, RowName, NameKey(name));
  }

  /** The scan of get_student_record: rows in order, stopping at the first whose name is `key`. */
  method FindFirstNamed<R>(rows: seq<R>, nameOf: R -> string, key: string) returns (r: Option<R>)
    ensures r == FirstNamed(rows, nameOf, key)
  {
    var i := 0;
    while i < |rows|
      invariant 0 <= i <= |rows|
      invariant FirstNamed(rows[i..], nameOf, key) == FirstNamed(rows, nameOf, key)
    {
      var row := rows[i];
      FirstNamedFrom(rows, nameOf, key, i);
      if nameOf(row) == key {
        return Some(row);
      }
      i := i + 1;
    }
    return None;
  }

  // ---------------------------------------------------------------------------
  // Saved lists

  /** save_profile: a list is stored as its items joined by commas. */
  function EncodeList(items: seq<string>): string {
    Join(items, ",")
  }

  function NonEmpty(parts: seq<string>): (r: seq<string>)
    ensures forall j :: 0 <= j < |r| ==> r[j] != "" && exists k :: 0 <= k < |parts| && parts[k] == r[j]
  {
    if parts == [] then []
    else (if parts[0] != "" then [parts[0]] else []) + NonEmpty(parts[1..])
  }

  /** load_profile: the stored text split at commas, empty pieces dropped. */
  function DecodeList(s: string): seq<string> {
    NonEmpty(Split(s, ','))
  }

  predicate CleanItems(items: seq<string>) {
    forall j :: 0 <= j < |items| ==> items[j] != "" && ',' !in items[j]
  }

  lemma {:induction false} NonEmptyKeeps(parts: seq<string>)
    requires forall j :: 0 <= j < |parts| ==> parts[j] != ""
    ensures NonEmpty(parts) == parts
  {
    if parts != [] {
      NonEmptyKeeps(parts[1..]);
    }
  }

  /** Saving then loading gives the list back when no item is empty or holds a comma. */
  lemma DecodeEncode(items: seq<string>)
    requires CleanItems(items)
    ensures DecodeList(EncodeList(items)) == items
  {
    if items != [] {
      SplitJoin(items, ',');
      assert EncodeList(items) == Join(items, [',']);
      NonEmptyKeeps(items);
    }
  }

  /** Every loaded list is clean, so it survives another save and load unchanged. */
  lemma DecodedIsClean(s: string)
    ensures CleanItems(DecodeList(s))
    ensures DecodeList(EncodeList(DecodeList(s))) == DecodeList(s)
  {
    SplitPartsLackSeparator(s, ',');
    DecodeEncode(DecodeList(s));
  }
}
