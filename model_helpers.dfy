/** The column classifier and the automatic configuration of the two model
    families (model_helpers.py, class AutoSyntheticConfigurator).

    The library calls the classifier makes are parameters: `parse` is
    `dateutil.parser.parse(str(value), fuzzy=False)` and `coerce` tells
    whether `pd.to_numeric(..., errors='coerce')` turns a value into a
    number. Success rates are exact rationals. */
module ModelHelpers {
  import opened Common
  import opened Frames

  // ---------------------------------------------------------------------
  // Datetime detection

  /** `success_count` and `total_count` of one column. */
  datatype Rate = Rate(success: nat, total: nat)

  /** `success_count / total_count`, exactly. */
  function RateValue(r: Rate): real
  {
    if r.total == 0 then 0.0 else r.success as real / r.total as real
  }

  /** One entry of the `datetime_success_rate` dictionary, in insertion order. */
  datatype Entry = Entry(column: string, rate: Rate)

  /** What `detect_datetime_column` returns: the chosen column and its rate. */
  datatype Candidate = Candidate(column: Option<string>, rate: Option<real>)

  /** The number of `items` the date parser accepts. */
  function Successes(items: seq<Item>, parse: string -> ParseOutcome): nat
  {
    if items == [] then 0
    else Successes(items[..|items| - 1], parse) + (if parse(Shown(items[|items| - 1])).Parsed? then 1 else 0)
  }

  /** Some item makes the parser raise an exception the detector does not catch. */
  predicate ParseCrashes(items: seq<Item>, parse: string -> ParseOutcome)
  {
    exists x :: x in items && parse(Shown(x)).Crashed?
  }

  predicate AnyParseCrash(columns: seq<Column>, parse: string -> ParseOutcome)
  {
    exists c :: c in columns && ParseCrashes(DistinctItems(c.cells), parse)
  }

  /** The rate a column gets; a column without non-null values gets none. */
  function ColumnRate(c: Column, parse: string -> ParseOutcome): Option<Rate>
  {
    var items := DistinctItems(c.cells);
    if |items| == 0 then None else Some(Rate(Successes(items, parse), |items|))
  }

  /** The `datetime_success_rate` dictionary after the loop over `columns`. */
  function RateEntries(columns: seq<Column>, parse: string -> ParseOutcome): seq<Entry>
  {
    if columns == [] then []
    else
      var last := columns[|columns| - 1];
      RateEntries(columns[..|columns| - 1], parse) +
        match ColumnRate(last, parse)
        case None => []
        case Some(r) => [Entry(last.name, r)]
  }

  /** `max(d, key=d.get, default=None)`: the entries are scanned in order
      and a later entry replaces the current best only when strictly greater. */
  function Best(entries: seq<Entry>): (b: Option<nat>)
    ensures b.None? <==> entries == []
    ensures b.Some? ==> b.value < |entries|
  {
    if entries == [] then None
    else
      var last := |entries| - 1;
      match Best(entries[..last])
      case None => Some(last)
      case Some(i) =>
        if RateValue(entries[last].rate) > RateValue(entries[i].rate) then Some(last) else Some(i)
  }

  /** The pair returned at model_helpers.py:147; an empty column name is
      falsy in Python, so its rate is reported as None. */
  function CandidateOf(entries: seq<Entry>): Candidate
  {
    match Best(entries)
    case None => Candidate(None, None)
    case Some(i) =>
      Candidate(Some(entries[i].column),
                if entries[i].column == "" then None else Some(RateValue(entries[i].rate)))
  }

  /** `detect_datetime_column`, as a value. */
  function DatetimeDetection(f: Frame, parse: string -> ParseOutcome): Result<Candidate>
  {
    if AnyParseCrash(f.columns, parse) then Err(ParseCrash)
    else Ok(CandidateOf(RateEntries(f.columns, parse)))
  }

  /** The inner loop of `detect_datetime_column` over one column's
      distinct values: whether the parser crashed, and how many it accepted. */
  method TallyParses(items: seq<Item>, parse: string -> ParseOutcome) returns (crashed: bool, success: nat)
    ensures crashed == ParseCrashes(items, parse)
    ensures !crashed ==> success == Successes(items, parse)
  {
    var total := 0;
    success := 0;
    for k := 0 to |items|
      invariant total == k
      invariant success == Successes(items[..k], parse)
      invariant !ParseCrashes(items[..k], parse)
    {
      assert items[..k + 1][..k] == items[..k];
      var outcome := parse(Shown(items[k]));
      if outcome.Crashed? {
        assert items[k] in items;
        return true, success;
      }
      if outcome.Parsed? {
        success := success + 1;
      }
      total := total + 1;
    }
    assert items[..|items|] == items;
    crashed := false;
  }

  /** `max(d, key=d.get, default=None)` over the dictionary's entries. */
  method ChooseBest(entries: seq<Entry>) returns (best: Option<nat>)
    ensures best == Best(entries)
  {
    best := None;
    for k := 0 to |entries|
      invariant best == Best(entries[..k])
    {
      assert entries[..k + 1][..k] == entries[..k];
      if best.None? || RateValue(entries[k].rate) > RateValue(entries[best.value].rate) {
        best := Some(k);
      }
    }
    assert entries[..|entries|] == entries;
  }

  method DetectDatetimeColumn(f: Frame, parse: string -> ParseOutcome) returns (r: Result<Candidate>)
    ensures r == DatetimeDetection(f, parse)
  {
    var entries: seq<Entry> := [];
    for j := 0 to |f.columns|
      invariant entries == RateEntries(f.columns[..j], parse)
      invariant !AnyParseCrash(f.columns[..j], parse)
    {
      var column := f.columns[j];
      var items := DistinctItems(column.cells);
      var crashed, success := TallyParses(items, parse);
      if crashed {
        assert column in f.columns;
        return Err(ParseCrash);
      }
      assert f.columns[..j + 1] == f.columns[..j] + [column];
      if |items| > 0 {
        entries := entries + [Entry(column.name, Rate(success, |items|))];
      }
    }
    assert f.columns[..|f.columns|] == f.columns;
    var best := ChooseBest(entries);
    match best
    case None =>
      r := Ok(Candidate(None, None));
    case Some(i) =>
      var name := entries[i].column;
      r := Ok(Candidate(Some(name), if name == "" then None else Some(RateValue(entries[i].rate))));
  }

  /** Every stored rate is `success/total` with `0 <= success <= total` and
      `total > 0`, and belongs to a column that has that rate. */
  lemma {:induction false} RateEntriesAreRates(columns: seq<Column>, parse: string -> ParseOutcome)
    ensures forall e :: e in RateEntries(columns, parse) ==>
      0 < e.rate.total && e.rate.success <= e.rate.total &&
      (exists c :: c in columns && c.name == e.column && ColumnRate(c, parse) == Some(e.rate))
  {
    if columns != [] {
      var front := columns[..|columns| - 1];
      RateEntriesAreRates(front, parse);
      SuccessesBound(DistinctItems(columns[|columns| - 1].cells), parse);
      assert forall c :: c in front ==> c in columns;
    }
  }

  lemma {:induction false} SuccessesBound(items: seq<Item>, parse: string -> ParseOutcome)
    ensures Successes(items, parse) <= |items|
  {
    if items != [] {
      SuccessesBound(items[..|items| - 1], parse);
    }
  }

  /** With distinct column names, a column has an entry exactly when it
      has a non-null value. */
  lemma {:induction false} RateEntryIffNonNull(columns: seq<Column>, parse: string -> ParseOutcome, c: Column)
    requires forall i, j :: 0 <= i < j < |columns| ==> columns[i].name != columns[j].name
    requires c in columns
    ensures (exists e :: e in RateEntries(columns, parse) && e.column == c.name) <==>
            (exists x :: Present(x) in c.cells)
  {
    var front, last := columns[..|columns| - 1], columns[|columns| - 1];
    var entries := RateEntries(columns, parse);
    if c == last {
      DistinctItemsSpec(c.cells);
      if !(exists x :: Present(x) in c.cells) {
        assert DistinctItems(c.cells) == [];
        assert entries == RateEntries(front, parse);
        RateEntriesAreRates(front, parse);
      } else {
        var x :| Present(x) in c.cells;
        assert x in DistinctItems(c.cells);
        assert ColumnRate(c, parse).Some?;
        assert entries[|entries| - 1].column == c.name;
      }
    } else {
      assert c in front;
      RateEntryIffNonNull(front, parse, c);
      if e :| e in RateEntries(front, parse) && e.column == c.name {
        assert e in entries;
      }
    }
  }

  /** The chosen entry has the greatest rate, and every earlier entry has
      a strictly smaller one: ties go to the first column. */
  lemma {:induction false} BestIsFirstMaximum(entries: seq<Entry>)
    requires entries != []
    ensures var i := Best(entries).value;
      (forall j :: 0 <= j < |entries| ==> RateValue(entries[j].rate) <= RateValue(entries[i].rate)) &&
      (forall j :: 0 <= j < i ==> RateValue(entries[j].rate) < RateValue(entries[i].rate))
  {
    var last := |entries| - 1;
    var front := entries[..last];
    if front != [] {
      BestIsFirstMaximum(front);
    }
  }

  /** The detector names no column only when no column has a non-null value,
      and the rate it reports is at least every stored rate. */
  lemma DetectionChoosesMaximum(f: Frame, parse: string -> ParseOutcome)
    requires !AnyParseCrash(f.columns, parse)
    ensures var cand := DatetimeDetection(f, parse).value;
      var entries := RateEntries(f.columns, parse);
      (cand.column.None? <==> entries == []) &&
      (cand.column.Some? ==>
         exists i :: 0 <= i < |entries| && entries[i].column == cand.column.value &&
           (forall e :: e in entries ==> RateValue(e.rate) <= RateValue(entries[i].rate)))
  {
    var entries := RateEntries(f.columns, parse);
    if entries != [] {
      BestIsFirstMaximum(entries);
    }
  }

  // ---------------------------------------------------------------------
  // Numeric detection

  predicate HasAsciiLetter(s: string)
  {
    exists i :: 0 <= i < |s| && IsAsciiLetter(s[i])
  }

  /** `pd.to_numeric(col, errors='coerce')` leaves no NaN (a null counts as
      a failure) and no `str()` form matches `[a-zA-Z]`. */
  predicate IsNumericColumn(c: Column, coerce: Item -> bool)
  {
    (forall cell :: cell in c.cells ==> cell.Present? && coerce(cell.item)) &&
    (forall cell :: cell in c.cells ==> !HasAsciiLetter(StrForm(cell)))
  }

  /** The names of the numeric columns, in column order. */
  function NumericColumns(columns: seq<Column>, coerce: Item -> bool): seq<string>
  {
    if columns == [] then []
    else
      var last := columns[|columns| - 1];
      NumericColumns(columns[..|columns| - 1], coerce) + (if IsNumericColumn(last, coerce) then [last.name] else [])
  }

  /** `names if names != [] else None` */
  function NoneIfEmpty(names: seq<string>): Option<seq<string>>
  {
    if names == [] then None else Some(names)
  }

  method DetectNumericColumns(f: Frame, coerce: Item -> bool) returns (r: Option<seq<string>>)
    ensures r == NoneIfEmpty(NumericColumns(f.columns, coerce))
  {
    var numeric: seq<string> := [];
    for j := 0 to |f.columns|
      invariant numeric == NumericColumns(f.columns[..j], coerce)
    {
      assert f.columns[..j + 1][..j] == f.columns[..j];
      if IsNumericColumn(f.columns[j], coerce) {
        numeric := numeric + [f.columns[j].name];
      }
    }
    assert f.columns[..|f.columns|] == f.columns;
    r := if numeric != [] then Some(numeric) else None;
  }

  /** A name is listed exactly when a numeric column carries it; in
      particular no column with a missing value or a letter is listed. */
  lemma {:induction false} NumericColumnsMembership(columns: seq<Column>, coerce: Item -> bool, name: string)
    ensures name in NumericColumns(columns, coerce) <==>
            exists c :: c in columns && c.name == name && IsNumericColumn(c, coerce)
  {
    if columns != [] {
      var front := columns[..|columns| - 1];
      NumericColumnsMembership(front, coerce, name);
      assert columns == front + [columns[|columns| - 1]];
    }
  }

  // ---------------------------------------------------------------------
  // String detection

  /** `s.replace('.', '', 1)` */
  function RemoveFirstDot(s: string): (r: string)
    ensures '.' in s ==> |r| == |s| - 1
    ensures '.' !in s ==> r == s
  {
    if s == [] then []
    else if s[0] == '.' then s[1..]
    else [s[0]] + RemoveFirstDot(s[1..])
  }

  /** The character removed is the first '.', and the rest keep their order. */
  lemma {:induction false} RemoveFirstDotExact(s: string, i: nat)
    requires i < |s| && s[i] == '.' && '.' !in s[..i]
    ensures RemoveFirstDot(s) == s[..i] + s[i + 1..]
    decreases i
  {
    if i > 0 {
      assert s[0] == s[..i][0];
      assert s[1..][..i - 1] == s[1..i];
      assert '.' !in s[1..][..i - 1] by {
        assert forall c :: c in s[1..i] ==> c in s[..i];
      }
      RemoveFirstDotExact(s[1..], i - 1);
      assert s[..i] == [s[0]] + s[1..][..i - 1];
      assert s[i + 1..] == s[1..][i..];
    }
  }

  /** `str.isdigit()` on ASCII text: non-empty and digits only. */
  predicate IsDigitString(s: string)
  {
    |s| > 0 && forall i :: 0 <= i < |s| ==> IsAsciiDigit(s[i])
  }

  /** A value counts as non-numeric when it is a `str` that is still not
      all digits once its first '.' is removed. */
  predicate NonNumericItem(x: Item)
  {
    x.Text? && !IsDigitString(RemoveFirstDot(x.s))
  }

  function NonNumericCount(items: seq<Item>): nat
  {
    if items == [] then 0
    else NonNumericCount(items[..|items| - 1]) + (if NonNumericItem(items[|items| - 1]) then 1 else 0)
  }

  /** Whether a column is string-like: object dtype and at least half of
      its distinct values non-numeric. An object column without non-null
      values divides by zero. */
  function StringVerdict(c: Column): Result<bool>
  {
    if !c.isObject then Ok(false)
    else
      var items := DistinctItems(c.cells);
      if |items| == 0 then Err(ZeroDivision)
      else Ok(!(2 * NonNumericCount(items) < |items|))
  }

  /** The names of the string-like columns, in column order, or the first
      error met. */
  function StringColumns(columns: seq<Column>): Result<seq<string>>
  {
    if columns == [] then Ok([])
    else
      var last := columns[|columns| - 1];
      match StringColumns(columns[..|columns| - 1])
      case Err(e) => Err(e)
      case Ok(names) =>
        match StringVerdict(last)
        case Err(e) => Err(e)
        case Ok(isString) => Ok(names + if isString then [last.name] else [])
  }

  /** The inner loop of `detect_string_columns`: `non_numeric_count`. */
  method CountNonNumeric(items: seq<Item>) returns (n: nat)
    ensures n == NonNumericCount(items)
  {
    n := 0;
    for k := 0 to |items|
      invariant n == NonNumericCount(items[..k])
    {
      assert items[..k + 1][..k] == items[..k];
      if NonNumericItem(items[k]) {
        n := n + 1;
      }
    }
    assert items[..|items|] == items;
  }

  method DetectStringColumns(f: Frame) returns (r: Result<Option<seq<string>>>)
    ensures r == match StringColumns(f.columns)
                 case Err(e) => Err(e)
                 case Ok(names) => Ok(NoneIfEmpty(names))
  {
    var strings: seq<string> := [];
    for j := 0 to |f.columns|
      invariant StringColumns(f.columns[..j]) == Ok(strings)
    {
      var column := f.columns[j];
      assert f.columns[..j + 1][..j] == f.columns[..j];
      assert f.columns[..j + 1] == f.columns[..j] + [column];
      var isStringLike := true;
      if column.isObject {
        var items := DistinctItems(column.cells);
        var nonNumeric := CountNonNumeric(items);
        if |items| == 0 {
          StringColumnsErrPersists(f.columns, j + 1);
          return Err(ZeroDivision);
        }
        assert StringVerdict(column) == Ok(!(2 * nonNumeric < |items|));
        if 2 * nonNumeric < |items| {
          isStringLike := false;
        }
      } else {
        isStringLike := false;
      }
      assert StringVerdict(column) == Ok(isStringLike);
      assert strings + [] == strings;
      if isStringLike {
        strings := strings + [column.name];
      }
    }
    assert f.columns[..|f.columns|] == f.columns;
    r := Ok(if strings != [] then Some(strings) else None);
  }

  /** Once a column raises, the columns after it are never looked at. */
  lemma {:induction false} StringColumnsErrPersists(columns: seq<Column>, j: nat)
    requires j <= |columns|
    requires StringColumns(columns[..j]).Err?
    ensures StringColumns(columns) == StringColumns(columns[..j])
    decreases |columns| - j
  {
    if j < |columns| {
      assert columns[..j + 1][..j] == columns[..j];
      StringColumnsErrPersists(columns, j + 1);
    } else {
      assert columns[..j] == columns;
    }
  }

  /** The detector fails exactly when an object column has no non-null
      value; otherwise it lists exactly the object columns with
      `2 * nonNumeric >= distinct`. */
  lemma {:induction false} StringColumnsMembership(columns: seq<Column>, name: string)
    ensures StringColumns(columns).Err? <==>
            exists c :: c in columns && c.isObject && DistinctItems(c.cells) == []
    ensures StringColumns(columns).Ok? ==>
            (name in StringColumns(columns).value <==>
             (exists c :: c in columns && c.name == name && c.isObject &&
                2 * NonNumericCount(DistinctItems(c.cells)) >= |DistinctItems(c.cells)|))
  {
    if columns != [] {
      var front := columns[..|columns| - 1];
      StringColumnsMembership(front, name);
      assert columns == front + [columns[|columns| - 1]];
    }
  }

  // ---------------------------------------------------------------------
  // Configuration documents

  /** The literal in `get_dgan_config` before any detection. */
  const DganDefaults: Config := map[
    DfStyle := Str("long"),
    TimeColumn := Null,
    FeatureColumns := Null,
    DiscreteColumns := Null,
    EncodableColumns := Null,
    AttributeColumns := Null,
    ExampleIdColumn := Null,
    MaxSequenceLen := Null,
    SampleLen := Int(1),
    BatchSize := Null,
    ApplyFeatureScaling := Bool(true),
    ApplyExampleScaling := Bool(false),
    UseAttributeDiscriminator := Bool(false),
    GeneratorLearningRate := Dec(1, -4),
    DiscriminatorLearningRate := Dec(1, -4),
    Epochs := Int(500),
    Cuda := Bool(true)
  ]

  /** The literal in `get_ctgan_config`. */
  const CtganDefaults: Config := map[
    Metadata := Null,
    MetadataIsValid := Null,
    EnforceMinMaxValues := Bool(true),
    EnforceRounding := Bool(true),
    Locales := Null,
    EmbeddingDim := Int(128),
    GeneratorDim := IntPair(256, 256),
    DiscriminatorDim := IntPair(256, 256),
    GeneratorLr := Dec(2, -4),
    GeneratorDecay := Dec(1, -6),
    DiscriminatorLr := Dec(2, -4),
    DiscriminatorDecay := Dec(1, -6),
    BatchSize := Int(500),
    DiscriminatorSteps := Int(1),
    LogFrequency := Bool(true),
    Verbose := Bool(true),
    Epochs := Int(300),
    Pac := Int(10),
    Cuda := Bool(true)
  ]

  /** The keys `get_dgan_config` may change. */
  const DetectedKeys: set<Key> :=
    {TimeColumn, FeatureColumns, EncodableColumns, MaxSequenceLen, BatchSize}

  function Min(a: int, b: int): int
  {
    if a <= b then a else b
  }

  /** A column name, or None, as a configuration value. */
  function NameValue(name: Option<string>): Value
  {
    match name
    case None => Null
    case Some(n) => Str(n)
  }

  /** `list.remove(x)`: drops the first occurrence. */
  function RemoveFirst(xs: seq<string>, x: string): (r: seq<string>)
    ensures x in xs ==> |r| == |xs| - 1
    ensures x !in xs ==> r == xs
    ensures forall y :: y in r ==> y in xs
  {
    if xs == [] then []
    else if xs[0] == x then xs[1..]
    else [xs[0]] + RemoveFirst(xs[1..], x)
  }

  /** `list.remove` drops the first occurrence and keeps the order of the
      rest. */
  lemma {:induction false} RemoveFirstDropsFirst(xs: seq<string>, x: string, i: nat)
    requires i < |xs| && xs[i] == x && x !in xs[..i]
    ensures RemoveFirst(xs, x) == xs[..i] + xs[i + 1..]
  {
    if i > 0 {
      var tail := xs[1..];
      assert tail[..i - 1] == xs[1..i];
      assert xs[..i] == [xs[0]] + xs[1..i];
      RemoveFirstDropsFirst(tail, x, i - 1);
      assert xs[i + 1..] == tail[i..];
    }
  }

  /** The encodable columns: the string-like ones without the time column. */
  function Encodable(strings: seq<string>, time: Option<string>): seq<string>
  {
    if time.Some? && time.value in strings then RemoveFirst(strings, time.value) else strings
  }

  /** The keys the column detection assigns. */
  const RoleKeys: set<Key> := {TimeColumn, FeatureColumns, EncodableColumns}

  /** The column part of `get_dgan_config` (model_helpers.py:99-118, and
      the same code at helpers.py:30-49) applied to the document `base`:
      `time_column` is always assigned, because the detector's pair is
      truthy; `feature_columns` is assigned when numeric columns exist;
      when string-like columns exist the time column is removed from
      them, they become `encodable_columns`, and `feature_columns +=
      encodable_columns` raises when `feature_columns` is still None. */
  function ColumnRoles(base: Config, f: Frame, parse: string -> ParseOutcome, coerce: Item -> bool): Result<Config>
    requires FeatureColumns in base
  {
    match DatetimeDetection(f, parse)
    case Err(e) => Err(e)
    case Ok(cand) =>
      var timed := base[TimeColumn := NameValue(cand.column)];
      var numeric := NumericColumns(f.columns, coerce);
      var featured := if numeric != [] then timed[FeatureColumns := StrList(numeric)] else timed;
      match StringColumns(f.columns)
      case Err(e) => Err(e)
      case Ok(strings) =>
        if strings == [] then Ok(featured)
        else
          var encodable := Encodable(strings, cand.column);
          var encoded := featured[EncodableColumns := StrList(encodable)];
          match encoded[FeatureColumns]
          case StrList(existing) => Ok(encoded[FeatureColumns := StrList(existing + encodable)])
          case _ => Err(TypeError)
  }

  method AssignColumnRoles(base: Config, f: Frame, parse: string -> ParseOutcome, coerce: Item -> bool)
    returns (r: Result<Config>)
    requires FeatureColumns in base
    ensures r == ColumnRoles(base, f, parse, coerce)
  {
    var config := base;
    var datetime := DetectDatetimeColumn(f, parse);
    if datetime.Err? {
      return Err(datetime.error);
    }
    config := config[TimeColumn := NameValue(datetime.value.column)];
    var features := DetectNumericColumns(f, coerce);
    if features.Some? {
      config := config[FeatureColumns := StrList(features.value)];
    }
    var strings := DetectStringColumns(f);
    if strings.Err? {
      return Err(strings.error);
    }
    if strings.value.Some? {
      var encodable := strings.value.value;
      var time := config[TimeColumn];
      if time.Str? && time.s in encodable {
        encodable := RemoveFirst(encodable, time.s);
      }
      config := config[EncodableColumns := StrList(encodable)];
      match config[FeatureColumns]
      case StrList(existing) =>
        config := config[FeatureColumns := StrList(existing + encodable)];
      case _ =>
        return Err(TypeError);
    }
    r := Ok(config);
  }

  /** The literal with `max_sequence_len = rows // 4` and
      `batch_size = min(100, columns)`. */
  function SizedDefaults(f: Frame): Config
  {
    DganDefaults[MaxSequenceLen := Int(f.rows / 4)][BatchSize := Int(Min(100, |f.columns|))]
  }

  /** The document `get_dgan_config` returns, or the exception it raises. */
  function DganConfig(f: Frame, parse: string -> ParseOutcome, coerce: Item -> bool): Result<Config>
  {
    ColumnRoles(SizedDefaults(f), f, parse, coerce)
  }

  /** `get_dgan_config`: fills the literal in place, step by step. */
  method GetDganConfig(f: Frame, parse: string -> ParseOutcome, coerce: Item -> bool) returns (r: Result<Config>)
    ensures r == DganConfig(f, parse, coerce)
  {
    var config := DganDefaults;
    config := config[MaxSequenceLen := Int(f.rows / 4)];
    config := config[BatchSize := Int(Min(100, |f.columns|))];
    r := AssignColumnRoles(config, f, parse, coerce);
  }

  /** The column step changes only `RoleKeys`, adds no key beyond them,
      and what it writes there depends on `base` only through
      `feature_columns` and `encodable_columns`. */
  lemma ColumnRolesFrame(base: Config, other: Config, f: Frame, parse: string -> ParseOutcome, coerce: Item -> bool)
    requires RoleKeys <= base.Keys && RoleKeys <= other.Keys
    requires base[FeatureColumns] == other[FeatureColumns]
    requires base[EncodableColumns] == other[EncodableColumns]
    ensures ColumnRoles(base, f, parse, coerce).Ok? == ColumnRoles(other, f, parse, coerce).Ok?
    ensures ColumnRoles(base, f, parse, coerce).Ok? ==>
      var r := ColumnRoles(base, f, parse, coerce).value;
      var r' := ColumnRoles(other, f, parse, coerce).value;
      r.Keys == base.Keys &&
      (forall k :: k in base && k !in RoleKeys ==> r[k] == base[k]) &&
      (forall k :: k in RoleKeys ==> k in r' && r[k] == r'[k])
  {
  }

  /** What the document says about the columns: `time_column` is the
      detector's column (possibly None), `encodable_columns` are the
      string-like columns without it, and `feature_columns` are the
      numeric columns followed by the encodable ones; every key outside
      `DetectedKeys` keeps its literal value. */
  lemma DganConfigContents(f: Frame, parse: string -> ParseOutcome, coerce: Item -> bool)
    requires DganConfig(f, parse, coerce).Ok?
    ensures var cfg := DganConfig(f, parse, coerce).value;
      var cand := DatetimeDetection(f, parse).value;
      var strings := StringColumns(f.columns).value;
      var numeric := NumericColumns(f.columns, coerce);
      cfg.Keys == DganDefaults.Keys &&
      (forall k :: k in cfg && k !in DetectedKeys ==> cfg[k] == DganDefaults[k]) &&
      cfg[MaxSequenceLen] == Int(f.rows / 4) &&
      cfg[BatchSize] == Int(Min(100, |f.columns|)) &&
      cfg[TimeColumn] == NameValue(cand.column) &&
      (strings == [] ==> cfg[EncodableColumns] == Null && cfg[FeatureColumns] == NoneOrList(numeric)) &&
      (strings != [] ==>
         numeric != [] &&
         cfg[EncodableColumns] == StrList(Encodable(strings, cand.column)) &&
         cfg[FeatureColumns] == StrList(numeric + Encodable(strings, cand.column)))
  {
    SizedDefaultsShape(f);
    ColumnRolesContents(SizedDefaults(f), f, parse, coerce);
  }

  /** The sized literal keeps the literal's keys, leaves the column roles
      None, and differs from the literal only in the two sizes. */
  lemma SizedDefaultsShape(f: Frame)
    ensures RoleKeys <= SizedDefaults(f).Keys
    ensures SizedDefaults(f)[FeatureColumns] == Null && SizedDefaults(f)[EncodableColumns] == Null
    ensures SizedDefaults(f).Keys == DganDefaults.Keys
    ensures forall k :: k in SizedDefaults(f) && k !in DetectedKeys ==> SizedDefaults(f)[k] == DganDefaults[k]
    ensures SizedDefaults(f)[MaxSequenceLen] == Int(f.rows / 4)
    ensures SizedDefaults(f)[BatchSize] == Int(Min(100, |f.columns|))
  {
  }

  /** DganConfigContents for any literal that leaves the column roles
      as None. */
  lemma ColumnRolesContents(base: Config, f: Frame, parse: string -> ParseOutcome, coerce: Item -> bool)
    requires RoleKeys <= base.Keys
    requires base[FeatureColumns] == Null && base[EncodableColumns] == Null
    requires ColumnRoles(base, f, parse, coerce).Ok?
    ensures var cfg := ColumnRoles(base, f, parse, coerce).value;
      var cand := DatetimeDetection(f, parse).value;
      var strings := StringColumns(f.columns).value;
      var numeric := NumericColumns(f.columns, coerce);
      cfg.Keys == base.Keys &&
      (forall k :: k in cfg && k !in RoleKeys ==> cfg[k] == base[k]) &&
      cfg[TimeColumn] == NameValue(cand.column) &&
      (strings == [] ==> cfg[EncodableColumns] == Null && cfg[FeatureColumns] == NoneOrList(numeric)) &&
      (strings != [] ==>
         numeric != [] &&
         cfg[EncodableColumns] == StrList(Encodable(strings, cand.column)) &&
         cfg[FeatureColumns] == StrList(numeric + Encodable(strings, cand.column)))
  {
    var cand := DatetimeDetection(f, parse).value;
    var strings := StringColumns(f.columns).value;
    var numeric := NumericColumns(f.columns, coerce);
    var timed := base[TimeColumn := NameValue(cand.column)];
    var featured := if numeric != [] then timed[FeatureColumns := StrList(numeric)] else timed;
    assert featured.Keys == base.Keys;
    assert featured[FeatureColumns] == NoneOrList(numeric);
    if strings != [] {
      var encodable := Encodable(strings, cand.column);
      var encoded := featured[EncodableColumns := StrList(encodable)];
      assert ColumnRoles(base, f, parse, coerce).value == encoded[FeatureColumns := StrList(numeric + encodable)];
    }
  }

  function NoneOrList(names: seq<string>): Value
  {
    if names == [] then Null else StrList(names)
  }

  /** The configurator fails exactly when the parser crashes, an object
      column has no value, or there are string-like columns but no
      numeric ones. */
  lemma DganConfigFails(f: Frame, parse: string -> ParseOutcome, coerce: Item -> bool)
    ensures DganConfig(f, parse, coerce).Err? <==>
      AnyParseCrash(f.columns, parse) ||
      (exists c :: c in f.columns && c.isObject && DistinctItems(c.cells) == []) ||
      (StringColumns(f.columns).Ok? && StringColumns(f.columns).value != [] &&
       NumericColumns(f.columns, coerce) == [])
  {
    SizedDefaultsShape(f);
    ColumnRolesFails(SizedDefaults(f), f, parse, coerce);
  }

  /** DganConfigFails for any literal that leaves `feature_columns` as None. */
  lemma ColumnRolesFails(base: Config, f: Frame, parse: string -> ParseOutcome, coerce: Item -> bool)
    requires FeatureColumns in base && base[FeatureColumns] == Null
    ensures ColumnRoles(base, f, parse, coerce).Err? <==>
      AnyParseCrash(f.columns, parse) ||
      (exists c :: c in f.columns && c.isObject && DistinctItems(c.cells) == []) ||
      (StringColumns(f.columns).Ok? && StringColumns(f.columns).value != [] &&
       NumericColumns(f.columns, coerce) == [])
  {
    StringColumnsMembership(f.columns, "");
  }

  /** On a frame with distinct column names the time column is never
      among the encodable columns. */
  lemma {:induction false} TimeColumnNotEncodable(f: Frame, parse: string -> ParseOutcome, coerce: Item -> bool)
    requires Valid(f)
    requires DganConfig(f, parse, coerce).Ok?
    requires DganConfig(f, parse, coerce).value[TimeColumn].Str?
    requires DganConfig(f, parse, coerce).value[EncodableColumns].StrList?
    ensures DganConfig(f, parse, coerce).value[TimeColumn].s !in
            DganConfig(f, parse, coerce).value[EncodableColumns].items
  {
    var cand := DatetimeDetection(f, parse).value;
    var strings := StringColumns(f.columns).value;
    DganConfigContents(f, parse, coerce);
    StringColumnsDistinct(f.columns);
    RemoveFirstRemoves(strings, cand.column.value);
  }

  /** With distinct column names, the string-like names are distinct. */
  lemma {:induction false} StringColumnsDistinct(columns: seq<Column>)
    requires forall i, j :: 0 <= i < j < |columns| ==> columns[i].name != columns[j].name
    requires StringColumns(columns).Ok?
    ensures var names := StringColumns(columns).value;
      forall i, j :: 0 <= i < j < |names| ==> names[i] != names[j]
  {
    if columns != [] {
      var front, last := columns[..|columns| - 1], columns[|columns| - 1];
      StringColumnsDistinct(front);
      StringColumnsMembership(front, last.name);
    }
  }

  lemma {:induction false} RemoveFirstRemoves(xs: seq<string>, x: string)
    requires forall i, j :: 0 <= i < j < |xs| ==> xs[i] != xs[j]
    ensures x !in RemoveFirst(xs, x)
  {
    if xs != [] && xs[0] != x {
      RemoveFirstRemoves(xs[1..], x);
    }
  }

  /** `get_ctgan_config`: the fixed literal with the metadata SDV inferred
      (`None` when inference raised) and whether it validated. */
  function GetCtganConfig(metadata: Option<Value>, metadataIsValid: bool): (r: Result<Config>)
    ensures r.Err? <==> metadata.None?
    ensures r.Ok? ==>
      r.value.Keys == CtganDefaults.Keys &&
      r.value[Metadata] == metadata.value &&
      r.value[MetadataIsValid] == Bool(metadataIsValid) &&
      (forall k :: k in CtganDefaults && k != Metadata && k != MetadataIsValid ==> r.value[k] == CtganDefaults[k])
  {
    match metadata
    case None => Err(Failed("metadata detection"))
    case Some(m) => Ok(CtganDefaults[Metadata := m][MetadataIsValid := Bool(metadataIsValid)])
  }
}

