/** The sequence-model trainer wrapper (dgan_model.py, class DGANER): the
    resolution of 'default' sizes, the ordinal encoding of the encodable
    columns before training, the number of sequences asked of the model,
    and the decoding of the generated columns.

    The gretel model itself (training and `generate_dataframe`) and
    sklearn's `OrdinalEncoder` category list are parameters. */
module DganModel {
  import opened Common
  import opened Frames
  import opened ModelHelpers
  import opened LegacyHelpers

  // ---------------------------------------------------------------------
  // Data

  /** A value in the trainer's data frame: NaN, a number the encoder or
      the model produced, or a value read from the CSV. */
  datatype Datum = Nan | Num(x: real) | Val(item: Item)

  /** The data frame, column name to cells. */
  type Table = map<string, seq<Datum>>

  /** One entry of `encodable_encoding_mappings`: a column and the
      categories the encoder learnt for it (`encoder.categories_[0]`). */
  datatype Mapping = Mapping(column: string, categories: seq<Datum>)

  function DatumOf(c: Cell): Datum
  {
    match c
    case Missing => Nan
    case Present(x) => Val(x)
  }

  /** `pd.read_csv(file_path)` as the trainer sees it. */
  function TableOf(columns: seq<Column>): (t: Table)
    ensures forall c :: c in columns ==> c.name in t
    ensures forall name :: name in t ==> exists c :: c in columns && c.name == name
  {
    if columns == [] then map[]
    else
      var last := columns[|columns| - 1];
      TableOf(columns[..|columns| - 1])[last.name := seq(|last.cells|, i requires 0 <= i < |last.cells| => DatumOf(last.cells[i]))]
  }

  // ---------------------------------------------------------------------
  // Construction

  /** The configuration keys `__init__` reads, in the order it reads them. */
  const InitKeys: seq<Key> := [
    DfStyle, ExampleIdColumn, FeatureColumns, AttributeColumns, DiscreteColumns,
    EncodableColumns, TimeColumn, MaxSequenceLen, SampleLen, BatchSize,
    ApplyFeatureScaling, ApplyExampleScaling, UseAttributeDiscriminator,
    GeneratorLearningRate, DiscriminatorLearningRate, Epochs, Cuda
  ]

  /** The first key of `keys` missing from `config`: the KeyError `__init__` raises. */
  function FirstMissing(keys: seq<Key>, config: Config): (r: Option<Key>)
    ensures r.None? <==> forall k :: k in keys ==> k in config
    ensures r.Some? ==> r.value in keys && r.value !in config
  {
    if keys == [] then None
    else if keys[0] !in config then Some(keys[0])
    else FirstMissing(keys[1..], config)
  }

  /** The configuration names the three sizes `__init__` resolves. */
  predicate HasSizeKeys(config: Config)
  {
    MaxSequenceLen in config && SampleLen in config && BatchSize in config
  }

  /** The sizes handed to `DGANConfig`. */
  datatype Settings = Settings(maxSequenceLen: Value, sampleLen: Value, batchSize: Value)

  /** `fallback if v == 'default' else v` */
  function Resolve(v: Value, fallback: int): Value
  {
    if v == DefaultMarker then Int(fallback) else v
  }

  /** The sizes `__init__` passes to the model: a 'default' length is half
      the rows, a 'default' sample length 1, a 'default' batch
      `min(100, columns)`; any other value is passed through. */
  function ResolvedSettings(config: Config, rows: nat, cols: nat): Settings
    requires HasSizeKeys(config)
  {
    Settings(Resolve(config[MaxSequenceLen], rows / 2),
             Resolve(config[SampleLen], 1),
             Resolve(config[BatchSize], Min(100, cols)))
  }

  /** How the wrapper is built: from a configuration document, or in load
      mode from the saved `dgan_config.json` and `encoding_mappings.pkl`. */
  datatype Source = Given(config: Config) | Loaded(config: Config, saved: seq<Mapping>)

  // ---------------------------------------------------------------------
  // Encoding before training

  /** `for column in self.encodable_columns`, as written: None and numbers
      are not iterable, and a string iterates over its characters. */
  function ColumnsToEncodeAsWritten(v: Value): Result<seq<string>>
  {
    match v
    case StrList(names) => Ok(names)
    case Str(s) => Ok(seq(|s|, i requires 0 <= i < |s| => [s[i]]))
    case _ => Err(TypeError)
  }

  /** The evidently intended loop: a configuration without string-like
      columns (`encodable_columns` None) encodes nothing. */
  function ColumnsToEncode(v: Value): (r: Result<seq<string>>)
    ensures v == Null ==> r == Ok([])
    ensures v != Null ==> r == ColumnsToEncodeAsWritten(v)
  {
    if v == Null then Ok([]) else ColumnsToEncodeAsWritten(v)
  }

  /** The first index of `x` in `cats`. */
  function IndexOf(cats: seq<Datum>, x: Datum): (i: nat)
    requires x in cats
    ensures i < |cats| && cats[i] == x
    ensures forall j :: 0 <= j < i ==> cats[j] != x
  {
    if cats[0] == x then 0 else 1 + IndexOf(cats[1..], x)
  }

  /** `encoder.fit_transform` on one column: each present value becomes
      the index of its category. A missing cell stays NaN, even though the
      learnt categories list NaN last; a value outside the categories is
      shown as NaN too. */
  function Encode(cells: seq<Datum>, cats: seq<Datum>): (r: seq<Datum>)
    ensures |r| == |cells|
    ensures forall i :: 0 <= i < |cells| ==> (r[i] == Nan <==> cells[i] == Nan || cells[i] !in cats)
  {
    seq(|cells|, i requires 0 <= i < |cells| =>
      if cells[i] == Nan then Nan
      else if cells[i] in cats then Num(IndexOf(cats, cells[i]) as real) else Nan)
  }

  /** `mappings[column] = cats` on an insertion-ordered dictionary. */
  function Assign(ms: seq<Mapping>, column: string, cats: seq<Datum>): (r: seq<Mapping>)
    ensures (exists i :: 0 <= i < |ms| && ms[i].column == column) ==> |r| == |ms|
    ensures (forall i :: 0 <= i < |ms| ==> ms[i].column != column) ==> r == ms + [Mapping(column, cats)]
  {
    if ms == [] then [Mapping(column, cats)]
    else if ms[0].column == column then [Mapping(column, cats)] + ms[1..]
    else [ms[0]] + Assign(ms[1..], column, cats)
  }

  /** A column already in the dictionary keeps its place: its mapping is
      replaced and every other mapping stays where it was. */
  lemma {:induction false} AssignReplaces(ms: seq<Mapping>, column: string, cats: seq<Datum>, i: nat)
    requires i < |ms| && ms[i].column == column
    requires forall j :: 0 <= j < i ==> ms[j].column != column
    ensures Assign(ms, column, cats) == ms[..i] + [Mapping(column, cats)] + ms[i + 1..]
  {
    if i > 0 {
      var tail := ms[1..];
      assert forall j :: 0 <= j < i - 1 ==> tail[j] == ms[j + 1];
      AssignReplaces(tail, column, cats, i - 1);
      assert ms[..i] == [ms[0]] + tail[..i - 1];
      assert ms[i + 1..] == tail[i..];
    }
  }

  /** The wrapper's data and mappings part way through `train`, and the
      exception that stopped it, if any. */
  datatype Progress = Progress(data: Table, mappings: seq<Mapping>, error: Option<Error>)

  /** The mapping loop of `train` over `columns`, from `data` and an empty
      dictionary; it stops at the first column missing from the frame. */
  function EncodeColumns(columns: seq<string>, data: Table, categorize: seq<Datum> -> seq<Datum>): Progress
  {
    if columns == [] then Progress(data, [], None)
    else
      var p := EncodeColumns(columns[..|columns| - 1], data, categorize);
      var column := columns[|columns| - 1];
      if p.error.Some? then p
      else if column !in p.data then Progress(p.data, p.mappings, Some(KeyError(column)))
      else
        var cats := categorize(p.data[column]);
        Progress(p.data[column := Encode(p.data[column], cats)], Assign(p.mappings, column, cats), None)
  }

  /** What `train` leaves behind, with the loop header corrected. */
  function Training(encodable: Value, data: Table, categorize: seq<Datum> -> seq<Datum>): Progress
  {
    match ColumnsToEncode(encodable)
    case Err(e) => Progress(data, [], Some(e))
    case Ok(columns) => EncodeColumns(columns, data, categorize)
  }

  /** What `train` leaves behind, as written. */
  function TrainingAsWritten(encodable: Value, data: Table, categorize: seq<Datum> -> seq<Datum>): Progress
  {
    match ColumnsToEncodeAsWritten(encodable)
    case Err(e) => Progress(data, [], Some(e))
    case Ok(columns) => EncodeColumns(columns, data, categorize)
  }

  /** The corrected loop header differs from the written one only on None:
      there it encodes nothing, where the written one raises TypeError. */
  lemma TrainingCorrectsOnlyNull(v: Value, data: Table, categorize: seq<Datum> -> seq<Datum>)
    ensures v != Null ==> Training(v, data, categorize) == TrainingAsWritten(v, data, categorize)
    ensures Training(Null, data, categorize) == Progress(data, [], None)
    ensures TrainingAsWritten(Null, data, categorize) == Progress(data, [], Some(TypeError))
  {
  }

  // ---------------------------------------------------------------------
  // Generation

  /** `x.astype(int)`: truncation toward zero. */
  function Truncate(x: real): int
  {
    if x >= 0.0 then x.Floor else -((-x).Floor)
  }

  /** `inverse_mapping.get(i)`, with NaN for an index outside the categories. */
  function Decode(i: int, cats: seq<Datum>): Datum
  {
    if 0 <= i < |cats| then cats[i] else Nan
  }

  predicate AllNumbers(cells: seq<Datum>)
  {
    forall i :: 0 <= i < |cells| ==> cells[i].Num?
  }

  /** One column reverted: `astype(int)` (which refuses NaN and text),
      then the inverse mapping. */
  function RevertColumn(cells: seq<Datum>, cats: seq<Datum>): (r: Result<seq<Datum>>)
    ensures r.Ok? ==> |r.value| == |cells|
  {
    if !AllNumbers(cells) then Err(Failed("astype(int)"))
    else Ok(seq(|cells|, i requires 0 <= i < |cells| => Decode(Truncate(cells[i].x), cats)))
  }

  /** The reverting loop over the mappings in insertion order. */
  function RevertAll(t: Table, ms: seq<Mapping>): Result<Table>
  {
    if ms == [] then Ok(t)
    else
      var m := ms[|ms| - 1];
      match RevertAll(t, ms[..|ms| - 1])
      case Err(e) => Err(e)
      case Ok(t') =>
        if m.column !in t' then Err(KeyError(m.column))
        else
          match RevertColumn(t'[m.column], m.categories)
          case Err(e) => Err(e)
          case Ok(c) => Ok(t'[m.column := c])
  }

  /** `n * length` for the loop test, where the length is a configuration
      value: a bool multiplies as 0 or 1; None, text and lists make the
      comparison with the requested count raise TypeError. */
  function LengthOf(v: Value): Option<int>
  {
    match v
    case Int(i) => Some(i)
    case Bool(b) => Some(if b then 1 else 0)
    case _ => None
  }

  /** The count loop stops: a positive length, or nothing requested. */
  predicate CountStops(v: Value, num: int)
  {
    LengthOf(v).Some? ==> LengthOf(v).value > 0 || num <= 0
  }

  /** `ceil(num / length)` for a positive length, and 0 when nothing is requested. */
  function CeilDiv(num: int, length: int): nat
    requires length > 0 || num <= 0
  {
    if num <= 0 then 0 else (num + length - 1) / length
  }

  /** The number of sequences asked of the model for a length value. */
  function SequenceCountFor(v: Value, num: int): Result<nat>
    requires CountStops(v, num)
  {
    match LengthOf(v)
    case None => Err(TypeError)
    case Some(length) => Ok(CeilDiv(num, length))
  }

  /** The loop as written reads the length from the configuration document,
      where the older configurator left 'default'. */
  function GenerationCountAsWritten(config: Config, num: int): Result<nat>
    requires MaxSequenceLen in config && CountStops(config[MaxSequenceLen], num)
  {
    SequenceCountFor(config[MaxSequenceLen], num)
  }

  /** The evidently intended count: the length the model was built with. */
  function GenerationCount(settings: Settings, num: int): Result<nat>
    requires CountStops(settings.maxSequenceLen, num)
  {
    SequenceCountFor(settings.maxSequenceLen, num)
  }

  /** `generate_synthetic_data_df`: the generated frame, reverted when the
      configuration lists encodable columns. */
  function Generation(settings: Settings, encodable: Value, ms: seq<Mapping>, num: int, generate: nat -> Table): Result<Table>
    requires CountStops(settings.maxSequenceLen, num)
  {
    match GenerationCount(settings, num)
    case Err(e) => Err(e)
    case Ok(n) => if Truthy(encodable) then RevertAll(generate(n), ms) else Ok(generate(n))
  }

  /** The least n >= 0 with `n * length >= num`, found by counting up. */
  method SequenceCount(length: int, num: int) returns (n: nat)
    requires length > 0 || num <= 0
    ensures n * length >= num
    ensures forall m: nat :: m < n ==> m * length < num
  {
    n := 0;
    while n * length < num
      invariant length <= 0 ==> n == 0
      invariant forall m: nat :: m < n ==> m * length < num
      decreases num - n * length
    {
      n := n + 1;
    }
  }

  /** Where the length is not positive and rows are requested, no count
      reaches the request: the loop at dgan_model.py:77-80 never stops. */
  lemma CountNeverStops(length: int, num: int)
    requires length <= 0 < num
    ensures forall n: nat :: n * length < num
  {
  }

  /** The newer configurator's length is `rows // 4`, so for a frame of
      fewer than four rows the trainer is built with length 0, and a
      request for rows cannot be met. */
  lemma SmallFrameNeverStops(f: Frame, parse: string -> ParseOutcome, coerce: Item -> bool, num: int)
    requires DganConfig(f, parse, coerce).Ok?
    requires f.rows < 4 && 0 < num
    ensures var cfg := DganConfig(f, parse, coerce).value;
      HasSizeKeys(cfg) &&
      ResolvedSettings(cfg, f.rows, |f.columns|).maxSequenceLen == Int(0) &&
      !CountStops(ResolvedSettings(cfg, f.rows, |f.columns|).maxSequenceLen, num) &&
      forall n: nat :: n * LengthOf(ResolvedSettings(cfg, f.rows, |f.columns|).maxSequenceLen).value < num
  {
    ResolvedSizes(f, parse, coerce, f.rows, |f.columns|);
    var length := ResolvedSettings(DganConfig(f, parse, coerce).value, f.rows, |f.columns|).maxSequenceLen;
    assert length == Int(0) && LengthOf(length) == Some(0);
    CountNeverStops(0, num);
  }

  /** The count is the ceiling of `num / length`. */
  lemma CountIsCeiling(length: int, num: int, n: nat)
    requires length > 0 || num <= 0
    requires n * length >= num
    requires forall m: nat :: m < n ==> m * length < num
    ensures n == CeilDiv(num, length)
  {
    if num > 0 {
      var q := (num + length - 1) / length;
      var r := (num + length - 1) % length;
      assert num + length - 1 == q * length + r && 0 <= r < length;
      assert q * length >= num;
      assert (q - 1) * length == q * length - length;
      assert (q - 1) * length < num;
      // q is the least such count: n is not above it, and not below it
      assert q < n ==> q * length < num;
      MultiplyMonotone(n, q - 1, length);
    } else {
      var zero: nat := 0;
      assert zero < n ==> zero * length < num;
    }
  }

  lemma MultiplyMonotone(a: nat, b: nat, length: int)
    requires length > 0
    ensures a <= b ==> a * length <= b * length
  {
  }

  // ---------------------------------------------------------------------
  // The wrapper

  class Dganer {
    /** `main_config`, kept unchanged and saved as `dgan_config.json`. */
    var config: Config
    /** `encodable_encoding_mappings` */
    var mappings: seq<Mapping>
    /** `data_df` */
    var data: Table
    /** The sizes the model was built with. */
    var settings: Settings
    /** `self.encodable_columns`, read from the configuration. */
    var encodable: Value

    constructor (config: Config, mappings: seq<Mapping>, f: Frame)
      requires FirstMissing(InitKeys, config).None?
      ensures this.config == config && this.mappings == mappings
      ensures data == TableOf(f.columns)
      ensures settings == ResolvedSettings(config, f.rows, |f.columns|)
      ensures encodable == config[EncodableColumns]
    {
      this.config := config;
      this.mappings := mappings;
      encodable := config[EncodableColumns];
      data := TableOf(f.columns);
      settings := Settings(
        if config[MaxSequenceLen] == DefaultMarker then Int(f.rows / 2) else config[MaxSequenceLen],
        if config[SampleLen] == DefaultMarker then Int(1) else config[SampleLen],
        if config[BatchSize] == DefaultMarker then Int(Min(100, |f.columns|)) else config[BatchSize]);
    }

    /** `DGANER(file_path, main_config)`: a given document starts with no
        mappings, load mode takes the saved ones; a missing key raises
        KeyError before the model is built. */
    static method Create(source: Source, f: Frame) returns (r: Result<Dganer>)
      ensures r.Err? <==> FirstMissing(InitKeys, source.config).Some?
      ensures r.Err? ==> r.error == KeyError(KeyName(FirstMissing(InitKeys, source.config).value))
      ensures r.Ok? ==>
        fresh(r.value) &&
        r.value.config == source.config &&
        r.value.mappings == (if source.Given? then [] else source.saved) &&
        r.value.data == TableOf(f.columns) &&
        r.value.settings == ResolvedSettings(source.config, f.rows, |f.columns|) &&
        r.value.encodable == source.config[EncodableColumns]
    {
      var missing := FirstMissing(InitKeys, source.config);
      if missing.Some? {
        return Err(KeyError(KeyName(missing.value)));
      }
      var d := new Dganer(source.config, if source.Given? then [] else source.saved, f);
      r := Ok(d);
    }

    /** `train` up to the model call: resets the mappings, then encodes
        each encodable column and records its categories. */
    method Train(categorize: seq<Datum> -> seq<Datum>) returns (error: Option<Error>)
      modifies this
      ensures var p := Training(old(encodable), old(data), categorize);
        data == p.data && mappings == p.mappings && error == p.error
      ensures config == old(config) && settings == old(settings) && encodable == old(encodable)
    {
      mappings := [];
      var columns := ColumnsToEncode(encodable);
      if columns.Err? {
        return Some(columns.error);
      }
      ghost var start := data;
      for i := 0 to |columns.value|
        invariant EncodeColumns(columns.value[..i], start, categorize) == Progress(data, mappings, None)
        invariant config == old(config) && settings == old(settings) && encodable == old(encodable)
      {
        var column := columns.value[i];
        assert columns.value[..i + 1][..i] == columns.value[..i];
        if column !in data {
          EncodeErrorPersists(columns.value, i + 1, start, categorize);
          return Some(KeyError(column));
        }
        var cats := categorize(data[column]);
        data := data[column := Encode(data[column], cats)];
        mappings := Assign(mappings, column, cats);
      }
      assert columns.value[..|columns.value|] == columns.value;
      error := None;
    }

    /** `generate_synthetic_data_df(num_examples)` with the count taken
        from the model's own length. */
    method GenerateSyntheticData(num: int, generate: nat -> Table) returns (r: Result<Table>)
      requires CountStops(settings.maxSequenceLen, num)
      ensures r == Generation(settings, encodable, mappings, num, generate)
    {
      var length := LengthOf(settings.maxSequenceLen);
      if length.None? {
        return Err(TypeError);
      }
      var n := SequenceCount(length.value, num);
      CountIsCeiling(length.value, num, n);
      var frame := generate(n);
      if Truthy(encodable) {
        r := RevertEncodings(frame, mappings);
      } else {
        r := Ok(frame);
      }
    }
  }

  /** The reverting loop of `generate_synthetic_data_df`. */
  method RevertEncodings(frame: Table, ms: seq<Mapping>) returns (r: Result<Table>)
    ensures r == RevertAll(frame, ms)
  {
    var t := frame;
    for i := 0 to |ms|
      invariant RevertAll(frame, ms[..i]) == Ok(t)
    {
      var m := ms[i];
      assert ms[..i + 1][..i] == ms[..i];
      if m.column !in t {
        RevertErrorPersists(frame, ms, i + 1);
        return Err(KeyError(m.column));
      }
      var column := RevertColumn(t[m.column], m.categories);
      if column.Err? {
        RevertErrorPersists(frame, ms, i + 1);
        return Err(column.error);
      }
      t := t[m.column := column.value];
    }
    assert ms[..|ms|] == ms;
    r := Ok(t);
  }

  lemma {:induction false} EncodeErrorPersists(columns: seq<string>, j: nat, data: Table, categorize: seq<Datum> -> seq<Datum>)
    requires j <= |columns|
    requires EncodeColumns(columns[..j], data, categorize).error.Some?
    ensures EncodeColumns(columns, data, categorize) == EncodeColumns(columns[..j], data, categorize)
    decreases |columns| - j
  {
    if j < |columns| {
      assert columns[..j + 1][..j] == columns[..j];
      EncodeErrorPersists(columns, j + 1, data, categorize);
    } else {
      assert columns[..j] == columns;
    }
  }

  lemma {:induction false} RevertErrorPersists(t: Table, ms: seq<Mapping>, j: nat)
    requires j <= |ms|
    requires RevertAll(t, ms[..j]).Err?
    ensures RevertAll(t, ms) == RevertAll(t, ms[..j])
    decreases |ms| - j
  {
    if j < |ms| {
      assert ms[..j + 1][..j] == ms[..j];
      RevertErrorPersists(t, ms, j + 1);
    } else {
      assert ms[..j] == ms;
    }
  }

  // ---------------------------------------------------------------------
  // Properties

  /** The sizes the model is built with: the older configurator's
      placeholders become half the rows, 1 and `min(100, columns)`; the
      newer configurator's numbers pass through unchanged. */
  lemma ResolvedSizes(f: Frame, parse: string -> ParseOutcome, coerce: Item -> bool, rows: nat, cols: nat)
    ensures LegacyDganConfig(f, parse, coerce).Ok? ==>
      HasSizeKeys(LegacyDganConfig(f, parse, coerce).value) &&
      ResolvedSettings(LegacyDganConfig(f, parse, coerce).value, rows, cols) ==
      Settings(Int(rows / 2), Int(1), Int(Min(100, cols)))
    ensures DganConfig(f, parse, coerce).Ok? ==>
      HasSizeKeys(DganConfig(f, parse, coerce).value) &&
      ResolvedSettings(DganConfig(f, parse, coerce).value, rows, cols) ==
      Settings(Int(f.rows / 4), Int(1), Int(Min(100, |f.columns|)))
  {
    LegacyAgreesWithCurrent(f, parse, coerce);
  }

  /** Reverting an encoded column without blank cells gives the column
      back, whenever the categories cover its values (as the encoder's do). */
  lemma {:induction false} RevertEncodeRoundTrip(cells: seq<Datum>, cats: seq<Datum>)
    requires Nan !in cells
    requires forall x :: x in cells ==> x in cats
    ensures RevertColumn(Encode(cells, cats), cats) == Ok(cells)
  {
    var encoded := Encode(cells, cats);
    forall i | 0 <= i < |cells|
      ensures encoded[i].Num? && Decode(Truncate(encoded[i].x), cats) == cells[i]
    {
      assert cells[i] in cells;
      var k := IndexOf(cats, cells[i]);
      assert encoded[i] == Num(k as real);
      assert Truncate(k as real) == k;
    }
    assert AllNumbers(encoded);
    var decoded := seq(|encoded|, i requires 0 <= i < |encoded| => Decode(Truncate(encoded[i].x), cats));
    assert decoded == cells;
  }

  predicate Distinct(names: seq<string>)
  {
    forall i, j :: 0 <= i < j < |names| ==> names[i] != names[j]
  }

  /** With distinct columns, all in the frame, the loop of `train` encodes
      each of them with its own categories, records one mapping per column
      in order, and leaves every other column alone. */
  lemma {:induction false} EncodeColumnsSpec(columns: seq<string>, data: Table, categorize: seq<Datum> -> seq<Datum>)
    requires Distinct(columns)
    requires forall c :: c in columns ==> c in data
    ensures var p := EncodeColumns(columns, data, categorize);
      p.error.None? &&
      p.data.Keys == data.Keys &&
      (forall k :: k in data && k !in columns ==> p.data[k] == data[k]) &&
      (forall k :: k in data && k in columns ==> p.data[k] == Encode(data[k], categorize(data[k]))) &&
      |p.mappings| == |columns| &&
      (forall i :: 0 <= i < |columns| ==> p.mappings[i] == Mapping(columns[i], categorize(data[columns[i]])))
  {
    if columns != [] {
      var front, last := columns[..|columns| - 1], columns[|columns| - 1];
      assert forall c :: c in front ==> c in columns;
      EncodeColumnsSpec(front, data, categorize);
      var p := EncodeColumns(front, data, categorize);
      assert last !in front;
      assert p.data[last] == data[last];
      assert forall i :: 0 <= i < |p.mappings| ==> p.mappings[i].column != last;
      EncodeColumnsStep(columns, data, categorize);
      var q := EncodeColumns(columns, data, categorize);
      ExtendEncodedData(columns, data, categorize, p.data, q.data);
      ExtendMappings(columns, data, categorize, p.mappings, q.mappings);
    }
  }

  /** The table half of `EncodeColumnsSpec` carries over from the columns
      but the last to all of them when the last column is encoded. */
  lemma ExtendEncodedData(columns: seq<string>, data: Table, categorize: seq<Datum> -> seq<Datum>, before: Table, after: Table)
    requires columns != []
    requires var front := columns[..|columns| - 1];
      before.Keys == data.Keys &&
      (forall k :: k in data && k !in front ==> before[k] == data[k]) &&
      (forall k :: k in data && k in front ==> before[k] == Encode(data[k], categorize(data[k])))
    requires var last := columns[|columns| - 1];
      last in data && after == before[last := Encode(data[last], categorize(data[last]))]
    ensures after.Keys == data.Keys
    ensures forall k :: k in data && k !in columns ==> after[k] == data[k]
    ensures forall k :: k in data && k in columns ==> after[k] == Encode(data[k], categorize(data[k]))
  {
    var front, last := columns[..|columns| - 1], columns[|columns| - 1];
    forall k | k in data && k !in columns
      ensures after[k] == data[k]
    {
      assert k !in front;
    }
    forall k | k in data && k in columns
      ensures after[k] == Encode(data[k], categorize(data[k]))
    {
      if k != last {
        var i :| 0 <= i < |columns| && columns[i] == k;
        assert front[i] == k;
      }
    }
  }

  /** The mapping half of `EncodeColumnsSpec` carries over when the last
      column's mapping is appended. */
  lemma ExtendMappings(columns: seq<string>, data: Table, categorize: seq<Datum> -> seq<Datum>, before: seq<Mapping>, after: seq<Mapping>)
    requires columns != []
    requires forall c :: c in columns ==> c in data
    requires var front := columns[..|columns| - 1];
      |before| == |front| &&
      (forall i :: 0 <= i < |front| ==> before[i] == Mapping(front[i], categorize(data[front[i]])))
    requires var last := columns[|columns| - 1];
      after == before + [Mapping(last, categorize(data[last]))]
    ensures |after| == |columns|
    ensures forall i :: 0 <= i < |columns| ==> after[i] == Mapping(columns[i], categorize(data[columns[i]]))
  {
    var front := columns[..|columns| - 1];
    forall i | 0 <= i < |columns|
      ensures after[i] == Mapping(columns[i], categorize(data[columns[i]]))
    {
      if i < |front| {
        assert columns[i] == front[i];
      }
    }
  }

  /** One more column, not yet mapped, present in the data. */
  lemma EncodeColumnsStep(columns: seq<string>, data: Table, categorize: seq<Datum> -> seq<Datum>)
    requires columns != []
    requires var p := EncodeColumns(columns[..|columns| - 1], data, categorize);
      p.error.None? && columns[|columns| - 1] in p.data &&
      forall i :: 0 <= i < |p.mappings| ==> p.mappings[i].column != columns[|columns| - 1]
    ensures var p := EncodeColumns(columns[..|columns| - 1], data, categorize);
      var last := columns[|columns| - 1];
      var cats := categorize(p.data[last]);
      EncodeColumns(columns, data, categorize) ==
        Progress(p.data[last := Encode(p.data[last], cats)], p.mappings + [Mapping(last, cats)], None)
  {
  }

  /** Reverting with mappings for distinct columns that hold numbers
      replaces exactly those columns by their decoded values. */
  lemma {:induction false} RevertAllSpec(t: Table, ms: seq<Mapping>)
    requires forall i, j :: 0 <= i < j < |ms| ==> ms[i].column != ms[j].column
    requires forall i :: 0 <= i < |ms| ==> ms[i].column in t && AllNumbers(t[ms[i].column])
    ensures RevertAll(t, ms).Ok?
    ensures var r := RevertAll(t, ms).value;
      r.Keys == t.Keys &&
      (forall i :: 0 <= i < |ms| ==> r[ms[i].column] == RevertColumn(t[ms[i].column], ms[i].categories).value) &&
      (forall k :: k in t && (forall i :: 0 <= i < |ms| ==> ms[i].column != k) ==> r[k] == t[k])
  {
    if ms != [] {
      var front, last := ms[..|ms| - 1], ms[|ms| - 1];
      RevertAllSpec(t, front);
      var r := RevertAll(t, front).value;
      assert forall i :: 0 <= i < |front| ==> front[i].column != last.column;
      assert r[last.column] == t[last.column];
      ExtendReverted(t, ms, r, RevertAll(t, ms).value);
    }
  }

  /** The description of `RevertAllSpec` carries over from the mappings but
      the last to all of them when the last column is reverted. */
  lemma ExtendReverted(t: Table, ms: seq<Mapping>, before: Table, after: Table)
    requires ms != []
    requires forall i :: 0 <= i < |ms| ==> ms[i].column in t && AllNumbers(t[ms[i].column])
    requires var front := ms[..|ms| - 1];
      before.Keys == t.Keys &&
      (forall i :: 0 <= i < |front| ==> before[front[i].column] == RevertColumn(t[front[i].column], front[i].categories).value) &&
      (forall k :: k in t && (forall i :: 0 <= i < |front| ==> front[i].column != k) ==> before[k] == t[k])
    requires var last := ms[|ms| - 1];
      after == before[last.column := RevertColumn(t[last.column], last.categories).value]
    requires forall i :: 0 <= i < |ms| - 1 ==> ms[i].column != ms[|ms| - 1].column
    ensures after.Keys == t.Keys
    ensures forall i :: 0 <= i < |ms| ==> after[ms[i].column] == RevertColumn(t[ms[i].column], ms[i].categories).value
    ensures forall k :: k in t && (forall i :: 0 <= i < |ms| ==> ms[i].column != k) ==> after[k] == t[k]
  {
    var front := ms[..|ms| - 1];
    forall i | 0 <= i < |ms|
      ensures after[ms[i].column] == RevertColumn(t[ms[i].column], ms[i].categories).value
    {
      if i < |front| {
        assert ms[i] == front[i];
      }
    }
    forall k | k in t && (forall i :: 0 <= i < |ms| ==> ms[i].column != k)
      ensures after[k] == t[k]
    {
      assert forall i :: 0 <= i < |front| ==> front[i] == ms[i];
    }
  }

  /** Training and then reverting with the recorded mappings restores the
      frame, for distinct encodable columns without blank cells whose
      categories cover their values. */
  lemma TrainThenRevert(columns: seq<string>, data: Table, categorize: seq<Datum> -> seq<Datum>)
    requires Distinct(columns)
    requires forall c :: c in columns ==> c in data
    requires forall c, x :: c in columns && x in data[c] ==> x in categorize(data[c])
    requires forall c :: c in columns ==> Nan !in data[c]
    ensures var p := Training(StrList(columns), data, categorize);
      p.error.None? && RevertAll(p.data, p.mappings) == Ok(data)
  {
    EncodeColumnsSpec(columns, data, categorize);
    RevertRestores(columns, data, categorize, EncodeColumns(columns, data, categorize));
  }

  /** Any progress that `EncodeColumnsSpec` describes reverts to the data it
      started from. */
  lemma RevertRestores(columns: seq<string>, data: Table, categorize: seq<Datum> -> seq<Datum>, p: Progress)
    requires Distinct(columns)
    requires forall c :: c in columns ==> c in data
    requires forall c, x :: c in columns && x in data[c] ==> x in categorize(data[c])
    requires forall c :: c in columns ==> Nan !in data[c]
    requires p.data.Keys == data.Keys &&
      (forall k :: k in data && k !in columns ==> p.data[k] == data[k]) &&
      (forall k :: k in data && k in columns ==> p.data[k] == Encode(data[k], categorize(data[k]))) &&
      |p.mappings| == |columns| &&
      (forall i :: 0 <= i < |columns| ==> p.mappings[i] == Mapping(columns[i], categorize(data[columns[i]])))
    ensures RevertAll(p.data, p.mappings) == Ok(data)
  {
    EncodedColumnsRevert(columns, data, categorize, p.data);
    RevertAllSpec(p.data, p.mappings);
    var r := RevertAll(p.data, p.mappings).value;
    forall k | k in data
      ensures r[k] == data[k]
    {
      if k in columns {
        var i :| 0 <= i < |columns| && columns[i] == k;
        assert p.mappings[i].column == k;
      } else {
        assert forall i :: 0 <= i < |p.mappings| ==> p.mappings[i].column != k;
      }
    }
    assert r == data;
  }

  /** Each encoded column without blank cells holds numbers and decodes
      back to its original cells, when the categories cover its values. */
  lemma EncodedColumnsRevert(columns: seq<string>, data: Table, categorize: seq<Datum> -> seq<Datum>, encoded: Table)
    requires forall c :: c in columns ==> c in data && c in encoded
    requires forall c, x :: c in columns && x in data[c] ==> x in categorize(data[c])
    requires forall c :: c in columns ==> Nan !in data[c]
    requires forall k :: k in data && k in columns ==> encoded[k] == Encode(data[k], categorize(data[k]))
    ensures forall i :: 0 <= i < |columns| ==>
      AllNumbers(encoded[columns[i]]) &&
      RevertColumn(encoded[columns[i]], categorize(data[columns[i]])) == Ok(data[columns[i]])
  {
    forall i | 0 <= i < |columns|
      ensures AllNumbers(encoded[columns[i]])
      ensures RevertColumn(encoded[columns[i]], categorize(data[columns[i]])) == Ok(data[columns[i]])
    {
      var c := columns[i];
      assert c in columns;
      RevertEncodeRoundTrip(data[c], categorize(data[c]));
    }
  }

  /** A blank cell stays NaN in the encoded column, so `astype(int)`
      refuses it and the column cannot be reverted. */
  lemma BlankCellBreaksRevert(cells: seq<Datum>, cats: seq<Datum>)
    requires Nan in cells
    ensures RevertColumn(Encode(cells, cats), cats).Err?
  {
    var i :| 0 <= i < |cells| && cells[i] == Nan;
    assert Encode(cells, cats)[i] == Nan;
  }

  /** Training succeeds on a frame whose encodable columns have a blank
      cell, but reverting with the recorded mappings then raises. */
  lemma BlankColumnBreaksRoundTrip(columns: seq<string>, data: Table, categorize: seq<Datum> -> seq<Datum>)
    requires Distinct(columns)
    requires forall c :: c in columns ==> c in data
    requires forall c, x :: c in columns && x in data[c] ==> x in categorize(data[c])
    requires exists k :: 0 <= k < |columns| && Nan in data[columns[k]]
    ensures var p := Training(StrList(columns), data, categorize);
      p.error.None? && RevertAll(p.data, p.mappings).Err?
  {
    EncodeColumnsSpec(columns, data, categorize);
    BlankProgressBreaksRevert(columns, data, categorize, EncodeColumns(columns, data, categorize));
  }

  /** Any progress that `EncodeColumnsSpec` describes, over columns one of
      which has a blank cell, fails to revert: the columns before the
      first blank one revert, and that one refuses `astype(int)`. */
  lemma BlankProgressBreaksRevert(columns: seq<string>, data: Table, categorize: seq<Datum> -> seq<Datum>, p: Progress)
    requires Distinct(columns)
    requires forall c :: c in columns ==> c in data
    requires forall c, x :: c in columns && x in data[c] ==> x in categorize(data[c])
    requires exists k :: 0 <= k < |columns| && Nan in data[columns[k]]
    requires p.data.Keys == data.Keys &&
      (forall k :: k in data && k in columns ==> p.data[k] == Encode(data[k], categorize(data[k]))) &&
      |p.mappings| == |columns| &&
      (forall i :: 0 <= i < |columns| ==> p.mappings[i] == Mapping(columns[i], categorize(data[columns[i]])))
    ensures RevertAll(p.data, p.mappings).Err?
  {
    var i := FirstBlank(columns, data);
    var front := columns[..i];
    assert forall c :: c in front ==> c in columns;
    EncodedColumnsRevert(front, data, categorize, p.data);
    var ms := p.mappings;
    assert forall k :: 0 <= k < i ==> ms[k].column == front[k];
    RevertPrefixKeeps(p.data, ms, i);
    var c := columns[i];
    BlankCellBreaksRevert(data[c], categorize(data[c]));
    RevertFailsAt(p.data, ms, i);
  }

  /** Reverting the distinct numeric columns before position i succeeds and
      leaves the column at i as it was. */
  lemma RevertPrefixKeeps(t: Table, ms: seq<Mapping>, i: nat)
    requires i < |ms|
    requires forall a, b :: 0 <= a < b <= i ==> ms[a].column != ms[b].column
    requires forall k :: 0 <= k < i ==> ms[k].column in t && AllNumbers(t[ms[k].column])
    requires ms[i].column in t
    ensures RevertAll(t, ms[..i]).Ok?
    ensures ms[i].column in RevertAll(t, ms[..i]).value
    ensures RevertAll(t, ms[..i]).value[ms[i].column] == t[ms[i].column]
  {
    var done := ms[..i];
    assert forall k :: 0 <= k < i ==> done[k] == ms[k];
    RevertAllSpec(t, done);
  }

  /** A column that refuses to revert after the mappings before it makes
      the whole revert raise. */
  lemma RevertFailsAt(t: Table, ms: seq<Mapping>, i: nat)
    requires i < |ms|
    requires RevertAll(t, ms[..i]).Ok?
    requires ms[i].column in RevertAll(t, ms[..i]).value
    requires RevertColumn(RevertAll(t, ms[..i]).value[ms[i].column], ms[i].categories).Err?
    ensures RevertAll(t, ms).Err?
  {
    assert ms[..i + 1][..i] == ms[..i] && ms[..i + 1][i] == ms[i];
    RevertErrorPersists(t, ms, i + 1);
  }

  /** The first encodable column with a blank cell. */
  lemma {:induction false} FirstBlank(columns: seq<string>, data: Table) returns (i: nat)
    requires forall c :: c in columns ==> c in data
    requires exists k :: 0 <= k < |columns| && Nan in data[columns[k]]
    ensures i < |columns| && Nan in data[columns[i]]
    ensures forall j :: 0 <= j < i ==> Nan !in data[columns[j]]
  {
    if Nan in data[columns[0]] {
      i := 0;
    } else {
      var rest := columns[1..];
      var k :| 0 <= k < |columns| && Nan in data[columns[k]];
      assert rest[k - 1] == columns[k];
      assert forall c :: c in rest ==> c in columns;
      var j := FirstBlank(rest, data);
      i := j + 1;
      assert forall m :: 1 <= m < i ==> columns[m] == rest[m - 1];
    }
  }

  // ---------------------------------------------------------------------
  // Findings

  /** On a frame without string-like columns the configuration leaves
      `encodable_columns` None; `train` as written then iterates over None
      and raises TypeError, while the corrected loop encodes nothing. */
  lemma NoStringColumnsBreaksTraining(f: Frame, parse: string -> ParseOutcome, coerce: Item -> bool,
                                      categorize: seq<Datum> -> seq<Datum>)
    requires DganConfig(f, parse, coerce).Ok?
    requires StringColumns(f.columns) == Ok([])
    ensures var cfg := DganConfig(f, parse, coerce).value;
      var data := TableOf(f.columns);
      cfg[EncodableColumns] == Null &&
      TrainingAsWritten(cfg[EncodableColumns], data, categorize).error == Some(TypeError) &&
      Training(cfg[EncodableColumns], data, categorize) == Progress(data, [], None)
  {
    DganConfigContents(f, parse, coerce);
  }

  /** A configuration from the older configurator keeps 'default' as
      `max_sequence_len`; the count loop as written multiplies it and
      compares the text with the requested count, which raises TypeError,
      while the length the model was built with gives the ceiling. */
  lemma LegacyConfigBreaksGeneration(f: Frame, parse: string -> ParseOutcome, coerce: Item -> bool, num: int)
    requires LegacyDganConfig(f, parse, coerce).Ok?
    requires f.rows >= 2
    ensures var cfg := LegacyDganConfig(f, parse, coerce).value;
      HasSizeKeys(cfg) && cfg[MaxSequenceLen] == DefaultMarker &&
      GenerationCountAsWritten(cfg, num) == Err(TypeError) &&
      ResolvedSettings(cfg, f.rows, |f.columns|).maxSequenceLen == Int(f.rows / 2) &&
      GenerationCount(ResolvedSettings(cfg, f.rows, |f.columns|), num) == Ok(CeilDiv(num, f.rows / 2))
  {
    LegacyAgreesWithCurrent(f, parse, coerce);
  }

  /** A two-row frame with one numeric column: both configurators succeed
      on it, it has no string-like column, and it meets both findings. */
  lemma NumericFrameMeetsFindings()
    ensures var f := Frame(2, [Column("x", false, [Present(Scalar("1")), Present(Scalar("2"))])]);
      var parse := (s: string) => Rejected;
      var coerce := (x: Item) => true;
      DganConfig(f, parse, coerce).Ok? &&
      LegacyDganConfig(f, parse, coerce).Ok? &&
      StringColumns(f.columns) == Ok([])
  {
    var f := Frame(2, [Column("x", false, [Present(Scalar("1")), Present(Scalar("2"))])]);
    var parse := (s: string) => Rejected;
    var coerce := (x: Item) => true;
    assert !AnyParseCrash(f.columns, parse);
    assert f.columns[..0] == [];
    assert NumericColumns(f.columns, coerce) == ["x"];
    assert StringVerdict(f.columns[0]) == Ok(false);
    assert StringColumns(f.columns[..0]) == Ok([]);
    var none: seq<string> := [];
    assert none + none == none;
    assert StringColumns(f.columns) == Ok([]);
  }
}
