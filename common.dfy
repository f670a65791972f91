/** Values shared by every module: optional and failing results, the
    exceptions the Python code raises, configuration values, and the few
    string operations the repository relies on. */
module Common {

  datatype Option<+T> = None | Some(value: T)

  datatype Result<+T> = Ok(value: T) | Err(error: Error)

  /** The exceptions that escape the modelled Python code. */
  datatype Error =
    | TypeError            // an operation applied to a value of the wrong type (`None += list`, `0 * 'default' < 3`)
    | ZeroDivision         // `x / 0`
    | KeyError(key: string) // a missing dictionary key or data-frame column
    | ParseCrash           // an exception other than ValueError/TypeError escaping the date parser
    | Unbound(name: string) // a local variable read before any branch assigned it
    | AttributeError(name: string) // a method the object does not have
    | Failed(what: string)  // a collaborator that raised

  /** A configuration value as it appears in the JSON-like configuration
      dictionaries. Python floats are written as exact decimals
      `mantissa * 10^exponent`. */
  datatype Value =
    | Null
    | Bool(b: bool)
    | Int(i: int)
    | Dec(mantissa: int, exponent: int)
    | Str(s: string)
    | StrList(items: seq<string>)
    | IntPair(first: int, second: int)
    | Opaque(tag: string)   // a value produced by a foreign library (SDV metadata)

  /** The keys of the configuration documents of both model families,
      named after their JSON keys (see KeyName). */
  datatype Key =
    // sequence model (DGAN)
    | DfStyle | TimeColumn | FeatureColumns | DiscreteColumns | EncodableColumns
    | AttributeColumns | ExampleIdColumn | MaxSequenceLen | SampleLen
    | ApplyFeatureScaling | ApplyExampleScaling | UseAttributeDiscriminator
    | GeneratorLearningRate | DiscriminatorLearningRate
    // row model (CTGAN)
    | Metadata | MetadataIsValid | EnforceMinMaxValues | EnforceRounding | Locales
    | EmbeddingDim | GeneratorDim | DiscriminatorDim | GeneratorLr | GeneratorDecay
    | DiscriminatorLr | DiscriminatorDecay | DiscriminatorSteps | LogFrequency
    | Verbose | Pac
    // both
    | BatchSize | Epochs | Cuda

  function KeyName(k: Key): string
  {
    match k
    case DfStyle => "df_style"
    case TimeColumn => "time_column"
    case FeatureColumns => "feature_columns"
    case DiscreteColumns => "discrete_columns"
    case EncodableColumns => "encodable_columns"
    case AttributeColumns => "attribute_columns"
    case ExampleIdColumn => "example_id_column"
    case MaxSequenceLen => "max_sequence_len"
    case SampleLen => "sample_len"
    case ApplyFeatureScaling => "apply_feature_scaling"
    case ApplyExampleScaling => "apply_example_scaling"
    case UseAttributeDiscriminator => "use_attribute_discriminator"
    case GeneratorLearningRate => "generator_learning_rate"
    case DiscriminatorLearningRate => "discriminator_learning_rate"
    case Metadata => "metadata"
    case MetadataIsValid => "metadata_is_valid"
    case EnforceMinMaxValues => "enforce_min_max_values"
    case EnforceRounding => "enforce_rounding"
    case Locales => "locales"
    case EmbeddingDim => "embedding_dim"
    case GeneratorDim => "generator_dim"
    case DiscriminatorDim => "discriminator_dim"
    case GeneratorLr => "generator_lr"
    case GeneratorDecay => "generator_decay"
    case DiscriminatorLr => "discriminator_lr"
    case DiscriminatorDecay => "discriminator_decay"
    case DiscriminatorSteps => "discriminator_steps"
    case LogFrequency => "log_frequency"
    case Verbose => "verbose"
    case Pac => "pac"
    case BatchSize => "batch_size"
    case Epochs => "epochs"
    case Cuda => "cuda"
  }

  /** A configuration dictionary. */
  type Config = map<Key, Value>

  /** Python truthiness of a configuration value. */
  predicate Truthy(v: Value)
  {
    match v
    case Null => false
    case Bool(b) => b
    case Int(i) => i != 0
    case Dec(m, _) => m != 0
    case Str(s) => s != ""
    case StrList(items) => items != []
    case IntPair(_, _) => true
    case Opaque(_) => true
  }

  predicate StartsWith(s: string, prefix: string)
  {
    |prefix| <= |s| && s[..|prefix|] == prefix
  }

  predicate EndsWith(s: string, suffix: string)
  {
    |suffix| <= |s| && s[|s| - |suffix|..] == suffix
  }

  /** `needle in s` for strings. */
  predicate Contains(s: string, needle: string)
  {
    exists i :: 0 <= i <= |s| - |needle| && OccursAt(s, needle, i)
  }

  predicate OccursAt(s: string, needle: string, i: int)
  {
    0 <= i <= |s| - |needle| && s[i..i + |needle|] == needle
  }

  /** `''.join(parts)` */
  function Concat(parts: seq<string>): string
  {
    if parts == [] then "" else Concat(parts[..|parts| - 1]) + parts[|parts| - 1]
  }

  lemma ConcatAppend(parts: seq<string>, last: string)
    ensures Concat(parts + [last]) == Concat(parts) + last
  {
    assert (parts + [last])[..|parts|] == parts;
  }

  predicate IsAsciiLetter(c: char)
  {
    ('a' <= c <= 'z') || ('A' <= c <= 'Z')
  }

  predicate IsAsciiDigit(c: char)
  {
    '0' <= c <= '9'
  }

  /** The digits of a natural number, most significant first, as `str(n)` writes them. */
  function DecimalString(n: nat): (r: string)
    ensures |r| >= 1
    ensures forall i :: 0 <= i < |r| ==> IsAsciiDigit(r[i])
  {
    if n < 10 then [DigitChar(n)] else DecimalString(n / 10) + [DigitChar(n % 10)]
  }

  function DigitChar(d: nat): (c: char)
    requires d < 10
    ensures IsAsciiDigit(c)
  {
    ['0', '1', '2', '3', '4', '5', '6', '7', '8', '9'][d]
  }

  lemma DigitCharInjective(a: nat, b: nat)
    requires a < 10 && b < 10 && DigitChar(a) == DigitChar(b)
    ensures a == b
  {
  }

  /** Distinct numbers are written differently, so `f"{base}_{v}.csv"`
      names a different file for every version `v`. */
  lemma {:induction false} DecimalStringInjective(a: nat, b: nat)
    requires DecimalString(a) == DecimalString(b)
    ensures a == b
  {
    var sa, sb := DecimalString(a), DecimalString(b);
    if a < 10 && b < 10 {
      DigitCharInjective(a, b);
    } else if a >= 10 && b >= 10 {
      var pa, pb := DecimalString(a / 10), DecimalString(b / 10);
      assert sa == pa + [DigitChar(a % 10)];
      assert sb == pb + [DigitChar(b % 10)];
      assert |pa| == |pb|;
      assert pa == sa[..|sa| - 1] == sb[..|sb| - 1] == pb;
      DigitCharInjective(a % 10, b % 10);
      DecimalStringInjective(a / 10, b / 10);
    }
    // one below ten and the other not: the lengths already differ
  }
}
