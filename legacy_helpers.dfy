/** The older configurator (helpers.py, class AutoSyntheticConfigurator).
    Its three detectors are the same code as in model_helpers.py and are
    modelled by the members of ModelHelpers; its `get_dgan_config` differs
    only in its literal, which leaves the model sizes as the placeholder
    'default' for the trainer to resolve. */
module LegacyHelpers {
  import opened Common
  import opened Frames
  import opened ModelHelpers

  /** The placeholder the trainer resolves (dgan_model.py:39-42). */
  const DefaultMarker: Value := Str("default")

  /** The keys helpers.py leaves as the placeholder. */
  const PlaceholderKeys: set<Key> := {MaxSequenceLen, SampleLen, BatchSize}

  /** The literal in helpers.py `get_dgan_config`: the same keys and
      values as the newer literal, except that the three sizes are the
      placeholder (the newer one has None, 1 and None there). */
  const LegacyDganDefaults: Config :=
    DganDefaults[MaxSequenceLen := DefaultMarker][SampleLen := DefaultMarker][BatchSize := DefaultMarker]

  /** The document helpers.py `get_dgan_config` returns, or the exception it
      raises: no size arithmetic, then the same column step. */
  function LegacyDganConfig(f: Frame, parse: string -> ParseOutcome, coerce: Item -> bool): Result<Config>
  {
    ColumnRoles(LegacyDganDefaults, f, parse, coerce)
  }

  /** helpers.py `get_dgan_config`. */
  method GetLegacyDganConfig(f: Frame, parse: string -> ParseOutcome, coerce: Item -> bool) returns (r: Result<Config>)
    ensures r == LegacyDganConfig(f, parse, coerce)
  {
    var config := LegacyDganDefaults;
    r := AssignColumnRoles(config, f, parse, coerce);
  }

  /** Both configurators fail on the same frames; when they succeed they
      write the same column roles and the same fixed settings, and differ
      only in that the older one leaves `max_sequence_len`, `sample_len`
      and `batch_size` as 'default' where the newer one writes
      `rows // 4`, `1` and `min(100, columns)`. */
  lemma LegacyAgreesWithCurrent(f: Frame, parse: string -> ParseOutcome, coerce: Item -> bool)
    ensures LegacyDganConfig(f, parse, coerce).Ok? <==> DganConfig(f, parse, coerce).Ok?
    ensures LegacyDganConfig(f, parse, coerce).Ok? ==>
      var old_ := LegacyDganConfig(f, parse, coerce).value;
      var new_ := DganConfig(f, parse, coerce).value;
      old_.Keys == new_.Keys &&
      (forall k :: k in old_ && k !in PlaceholderKeys ==> old_[k] == new_[k]) &&
      (forall k :: k in PlaceholderKeys ==> k in old_ && old_[k] == DefaultMarker) &&
      new_[MaxSequenceLen] == Int(f.rows / 4) &&
      new_[SampleLen] == Int(1) &&
      new_[BatchSize] == Int(Min(100, |f.columns|))
  {
    var sized := SizedDefaults(f);
    SizedDefaultsDiffer(f);
    ColumnRolesAgree(LegacyDganDefaults, sized, PlaceholderKeys, f, parse, coerce);
  }

  /** The two literals differ only in the placeholder keys. */
  lemma SizedDefaultsDiffer(f: Frame)
    ensures SizedDefaults(f).Keys == LegacyDganDefaults.Keys
    ensures RoleKeys <= LegacyDganDefaults.Keys
    ensures forall k :: k in LegacyDganDefaults && k !in PlaceholderKeys ==> SizedDefaults(f)[k] == LegacyDganDefaults[k]
    ensures SizedDefaults(f)[MaxSequenceLen] == Int(f.rows / 4)
    ensures SizedDefaults(f)[SampleLen] == Int(1)
    ensures SizedDefaults(f)[BatchSize] == Int(Min(100, |f.columns|))
    ensures forall k :: k in PlaceholderKeys ==> LegacyDganDefaults[k] == DefaultMarker
  {
    SizedDefaultsShape(f);
  }

  /** Two documents that agree outside a set of keys the column step does
      not touch lead to results that agree outside that set too. */
  lemma ColumnRolesAgree(base: Config, other: Config, s: set<Key>, f: Frame, parse: string -> ParseOutcome, coerce: Item -> bool)
    requires RoleKeys <= base.Keys
    requires base.Keys == other.Keys
    requires s !! RoleKeys
    requires forall k :: k in base && k !in s ==> base[k] == other[k]
    ensures ColumnRoles(base, f, parse, coerce).Ok? <==> ColumnRoles(other, f, parse, coerce).Ok?
    ensures ColumnRoles(base, f, parse, coerce).Ok? ==>
      var r := ColumnRoles(base, f, parse, coerce).value;
      var r' := ColumnRoles(other, f, parse, coerce).value;
      r.Keys == base.Keys == r'.Keys &&
      (forall k :: k in r && k !in s ==> r[k] == r'[k]) &&
      (forall k :: k in s && k in base ==> r[k] == base[k] && r'[k] == other[k])
  {
    ColumnRolesFrame(base, other, f, parse, coerce);
    ColumnRolesFrame(other, base, f, parse, coerce);
  }
}
