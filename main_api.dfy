/** The path and file-name rules of the stand-alone web service (main.py):
    the upload rename, the lookup of a project's CSV file, the files a
    trained model needs, and the versioned name of an export; and the
    three handlers that use them, with the file system given as values. */
module MainApi {
  import opened Common
  import opened Frames
  import opened LegacyHelpers

  // ---------------------------------------------------------------------
  // Upload rename

  /** ASCII lower-casing of one character. */
  function Lower(c: char): (l: char)
    ensures !('A' <= l <= 'Z')
  {
    if 'A' <= c <= 'Z' then (c as int + 32) as char else c
  }

  /** "CSV" starts at position i. */
  predicate CsvAt(s: string, i: int)
  {
    0 <= i && i + 3 <= |s| && s[i] == 'C' && s[i + 1] == 'S' && s[i + 2] == 'V'
  }

  /** `s.replace("CSV", "csv")`: occurrences replaced left to right. */
  function ReplaceCsv(s: string): (r: string)
    ensures |r| == |s|
  {
    if |s| < 3 then s
    else if CsvAt(s, 0) then "csv" + ReplaceCsv(s[3..])
    else [s[0]] + ReplaceCsv(s[1..])
  }

  /** The saved path of an upload: `client/<folder>/<filename>`, with every
      "CSV" written "csv" when it has one. */
  function UploadPath(folder: string, filename: string): string
  {
    var path := "client/" + folder + "/" + filename;
    if Contains(path, "CSV") then ReplaceCsv(path) else path
  }

  lemma ContainsCsvIff(s: string)
    ensures Contains(s, "CSV") <==> exists i :: CsvAt(s, i)
  {
    if Contains(s, "CSV") {
      var i :| 0 <= i <= |s| - 3 && OccursAt(s, "CSV", i);
      assert s[i..i + 3] == "CSV";
      assert s[i] == s[i..i + 3][0];
      assert s[i + 1] == s[i..i + 3][1];
      assert s[i + 2] == s[i..i + 3][2];
      assert CsvAt(s, i);
    }
    if i :| CsvAt(s, i) {
      assert s[i..i + 3] == "CSV";
      assert OccursAt(s, "CSV", i);
    }
  }

  /** Each character is kept or lower-cased. */
  lemma {:induction false} ReplaceCsvPointwise(s: string)
    ensures forall i :: 0 <= i < |s| ==> ReplaceCsv(s)[i] == s[i] || ReplaceCsv(s)[i] == Lower(s[i])
  {
    if |s| >= 3 {
      if CsvAt(s, 0) {
        ReplaceCsvPointwise(s[3..]);
        assert Lower('C') == 'c' && Lower('S') == 's' && Lower('V') == 'v';
      } else {
        ReplaceCsvPointwise(s[1..]);
      }
    }
  }

  /** Position i lies inside an occurrence of "CSV". */
  predicate InCsvRun(s: string, i: int)
  {
    exists k :: k <= i < k + 3 && CsvAt(s, k)
  }

  /** The replacement exactly: a character inside an occurrence of "CSV"
      is lower-cased and every other character is kept. Occurrences
      cannot overlap, so the left-to-right scan misses none. */
  lemma {:induction false} ReplaceCsvExact(s: string)
    ensures forall i :: 0 <= i < |s| ==>
      ReplaceCsv(s)[i] == (if InCsvRun(s, i) then Lower(s[i]) else s[i])
  {
    var r := ReplaceCsv(s);
    if |s| < 3 {
      assert forall k :: !CsvAt(s, k);
    } else if CsvAt(s, 0) {
      var rest := s[3..];
      ReplaceCsvExact(rest);
      forall i | 0 <= i < |s|
        ensures r[i] == (if InCsvRun(s, i) then Lower(s[i]) else s[i])
      {
        if i < 3 {
          assert InCsvRun(s, i);
          assert Lower('C') == 'c' && Lower('S') == 's' && Lower('V') == 'v';
        } else {
          assert r[i] == ReplaceCsv(rest)[i - 3] && rest[i - 3] == s[i];
          InCsvRunAfterCsv(s, i);
        }
      }
    } else {
      var rest := s[1..];
      ReplaceCsvExact(rest);
      forall i | 0 <= i < |s|
        ensures r[i] == (if InCsvRun(s, i) then Lower(s[i]) else s[i])
      {
        if i == 0 {
          assert !InCsvRun(s, 0);
        } else {
          assert r[i] == ReplaceCsv(rest)[i - 1] && rest[i - 1] == s[i];
          InCsvRunAfterOther(s, i);
        }
      }
    }
  }

  /** Past a leading "CSV", the occurrences are those of the rest: no
      other occurrence can start inside it. */
  lemma InCsvRunAfterCsv(s: string, i: int)
    requires CsvAt(s, 0) && 3 <= i < |s|
    ensures InCsvRun(s, i) <==> InCsvRun(s[3..], i - 3)
  {
    assert !CsvAt(s, 1) && !CsvAt(s, 2);
    if InCsvRun(s, i) {
      var k :| k <= i < k + 3 && CsvAt(s, k);
      assert CsvAt(s[3..], k - 3);
    }
    if InCsvRun(s[3..], i - 3) {
      var k :| k <= i - 3 < k + 3 && CsvAt(s[3..], k);
      assert CsvAt(s, k + 3);
    }
  }

  /** Past a leading character that starts no "CSV", the occurrences are
      those of the rest. */
  lemma InCsvRunAfterOther(s: string, i: int)
    requires !CsvAt(s, 0) && 1 <= i < |s|
    ensures InCsvRun(s, i) <==> InCsvRun(s[1..], i - 1)
  {
    if InCsvRun(s, i) {
      var k :| k <= i < k + 3 && CsvAt(s, k);
      assert CsvAt(s[1..], k - 1);
    }
    if InCsvRun(s[1..], i - 1) {
      var k :| k <= i - 1 < k + 3 && CsvAt(s[1..], k);
      assert CsvAt(s, k + 1);
    }
  }

  /** No "CSV" is left. */
  lemma {:induction false} ReplaceCsvClean(s: string)
    ensures forall i :: !CsvAt(ReplaceCsv(s), i)
  {
    if |s| >= 3 {
      var r := ReplaceCsv(s);
      if CsvAt(s, 0) {
        var rest := s[3..];
        ReplaceCsvClean(rest);
        assert forall i :: 3 <= i ==> (CsvAt(r, i) <==> CsvAt(ReplaceCsv(rest), i - 3));
      } else {
        var rest := s[1..];
        ReplaceCsvClean(rest);
        ReplaceCsvPointwise(rest);
        assert forall i :: 1 <= i ==> (CsvAt(r, i) <==> CsvAt(ReplaceCsv(rest), i - 1));
        assert r[1] == 'S' ==> s[1] == 'S';
        assert r[2] == 'V' ==> s[2] == 'V';
      }
    }
  }

  /** Without a "CSV" nothing changes. */
  lemma {:induction false} ReplaceCsvAbsent(s: string)
    requires forall i :: !CsvAt(s, i)
    ensures ReplaceCsv(s) == s
  {
    if |s| >= 3 {
      var rest := s[1..];
      assert forall i :: CsvAt(rest, i) ==> CsvAt(s, i + 1);
      ReplaceCsvAbsent(rest);
    }
  }

  /** The saved path: same length as the joined path, no "CSV" left,
      exactly the characters of each "CSV" lower-cased and every other
      character kept, a path without "CSV" kept as is;
      renaming twice is renaming once. */
  lemma UploadPathSpec(folder: string, filename: string)
    ensures var path := "client/" + folder + "/" + filename;
      var saved := UploadPath(folder, filename);
      |saved| == |path| &&
      !Contains(saved, "CSV") &&
      (forall i :: 0 <= i < |path| ==> saved[i] == path[i] || saved[i] == Lower(path[i])) &&
      (forall i :: 0 <= i < |path| ==> saved[i] == (if InCsvRun(path, i) then Lower(path[i]) else path[i])) &&
      (!Contains(path, "CSV") ==> saved == path) &&
      ReplaceCsv(saved) == saved
  {
    var path := "client/" + folder + "/" + filename;
    ContainsCsvIff(path);
    ReplaceCsvClean(path);
    ReplaceCsvPointwise(path);
    ReplaceCsvExact(path);
    var saved := UploadPath(folder, filename);
    ContainsCsvIff(saved);
    ReplaceCsvAbsent(saved);
  }

  // ---------------------------------------------------------------------
  // CSV lookup

  predicate IsCsvName(name: string)
  {
    EndsWith(name, ".csv")
  }

  /** The first listed name ending in ".csv". */
  method FirstCsv(listing: seq<string>) returns (csv: Option<string>)
    ensures csv.None? <==> forall name :: name in listing ==> !IsCsvName(name)
    ensures csv.Some? ==>
      exists i :: 0 <= i < |listing| && listing[i] == csv.value && IsCsvName(csv.value) &&
        forall j :: 0 <= j < i ==> !IsCsvName(listing[j])
  {
    csv := None;
    var i := 0;
    while i < |listing|
      invariant 0 <= i <= |listing|
      invariant forall j :: 0 <= j < i ==> !IsCsvName(listing[j])
    {
      if IsCsvName(listing[i]) {
        csv := Some(listing[i]);
        break;
      }
      i := i + 1;
    }
  }

  // ---------------------------------------------------------------------
  // Trained model files

  /** The files `generate_synthetic_data` needs for a model type. */
  function RequiredModelFiles(model: string): Option<set<string>>
  {
    if model == "ctgan" then Some({"model.pkl", "ctgan_config.json"})
    else if model == "dgan" then Some({"model.pt", "dgan_config.json", "encoding_mappings.pkl"})
    else None
  }

  /** The existence checks pass: a known model type, all its files present. */
  predicate ModelFilesReady(model: string, present: set<string>): (ready: bool)
    ensures ready <==>
      (model == "ctgan" && "model.pkl" in present && "ctgan_config.json" in present) ||
      (model == "dgan" && "model.pt" in present && "dgan_config.json" in present &&
       "encoding_mappings.pkl" in present)
  {
    match RequiredModelFiles(model)
    case None => false
    case Some(files) => files <= present
  }

  // ---------------------------------------------------------------------
  // Export names

  /** `name.rsplit('.', 1)[0]`: the name without its last extension. */
  function ExportBaseName(name: string): (base: string)
    ensures '.' !in name ==> base == name
    ensures '.' in name ==>
      exists ext :: name == base + "." + ext && '.' !in ext
  {
    if |name| == 0 then name
    else if name[|name| - 1] == '.' then
      assert name == name[..|name| - 1] + "." + "";
      name[..|name| - 1]
    else
      var base := ExportBaseName(name[..|name| - 1]);
      if '.' in name[..|name| - 1] then
        ghost var ext :| name[..|name| - 1] == base + "." + ext && '.' !in ext;
        assert name == base + "." + (ext + [name[|name| - 1]]);
        base
      else
        assert name == name[..|name| - 1] + [name[|name| - 1]];
        name
  }

  /** `f"{base}_{version}.csv"` */
  function ExportName(base: string, version: nat): string
  {
    base + "_" + DecimalString(version) + ".csv"
  }

  lemma ExportNameInjective(base: string, a: nat, b: nat)
    requires ExportName(base, a) == ExportName(base, b)
    ensures a == b
  {
    var da, db := DecimalString(a), DecimalString(b);
    var na, nb := ExportName(base, a), ExportName(base, b);
    assert |da| == |db|;
    assert da == na[|base| + 1..|na| - 4];
    assert db == nb[|base| + 1..|nb| - 4];
    DecimalStringInjective(a, b);
  }

  /** The export names of versions `1 .. v-1`. */
  function TakenNames(base: string, v: nat): set<string>
  {
    set k | 1 <= k < v :: ExportName(base, k)
  }

  lemma {:induction false} TakenNamesCount(base: string, v: nat)
    requires v >= 1
    ensures |TakenNames(base, v)| == v - 1
  {
    if v > 1 {
      TakenNamesCount(base, v - 1);
      var last := ExportName(base, v - 1);
      assert TakenNames(base, v) == TakenNames(base, v - 1) + {last};
      forall k | 1 <= k < v - 1
        ensures ExportName(base, k) != last
      {
        if ExportName(base, k) == last {
          ExportNameInjective(base, k, v - 1);
        }
      }
      assert last !in TakenNames(base, v - 1);
    } else {
      assert TakenNames(base, v) == {};
    }
  }

  /** While every earlier version is taken, the version is at most one
      more than the number of exports. */
  lemma VersionBound(base: string, existing: set<string>, v: nat)
    requires v >= 1
    requires forall k :: 1 <= k < v ==> ExportName(base, k) in existing
    ensures v - 1 <= |existing|
  {
    TakenNamesCount(base, v);
    SubsetSize(TakenNames(base, v), existing);
  }

  lemma {:induction false} SubsetSize(a: set<string>, b: set<string>)
    requires a <= b
    ensures |a| <= |b|
    decreases a
  {
    if a != {} {
      var x :| x in a;
      SubsetSize(a - {x}, b - {x});
    }
  }

  /** The versioned name search: counts up from 1 until the name is free.
      It stops because the exports are finitely many. */
  method NextExportName(base: string, existing: set<string>) returns (name: string, version: nat)
    ensures version >= 1 && name == ExportName(base, version)
    ensures name !in existing
    ensures forall k :: 1 <= k < version ==> ExportName(base, k) in existing
  {
    version := 1;
    name := ExportName(base, version);
    while name in existing
      invariant version >= 1 && name == ExportName(base, version)
      invariant forall k :: 1 <= k < version ==> ExportName(base, k) in existing
      decreases |existing| + 1 - version
    {
      VersionBound(base, existing, version + 1);
      version := version + 1;
      name := ExportName(base, version);
    }
  }

  /** There is only one such version: the least free one. */
  lemma ExportVersionUnique(base: string, existing: set<string>, v: nat, w: nat)
    requires v >= 1 && ExportName(base, v) !in existing
    requires forall k :: 1 <= k < v ==> ExportName(base, k) in existing
    requires w >= 1 && ExportName(base, w) !in existing
    requires forall k :: 1 <= k < w ==> ExportName(base, k) in existing
    ensures v == w
  {
    assert v < w ==> ExportName(base, v) in existing;
    assert w < v ==> ExportName(base, w) in existing;
  }

  // ---------------------------------------------------------------------
  // Handlers

  /** What a handler returns: a JSON reply (an HTTPException becomes one
      with its status), or an exception that escapes as a server error. */
  datatype Reply =
    | Reply(status: nat, body: Body)
    | Raised(error: Error)

  datatype Body =
    | Message(text: string)
    | Document(config: Config)
    | Started(model: string, key: string)
    | Download(filename: string)

  /** A project folder as the handlers see it: whether it exists, its
      listing in `os.listdir` order, and the names in its exports folder. */
  datatype Project = Project(exists_: bool, listing: seq<string>, exports: set<string>)

  /** `GET /config/{key}`: the older configurator on the project's CSV
      file `f`. It has no `get_ctgan_config`, so the default model type
      raises AttributeError, and any other type leaves the reply unbound. */
  method GetConfig(project: Project, model: string, f: Frame, parse: string -> ParseOutcome, coerce: Item -> bool)
    returns (r: Reply)
    ensures !project.exists_ ==> r == Reply(404, Message("Key not found"))
    ensures project.exists_ && (forall n :: n in project.listing ==> !IsCsvName(n)) ==>
      r == Reply(404, Message("CSV file not found under the provided key"))
    ensures project.exists_ && (exists n :: n in project.listing && IsCsvName(n)) ==>
      r == (if model == "ctgan" then Raised(AttributeError("get_ctgan_config"))
            else if model == "dgan" then
              match LegacyDganConfig(f, parse, coerce)
              case Err(e) => Raised(e)
              case Ok(cfg) => Reply(200, Document(cfg))
            else Raised(Unbound("dgan_config")))
  {
    if !project.exists_ {
      return Reply(404, Message("Key not found"));
    }
    var csv := FirstCsv(project.listing);
    if csv.None? {
      return Reply(404, Message("CSV file not found under the provided key"));
    }
    if model == "ctgan" {
      return Raised(AttributeError("get_ctgan_config"));
    }
    if model == "dgan" {
      var cfg := GetLegacyDganConfig(f, parse, coerce);
      match cfg
      case Err(e) => return Raised(e);
      case Ok(c) => return Reply(200, Document(c));
    }
    r := Raised(Unbound("dgan_config"));
  }

  /** `POST /train_model/`: checks the project and its CSV file and
      schedules training; the scheduled work is the trainer of DganModel
      (or the row model, which is not part of this model). */
  method TrainModel(project: Project, key: string, model: string) returns (r: Reply)
    ensures !project.exists_ ==> r == Reply(404, Message("Project key not found"))
    ensures project.exists_ && (forall n :: n in project.listing ==> !IsCsvName(n)) ==>
      r == Reply(404, Message("CSV file not found under the provided key"))
    ensures project.exists_ && (exists n :: n in project.listing && IsCsvName(n)) ==>
      r == Reply(200, Started(model, key))
  {
    if !project.exists_ {
      return Reply(404, Message("Project key not found"));
    }
    var csv := FirstCsv(project.listing);
    if csv.None? {
      return Reply(404, Message("CSV file not found under the provided key"));
    }
    r := Reply(200, Started(model, key));
  }

  /** `POST /generate_synthetic_data/{key}`: refuses unless the model type
      is known and its files are present, then needs a CSV file, picks a
      fresh export name after the first listed one and lets the loaded
      model write it; `generated` is that step's exception, if any. */
  method GenerateSyntheticData(project: Project, present: set<string>, model: string, generated: Option<Error>)
    returns (r: Reply)
    ensures !ModelFilesReady(model, present) ==>
      r == Reply(404, Message("Model is not trained yet or missing files"))
    ensures ModelFilesReady(model, present) && (forall n :: n in project.listing ==> !IsCsvName(n)) ==>
      r == Reply(404, Message("Original CSV file not found"))
    ensures ModelFilesReady(model, present) && (exists n :: n in project.listing && IsCsvName(n)) ==>
      (generated.Some? ==> r == Raised(generated.value)) &&
      (generated.None? ==>
         r.Reply? && r.status == 200 && r.body.Download? &&
         r.body.filename !in project.exports &&
         exists i, v: nat :: 0 <= i < |project.listing| && IsCsvName(project.listing[i]) &&
           (forall j :: 0 <= j < i ==> !IsCsvName(project.listing[j])) && v >= 1 &&
           r.body.filename == ExportName(ExportBaseName(project.listing[i]), v) &&
           forall k :: 1 <= k < v ==> ExportName(ExportBaseName(project.listing[i]), k) in project.exports)
  {
    var required := RequiredModelFiles(model);
    if required.None? || !(required.value <= present) {
      return Reply(404, Message("Model is not trained yet or missing files"));
    }
    var csv := FirstCsv(project.listing);
    if csv.None? {
      return Reply(404, Message("Original CSV file not found"));
    }
    var name, version := NextExportName(ExportBaseName(csv.value), project.exports);
    if generated.Some? {
      return Raised(generated.value);
    }
    r := Reply(200, Download(name));
  }
}
