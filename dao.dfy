/** The record-building core of aspace_batch_dao.py: reading one row of the tab
    file, building the digital object from the archival object's title and first
    date, linking it back to the archival object, and grouping the image file
    names of one component file into digital object components. The network calls
    of the script are left out: the fetched archival object and the uri the server
    gives the new digital object are inputs. */
module BatchDao {
  import opened Text

  /** Why the script stops at this row: the rows after it are never processed.
      Each stands for a `sys.exit()` of the script or for a Python exception that
      it does not catch. */
  datatype Failure =
    | ShortRow(line: string)              // metadata[3] raises IndexError
    | MissingTitle(idRef: string)
    | MissingStartDate(idRef: string)
    | MissingEndDate(idRef: string)
    | NoDateEntry(idRef: string)          // dates[0] on an empty list raises IndexError
    | NoExtension(fileName: string)       // filename.index('.') raises ValueError
    | ImproperFileName(fileName: string)  // get_type_data knows neither jpg nor tif

  datatype Result<+T> = Ok(value: T) | Err(failure: Failure)

  const ASPACE_ID_PREFIX_LENGTH := 7
  const HANDLE_BASE := "http://hdl.handle.net.2345.2/"
  const FORMAT_NOTE := "reformatted digital"
  const OBJECT_TYPE := "still_image"
  const FILE_TYPE := "image/tiff, image/jpeg"
  const INCLUSIVE := "inclusive"
  const CREATION := "creation"
  const DIGITAL_OBJECT := "digital_object"
  const REFERENCE_IMAGE := "reference image"
  const ARCHIVE_IMAGE := "archive image"

  /** The three columns of a tab-file row that the script uses. */
  datatype RowFields = RowFields(useNote: string, dimensionsNote: string, idRef: string)

  datatype Note = Note(content: seq<string>, noteType: string)
  datatype DateRec = DateRec(begin: string, end: string, dateType: string, expression: string, dateLabel: string)
  datatype DigitalObject = DigitalObject(
    title: string, objectType: string, digitalObjectId: string, notes: seq<Note>, dates: seq<DateRec>)

  /** One entry of an archival object's `dates` list; a key may be missing. */
  datatype DateEntry = DateEntry(begin: Option<string>, end: Option<string>)
  datatype Instance = Instance(instanceType: string, digitalObjectRef: string)

  datatype FileVersion = FileVersion(fileUri: string, useStatement: string)
  datatype Component = Component(
    title: string, displayString: string, fileVersions: seq<FileVersion>, digitalObjectRef: string)

  /** A file name that passed both checks of the grouping loop. */
  datatype Entry = Entry(baseName: string, version: FileVersion)

  /** `files_dictionary` and `keeping_track` after the grouping loop. */
  datatype Grouping = Grouping(files: map<string, seq<FileVersion>>, order: seq<string>)

  datatype RowOutcome = RowOutcome(digitalObject: DigitalObject, components: seq<Component>)

  // ---------------------------------------------------------------- the tab row

  /** `aspace_id[7:]`: the reference id without its `aspace_` prefix; Python's
      slice gives the empty string when the id is shorter than the prefix. */
  function IdRef(aspaceId: string): (idRef: string)
    ensures |aspaceId| < ASPACE_ID_PREFIX_LENGTH ==> idRef == ""
    ensures |aspaceId| >= ASPACE_ID_PREFIX_LENGTH ==> aspaceId == aspaceId[..ASPACE_ID_PREFIX_LENGTH] + idRef
  {
    if |aspaceId| < ASPACE_ID_PREFIX_LENGTH then "" else aspaceId[ASPACE_ID_PREFIX_LENGTH..]
  }

  /** The fields of one row: the use note is column 3, the dimensions note is
      "1 " before column 2, and the reference id comes from column 1. A row with
      fewer than three tabs makes `metadata[3]` raise. */
  function ParseRow(line: string): (r: Result<RowFields>)
    ensures r.Ok? <==> multiset(line)['\t'] >= 3
    ensures r.Err? ==> r.failure == ShortRow(line)
  {
    var metadata := Split(line, '\t');
    if |metadata| < 4 then Err(ShortRow(line))
    else Ok(RowFields(metadata[3], "1 " + metadata[2], IdRef(metadata[1])))
  }

  /** A row made of tab-free columns yields exactly its columns 1 to 3. */
  lemma ParseRowColumns(columns: seq<string>)
    requires |columns| >= 4
    requires forall c :: c in columns ==> '\t' !in c
    ensures ParseRow(Join(columns, '\t')) == Ok(RowFields(columns[3], "1 " + columns[2], IdRef(columns[1])))
  {
    SplitJoin(columns, '\t');
  }

  // ---------------------------------------------------------------- the digital object

  /** The date expression: the begin date alone when the end date already occurs
      in it, otherwise "begin-end". */
  function DateExpression(begin: string, end: string): (expression: string)
    ensures begin <= expression
    ensures expression == begin <==> IsSubstring(end, begin)
    ensures expression != begin ==> expression == begin + "-" + end
  {
    if Contains(begin, end) then begin else begin + "-" + end
  }

  /** An empty end date, or one equal to the begin date, adds nothing. */
  lemma DateExpressionCollapses(begin: string, end: string)
    requires end == "" || end == begin
    ensures DateExpression(begin, end) == begin
  {
    TrivialSubstrings(begin);
  }

  /** The digital object for a row, or the reason the script stops before posting
      one: no title, no `dates` list, an empty `dates` list, no begin date in its
      first entry, or no end date. The checks run in that order. */
  function BuildDigitalObject(row: RowFields, title: Option<string>, dates: Option<seq<DateEntry>>)
    : (r: Result<DigitalObject>)
    ensures r.Ok? <==>
      title.Some? && dates.Some? && |dates.value| > 0
      && dates.value[0].begin.Some? && dates.value[0].end.Some?
    ensures title.None? ==> r == Err(MissingTitle(row.idRef))
    ensures title.Some? && dates.None? ==> r == Err(MissingStartDate(row.idRef))
    ensures title.Some? && dates == Some([]) ==> r == Err(NoDateEntry(row.idRef))
    ensures title.Some? && dates.Some? && |dates.value| > 0 && dates.value[0].begin.None? ==>
      r == Err(MissingStartDate(row.idRef))
    ensures (title.Some? && dates.Some? && |dates.value| > 0 && dates.value[0].begin.Some?
             && dates.value[0].end.None?) ==> r == Err(MissingEndDate(row.idRef))
    ensures r.Ok? ==>
      var begin, end := dates.value[0].begin.value, dates.value[0].end.value;
      && r.value.title == title.value
      && r.value.objectType == OBJECT_TYPE
      && r.value.digitalObjectId == HANDLE_BASE + row.idRef
      && r.value.notes == [Note([row.useNote], "userestrict"), Note([row.dimensionsNote], "dimensions"),
                           Note([FORMAT_NOTE], "note"), Note([FILE_TYPE], "note")]
      && r.value.dates == [DateRec(begin, end, INCLUSIVE, DateExpression(begin, end), CREATION)]
  {
    if title.None? then Err(MissingTitle(row.idRef))
    else if dates.None? then Err(MissingStartDate(row.idRef))
    else if |dates.value| == 0 then Err(NoDateEntry(row.idRef))
    else if dates.value[0].begin.None? then Err(MissingStartDate(row.idRef))
    else if dates.value[0].end.None? then Err(MissingEndDate(row.idRef))
    else
      var begin, end := dates.value[0].begin.value, dates.value[0].end.value;
      Ok(DigitalObject(
        title.value, OBJECT_TYPE, HANDLE_BASE + row.idRef,
        [Note([row.useNote], "userestrict"), Note([row.dimensionsNote], "dimensions"),
         Note([FORMAT_NOTE], "note"), Note([FILE_TYPE], "note")],
        [DateRec(begin, end, INCLUSIVE, DateExpression(begin, end), CREATION)]))
  }

  /** The one date a built digital object carries is an inclusive creation date
      whose expression starts with its begin date, and is the begin date alone
      exactly when the end date occurs in it. */
  lemma BuiltDateShape(row: RowFields, title: Option<string>, dates: Option<seq<DateEntry>>)
    requires BuildDigitalObject(row, title, dates).Ok?
    ensures var d := BuildDigitalObject(row, title, dates).value.dates;
      && |d| == 1 && d[0].dateType == INCLUSIVE && d[0].dateLabel == CREATION
      && d[0].begin <= d[0].expression
      && (d[0].expression == d[0].begin <==> IsSubstring(d[0].end, d[0].begin))
  {
  }

  /** The archival object as fetched from the server; only its `instances` list
      is changed by the script. */
  class ArchivalObject {
    const title: Option<string>
    const dates: Option<seq<DateEntry>>
    var instances: seq<Instance>

    constructor (title: Option<string>, dates: Option<seq<DateEntry>>, instances: seq<Instance>)
      ensures this.title == title && this.dates == dates && this.instances == instances
    {
      this.title := title;
      this.dates := dates;
      this.instances := instances;
    }

    /** Links the new digital object: one instance is appended after the
        existing ones, which are left as they were. */
    method LinkDigitalObject(digitalObjectUri: string)
      modifies this
      ensures instances == old(instances) + [Instance(DIGITAL_OBJECT, digitalObjectUri)]
    {
      instances := instances + [Instance(DIGITAL_OBJECT, digitalObjectUri)];
    }
  }

  // ---------------------------------------------------------------- file versions

  /** `get_type_data`: a name containing "jpg" is a reference image, even when it
      also contains "tif"; a name containing "tif" only is an archive image; any
      other name stops the script. */
  function GetTypeData(fileName: string): (r: Result<FileVersion>)
    ensures r.Ok? ==> r.value.fileUri == fileName
    ensures r.Err? <==> !IsSubstring("jpg", fileName) && !IsSubstring("tif", fileName)
    ensures r.Err? ==> r.failure == ImproperFileName(fileName)
    ensures IsSubstring("jpg", fileName) ==> r.value.useStatement == REFERENCE_IMAGE
    ensures !IsSubstring("jpg", fileName) && IsSubstring("tif", fileName) ==>
      r.value.useStatement == ARCHIVE_IMAGE
  {
    if Contains(fileName, "jpg") then Ok(FileVersion(fileName, REFERENCE_IMAGE))
    else if Contains(fileName, "tif") then Ok(FileVersion(fileName, ARCHIVE_IMAGE))
    else Err(ImproperFileName(fileName))
  }

  /** The text before the first '.'; a name without one makes `index` raise. */
  function BaseName(fileName: string): (r: Result<string>)
    ensures r.Ok? <==> '.' in fileName
    ensures r.Ok? ==> r.value + "." <= fileName && '.' !in r.value
    ensures r.Err? ==> r.failure == NoExtension(fileName)
  {
    match IndexOf(fileName, '.')
    case None => Err(NoExtension(fileName))
    case Some(i) =>
      assert fileName[..i + 1] == fileName[..i] + ".";
      Ok(fileName[..i])
  }

  /** What one pass of the grouping loop computes for a file name, base name first. */
  function EntryOf(fileName: string): Result<Entry>
  {
    match BaseName(fileName)
    case Err(f) => Err(f)
    case Ok(base) =>
      match GetTypeData(fileName)
      case Err(f) => Err(f)
      case Ok(version) => Ok(Entry(base, version))
  }

  lemma EntryOfOk(fileName: string, e: Entry)
    requires EntryOf(fileName) == Ok(e)
    ensures BaseName(fileName) == Ok(e.baseName) && GetTypeData(fileName) == Ok(e.version)
    ensures e.version.fileUri == fileName
  {
  }

  /** The entries of all file names, or the failure of the first one that has none. */
  function Classify(fileNames: seq<string>): (r: Result<seq<Entry>>)
    ensures r.Ok? ==>
      |r.value| == |fileNames| && forall i :: 0 <= i < |fileNames| ==> EntryOf(fileNames[i]) == Ok(r.value[i])
  {
    if fileNames == [] then Ok([])
    else
      var n := |fileNames| - 1;
      var init := fileNames[..n];
      match Classify(init)
      case Err(f) => Err(f)
      case Ok(entries) =>
        match EntryOf(fileNames[n])
        case Err(f) => Err(f)
        case Ok(e) =>
          assert forall i :: 0 <= i < n ==> init[i] == fileNames[i];
          Ok(entries + [e])
  }

  /** The list fails exactly when some file name fails, and then with the
      failure of the first one that does. */
  lemma {:induction false} ClassifyFailure(fileNames: seq<string>)
    ensures Classify(fileNames).Ok? <==> forall i :: 0 <= i < |fileNames| ==> EntryOf(fileNames[i]).Ok?
    ensures Classify(fileNames).Err? ==>
      exists i :: 0 <= i < |fileNames| && EntryOf(fileNames[i]) == Err(Classify(fileNames).failure)
        && forall j :: 0 <= j < i ==> EntryOf(fileNames[j]).Ok?
  {
    if fileNames != [] {
      var n := |fileNames| - 1;
      var init := fileNames[..n];
      ClassifyFailure(init);
      assert forall i :: 0 <= i < n ==> init[i] == fileNames[i];
      if Classify(init).Err? {
        var i :| 0 <= i < n && EntryOf(init[i]) == Err(Classify(init).failure)
          && forall j :: 0 <= j < i ==> EntryOf(init[j]).Ok?;
        assert EntryOf(fileNames[i]) == Err(Classify(fileNames).failure);
      } else if EntryOf(fileNames[n]).Err? {
        assert EntryOf(fileNames[n]) == Err(Classify(fileNames).failure);
      }
    }
  }

  /** One more file name: the loop's next step. */
  lemma ClassifyStep(fileNames: seq<string>, i: nat, entries: seq<Entry>)
    requires i < |fileNames| && Classify(fileNames[..i]) == Ok(entries)
    ensures Classify(fileNames[..i + 1]) ==
      match EntryOf(fileNames[i])
      case Err(f) => Err(f)
      case Ok(e) => Ok(entries + [e])
  {
    assert fileNames[..i + 1][..i] == fileNames[..i];
  }

  /** A failure in a prefix of the file names is the failure of the whole list. */
  lemma {:induction false} ClassifyPrefixFailure(fileNames: seq<string>, k: nat)
    requires k <= |fileNames|
    requires Classify(fileNames[..k]).Err?
    ensures Classify(fileNames) == Classify(fileNames[..k])
    decreases |fileNames| - k
  {
    if k < |fileNames| {
      assert fileNames[..k + 1][..k] == fileNames[..k];
      ClassifyPrefixFailure(fileNames, k + 1);
    } else {
      assert fileNames[..k] == fileNames;
    }
  }

  // ---------------------------------------------------------------- grouping specification

  function Bases(entries: seq<Entry>): seq<string>
  {
    seq(|entries|, i requires 0 <= i < |entries| => entries[i].baseName)
  }

  predicate Distinct(s: seq<string>)
  {
    forall i, j :: 0 <= i < j < |s| ==> s[i] != s[j]
  }

  /** The elements of `s`, each kept where it first appears. */
  function FirstSeen(s: seq<string>): seq<string>
  {
    if s == [] then []
    else
      var seen := FirstSeen(s[..|s| - 1]);
      if s[|s| - 1] in seen then seen else seen + [s[|s| - 1]]
  }

  /** The position of the first occurrence of `x` in `s`, or `|s|` if there is none. */
  function FirstIndex(s: seq<string>, x: string): (p: nat)
    ensures p <= |s| && x !in s[..p]
    ensures p < |s| <==> x in s
    ensures p < |s| ==> s[p] == x
  {
    if s == [] then 0
    else if x in s[..|s| - 1] then
      var p := FirstIndex(s[..|s| - 1], x);
      assert s[..|s| - 1][..p] == s[..p];
      p
    else if s[|s| - 1] == x then
      |s| - 1
    else
      assert s == s[..|s| - 1] + [s[|s| - 1]];
      |s|
  }

  /** The versions of the entries whose base name is `key`, in input order. */
  function VersionsOf(entries: seq<Entry>, key: string): seq<FileVersion>
  {
    if entries == [] then []
    else
      var last := entries[|entries| - 1];
      var before := VersionsOf(entries[..|entries| - 1], key);
      if last.baseName == key then before + [last.version] else before
  }

  /** The total number of versions listed under `keys`. */
  function SumSizes(entries: seq<Entry>, keys: seq<string>): nat
  {
    if keys == [] then 0
    else SumSizes(entries, keys[..|keys| - 1]) + |VersionsOf(entries, keys[|keys| - 1])|
  }

  lemma BasesSnoc(entries: seq<Entry>, e: Entry)
    ensures Bases(entries + [e]) == Bases(entries) + [e.baseName]
  {
  }

  lemma VersionsOfSnoc(entries: seq<Entry>, e: Entry, key: string)
    ensures VersionsOf(entries + [e], key) ==
      if e.baseName == key then VersionsOf(entries, key) + [e.version] else VersionsOf(entries, key)
  {
    assert (entries + [e])[..|entries|] == entries;
  }

  // ---------------------------------------------------------------- grouping properties

  /** `keeping_track` holds exactly the base names that occur. */
  lemma {:induction false} FirstSeenElements(s: seq<string>)
    ensures forall x :: x in FirstSeen(s) <==> x in s
  {
    if s != [] {
      FirstSeenElements(s[..|s| - 1]);
      assert s == s[..|s| - 1] + [s[|s| - 1]];
    }
  }

  /** `keeping_track` holds no base name twice. */
  lemma {:induction false} FirstSeenDistinct(s: seq<string>)
    ensures Distinct(FirstSeen(s))
  {
    if s != [] {
      FirstSeenDistinct(s[..|s| - 1]);
    }
  }

  /** `keeping_track` lists the base names in the order of their first appearance. */
  lemma {:induction false} FirstSeenOrder(s: seq<string>)
    ensures forall i, j :: 0 <= i < j < |FirstSeen(s)| ==>
      FirstIndex(s, FirstSeen(s)[i]) < FirstIndex(s, FirstSeen(s)[j]) < |s|
  {
    if s != [] {
      var init := s[..|s| - 1];
      FirstSeenOrder(init);
      FirstSeenElements(init);
      var seen := FirstSeen(init);
      forall x | x in init
        ensures FirstIndex(s, x) == FirstIndex(init, x)
      {
      }
      forall i | 0 <= i < |seen|
        ensures FirstIndex(s, seen[i]) == FirstIndex(init, seen[i]) < |init|
      {
        assert seen[i] in seen;
      }
      var y := s[|s| - 1];
      var all := FirstSeen(s);
      if y !in seen {
        assert all == seen + [y];
        assert FirstIndex(s, y) == |init|;
      }
      forall i, j | 0 <= i < j < |all|
        ensures FirstIndex(s, all[i]) < FirstIndex(s, all[j]) < |s|
      {
        if j < |seen| {
          assert all[i] == seen[i] && all[j] == seen[j];
        }
      }
    }
  }

  /** Base names that do not occur have no versions. */
  lemma {:induction false} VersionsOfAbsent(entries: seq<Entry>, key: string)
    requires key !in Bases(entries)
    ensures VersionsOf(entries, key) == []
  {
    if entries != [] {
      var init := entries[..|entries| - 1];
      assert Bases(entries) == Bases(init) + [entries[|entries| - 1].baseName];
      VersionsOfAbsent(init, key);
    }
  }

  /** Adding one entry adds one to the total of the keys that hold its base name once. */
  lemma {:induction false} SumSizesSnoc(entries: seq<Entry>, e: Entry, keys: seq<string>)
    requires Distinct(keys)
    ensures SumSizes(entries + [e], keys) == SumSizes(entries, keys) + (if e.baseName in keys then 1 else 0)
  {
    if keys != [] {
      var init := keys[..|keys| - 1];
      var k := keys[|keys| - 1];
      assert keys == init + [k];
      assert k !in init;
      SumSizesSnoc(entries, e, init);
      VersionsOfSnoc(entries, e, k);
    }
  }

  /** Every entry is counted once: the groups listed in `keeping_track` hold as
      many versions together as there are file names. */
  lemma {:induction false} EveryEntryCountedOnce(entries: seq<Entry>)
    ensures SumSizes(entries, FirstSeen(Bases(entries))) == |entries|
  {
    if entries != [] {
      var init := entries[..|entries| - 1];
      var e := entries[|entries| - 1];
      assert entries == init + [e];
      BasesSnoc(init, e);
      var keys := FirstSeen(Bases(init));
      assert Bases(entries)[..|entries| - 1] == Bases(init);
      EveryEntryCountedOnce(init);
      FirstSeenDistinct(Bases(init));
      FirstSeenElements(Bases(init));
      SumSizesSnoc(init, e, keys);
      if e.baseName !in keys {
        VersionsOfAbsent(init, e.baseName);
        VersionsOfSnoc(init, e, e.baseName);
      }
    }
  }

  /** Each version listed under a base name comes from an entry with that base
      name, and every entry's version is listed under its own base name. */
  lemma {:induction false} VersionsOfOwnBase(entries: seq<Entry>, key: string)
    ensures forall v :: v in VersionsOf(entries, key) ==> Entry(key, v) in entries
    ensures forall i :: 0 <= i < |entries| && entries[i].baseName == key ==>
      entries[i].version in VersionsOf(entries, key)
  {
    if entries != [] {
      var init := entries[..|entries| - 1];
      VersionsOfOwnBase(init, key);
      assert entries == init + [entries[|entries| - 1]];
      assert forall i :: 0 <= i < |init| ==> init[i] == entries[i];
    }
  }

  /** For a list of file names that all pass: the component named `key` holds
      the versions of exactly the file names whose base name is `key`. */
  lemma GroupHoldsItsOwnFiles(fileNames: seq<string>, key: string)
    ensures Classify(fileNames).Ok? ==>
      var entries := Classify(fileNames).value;
      && (forall v :: v in VersionsOf(entries, key) ==> BaseName(v.fileUri) == Ok(key) && v.fileUri in fileNames)
      && (forall i :: 0 <= i < |fileNames| && BaseName(fileNames[i]) == Ok(key) ==>
            GetTypeData(fileNames[i]).value in VersionsOf(entries, key))
  {
    if Classify(fileNames).Err? {
      return;
    }
    var entries := Classify(fileNames).value;
    VersionsOfOwnBase(entries, key);
    forall v | v in VersionsOf(entries, key)
      ensures BaseName(v.fileUri) == Ok(key) && v.fileUri in fileNames
    {
      assert Entry(key, v) in entries;
      var i :| 0 <= i < |entries| && entries[i] == Entry(key, v);
      EntryOfOk(fileNames[i], entries[i]);
    }
    forall i | 0 <= i < |fileNames| && BaseName(fileNames[i]) == Ok(key)
      ensures GetTypeData(fileNames[i]).value in VersionsOf(entries, key)
    {
      EntryOfOk(fileNames[i], entries[i]);
    }
  }

  // ---------------------------------------------------------------- the grouping loop

  /** `files_dictionary` and `keeping_track` as they stand for the entries read
      so far: the base names in order of first appearance, the dictionary keyed by
      exactly those names, each holding its versions in input order. */
  ghost predicate Tracks(files: map<string, seq<FileVersion>>, order: seq<string>, entries: seq<Entry>)
  {
    && order == FirstSeen(Bases(entries))
    && (forall name :: name in files <==> name in order)
    && (forall name :: name in files ==> files[name] == VersionsOf(entries, name))
  }

  /** Lines 107-110: a base name seen for the first time opens a group and is
      added to `keeping_track`. */
  lemma TracksNewBase(files: map<string, seq<FileVersion>>, order: seq<string>, entries: seq<Entry>, e: Entry)
    requires Tracks(files, order, entries) && e.baseName !in files
    ensures Tracks(files[e.baseName := [e.version]], order + [e.baseName], entries + [e])
  {
    BasesSnoc(entries, e);
    assert (Bases(entries) + [e.baseName])[..|entries|] == Bases(entries);
    FirstSeenElements(Bases(entries));
    VersionsOfAbsent(entries, e.baseName);
    forall name
      ensures VersionsOf(entries + [e], name) ==
        if name == e.baseName then VersionsOf(entries, name) + [e.version] else VersionsOf(entries, name)
    {
      VersionsOfSnoc(entries, e, name);
    }
  }

  /** Lines 111-113: a base name seen before gets the version appended to its group. */
  lemma TracksKnownBase(files: map<string, seq<FileVersion>>, order: seq<string>, entries: seq<Entry>, e: Entry)
    requires Tracks(files, order, entries) && e.baseName in files
    ensures Tracks(files[e.baseName := files[e.baseName] + [e.version]], order, entries + [e])
  {
    BasesSnoc(entries, e);
    assert (Bases(entries) + [e.baseName])[..|entries|] == Bases(entries);
    FirstSeenElements(Bases(entries));
    forall name
      ensures VersionsOf(entries + [e], name) ==
        if name == e.baseName then VersionsOf(entries, name) + [e.version] else VersionsOf(entries, name)
    {
      VersionsOfSnoc(entries, e, name);
    }
  }

  /** What the grouping loop leaves behind: `keeping_track` holds no base name
      twice, its names are exactly the keys of `files_dictionary` and exactly the
      base names that occur, and its groups together hold one version per file name. */
  lemma TrackedGrouping(files: map<string, seq<FileVersion>>, order: seq<string>, entries: seq<Entry>)
    requires Tracks(files, order, entries)
    ensures Distinct(order)
    ensures forall name :: name in files <==> name in order
    ensures forall name :: name in order <==> name in Bases(entries)
    ensures SumSizes(entries, order) == |entries|
  {
    FirstSeenDistinct(Bases(entries));
    FirstSeenElements(Bases(entries));
    EveryEntryCountedOnce(entries);
  }

  /** Lines 99-113: groups the versions of the file names by base name, keeping
      the base names in order of first appearance. Stops at the first file name
      with no '.' or with an unknown type. */
  method GroupFiles(fileNames: seq<string>) returns (r: Result<Grouping>)
    ensures r.Err? <==> Classify(fileNames).Err?
    ensures r.Err? ==> r.failure == Classify(fileNames).failure
    ensures r.Ok? ==> Tracks(r.value.files, r.value.order, Classify(fileNames).value)
  {
    var filesDictionary: map<string, seq<FileVersion>> := map[];
    var keepingTrack: seq<string> := [];
    ghost var entries: seq<Entry> := [];
    var i := 0;
    while i < |fileNames|
      invariant 0 <= i <= |fileNames|
      invariant Classify(fileNames[..i]) == Ok(entries)
      invariant Tracks(filesDictionary, keepingTrack, entries)
    {
      var fileName := fileNames[i];
      ClassifyStep(fileNames, i, entries);
      var base := BaseName(fileName);
      if base.Err? {
        ClassifyPrefixFailure(fileNames, i + 1);
        return Err(base.failure);
      }
      var baseName := base.value;
      var version := GetTypeData(fileName);
      if version.Err? {
        ClassifyPrefixFailure(fileNames, i + 1);
        return Err(version.failure);
      }
      if baseName !in filesDictionary {
        TracksNewBase(filesDictionary, keepingTrack, entries, Entry(baseName, version.value));
        filesDictionary := filesDictionary[baseName := [version.value]];
        keepingTrack := keepingTrack + [baseName];
      } else {
        TracksKnownBase(filesDictionary, keepingTrack, entries, Entry(baseName, version.value));
        filesDictionary := filesDictionary[baseName := filesDictionary[baseName] + [version.value]];
      }
      entries := entries + [Entry(baseName, version.value)];
      i := i + 1;
    }
    assert fileNames[..i] == fileNames;
    return Ok(Grouping(filesDictionary, keepingTrack));
  }

  /** Lines 115-117: one component per name of `keeping_track`, in that order,
      titled and displayed by the name and holding that name's versions. */
  method EmitComponents(grouping: Grouping, digitalObjectUri: string) returns (components: seq<Component>)
    requires forall name :: name in grouping.order ==> name in grouping.files
    ensures |components| == |grouping.order|
    ensures forall i :: 0 <= i < |components| ==>
      var name := grouping.order[i];
      components[i] == Component(name, name, grouping.files[name], digitalObjectUri)
  {
    components := [];
    for i := 0 to |grouping.order|
      invariant |components| == i
      invariant forall k :: 0 <= k < i ==>
        var name := grouping.order[k];
        components[k] == Component(name, name, grouping.files[name], digitalObjectUri)
    {
      var name := grouping.order[i];
      components := components + [Component(name, name, grouping.files[name], digitalObjectUri)];
    }
  }

  // ---------------------------------------------------------------- one row

  /** One row of the tab file, from its text to the components posted for it.
      The archival object is linked as soon as the digital object is built, so a
      bad file name found afterwards leaves the link in place. */
  method ProcessRow(line: string, archivalObject: ArchivalObject, digitalObjectUri: string, fileNames: seq<string>)
    returns (r: Result<RowOutcome>)
    modifies archivalObject
    ensures ParseRow(line).Err? ==>
      r == Err(ParseRow(line).failure) && archivalObject.instances == old(archivalObject.instances)
    ensures ParseRow(line).Ok? ==>
      var built := BuildDigitalObject(ParseRow(line).value, archivalObject.title, archivalObject.dates);
      && (built.Err? ==> r == Err(built.failure) && archivalObject.instances == old(archivalObject.instances))
      && (built.Ok? ==>
            archivalObject.instances == old(archivalObject.instances) + [Instance(DIGITAL_OBJECT, digitalObjectUri)])
      && (built.Ok? && Classify(fileNames).Err? ==> r == Err(Classify(fileNames).failure))
      && (built.Ok? && Classify(fileNames).Ok? ==>
            var entries := Classify(fileNames).value;
            var order := FirstSeen(Bases(entries));
            && r.Ok? && r.value.digitalObject == built.value
            && |r.value.components| == |order|
            && forall i :: 0 <= i < |order| ==>
                 r.value.components[i] == Component(order[i], order[i], VersionsOf(entries, order[i]), digitalObjectUri))
  {
    var row := ParseRow(line);
    if row.Err? {
      return Err(row.failure);
    }
    var built := BuildDigitalObject(row.value, archivalObject.title, archivalObject.dates);
    if built.Err? {
      return Err(built.failure);
    }
    archivalObject.LinkDigitalObject(digitalObjectUri);
    var grouping := GroupFiles(fileNames);
    if grouping.Err? {
      return Err(grouping.failure);
    }
    var components := EmitComponents(grouping.value, digitalObjectUri);
    return Ok(RowOutcome(built.value, components));
  }
}
