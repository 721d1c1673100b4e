/** The report form: its field schema, the evidence and location it was last
    told about, and the submission pipeline that uploads the evidence and
    then saves one report record. */
module Submission {
  import opened Types
  import Evidence

  type File = Evidence.File

  // ---------------------------------------------------------------------
  // The field schema

  /** The raw field values the form library holds; a select left untouched
      holds nothing. */
  datatype Fields = Fields(garbageLevel: Option<string>, wasteType: Option<string>, remarks: Option<string>)

  /** The fields a fresh or reset form starts with. */
  const DEFAULT_FIELDS := Fields(None, None, Some(""))

  /** The field values once they have passed the schema. */
  datatype FormValues = FormValues(garbageLevel: GarbageLevel, wasteType: WasteType, remarks: Option<string>)

  function ParseLevel(s: string): (r: Option<GarbageLevel>)
    ensures r.Some? ==> LevelName(r.value) == s
    ensures r.None? ==> forall l :: LevelName(l) != s
  {
    if s == "Low" then Some(Low)
    else if s == "Medium" then Some(Medium)
    else if s == "High" then Some(High)
    else None
  }

  function ParseWasteType(s: string): (r: Option<WasteType>)
    ensures r.Some? ==> WasteTypeName(r.value) == s
    ensures r.None? ==> forall w :: WasteTypeName(w) != s
  {
    if s == "Plastic" then Some(Plastic)
    else if s == "Organic" then Some(Organic)
    else if s == "E-waste" then Some(EWaste)
    else if s == "Medical" then Some(Medical)
    else if s == "Construction" then Some(Construction)
    else if s == "Household" then Some(Household)
    else if s == "Industrial" then Some(Industrial)
    else if s == "Other" then Some(Other)
    else None
  }

  /** The schema: both selects must hold one of their enumerated names; the
      remarks are optional free text. */
  function Validate(f: Fields): (r: Option<FormValues>)
    ensures r.Some? <==>
      && f.garbageLevel.Some? && (exists l :: LevelName(l) == f.garbageLevel.value)
      && f.wasteType.Some? && (exists w :: WasteTypeName(w) == f.wasteType.value)
    ensures r.Some? ==>
      && LevelName(r.value.garbageLevel) == f.garbageLevel.value
      && WasteTypeName(r.value.wasteType) == f.wasteType.value
      && r.value.remarks == f.remarks
  {
    if f.garbageLevel.None? || f.wasteType.None? then None
    else
      match (ParseLevel(f.garbageLevel.value), ParseWasteType(f.wasteType.value))
      case (Some(l), Some(w)) => Some(FormValues(l, w, f.remarks))
      case _ => None
  }

  /** Writing valid values into the fields and validating gives them back. */
  lemma ValidateRoundTrip(v: FormValues)
    ensures Validate(Fields(Some(LevelName(v.garbageLevel)), Some(WasteTypeName(v.wasteType)), v.remarks)) == Some(v)
  {
    var r := Validate(Fields(Some(LevelName(v.garbageLevel)), Some(WasteTypeName(v.wasteType)), v.remarks));
    assert r.Some?;
    assert r.value.garbageLevel == v.garbageLevel by {
      match v.garbageLevel
      case Low => {} case Medium => {} case High => {}
    }
    assert r.value.wasteType == v.wasteType by {
      match v.wasteType
      case Plastic => {} case Organic => {} case EWaste => {} case Medical => {}
      case Construction => {} case Household => {} case Industrial => {} case Other => {}
    }
  }

  /** A fresh or reset form cannot be submitted until both selects are filled in. */
  lemma DefaultFieldsRejected()
    ensures Validate(DEFAULT_FIELDS) == None
  {
  }

  // ---------------------------------------------------------------------
  // The backend, seen as an oracle

  const BUCKET := "reports"
  const TABLE := "garbage_reports"

  /** The metadata row of one report. */
  datatype Record = Record(
    id: string,
    garbageLevel: GarbageLevel,
    wasteType: WasteType,
    remarks: string,
    location: GeoLocation,
    mediaPaths: seq<string>,
    createdAt: string)

  /** A call the form makes on the backend. */
  datatype Call =
    | Upload(bucket: string, path: string, file: File)
    | Insert(table: string, record: Record)

  datatype Reply = Ok | Failed(message: string)

  /** How the object store and the table answer each call. */
  datatype Backend = Backend(upload: (string, File) -> Reply, insert: Record -> Reply)

  function ReplyTo(backend: Backend, c: Call): Reply {
    match c
    case Upload(_, path, file) => backend.upload(path, file)
    case Insert(_, record) => backend.insert(record)
  }

  // ---------------------------------------------------------------------
  // Storage paths

  /** The position of the last '.' among the first `n` characters of a name,
      or -1 when there is none. */
  function LastDotBefore(name: string, n: nat): (k: int)
    requires n <= |name|
    ensures -1 <= k < n
  {
    if n == 0 then -1
    else if name[n - 1] == '.' then n - 1
    else LastDotBefore(name, n - 1)
  }

  /** `LastDotBefore` finds a '.' with none after it, or reports that there
      is none. */
  lemma {:induction false} LastDotBeforeIsLast(name: string, n: nat)
    requires n <= |name|
    ensures var k := LastDotBefore(name, n);
      && -1 <= k < n
      && (k >= 0 ==> name[k] == '.')
      && forall j :: k < j < n ==> name[j] != '.'
  {
    if n > 0 && name[n - 1] != '.' {
      LastDotBeforeIsLast(name, n - 1);
    }
  }

  /** The part of a file name after its last '.', or the whole name when it
      has none. */
  function Extension(name: string): (ext: string)
    ensures |ext| <= |name|
  {
    name[LastDotBefore(name, |name|) + 1..]
  }

  /** The extension is the longest suffix of the name without a '.'. */
  lemma ExtensionIsLongestDotFreeSuffix(name: string)
    ensures var ext := Extension(name);
      && |ext| <= |name| && ext == name[|name| - |ext|..]
      && '.' !in ext
      && (|ext| < |name| ==> name[|name| - |ext| - 1] == '.')
  {
    LastDotBeforeIsLast(name, |name|);
    var k := LastDotBefore(name, |name|);
    var ext := Extension(name);
    forall i | 0 <= i < |ext| ensures ext[i] != '.' {
      assert ext[i] == name[k + 1 + i];
    }
  }

  /** A name made of a stem, a '.' and a dot-free extension has that extension. */
  lemma ExtensionAfterLastDot(stem: string, ext: string)
    requires '.' !in ext
    ensures Extension(stem + "." + ext) == ext
  {
    var name := stem + "." + ext;
    LastDotBeforeIsLast(name, |name|);
    var k := LastDotBefore(name, |name|);
    assert name[|stem|] == '.';
    assert name[|stem| + 1..] == ext;
  }

  /** A name without any '.' is its own extension. */
  lemma ExtensionWithoutDot(name: string)
    requires '.' !in name
    ensures Extension(name) == name
  {
    LastDotBeforeIsLast(name, |name|);
  }

  /** A camera capture is always stored with the extension "jpg". */
  lemma CaptureStoredAsJpg(nowMs: nat, jpeg: seq<bv8>)
    ensures Extension(Evidence.CaptureFile(nowMs, jpeg).name) == "jpg"
  {
    ExtensionAfterLastDot("capture-" + Evidence.DecimalString(nowMs), "jpg");
    assert "capture-" + Evidence.DecimalString(nowMs) + "." + "jpg"
        == "capture-" + Evidence.DecimalString(nowMs) + ".jpg";
  }

  /** Where one evidence file of a report is stored. */
  function StoragePath(reportId: string, fileId: string, ext: string): string {
    "reports/" + reportId + "/" + fileId + "." + ext
  }

  /** The characters `nanoid` draws its identifiers from. */
  predicate IsIdChar(c: char) {
    ('A' <= c <= 'Z') || ('a' <= c <= 'z') || ('0' <= c <= '9') || c == '_' || c == '-'
  }

  predicate IsId(s: string) {
    forall c :: c in s ==> IsIdChar(c)
  }

  /** An identifier followed by a separator outside its alphabet: the
      separator is the first position that holds that character. */
  lemma NoSeparatorInsideId(id: string, sep: char, rest: string, k: nat)
    requires IsId(id) && !IsIdChar(sep)
    ensures (id + [sep] + rest)[|id|] == sep
    ensures k < |id| ==> (id + [sep] + rest)[k] != sep
  {
    if k < |id| {
      assert (id + [sep] + rest)[k] == id[k] && id[k] in id;
    }
  }

  /** Two storage paths in one report folder are equal only if their file ids are. */
  lemma StoragePathFileIdInjective(reportId: string, id1: string, ext1: string, id2: string, ext2: string)
    requires IsId(id1) && IsId(id2)
    requires StoragePath(reportId, id1, ext1) == StoragePath(reportId, id2, ext2)
    ensures id1 == id2
  {
    var head := "reports/" + reportId + "/";
    var t1, t2 := id1 + "." + ext1, id2 + "." + ext2;
    assert StoragePath(reportId, id1, ext1) == head + t1;
    assert StoragePath(reportId, id2, ext2) == head + t2;
    assert t1 == (head + t1)[|head|..] && t2 == (head + t2)[|head|..];
    NoSeparatorInsideId(id1, '.', ext1, |id2|);
    NoSeparatorInsideId(id2, '.', ext2, |id1|);
    assert id1 == t1[..|id1|] && id2 == t2[..|id2|];
  }

  /** Storage paths of different reports are different. */
  lemma StoragePathReportIdInjective(id1: string, f1: string, e1: string, id2: string, f2: string, e2: string)
    requires IsId(id1) && IsId(id2)
    requires StoragePath(id1, f1, e1) == StoragePath(id2, f2, e2)
    ensures id1 == id2
  {
    var p1, p2 := StoragePath(id1, f1, e1), StoragePath(id2, f2, e2);
    var t1, t2 := id1 + "/" + f1 + "." + e1, id2 + "/" + f2 + "." + e2;
    assert p1 == "reports/" + t1 && p2 == "reports/" + t2;
    assert t1 == p1[8..] && t2 == p2[8..];
    NoSeparatorInsideId(id1, '/', f1 + "." + e1, |id2|);
    NoSeparatorInsideId(id2, '/', f2 + "." + e2, |id1|);
    assert id1 == t1[..|id1|] && id2 == t2[..|id2|];
  }

  /** The path of file `j`: the report id is the attempt's first `nanoid()`
      result, and file `j` takes result `j + 1`. */
  function PlannedPath(ids: nat -> string, files: seq<File>, j: nat): string
    requires j < |files|
  {
    StoragePath(ids(0), ids(j + 1), Extension(files[j].name))
  }

  function PlannedPaths(ids: nat -> string, files: seq<File>): (r: seq<string>)
    ensures |r| == |files|
    ensures forall j :: 0 <= j < |files| ==> r[j] == PlannedPath(ids, files, j)
  {
    seq(|files|, j requires 0 <= j < |files| => PlannedPath(ids, files, j))
  }

  /** One upload per file, in list order. */
  function PlannedUploads(ids: nat -> string, files: seq<File>): (r: seq<Call>)
    ensures |r| == |files|
    ensures forall j :: 0 <= j < |files| ==> r[j] == Upload(BUCKET, PlannedPath(ids, files, j), files[j])
  {
    seq(|files|, j requires 0 <= j < |files| => Upload(BUCKET, PlannedPath(ids, files, j), files[j]))
  }

  /** The index of the first call from `i` on that the backend rejects, or
      the length when it accepts them all. */
  function FirstFailure(calls: seq<Call>, backend: Backend, i: nat): (k: nat)
    requires i <= |calls|
    ensures i <= k <= |calls|
    ensures forall j :: i <= j < k ==> ReplyTo(backend, calls[j]).Ok?
    ensures k < |calls| ==> ReplyTo(backend, calls[k]).Failed?
    decreases |calls| - i
  {
    if i == |calls| then i
    else if ReplyTo(backend, calls[i]).Failed? then i
    else FirstFailure(calls, backend, i + 1)
  }

  /** `values.remarks || ''`. */
  function Remarks(remarks: Option<string>): (r: string)
    ensures r == if remarks.Some? then remarks.value else ""
  {
    if remarks.None? || remarks.value == "" then "" else remarks.value
  }

  // ---------------------------------------------------------------------
  // One submission attempt

  datatype Outcome =
    | NoEvidence
    | NoLocation
    | UploadFailed(index: nat, message: string)
    | SaveFailed(message: string)
    | Submitted

  /** The backend calls one attempt makes, in order, and how it ends. */
  datatype AttemptResult = AttemptResult(calls: seq<Call>, outcome: Outcome)

  /** The specification of one submission with the given evidence, location
      and validated values; `ids(k)` is the attempt's `k`-th `nanoid()`
      result and `createdAt` the clock's timestamp. */
  function Attempt(files: seq<File>, location: Option<GeoLocation>, values: FormValues,
                   ids: nat -> string, backend: Backend, createdAt: string): (a: AttemptResult)
    ensures a.outcome == NoEvidence <==> |files| == 0
    ensures a.outcome == NoLocation <==> |files| > 0 && location.None?
    ensures a.calls == [] <==> a.outcome in {NoEvidence, NoLocation}
  {
    if |files| == 0 then AttemptResult([], NoEvidence)
    else if location.None? then AttemptResult([], NoLocation)
    else
      var uploads := PlannedUploads(ids, files);
      var k := FirstFailure(uploads, backend, 0);
      if k < |files| then
        AttemptResult(uploads[..k + 1], UploadFailed(k, ReplyTo(backend, uploads[k]).message))
      else
        var record := Record(ids(0), values.garbageLevel, values.wasteType, Remarks(values.remarks),
                             location.value, PlannedPaths(ids, files), createdAt);
        match backend.insert(record)
        case Ok => AttemptResult(uploads + [Insert(TABLE, record)], Submitted)
        case Failed(m) => AttemptResult(uploads + [Insert(TABLE, record)], SaveFailed(m))
  }

  /** The first rejected upload determines the attempt. */
  lemma AttemptWhenUploadFails(files: seq<File>, location: Option<GeoLocation>, values: FormValues,
                               ids: nat -> string, backend: Backend, createdAt: string, k: nat)
    requires |files| > 0 && location.Some? && k < |files|
    requires forall j :: 0 <= j < k ==> ReplyTo(backend, PlannedUploads(ids, files)[j]).Ok?
    requires ReplyTo(backend, PlannedUploads(ids, files)[k]).Failed?
    ensures Attempt(files, location, values, ids, backend, createdAt)
         == AttemptResult(PlannedUploads(ids, files)[..k + 1],
                          UploadFailed(k, ReplyTo(backend, PlannedUploads(ids, files)[k]).message))
  {
    var f := FirstFailure(PlannedUploads(ids, files), backend, 0);
    assert f == k;
  }

  /** When every upload is accepted, the attempt inserts the record of the planned paths. */
  lemma AttemptWhenAllUploaded(files: seq<File>, location: Option<GeoLocation>, values: FormValues,
                               ids: nat -> string, backend: Backend, createdAt: string)
    requires |files| > 0 && location.Some?
    requires forall j :: 0 <= j < |files| ==> ReplyTo(backend, PlannedUploads(ids, files)[j]).Ok?
    ensures var record := Record(ids(0), values.garbageLevel, values.wasteType, Remarks(values.remarks),
                                 location.value, PlannedPaths(ids, files), createdAt);
      Attempt(files, location, values, ids, backend, createdAt)
        == AttemptResult(PlannedUploads(ids, files) + [Insert(TABLE, record)],
                         if backend.insert(record).Ok? then Submitted else SaveFailed(backend.insert(record).message))
  {
    var f := FirstFailure(PlannedUploads(ids, files), backend, 0);
    assert f == |files|;
  }

  /** Every upload is of file `j` at call `j`, under the attempt's single
      report id; only the last call can be something other than an upload. */
  lemma UploadsFollowFileOrder(files: seq<File>, location: Option<GeoLocation>, values: FormValues,
                               ids: nat -> string, backend: Backend, createdAt: string)
    ensures var a := Attempt(files, location, values, ids, backend, createdAt);
      && |a.calls| <= |files| + 1
      && (forall j :: 0 <= j < |a.calls| && a.calls[j].Upload? ==>
            j < |files| && a.calls[j] == Upload(BUCKET, StoragePath(ids(0), ids(j + 1), Extension(files[j].name)), files[j]))
      && (forall j :: 0 <= j < |a.calls| - 1 ==> a.calls[j].Upload?)
  {
    var a := Attempt(files, location, values, ids, backend, createdAt);
    if |files| > 0 && location.Some? {
      var uploads := PlannedUploads(ids, files);
      var k := FirstFailure(uploads, backend, 0);
      assert k < |files| ==> a.calls == uploads[..k + 1];
      assert k == |files| ==> a.calls[..|files|] == uploads;
    }
  }

  /** After the first rejected upload nothing else is called: no later file
      and no insert. */
  lemma NothingAfterFailedUpload(files: seq<File>, location: Option<GeoLocation>, values: FormValues,
                                 ids: nat -> string, backend: Backend, createdAt: string)
    requires Attempt(files, location, values, ids, backend, createdAt).outcome.UploadFailed?
    ensures var a := Attempt(files, location, values, ids, backend, createdAt);
      var k := a.outcome.index;
      && k < |files| && |a.calls| == k + 1
      && (forall j :: 0 <= j <= k ==> a.calls[j].Upload?)
      && (forall j :: 0 <= j < k ==> ReplyTo(backend, a.calls[j]) == Ok)
      && ReplyTo(backend, a.calls[k]) == Failed(a.outcome.message)
  {
    var uploads := PlannedUploads(ids, files);
    var k := FirstFailure(uploads, backend, 0);
    var a := Attempt(files, location, values, ids, backend, createdAt);
    assert |files| > 0 && location.Some? && k < |files|;
    assert a.calls == uploads[..k + 1] && a.outcome.index == k;
    forall j | 0 <= j <= k ensures a.calls[j] == uploads[j] {}
  }

  /** The insert is made exactly when every file was uploaded; it comes last,
      once, and records the uploaded paths in order under the report id. */
  lemma InsertRecordsUploadedPaths(files: seq<File>, location: Option<GeoLocation>, values: FormValues,
                                   ids: nat -> string, backend: Backend, createdAt: string)
    ensures var a := Attempt(files, location, values, ids, backend, createdAt);
      (a.outcome == Submitted || a.outcome.SaveFailed?) <==>
        |files| > 0 && location.Some? && forall j :: 0 <= j < |files| ==> backend.upload(PlannedPath(ids, files, j), files[j]).Ok?
    ensures var a := Attempt(files, location, values, ids, backend, createdAt);
      (a.outcome == Submitted || a.outcome.SaveFailed?) ==>
        && |a.calls| == |files| + 1
        && (forall j :: 0 <= j < |files| ==> a.calls[j].Upload? && ReplyTo(backend, a.calls[j]) == Ok)
        && a.calls[|files|].Insert? && a.calls[|files|].table == TABLE
        && var r := a.calls[|files|].record;
        && r.id == ids(0)
        && |r.mediaPaths| == |files| && (forall j :: 0 <= j < |files| ==> r.mediaPaths[j] == a.calls[j].path)
        && r.garbageLevel == values.garbageLevel && r.wasteType == values.wasteType
        && r.remarks == (if values.remarks.Some? then values.remarks.value else "")
        && r.location == location.value && r.createdAt == createdAt
        && (a.outcome == Submitted <==> backend.insert(r) == Ok)
  {
    var a := Attempt(files, location, values, ids, backend, createdAt);
    if |files| > 0 && location.Some? {
      var uploads := PlannedUploads(ids, files);
      var k := FirstFailure(uploads, backend, 0);
      if k < |files| {
        assert !backend.upload(PlannedPath(ids, files, k), files[k]).Ok?;
      } else {
        forall j | 0 <= j < |files|
          ensures backend.upload(PlannedPath(ids, files, j), files[j]).Ok?
        {
          assert ReplyTo(backend, uploads[j]).Ok?;
        }
      }
    }
  }

  /** A backend that accepts every call lets any attempt with evidence and a
      location through. */
  lemma AcceptingBackendSubmits(files: seq<File>, location: Option<GeoLocation>, values: FormValues,
                                ids: nat -> string, backend: Backend, createdAt: string)
    requires |files| > 0 && location.Some?
    requires forall p, f :: backend.upload(p, f) == Ok
    requires forall r :: backend.insert(r) == Ok
    ensures Attempt(files, location, values, ids, backend, createdAt).outcome == Submitted
  {
    AttemptWhenAllUploaded(files, location, values, ids, backend, createdAt);
  }

  /** With `nanoid` assumed to return distinct identifiers from its alphabet,
      the planned paths of one attempt are distinct. */
  lemma PlannedPathsDistinct(ids: nat -> string, files: seq<File>, i: nat, j: nat)
    requires forall k :: IsId(ids(k))
    requires forall k1, k2 :: k1 != k2 ==> ids(k1) != ids(k2)
    requires i < j < |files|
    ensures PlannedPath(ids, files, i) != PlannedPath(ids, files, j)
  {
    if PlannedPath(ids, files, i) == PlannedPath(ids, files, j) {
      StoragePathFileIdInjective(ids(0), ids(i + 1), Extension(files[i].name),
                                 ids(j + 1), Extension(files[j].name));
    }
  }

  /** Hence the uploads of one attempt go to distinct paths in the report's folder. */
  lemma UploadPathsDistinct(files: seq<File>, location: Option<GeoLocation>, values: FormValues,
                            ids: nat -> string, backend: Backend, createdAt: string)
    requires forall k :: IsId(ids(k))
    requires forall k1, k2 :: k1 != k2 ==> ids(k1) != ids(k2)
    ensures var a := Attempt(files, location, values, ids, backend, createdAt);
      && (forall j :: 0 <= j < |a.calls| && a.calls[j].Upload? ==>
            Evidence.StartsWith(a.calls[j].path, "reports/" + ids(0) + "/"))
      && (forall i, j :: 0 <= i < j < |a.calls| && a.calls[i].Upload? && a.calls[j].Upload? ==>
            a.calls[i].path != a.calls[j].path)
  {
    var a := Attempt(files, location, values, ids, backend, createdAt);
    UploadsFollowFileOrder(files, location, values, ids, backend, createdAt);
    var head := "reports/" + ids(0) + "/";
    forall j | 0 <= j < |a.calls| && a.calls[j].Upload?
      ensures Evidence.StartsWith(a.calls[j].path, head)
    {
      var tail := ids(j + 1) + "." + Extension(files[j].name);
      assert a.calls[j].path == head + tail;
      assert (head + tail)[..|head|] == head;
    }
    forall i, j | 0 <= i < j < |a.calls| && a.calls[i].Upload? && a.calls[j].Upload?
      ensures a.calls[i].path != a.calls[j].path
    {
      PlannedPathsDistinct(ids, files, i, j);
    }
  }

  /** Two attempts whose report ids differ never upload to the same path, so a
      retry never overwrites an earlier attempt's evidence. */
  lemma AttemptsUseSeparateFolders(files1: seq<File>, location1: Option<GeoLocation>, values1: FormValues,
                                   ids1: nat -> string, backend1: Backend, createdAt1: string,
                                   files2: seq<File>, location2: Option<GeoLocation>, values2: FormValues,
                                   ids2: nat -> string, backend2: Backend, createdAt2: string)
    requires IsId(ids1(0)) && IsId(ids2(0)) && ids1(0) != ids2(0)
    ensures var a1 := Attempt(files1, location1, values1, ids1, backend1, createdAt1);
      var a2 := Attempt(files2, location2, values2, ids2, backend2, createdAt2);
      forall i, j :: 0 <= i < |a1.calls| && 0 <= j < |a2.calls| && a1.calls[i].Upload? && a2.calls[j].Upload? ==>
        a1.calls[i].path != a2.calls[j].path
  {
    var a1 := Attempt(files1, location1, values1, ids1, backend1, createdAt1);
    var a2 := Attempt(files2, location2, values2, ids2, backend2, createdAt2);
    UploadsFollowFileOrder(files1, location1, values1, ids1, backend1, createdAt1);
    UploadsFollowFileOrder(files2, location2, values2, ids2, backend2, createdAt2);
    forall i, j | 0 <= i < |a1.calls| && 0 <= j < |a2.calls| && a1.calls[i].Upload? && a2.calls[j].Upload?
      ensures a1.calls[i].path != a2.calls[j].path
    {
      if a1.calls[i].path == a2.calls[j].path {
        StoragePathReportIdInjective(ids1(0), ids1(i + 1), Extension(files1[i].name),
                                     ids2(0), ids2(j + 1), Extension(files2[j].name));
        assert false;
      }
    }
  }

  // ---------------------------------------------------------------------
  // The form component

  const NO_EVIDENCE_MESSAGE := "Please capture or upload at least one photo or video"
  const NO_LOCATION_MESSAGE := "Please enable location to continue"
  const UPLOAD_FAILURE_PREFIX := "Failed to upload file: "
  const SAVE_FAILURE_PREFIX := "Failed to save report: "
  const FALLBACK_MESSAGE := "Failed to submit report. Please try again."
  const SUCCESS_MESSAGE := "Report submitted successfully!"

  class ReportForm {
    var fields: Fields
    var files: seq<File>
    var location: Option<GeoLocation>
    var isSubmitting: bool
    var error: Option<string>
    var success: Option<string>
    /** Every backend call the form has made, in order. */
    ghost var calls: seq<Call>

    constructor ()
      ensures fields == DEFAULT_FIELDS && files == [] && location == None
      ensures !isSubmitting && error == None && success == None && calls == []
    {
      fields := DEFAULT_FIELDS;
      files := [];
      location := None;
      isSubmitting := false;
      error := None;
      success := None;
      calls := [];
    }

    /** The user edits the fields. */
    method EditFields(f: Fields)
      modifies this`fields
      ensures fields == f
    {
      fields := f;
    }

    /** The evidence picker's `onFilesChange`. */
    method SetFiles(fs: seq<File>)
      modifies this`files
      ensures files == fs
    {
      files := fs;
    }

    /** The location button's `onLocationChange`. */
    method SetLocation(l: Option<GeoLocation>)
      modifies this`location
      ensures location == l
    {
      location := l;
    }

    /** The `try` block of the submit handler: upload every file in order,
        then insert the record, then reset; `thrown` is the message of the
        error it throws, if any. */
    method TrySubmit(values: FormValues, ids: nat -> string, backend: Backend, createdAt: string)
      returns (thrown: Option<string>)
      requires |files| > 0 && location.Some? && isSubmitting
      modifies this`calls, this`fields, this`files, this`location, this`success
      ensures var a := Attempt(old(files), old(location), values, ids, backend, createdAt);
        && calls == old(calls) + a.calls
        && match a.outcome
           case UploadFailed(_, m) =>
             thrown == Some(UPLOAD_FAILURE_PREFIX + m)
             && files == old(files) && location == old(location) && fields == old(fields) && success == old(success)
           case SaveFailed(m) =>
             thrown == Some(SAVE_FAILURE_PREFIX + m)
             && files == old(files) && location == old(location) && fields == old(fields) && success == old(success)
           case Submitted =>
             thrown == None
             && files == [] && location == None && fields == DEFAULT_FIELDS && success == Some(SUCCESS_MESSAGE)
           case _ => false
    {
      var reportId := ids(0);
      ghost var uploads := PlannedUploads(ids, files);
      ghost var paths := PlannedPaths(ids, files);
      var uploadedPaths: seq<string> := [];
      var i := 0;
      while i < |files|
        invariant files == old(files) && location == old(location)
        invariant |uploads| == |paths| == |files| && 0 <= i <= |files|
        invariant forall j :: 0 <= j < i ==> ReplyTo(backend, uploads[j]).Ok?
        invariant uploadedPaths == paths[..i]
        invariant calls == old(calls) + uploads[..i]
        invariant fields == old(fields) && success == old(success)
      {
        var file := files[i];
        var fileExt := Extension(file.name);
        var filePath := "reports/" + reportId + "/" + ids(i + 1) + "." + fileExt;
        assert uploads[i] == Upload(BUCKET, filePath, file) && paths[i] == filePath;
        assert uploads[..i + 1] == uploads[..i] + [uploads[i]];
        calls := calls + [Upload(BUCKET, filePath, file)];
        var reply := backend.upload(filePath, file);
        if reply.Failed? {
          AttemptWhenUploadFails(files, location, values, ids, backend, createdAt, i);
          return Some(UPLOAD_FAILURE_PREFIX + reply.message);
        }
        assert paths[..i + 1] == paths[..i] + [paths[i]];
        uploadedPaths := uploadedPaths + [filePath];
        i := i + 1;
      }
      assert uploads[..i] == uploads && paths[..i] == paths;
      AttemptWhenAllUploaded(files, location, values, ids, backend, createdAt);
      var record := Record(reportId, values.garbageLevel, values.wasteType, Remarks(values.remarks),
                           location.value, uploadedPaths, createdAt);
      calls := calls + [Insert(TABLE, record)];
      var reply := backend.insert(record);
      if reply.Failed? {
        return Some(SAVE_FAILURE_PREFIX + reply.message);
      }
      fields := DEFAULT_FIELDS;
      files := [];
      location := None;
      success := Some(SUCCESS_MESSAGE);
      thrown := None;
    }

    /** The submit handler, run once the fields have passed the schema. */
    method OnSubmit(values: FormValues, ids: nat -> string, backend: Backend, createdAt: string)
      modifies this
      ensures var a := Attempt(old(files), old(location), values, ids, backend, createdAt);
        && calls == old(calls) + a.calls
        && match a.outcome
           case NoEvidence =>
             error == Some(NO_EVIDENCE_MESSAGE) && success == old(success) && isSubmitting == old(isSubmitting)
             && files == old(files) && location == old(location) && fields == old(fields)
           case NoLocation =>
             error == Some(NO_LOCATION_MESSAGE) && success == old(success) && isSubmitting == old(isSubmitting)
             && files == old(files) && location == old(location) && fields == old(fields)
           case UploadFailed(_, m) =>
             error == Some(UPLOAD_FAILURE_PREFIX + m) && success == None && !isSubmitting
             && files == old(files) && location == old(location) && fields == old(fields)
           case SaveFailed(m) =>
             error == Some(SAVE_FAILURE_PREFIX + m) && success == None && !isSubmitting
             && files == old(files) && location == old(location) && fields == old(fields)
           case Submitted =>
             error == None && success == Some(SUCCESS_MESSAGE) && !isSubmitting
             && files == [] && location == None && fields == DEFAULT_FIELDS
    {
      if |files| == 0 {
        error := Some(NO_EVIDENCE_MESSAGE);
        return;
      }
      if location.None? {
        error := Some(NO_LOCATION_MESSAGE);
        return;
      }
      isSubmitting := true;
      error := None;
      success := None;
      var thrown := TrySubmit(values, ids, backend, createdAt);
      if thrown.Some? {
        error := Some(if thrown.value == "" then FALLBACK_MESSAGE else thrown.value);
      }
      isSubmitting := false;
    }

    /** The form's submit event: the schema is checked first, and the handler
        runs only when it passes. */
    method HandleSubmit(ids: nat -> string, backend: Backend, createdAt: string)
      modifies this
      ensures Validate(old(fields)).None? ==> unchanged(this)
      ensures Validate(old(fields)).Some? ==>
        var a := Attempt(old(files), old(location), Validate(old(fields)).value, ids, backend, createdAt);
        && calls == old(calls) + a.calls
        && (a.outcome == Submitted ==> files == [] && location == None && fields == DEFAULT_FIELDS)
        && (a.outcome != Submitted ==> files == old(files) && location == old(location) && fields == old(fields))
        && (a.outcome == NoEvidence ==>
              error == Some(NO_EVIDENCE_MESSAGE) && success == old(success) && isSubmitting == old(isSubmitting))
        && (a.outcome == NoLocation ==>
              error == Some(NO_LOCATION_MESSAGE) && success == old(success) && isSubmitting == old(isSubmitting))
        && (a.outcome.UploadFailed? ==>
              error == Some(UPLOAD_FAILURE_PREFIX + a.outcome.message) && success == None && !isSubmitting)
        && (a.outcome.SaveFailed? ==>
              error == Some(SAVE_FAILURE_PREFIX + a.outcome.message) && success == None && !isSubmitting)
        && (a.outcome == Submitted ==>
              error == None && success == Some(SUCCESS_MESSAGE) && !isSubmitting)
    {
      var values := Validate(fields);
      if values.Some? {
        OnSubmit(values.value, ids, backend, createdAt);
      }
    }
  }

  // ---------------------------------------------------------------------
  // The form together with its evidence picker

  /** The first report: one file picked, a location obtained, and the
      submission accepted. The form is reset; the picker keeps its selection. */
  method SubmitOneFile(first: File, loc: GeoLocation, values: FormValues,
                       ids: nat -> string, backend: Backend, createdAt: string)
    returns (form: ReportForm, picker: Evidence.FileUpload)
    requires Evidence.IsSupported(first)
    requires Attempt([first], Some(loc), values, ids, backend, createdAt).outcome == Submitted
    ensures fresh(form) && fresh(picker)
    ensures form.files == [] && form.location == None && form.success == Some(SUCCESS_MESSAGE)
    ensures picker.Valid() && picker.selectedFiles == [first]
  {
    form := new ReportForm();
    picker := new Evidence.FileUpload();
    assert Evidence.Supported([first]) == Evidence.Supported([]) + [first];
    var notified := picker.AddFiles([first]);
    form.SetFiles(notified.value);
    form.SetLocation(Some(loc));
    assert picker.selectedFiles == [first] && form.files == [first] && form.location == Some(loc);
    form.OnSubmit(values, ids, backend, createdAt);
  }

  /** A report is submitted and a file is then picked for the next one, as
      written: the reset empties the form's `files` but not the picker's own
      selection, so the form ends up holding the previous report's file
      again, next to the new one. */
  method NextReportAfterSuccessAsWritten(first: File, second: File, loc: GeoLocation, values: FormValues,
                                         ids: nat -> string, backend: Backend, createdAt: string)
    returns (formFiles: seq<File>)
    requires Evidence.IsSupported(first) && Evidence.IsSupported(second)
    requires Attempt([first], Some(loc), values, ids, backend, createdAt).outcome == Submitted
    ensures formFiles == [first, second]
  {
    var form, picker := SubmitOneFile(first, loc, values, ids, backend, createdAt);
    assert Evidence.Supported([second]) == Evidence.Supported([]) + [second];
    var notified := picker.AddFiles([second]);
    form.SetFiles(notified.value);
    formFiles := form.files;
  }

  /** The same steps when the reset also clears the picker: the form holds
      only the new file. */
  method NextReportAfterSuccessCorrected(first: File, second: File, loc: GeoLocation, values: FormValues,
                                         ids: nat -> string, backend: Backend, createdAt: string)
    returns (formFiles: seq<File>)
    requires Evidence.IsSupported(first) && Evidence.IsSupported(second)
    requires Attempt([first], Some(loc), values, ids, backend, createdAt).outcome == Submitted
    ensures formFiles == [second]
  {
    var form, picker := SubmitOneFile(first, loc, values, ids, backend, createdAt);
    picker.Clear();
    assert Evidence.Supported([second]) == Evidence.Supported([]) + [second];
    var notified := picker.AddFiles([second]);
    form.SetFiles(notified.value);
    formFiles := form.files;
  }
}
