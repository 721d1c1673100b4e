/** The evidence picker: the files a reporter has attached, a preview handle
    per file, and the flag that shows the live camera. */
module Evidence {
  import opened Types

  /** An attached file: its name, its MIME type and its bytes. */
  datatype File = File(name: string, mimeType: string, bytes: seq<bv8>)

  /** A preview URL handed out by the browser for a file's bytes; the serial
      number stands for the URL's uniqueness. */
  datatype Handle = BlobUrl(serial: nat)

  predicate StartsWith(s: string, prefix: string) {
    |prefix| <= |s| && s[..|prefix|] == prefix
  }

  /** Only images and videos are accepted as evidence. */
  predicate IsSupported(f: File) {
    StartsWith(f.mimeType, "image/") || StartsWith(f.mimeType, "video/")
  }

  /** The accepted files of `fs`, in their original order. */
  function Supported(fs: seq<File>): (r: seq<File>)
    ensures |r| <= |fs|
    ensures forall f :: f in r <==> f in fs && IsSupported(f)
    ensures forall f :: multiset(r)[f] == if IsSupported(f) then multiset(fs)[f] else 0
  {
    if fs == [] then []
    else
      var rest := Supported(fs[..|fs| - 1]);
      assert fs == fs[..|fs| - 1] + [fs[|fs| - 1]];
      if IsSupported(fs[|fs| - 1]) then rest + [fs[|fs| - 1]] else rest
  }

  /** Filtering distributes over concatenation: it keeps the relative order of
      everything it keeps. */
  lemma {:induction false} SupportedAppend(a: seq<File>, b: seq<File>)
    ensures Supported(a + b) == Supported(a) + Supported(b)
    decreases |b|
  {
    if b == [] {
      assert a + b == a;
    } else {
      var b' := b[..|b| - 1];
      assert (a + b)[..|a + b| - 1] == a + b';
      assert (a + b)[|a + b| - 1] == b[|b| - 1];
      SupportedAppend(a, b');
    }
  }

  /** A list with the element at `i` taken out, as `splice(i, 1)` does on a
      copy; an index past the end leaves the list as it was. */
  function SpliceOut<T>(s: seq<T>, i: nat): (r: seq<T>)
    ensures i < |s| ==> |r| == |s| - 1
    ensures i < |s| ==> forall j :: 0 <= j < i ==> r[j] == s[j]
    ensures i < |s| ==> forall j :: i <= j < |r| ==> r[j] == s[j + 1]
    ensures i >= |s| ==> r == s
  {
    if i < |s| then s[..i] + s[i + 1..] else s
  }

  /** What survives a removal is exactly the multiset minus the removed element. */
  lemma SpliceOutMultiset<T>(s: seq<T>, i: nat)
    requires i < |s|
    ensures multiset(SpliceOut(s, i)) == multiset(s) - multiset{s[i]}
  {
    assert s == s[..i] + [s[i]] + s[i + 1..];
  }

  /** The `k` preview URLs the browser hands out next, starting at serial `next`. */
  function Minted(next: nat, k: nat): (r: seq<Handle>)
    ensures |r| == k
    ensures forall j :: 0 <= j < k ==> r[j].serial == next + j
  {
    seq(k, j requires 0 <= j < k => BlobUrl(next + j))
  }

  /** Decimal digits of a millisecond clock reading. */
  function DecimalString(n: nat): (r: string)
    ensures |r| >= 1
    ensures forall c :: c in r ==> '0' <= c <= '9'
  {
    if n < 10 then [Digit(n)] else DecimalString(n / 10) + [Digit(n % 10)]
  }

  function Digit(d: nat): (c: char)
    requires d < 10
    ensures '0' <= c <= '9'
    ensures c as int - '0' as int == d
  {
    "0123456789"[d]
  }

  predicate AllDigits(s: string) {
    forall i :: 0 <= i < |s| ==> '0' <= s[i] <= '9'
  }

  /** Reference reading of a decimal numeral, most significant digit first. */
  function DigitsValue(s: string): nat
    requires AllDigits(s)
  {
    if s == [] then 0
    else DigitsValue(s[..|s| - 1]) * 10 + (s[|s| - 1] as int - '0' as int) as nat
  }

  /** The digits written for a clock reading read back as that reading. */
  lemma {:induction false} DecimalStringValue(n: nat)
    ensures AllDigits(DecimalString(n)) && DigitsValue(DecimalString(n)) == n
  {
    var s := DecimalString(n);
    if n >= 10 {
      DecimalStringValue(n / 10);
      assert s[..|s| - 1] == DecimalString(n / 10);
    }
  }

  /** The file a camera capture produces: a JPEG named after the capture time. */
  function CaptureFile(nowMs: nat, jpeg: seq<bv8>): (f: File)
    ensures IsSupported(f)
    ensures f.mimeType == "image/jpeg"
    ensures f.name == "capture-" + DecimalString(nowMs) + ".jpg"
    ensures f.bytes == jpeg
  {
    var name := "capture-" + DecimalString(nowMs) + ".jpg";
    var f := File(name, "image/jpeg", jpeg);
    assert StartsWith(f.mimeType, "image/");
    f
  }

  /** The digits between "capture-" and ".jpg" in a capture's name read back
      as the clock reading it was taken at. */
  lemma CaptureNameRecordsTime(nowMs: nat, jpeg: seq<bv8>)
    ensures var name := CaptureFile(nowMs, jpeg).name;
      && 12 < |name| && AllDigits(name[8..|name| - 4])
      && DigitsValue(name[8..|name| - 4]) == nowMs
  {
    var name := CaptureFile(nowMs, jpeg).name;
    DecimalStringValue(nowMs);
    assert name[8..|name| - 4] == DecimalString(nowMs);
  }

  class FileUpload {
    var selectedFiles: seq<File>
    var previews: seq<Handle>
    var showCamera: bool
    /** Serial of the next preview URL the browser will hand out. */
    var nextSerial: nat
    /** The file each handed-out preview URL was made from, by serial. */
    ghost var madeFrom: seq<File>
    /** The preview URLs released so far. */
    ghost var revoked: set<Handle>

    ghost predicate Valid()
      reads this
    {
      && |madeFrom| == nextSerial
      && (forall h :: h in revoked ==> h.serial < nextSerial)
      && (forall j :: 0 <= j < |previews| ==> previews[j].serial < nextSerial && previews[j] !in revoked)
      && (forall i, j :: 0 <= i < j < |previews| ==> previews[i] != previews[j])
    }

    /** Each file has its own preview, at the same index, made from that file. */
    ghost predicate Aligned()
      reads this
    {
      && |previews| == |selectedFiles|
      && |madeFrom| == nextSerial
      && forall j :: 0 <= j < |previews| ==> previews[j].serial < nextSerial && madeFrom[previews[j].serial] == selectedFiles[j]
    }

    constructor ()
      ensures Valid() && Aligned()
      ensures selectedFiles == [] && previews == [] && !showCamera && revoked == {}
    {
      selectedFiles := [];
      previews := [];
      showCamera := false;
      nextSerial := 0;
      madeFrom := [];
      revoked := {};
    }

    /** The body of `addFiles` as seen by a closure whose copy of
        `selectedFiles` is `snapshot`; `notified` is what `onFilesChange`
        receives, `None` when it is not called. */
    method AddFilesFrom(snapshot: seq<File>, newFiles: seq<File>) returns (notified: Option<seq<File>>)
      requires Valid()
      modifies this
      ensures Valid()
      ensures var kept := Supported(newFiles);
        if kept == [] then
          notified == None && unchanged(this)
        else
          && selectedFiles == snapshot + kept
          && notified == Some(selectedFiles)
          && previews == old(previews) + Minted(old(nextSerial), |kept|)
          && nextSerial == old(nextSerial) + |kept|
          && madeFrom == old(madeFrom) + kept
          && showCamera == old(showCamera) && revoked == old(revoked)
    {
      var kept := Supported(newFiles);
      if kept == [] {
        return None;
      }
      selectedFiles := snapshot + kept;
      notified := Some(selectedFiles);
      var minted := Minted(nextSerial, |kept|);
      madeFrom := madeFrom + kept;
      nextSerial := nextSerial + |kept|;
      previews := previews + minted;
    }

    /** `addFiles` called from a handler of the current render. */
    method AddFiles(newFiles: seq<File>) returns (notified: Option<seq<File>>)
      requires Valid()
      modifies this
      ensures Valid()
      ensures old(Aligned()) ==> Aligned()
      ensures var kept := Supported(newFiles);
        if kept == [] then
          notified == None && unchanged(this)
        else
          && selectedFiles == old(selectedFiles) + kept
          && notified == Some(selectedFiles)
          && previews == old(previews) + Minted(old(nextSerial), |kept|)
          && nextSerial == old(nextSerial) + |kept|
          && showCamera == old(showCamera) && revoked == old(revoked)
    {
      notified := AddFilesFrom(selectedFiles, newFiles);
    }

    /** The file input's change handler: `addFiles` runs only for a non-empty selection. */
    method HandleFileChange(input: Option<seq<File>>) returns (notified: Option<seq<File>>)
      requires Valid()
      modifies this
      ensures Valid()
      ensures old(Aligned()) ==> Aligned()
      ensures (input.None? || input.value == []) ==> notified == None && unchanged(this)
      ensures input.Some? && Supported(input.value) != [] ==>
        && selectedFiles == old(selectedFiles) + Supported(input.value)
        && notified == Some(selectedFiles)
        && previews == old(previews) + Minted(old(nextSerial), |Supported(input.value)|)
        && nextSerial == old(nextSerial) + |Supported(input.value)|
        && showCamera == old(showCamera) && revoked == old(revoked)
      ensures input.Some? && Supported(input.value) == [] ==> notified == None && unchanged(this)
    {
      if input.Some? && |input.value| > 0 {
        notified := AddFiles(input.value);
      } else {
        notified := None;
      }
    }

    /** Removes the file and the preview at `index` (the index of a rendered
        preview) and releases that preview's URL. */
    method RemoveFile(index: nat) returns (notified: seq<File>)
      requires Valid() && index < |previews|
      modifies this
      ensures Valid()
      ensures old(Aligned()) ==> Aligned()
      ensures selectedFiles == SpliceOut(old(selectedFiles), index) && notified == selectedFiles
      ensures previews == SpliceOut(old(previews), index)
      ensures old(previews)[index] !in old(revoked) && revoked == old(revoked) + {old(previews)[index]}
      ensures old(previews)[index] !in previews
      ensures showCamera == old(showCamera) && nextSerial == old(nextSerial) && madeFrom == old(madeFrom)
    {
      var updatedFiles := SpliceOut(selectedFiles, index);
      selectedFiles := updatedFiles;
      notified := updatedFiles;
      revoked := revoked + {previews[index]};
      previews := SpliceOut(previews, index);
    }

    method StartCameraCapture()
      modifies this`showCamera
      ensures showCamera
    {
      showCamera := true;
    }

    method StopCameraCapture()
      modifies this`showCamera
      ensures !showCamera
    {
      showCamera := false;
    }

    /** Emptying the selection when the surrounding form is reset, which the
        component does not offer: every file is dropped and every preview URL
        released. */
    method Clear()
      requires Valid()
      modifies this`selectedFiles, this`previews, this`revoked
      ensures Valid() && Aligned()
      ensures selectedFiles == [] && previews == []
      ensures revoked == old(revoked) + set h | h in old(previews)
    {
      revoked := revoked + set h | h in previews;
      selectedFiles := [];
      previews := [];
    }

    /** The memoised capture handler as written: it was created on the first
        render, so its `addFiles` still sees the first render's empty
        `selectedFiles`, while the preview list is extended from its latest
        value. `screenshot` is the JPEG the webcam gave, `None` when there was
        no webcam or no frame; `nowMs` is the clock reading. */
    method CapturePhoto(screenshot: Option<seq<bv8>>, nowMs: nat) returns (notified: Option<seq<File>>)
      requires Valid()
      modifies this
      ensures Valid()
      ensures screenshot.None? ==> notified == None && unchanged(this)
      ensures screenshot.Some? ==>
        var photo := CaptureFile(nowMs, screenshot.value);
        && selectedFiles == [photo]
        && notified == Some([photo])
        && previews == old(previews) + [BlobUrl(old(nextSerial))]
        && nextSerial == old(nextSerial) + 1
        && !showCamera && revoked == old(revoked)
    {
      if screenshot.None? {
        return None;
      }
      var photo := CaptureFile(nowMs, screenshot.value);
      assert Supported([photo]) == Supported([]) + [photo];
      notified := AddFilesFrom([], [photo]);
      StopCameraCapture();
    }

    /** The capture handler as evidently intended: it appends the photo to the
        current selection, like the file input does. */
    method CapturePhotoCurrent(screenshot: Option<seq<bv8>>, nowMs: nat) returns (notified: Option<seq<File>>)
      requires Valid()
      modifies this
      ensures Valid()
      ensures old(Aligned()) ==> Aligned()
      ensures screenshot.None? ==> notified == None && unchanged(this)
      ensures screenshot.Some? ==>
        var photo := CaptureFile(nowMs, screenshot.value);
        && selectedFiles == old(selectedFiles) + [photo]
        && notified == Some(selectedFiles)
        && previews == old(previews) + [BlobUrl(old(nextSerial))]
        && nextSerial == old(nextSerial) + 1
        && !showCamera && revoked == old(revoked)
    {
      if screenshot.None? {
        return None;
      }
      var photo := CaptureFile(nowMs, screenshot.value);
      assert Supported([photo]) == Supported([]) + [photo];
      notified := AddFiles([photo]);
      StopCameraCapture();
    }
  }

  /** Picking an image and then taking a photo, as written: the picked file
      is dropped from the selection while both previews remain, so the
      preview grid has more entries than there are files. */
  method PickThenCaptureAsWritten(picked: File, jpeg: seq<bv8>, nowMs: nat)
    returns (files: seq<File>, previewCount: nat)
    requires IsSupported(picked)
    ensures files == [CaptureFile(nowMs, jpeg)]
    ensures previewCount == 2 && previewCount > |files|
  {
    var panel := new FileUpload();
    assert Supported([picked]) == Supported([]) + [picked];
    var _ := panel.HandleFileChange(Some([picked]));
    panel.StartCameraCapture();
    var _ := panel.CapturePhoto(Some(jpeg), nowMs);
    files, previewCount := panel.selectedFiles, |panel.previews|;
  }

  /** The same two steps with the corrected capture handler: both files are
      kept, each with its own preview. */
  method PickThenCaptureCorrected(picked: File, jpeg: seq<bv8>, nowMs: nat)
    returns (files: seq<File>, previewCount: nat)
    requires IsSupported(picked)
    ensures files == [picked, CaptureFile(nowMs, jpeg)]
    ensures previewCount == |files|
  {
    var panel := new FileUpload();
    assert Supported([picked]) == Supported([]) + [picked];
    var _ := panel.HandleFileChange(Some([picked]));
    panel.StartCameraCapture();
    var _ := panel.CapturePhotoCurrent(Some(jpeg), nowMs);
    files, previewCount := panel.selectedFiles, |panel.previews|;
  }
}
