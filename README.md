# GVP report form — a Dafny model

This project models the logic of the citizen garbage-report form of the GVP web
app. A user picks a garbage level and a waste type, writes optional
remarks, attaches photo or video evidence (from the file picker or the camera),
obtains the device location, and submits the report. Submitting uploads every
evidence file to the `reports` storage bucket, then inserts one row into the
`garbage_reports` table.

The model has five modules, one per source file:

- `Types` (`types.dfy`): the enumerations `GarbageLevel` and `WasteType`, the
  `GeoLocation` record, and the display names of the enumerated values.
- `Utils` (`utils.dfy`): `getSeverityLevel` and `formatCoordinates`, as pure
  functions.
- `Evidence` (`file_upload.dfy`): the evidence picker, as a class
  `FileUpload`. It holds the fields `selectedFiles`, `previews` and
  `showCamera`. It has a ghost record of the file each preview URL was created
  from, and a ghost set of the preview URLs released so far.
- `Geolocation` (`location_button.dfy`): the location button, as a class
  `LocationButton` with the fields `location`, `isLoading` and `error`. It has
  a ghost log of the requests made and how many have settled.
- `Submission` (`report_form.dfy`), which holds the rest of the form:
  - the field schema;
  - the storage paths;
  - a pure specification `Attempt` of one submission: which backend calls it
    makes, in order, and how it ends;
  - the class `ReportForm`, whose `OnSubmit` is the submit handler. It is
    written with the upload loop of the source and proved to make exactly
    the calls `Attempt` describes: a ghost field `calls` records every
    backend call.

The object store and the table are an oracle (`Backend`): two functions
from a call to `Ok` or `Failed(message)`. `nanoid()` is a parameter
`ids: nat -> string`: `ids(0)` is the report id, and `ids(j + 1)` is the id
of file `j`. The creation timestamp is a parameter `createdAt`. A preview
URL from `URL.createObjectURL` is a handle `BlobUrl(n)`, numbered in the
order the URLs were created.

Three things the code does that a reader might not expect:

- The schema holds one waste type, not a set of them (`ReportForm.tsx:34-43`).
- A failed location request does not clear the button's own `location`. Only
  the form is told `null` (`LocationButton.tsx:38-56`).
- The inserted row has no `status` field (`ReportForm.tsx:100-110`).

## Model

| member | source | states |
|---|---|---|
| Utils.SeverityLevel | lib/utils.ts:17-22 | The level is Low exactly when rating ≤ 3, Medium exactly when 3 < rating ≤ 6, High exactly when 6 < rating ≤ 8, and Severe exactly when rating > 8. |
| Utils.GetSeverityLevel | lib/utils.ts:17-22 | The text is one of "Low", "Medium", "High" and "Severe". Each is returned exactly for its band: rating ≤ 3, 3 < rating ≤ 6, 6 < rating ≤ 8, rating > 8. |
| Utils.SeverityName | lib/utils.ts:18-21 | The text returned for each band. Its meaning is stated by GetSeverityLevel. |
| Utils.RankCountsThresholds | lib/utils.ts:18-21 | A level's rank in Low < Medium < High < Severe equals the number of thresholds (3, 6, 8) the rating exceeds. |
| Utils.SeverityMonotone | lib/utils.ts:17-22 | A higher rating never gives a lower level. |
| Utils.LatitudeLetter | lib/utils.ts:10 | The letter is 'N' exactly when latitude ≥ 0, and 'S' exactly when it is negative. |
| Utils.LongitudeLetter | lib/utils.ts:11 | The letter is 'E' exactly when longitude ≥ 0, and 'W' exactly when it is negative. |
| Utils.LettersRecoverSign | lib/utils.ts:10-13 | A coordinate can be recovered from the magnitude and letter shown: nothing about the sign is lost. |
| Utils.FormatCoordinates | lib/utils.ts:13 | The text is the rendered magnitude of the latitude, "° ", its letter, ", ", the rendered magnitude of the longitude, "° " and its letter: each piece is at its position and nothing else is in the text. |
| Evidence.IsSupported | components/report-gvp/FileUpload.tsx:29-31 | A file is accepted when its type starts with "image/" or "video/". |
| Evidence.Supported | components/report-gvp/FileUpload.tsx:29-31 | The kept files are exactly the image/ and video/ files. Each is kept as often as it occurs in the input. |
| Evidence.SupportedAppend | components/report-gvp/FileUpload.tsx:29-31 | Filtering a concatenation is concatenating the filtered parts, so the input order is preserved. |
| Evidence.SpliceOut | components/report-gvp/FileUpload.tsx:45-46 | Removing index i shortens the list by one: elements before i stay in place, and the later ones move down by one. An index past the end changes nothing. |
| Evidence.SpliceOutMultiset | components/report-gvp/FileUpload.tsx:52-53 | Removing index i removes exactly one occurrence of element i. |
| Evidence.Minted | components/report-gvp/FileUpload.tsx:40 | The k new preview URLs are numbered consecutively from the next unused number, one per kept file and in the same order. |
| Evidence.DecimalString | components/report-gvp/FileUpload.tsx:79 | A millisecond count is rendered as a non-empty string of decimal digits. |
| Evidence.DecimalStringValue | components/report-gvp/FileUpload.tsx:79 | The digits written for a millisecond count read back, most significant first, as exactly that count. |
| Evidence.CaptureFile | components/report-gvp/FileUpload.tsx:79 | A capture holds the screenshot's bytes, has type image/jpeg and is named "capture-", then the milliseconds, then ".jpg". It always passes the type filter. |
| Evidence.CaptureNameRecordsTime | components/report-gvp/FileUpload.tsx:79 | The digits between "capture-" and ".jpg" in a capture's name read back as the clock reading. |
| Evidence.FileUpload.constructor | components/report-gvp/FileUpload.tsx:14-16 | The picker starts with no files, no previews and the camera off. |
| Evidence.FileUpload.AddFilesFrom | components/report-gvp/FileUpload.tsx:27-42 | With its own copy of the selection: if no file passes the filter, nothing changes and onFilesChange is not called. Otherwise the selection is that copy followed by the kept files, onFilesChange receives it, and one new preview URL is appended per kept file; the URL counter advances by that many. |
| Evidence.FileUpload.AddFiles | components/report-gvp/FileUpload.tsx:27-42 | The same, with the current selection. It keeps every file paired with a preview made from that file. |
| Evidence.FileUpload.HandleFileChange | components/report-gvp/FileUpload.tsx:20-25 | An absent or empty selection changes nothing. Otherwise it adds the chosen files as AddFiles does, leaving the camera flag and the released preview URLs as they were. |
| Evidence.FileUpload.RemoveFile | components/report-gvp/FileUpload.tsx:44-55 | The file and the preview at the index are removed, keeping the order of the rest. onFilesChange receives the new list. Exactly that preview URL is released, and it had not been released before. |
| Evidence.FileUpload.StartCameraCapture | components/report-gvp/FileUpload.tsx:63-65 | The camera is shown. |
| Evidence.FileUpload.StopCameraCapture | components/report-gvp/FileUpload.tsx:67-69 | The camera is hidden. |
| Evidence.FileUpload.CapturePhoto | components/report-gvp/FileUpload.tsx:71-85 | As written: with no screenshot nothing changes. Otherwise the selection becomes just the photo, onFilesChange receives that, a preview is appended to the existing ones, and the camera closes. |
| Evidence.FileUpload.CapturePhotoCurrent | components/report-gvp/FileUpload.tsx:71-85 | Corrected: the photo is appended to the current selection, and files and previews stay paired. |
| Evidence.FileUpload.Clear | components/report-gvp/ReportForm.tsx:117-119 | Corrected reset: the selection and the previews become empty, and every preview URL is released. |
| Evidence.PickThenCaptureAsWritten | components/report-gvp/FileUpload.tsx:71-85 | Picking an image and then taking a photo leaves only the photo selected, beside two previews. |
| Evidence.PickThenCaptureCorrected | components/report-gvp/FileUpload.tsx:71-85 | With the corrected handler both files are selected, with one preview each. |
| Geolocation.ErrorMessage | components/report-gvp/LocationButton.tsx:41-54 | Permission denied, position unavailable and timeout each get their own message, exactly for that code. Every other code gets the unknown-error message. |
| Geolocation.FromFix | components/report-gvp/LocationButton.tsx:28-32 | The location carries the fix's latitude, longitude and accuracy. |
| Geolocation.LocationButton.constructor | components/report-gvp/LocationButton.tsx:13-15 | No location, not loading, no error, no request. |
| Geolocation.LocationButton.GetLocation | components/report-gvp/LocationButton.tsx:17-64 | Without support: the unsupported message is shown, and there is no request and no change to loading. With support: loading, the error cleared, and one request with high accuracy, a 10 s timeout and maximum age 0. |
| Geolocation.LocationButton.OnPosition | components/report-gvp/LocationButton.tsx:27-37 | The location becomes the fix, the form is told the same value, and loading ends. |
| Geolocation.LocationButton.OnPositionError | components/report-gvp/LocationButton.tsx:38-57 | Loading ends, the code's message is shown, the form is told null, and the button's own location is unchanged. |
| Geolocation.RetryAfterSuccessFails | components/report-gvp/LocationButton.tsx:34-56 | After a success and then a failed retry, the form has no location while the button still displays the first fix. |
| Types.LevelName | types/index.ts:2 | The text each garbage level is written as. |
| Types.LevelNameInjective | types/index.ts:2 | Different garbage levels are written differently. |
| Types.WasteTypeName | types/index.ts:4-12 | The text each waste type is written as, "E-waste" for electronic waste. |
| Types.WasteTypeNameInjective | types/index.ts:4-12 | Different waste types are written differently. |
| Submission.ParseLevel | components/report-gvp/ReportForm.tsx:33 | A string is accepted exactly when it is the name of a garbage level, and then as that level. |
| Submission.ParseWasteType | components/report-gvp/ReportForm.tsx:34-43 | A string is accepted exactly when it is the name of a waste type, and then as that type. |
| Submission.Validate | components/report-gvp/ReportForm.tsx:32-45 | The fields pass exactly when both selects hold an enumerated name. The values then name those members, and the remarks pass through. |
| Submission.ValidateRoundTrip | components/report-gvp/ReportForm.tsx:32-45 | Writing valid values into the fields and validating them gives the same values back. |
| Submission.DefaultFieldsRejected | components/report-gvp/ReportForm.tsx:56-60 | A fresh or reset form does not pass the schema. |
| Submission.LastDotBeforeIsLast | components/report-gvp/ReportForm.tsx:85 | The position found holds a '.', and no later position does; or there is no '.' at all. |
| Submission.Extension | components/report-gvp/ReportForm.tsx:85 | `split('.').pop()`: the part after the last '.', never longer than the name. What it is precisely is stated by ExtensionIsLongestDotFreeSuffix. |
| Submission.ExtensionIsLongestDotFreeSuffix | components/report-gvp/ReportForm.tsx:85 | The extension is a suffix of the name without '.'. It is preceded by a '.' unless it is the whole name. |
| Submission.ExtensionAfterLastDot | components/report-gvp/ReportForm.tsx:85 | A stem, a '.' and a dot-free tail have that tail as extension. |
| Submission.ExtensionWithoutDot | components/report-gvp/ReportForm.tsx:85 | A name without '.' is its own extension. |
| Submission.CaptureStoredAsJpg | components/report-gvp/ReportForm.tsx:85 | A camera capture is stored with extension "jpg". |
| Submission.StoragePath | components/report-gvp/ReportForm.tsx:86 | The path template "reports/" + report id + "/" + file id + "." + extension. The injectivity lemmas below state what it guarantees. |
| Submission.PlannedPath | components/report-gvp/ReportForm.tsx:84-86 | File j's path uses the attempt's report id ids(0), a new id ids(j + 1), and the extension of file j's name. |
| Submission.StoragePathFileIdInjective | components/report-gvp/ReportForm.tsx:86 | In one report folder, equal paths have equal file ids. |
| Submission.StoragePathReportIdInjective | components/report-gvp/ReportForm.tsx:86 | Equal paths have equal report ids. |
| Submission.PlannedPaths | components/report-gvp/ReportForm.tsx:84-86 | One path per file, at the file's index. |
| Submission.PlannedUploads | components/report-gvp/ReportForm.tsx:84-90 | One upload per file, at the file's index, to the reports bucket, at that file's path. |
| Submission.FirstFailure | components/report-gvp/ReportForm.tsx:84-94 | The index found is the first call the backend rejects: all earlier calls are accepted. If there is none, the index is the length of the list. |
| Submission.Remarks | components/report-gvp/ReportForm.tsx:105 | The stored remarks are the remarks given, or "" when there are none. |
| Submission.Attempt | components/report-gvp/ReportForm.tsx:63-127 | The outcome is no-evidence exactly when there are no files, and no-location exactly when there are files but no location. No backend call is made exactly in those two cases. |
| Submission.AttemptWhenUploadFails | components/report-gvp/ReportForm.tsx:84-94 | When upload k is the first one rejected, the attempt makes uploads 0..k and ends with that upload's message. |
| Submission.AttemptWhenAllUploaded | components/report-gvp/ReportForm.tsx:96-114 | When every upload is accepted, the attempt makes every upload and then one insert of the record, and the insert's reply decides the outcome. |
| Submission.UploadsFollowFileOrder | components/report-gvp/ReportForm.tsx:79-90 | Call j is the upload of file j to "reports/" + report id + "/" + ids(j + 1) + "." + extension. Only the last call can be something other than an upload. |
| Submission.NothingAfterFailedUpload | components/report-gvp/ReportForm.tsx:92-94 | After a failed upload k, there are exactly k + 1 calls, all uploads, and k is the only one rejected, with the reported message. |
| Submission.InsertRecordsUploadedPaths | components/report-gvp/ReportForm.tsx:96-110 | The insert happens exactly when every upload is accepted. It is the single last call, to garbage_reports. Its row has the report id, media paths equal to the upload paths in order, the validated values, the remarks or "", the location and the timestamp. Success is exactly when the insert is accepted. |
| Submission.AcceptingBackendSubmits | components/report-gvp/ReportForm.tsx:84-120 | A backend that accepts every call lets any attempt with evidence and a location succeed. |
| Submission.PlannedPathsDistinct | components/report-gvp/ReportForm.tsx:79-86 | If the ids are distinct and drawn from nanoid's alphabet, two files of one attempt get different paths. |
| Submission.UploadPathsDistinct | components/report-gvp/ReportForm.tsx:79-90 | Under the same assumption, every upload of an attempt is inside the report's folder, and no two uploads share a path. |
| Submission.AttemptsUseSeparateFolders | components/report-gvp/ReportForm.tsx:79-86 | Two attempts with different report ids never upload to the same path: their evidence, locations, values, backends and timestamps may all differ. So a second report or a retry never overwrites earlier evidence. |
| Submission.ReportForm.constructor | components/report-gvp/ReportForm.tsx:48-61 | Default fields, no files, no location, not submitting, no messages, no calls. |
| Submission.ReportForm.EditFields | components/report-gvp/ReportForm.tsx:135-138 | The fields become what the user entered. |
| Submission.ReportForm.SetFiles | components/report-gvp/ReportForm.tsx:200 | The form's files become the list the picker reports. |
| Submission.ReportForm.SetLocation | components/report-gvp/ReportForm.tsx:202 | The form's location becomes what the button reports. |
| Submission.ReportForm.TrySubmit | components/report-gvp/ReportForm.tsx:78-120 | The upload loop and the insert make exactly the calls of Attempt. A rejected upload or insert throws its prefixed message and leaves files, location, fields and success as they were. Success resets the fields, files and location and sets the success message. |
| Submission.ReportForm.OnSubmit | components/report-gvp/ReportForm.tsx:63-127 | The calls made are exactly Attempt's. With no files, the evidence message is set and nothing else changes. With no location, the location message is set and nothing else changes. An upload or save failure sets the prefixed message, clears success and keeps files and location. Success clears the error, sets the success message and resets the form. Whenever the attempt starts, submitting ends. |
| Submission.ReportForm.HandleSubmit | components/report-gvp/ReportForm.tsx:131 | Fields that fail the schema change nothing. Valid fields run the handler on the validated values: the calls are Attempt's, and each outcome sets the message the user sees, the success text and the submitting flag as OnSubmit does. |
| Submission.SubmitOneFile | components/report-gvp/ReportForm.tsx:116-120 | After an accepted submission the form holds no files and no location, while the picker still holds the submitted file. |
| Submission.NextReportAfterSuccessAsWritten | components/report-gvp/ReportForm.tsx:116-119 | After a successful report, picking one new file leaves the form holding the previous report's file and the new one. |
| Submission.NextReportAfterSuccessCorrected | components/report-gvp/ReportForm.tsx:116-119 | When the reset also clears the picker, the form holds only the new file. |

## Left out

- The object store and the table are an oracle that answers each call with
  `Ok` or an error object with a message. A backend call that throws instead
  of returning an error object is not modelled. In the source, such a throw
  shows its raw message, or the fallback message when that is empty, so the
  fallback branch of `OnSubmit` is never taken in the model. The
  `console.error` log is not modelled either.
- `nanoid()` randomness is not modelled. That its identifiers are distinct
  and use only its alphabet is a precondition of the path-distinctness
  lemmas, never proved.
- The clock (`Date.now()`, `new Date().toISOString()`) is a parameter.
  `formatTimestamp` (locale formatting) is not modelled.
- `URL.createObjectURL` and `URL.revokeObjectURL` are modelled as numbered
  handles and a ghost set of released handles. The component releases
  nothing when it unmounts, so the model does not claim that every handle is
  eventually released.
- The webcam screenshot, the `fetch`/blob conversion and
  `navigator.geolocation` are device APIs. Only their results, or their
  callbacks, are modelled.
- React's batched state updates and asynchronous scheduling are not
  modelled. Each handler is one sequential method, and the `await`s of the
  upload loop do not interleave with other events. The location button is
  disabled while a request is loading, and that becomes a precondition of
  `GetLocation`. The form's submit button is also disabled while submitting,
  but `OnSubmit` and `HandleSubmit` have no such precondition: their
  contracts hold from any state.
- The internals of zod and react-hook-form are not modelled: only the enum
  membership of the schema is.
- The number formatting of `toFixed(6)` in `formatCoordinates` is a function
  parameter. `Math.round`, and the rendering of the component trees, are not
  modelled.
- `cn` (class-name merging) is not modelled.
- Ratings and coordinates are exact reals. The model does not cover what
  JavaScript does with NaN or infinities.
- Utils.FormatCoordinates: the rendering of the magnitudes is a parameter,
  so the contract fixes the layout, the letters and which magnitude goes
  where, but not the digits.
- The render-time failure that follows the stale capture shown under
  Findings is not modelled: the preview grid reads the type of file `i`
  where there are fewer files than previews.
- Pages, layout, navigation and sample images have no logic and are not
  part of this model.

## Findings

| source | as written | input that shows it | evidently intended | confidence | as-written member | corrected member |
|---|---|---|---|---|---|---|
| components/report-gvp/FileUpload.tsx:71-85 | `capturePhoto` is memoised on `[webcamRef]` only. It calls the `addFiles` of the first render, whose `selectedFiles` is `[]`. The previews use a functional update, so they keep growing. | Pick one image, open the camera, take a photo: the selection and the form's files become just the photo, while there are two previews. | The photo is appended to the current selection, as the file input does. | high; not executed | Evidence.PickThenCaptureAsWritten | Evidence.PickThenCaptureCorrected |
| components/report-gvp/ReportForm.tsx:116-119 | The reset after a successful submission empties the form's `files`, but not the picker's own `selectedFiles` and previews. | Submit a report with one file, then pick one file for the next report: `onFilesChange` hands the form both files, and the next submission uploads the old file again. | The submitted evidence is cleared from the picker as well. | medium; not executed | Submission.NextReportAfterSuccessAsWritten | Submission.NextReportAfterSuccessCorrected |
