# Certificate issuance system: a Dafny model of its core

The system keeps a list of courses and issues certificates. For each
certificate, a user fills in an intake form and chooses a background PDF. Then,
in a layout editor, they place five overlays on the rendered background: the
candidate's name, the course, the tenure, the description and a QR code. The
editor exports the result as a PDF named after the candidate.

This project models four parts of that core and proves what each one promises.
Each part keeps its source form.

- **The course list store** (`CourseContext`).
  - Class `CourseProvider` owns the `courses` sequence.
  - Add, delete and update replace the sequence wholesale.
  - Delete is specified by the function `WithoutIndex`. Update is specified by
    the function `Replaced`.
- **The certificate intake form** (`CertificateDetailsForm`).
  - Class `Form` holds the form data, the error record and the chosen file.
  - `Validate` builds the error record rule by rule and is proved equal to the
    function `ValidationErrors`.
  - Lemmas show that the record is empty exactly when every rule holds.
- **The course form** (`CourseForm`).
  - It has the same shape as the intake form, without the file rule.
  - On submit it either updates every matching course (edit mode) or appends a
    newly stamped course.
- **The layout editor** (`Generator`).
  - Class `Session` holds the overlay positions, the focused overlay and the
    touch anchors.
  - The three handlers that move an overlay are proved against pure
    functions: `DragTarget`, `Nudge` and `TouchTarget`.
  - The class invariant `Valid` says that no stored coordinate is negative.

Shared pieces:
- `Types`: the course record, its fields and the identifier stamp.
- `Text`: JavaScript's `trim` over the ECMAScript white-space set.
- `FormRules`: the error record and the rules both forms apply.

### Parameters standing in for the environment

- The date comparison `new Date(a) > new Date(b)` is a parameter `after` of
  type `(string, string) -> bool`.
- Each form's generated `crypto.randomUUID()` value is a constructor parameter.
- The layout editor's bounding rectangles and pointer and touch coordinates are
  parameters. Coordinates are `real`.
- A form's submit does not route anywhere:
  - the course form's submit returns whether it succeeded;
  - the intake form's submit returns the `Handoff` that it would store in the
    editor context.

### Behaviour worth noting

- **Blur clears focus whichever overlay fires it** (Generator.tsx:121), not
  only when that overlay holds the focus (`Generator.Session.HandleBlur`).
- **The fifth overlay is the QR code**, stored under the label `QR`
  (`Generator.Key`).
- **Drawing falls back to 50 for each coordinate separately** (Generator.tsx:52-53).
  A stored 0 is therefore drawn at 50 (`Generator.DisplayPosition`,
  `Generator.LeftEdgeDrawnAtFifty`). The key handler falls back to (50, 50)
  only when the whole entry is missing (`Generator.StoredOrStart`).

## Model

All paths are relative to the repository root.

| member | source | states |
|---|---|---|
| Types.Set | src/components/CertificateDetailsForm/CertificateDetailsForm.tsx:54 | `{ ...prev, [name]: value }` gives the named field the new value and keeps every other field |
| Types.Stamped | src/components/CertificateDetailsForm/CertificateDetailsForm.tsx:75-79 | The final record carries the generated id as both `id` and `courseId`, and every other field is unchanged |
| Types.StampedIdempotent | src/components/CourseForm/CourseForm.tsx:35-39 | Stamping twice with the same id is stamping once, so the effect re-running does not alter the record further |
| Text.Trim | src/components/CertificateDetailsForm/CertificateDetailsForm.tsx:32 | `trim` returns the empty string exactly when the input is all white space; otherwise its first and last characters are not white space |
| Text.TrimIsInfix | src/components/CertificateDetailsForm/CertificateDetailsForm.tsx:32 | The trimmed string is a contiguous slice of the input, and everything cut off on either side is white space |
| Text.TrimIdempotent | src/components/CourseForm/CourseForm.tsx:46 | Trimming a trimmed string changes nothing |
| FormRules.WithError | src/components/CertificateDetailsForm/CertificateDetailsForm.tsx:55 | `{ ...prev, [k]: v }` on the error record sets key `k` to `v` and leaves every other key as it was |
| FormRules.Message | src/components/CertificateDetailsForm/CertificateDetailsForm.tsx:32-44 | Every rule that can fail has a non-empty message, so a failure is never confused with an entry that was cleared to the empty string |
| FormRules.RecordErrors | src/components/CourseForm/CourseForm.tsx:44-58 | The record rules never file an error under `id`, `courseId` or `pdf`, and they file a date-order error only when both dates are given |
| FormRules.NoKeysIsNoErrors | src/components/CertificateDetailsForm/CertificateDetailsForm.tsx:48 | `Object.keys(e).length === 0` holds exactly when no error key is present |
| FormRules.RecordErrorsAt | src/components/CourseForm/CourseForm.tsx:46-58 | For every key, the record rules leave an entry exactly when that key's rule fails, and the entry is that rule's message |
| FormRules.RecordErrorsEmptyIff | src/components/CourseForm/CourseForm.tsx:43-62 | A record is valid exactly when both names and the description hold a non-white-space character, both dates are given and the start is not after the end |
| FormRules.RecordRulesHold | src/components/CourseForm/CourseForm.tsx:46-58 | Passing every per-key rule is the same as meeting the concrete conditions on the five fields |
| FormRules.DatesInOrder | src/components/CourseForm/CourseForm.tsx:52-58 | Under a strict total order on dates, a record that passes the date rules starts on or before its end |
| FormRules.StampedKeepsVerdicts | src/components/CourseForm/CourseForm.tsx:81-85 | Stamping the identifiers changes no rule's verdict |
| CourseContext.KeepOtherPositions | src/contexts/CourseContext.tsx:14 | Filtering out one position of a list suffix removes exactly that element, or nothing when the position is outside the suffix |
| CourseContext.WithoutIndex | src/contexts/CourseContext.tsx:13-15 | Deleting an in-range index shortens the list by one, keeping the entries before and after it in order; an out-of-range index removes nothing |
| CourseContext.WithoutIndexAt | src/contexts/CourseContext.tsx:14 | After a delete, position k holds the old entry k when k is before the index, and the old entry k+1 otherwise |
| CourseContext.Replaced | src/contexts/CourseContext.tsx:17-21 | An update keeps the length; every entry with the updated id becomes the update and every other entry is untouched |
| CourseContext.ReplacedKeepsIds | src/contexts/CourseContext.tsx:19 | An update never changes which id sits at which position |
| CourseContext.ReplacedNoMatch | src/contexts/CourseContext.tsx:19 | An update whose id matches no entry leaves the list unchanged |
| CourseContext.ReplacedIdempotent | src/contexts/CourseContext.tsx:17-21 | Applying the same update twice equals applying it once |
| CourseContext.CourseProvider.constructor | src/contexts/CourseContext.tsx:7 | The list starts empty |
| CourseContext.CourseProvider.AddCourse | src/contexts/CourseContext.tsx:9-11 | The course is appended, and the previous list is kept as a prefix |
| CourseContext.CourseProvider.DeleteCourse | src/contexts/CourseContext.tsx:13-15 | The new list is `WithoutIndex` of the old one |
| CourseContext.CourseProvider.UpdateCourse | src/contexts/CourseContext.tsx:17-21 | The new list is `Replaced` of the old one |
| CertificateDetailsForm.ValidationErrors | src/components/CertificateDetailsForm/CertificateDetailsForm.tsx:30-46 | The intake form's error record has a `pdf` entry exactly when no file was chosen, and never an entry under `id` or `courseId` |
| CertificateDetailsForm.ValidationErrorsAt | src/components/CertificateDetailsForm/CertificateDetailsForm.tsx:29-45 | For every key, validation leaves an entry exactly when that key's rule fails (including `pdf` when no file was chosen), holding that rule's message |
| CertificateDetailsForm.ValidIff | src/components/CertificateDetailsForm/CertificateDetailsForm.tsx:29-49 | Validation succeeds exactly when the names and description are not blank, both dates are given, a file is present and the start is not after the end |
| CertificateDetailsForm.HandoffPassesRules | src/components/CertificateDetailsForm/CertificateDetailsForm.tsx:71-79 | The record a successful submit hands off still passes every record rule |
| CertificateDetailsForm.Form.constructor | src/components/CertificateDetailsForm/CertificateDetailsForm.tsx:20-27 | The form starts with the initial record, no errors, no file and its generated id |
| CertificateDetailsForm.Form.Validate | src/components/CertificateDetailsForm/CertificateDetailsForm.tsx:29-49 | The error record becomes `ValidationErrors` of the form data and file, and the result is true exactly when that record has no key |
| CertificateDetailsForm.Form.HandleChange | src/components/CertificateDetailsForm/CertificateDetailsForm.tsx:51-58 | The named field takes the new value, and that field's error becomes the empty string; all else is unchanged |
| CertificateDetailsForm.Form.HandlePdfUpload | src/components/CertificateDetailsForm/CertificateDetailsForm.tsx:60-66 | With a file, it is stored and the `pdf` error becomes the empty string; without one, nothing changes |
| CertificateDetailsForm.Form.HandleSubmit | src/components/CertificateDetailsForm/CertificateDetailsForm.tsx:68-89 | Failing validation hands nothing off and keeps the data and file. Passing it hands off the file and the record stamped with the form's id, then resets to the initial record without a file |
| CourseForm.Initialised | src/components/CourseForm/CourseForm.tsx:31-41 | With edit data the form shows exactly that record; otherwise the previous data gets the generated id as `id` and `courseId` |
| CourseForm.NewFormCarriesOnlyIds | src/components/CourseForm/CourseForm.tsx:31-41 | A new form is empty except for its two identifiers, which both equal the generated id |
| CourseForm.Form.constructor | src/components/CourseForm/CourseForm.tsx:24-41 | Mounting starts from the initial record and applies the edit-data effect |
| CourseForm.Form.EditDataChanged | src/components/CourseForm/CourseForm.tsx:31-41 | New edit data re-runs the effect on the current form data |
| CourseForm.Form.Validate | src/components/CourseForm/CourseForm.tsx:43-62 | The error record becomes `RecordErrors` of the form data, and the result is true exactly when that record has no key |
| CourseForm.Form.HandleChange | src/components/CourseForm/CourseForm.tsx:64-71 | The named field takes the new value, and that field's error becomes the empty string |
| CourseForm.Form.HandleSubmit | src/components/CourseForm/CourseForm.tsx:73-92 | Failing validation changes neither the list nor the data. Passing it updates by id in edit mode or appends the stamped record otherwise, then resets the form to the initial record |
| Generator.Clamp | src/pages/Certificate/generator/Generator.tsx:30-31 | The clamped value is never negative and never above a non-negative bound; it is the value itself inside the range, 0 below it or when the range is empty, and the bound above it |
| Generator.DragTarget | src/pages/Certificate/generator/Generator.tsx:21-35 | A dropped overlay is never left of or above the preview and never sticks out when it fits; it lands exactly under the pointer whenever that is allowed |
| Generator.Nudge | src/pages/Certificate/generator/Generator.tsx:59-77 | Only the four arrow keys move. Down and Right add a step with no limit; Up and Left subtract a step but stop at 0. Non-negative positions stay non-negative |
| Generator.DownThenUp | src/pages/Certificate/generator/Generator.tsx:68-69 | Down then Up restores a position on or below the top edge |
| Generator.RightThenLeft | src/pages/Certificate/generator/Generator.tsx:70-71 | Right then Left restores a position on or right of the left edge |
| Generator.UpThenDownAtTopEdge | src/pages/Certificate/generator/Generator.tsx:68-69 | At the top edge, Up then Down leaves the overlay one step lower |
| Generator.StoredOrStart | src/pages/Certificate/generator/Generator.tsx:64 | A key press starts from the stored position, or from (50, 50) before the first move |
| Generator.AnchorAt | src/pages/Certificate/generator/Generator.tsx:85-88 | The anchor is the touch point's offset from the overlay's top-left corner. `Generator.TouchFollowsFinger` gives it its meaning: with this anchor, a touch-dragged overlay follows the finger exactly |
| Generator.TouchTarget | src/pages/Certificate/generator/Generator.tsx:99-104 | A touch-dragged overlay stays inside the preview for a 50-pixel box, and sits exactly at the finger minus the anchor whenever that is allowed |
| Generator.TouchFollowsFinger | src/pages/Certificate/generator/Generator.tsx:79-111 | An overlay touched and then dragged by (dx, dy) moves by exactly (dx, dy) while in range; it does not jump when first touched |
| Generator.DisplayCoord | src/pages/Certificate/generator/Generator.tsx:52-53 | The fallback to 50 never yields 0: a missing or zero coordinate draws at 50, and any other value draws as stored |
| Generator.DisplayPosition | src/pages/Certificate/generator/Generator.tsx:51-53 | An overlay never moved is drawn at (50, 50), and no drawn coordinate is 0 |
| Generator.DisplayMatchesStore | src/pages/Certificate/generator/Generator.tsx:52-53 | An overlay with both coordinates non-zero is drawn where it is stored |
| Generator.LeftEdgeDrawnAtFifty | src/pages/Certificate/generator/Generator.tsx:52 | An overlay dropped at or past the left edge is stored at x = 0 but drawn at x = 50 |
| Generator.ExportFileName | src/pages/Certificate/generator/Generator.tsx:43 | The file name ends in `.pdf`; its stem is the candidate's name, or `certificate` when the name is missing or empty |
| Generator.VisibleOverlays | src/pages/Certificate/generator/Generator.tsx:162-176 | Overlays are shown exactly when a non-empty background image and the form data are both present; then all five are shown, with no repeats |
| Generator.VisibleOverlaysCoverAll | src/pages/Certificate/generator/Generator.tsx:166-176 | When overlays are shown, each of the five keys is among them |
| Generator.Session.constructor | src/pages/Certificate/generator/Generator.tsx:15-18 | A session starts with no positions, no focus and no touch anchors, and is valid |
| Generator.Session.HandleDrag | src/pages/Certificate/generator/Generator.tsx:21-35 | With a preview, the overlay's position becomes `DragTarget`; without one, nothing changes; no coordinate becomes negative |
| Generator.Session.HandleKeyDown | src/pages/Certificate/generator/Generator.tsx:59-77 | Only the focused overlay reacts to an arrow key; it moves by `Nudge` from its stored position or from (50, 50). Any other case changes nothing, and no coordinate becomes negative |
| Generator.Session.HandleTouchStart | src/pages/Certificate/generator/Generator.tsx:79-90 | With a preview, the touch's offset inside the overlay is recorded as its anchor; without one, nothing changes |
| Generator.Session.HandleTouchMove | src/pages/Certificate/generator/Generator.tsx:92-111 | With a preview and a recorded anchor, the overlay's position becomes `TouchTarget`; otherwise nothing changes; no coordinate becomes negative |
| Generator.Session.HandleFocus | src/pages/Certificate/generator/Generator.tsx:120 | The focused overlay becomes this one |
| Generator.Session.HandleBlur | src/pages/Certificate/generator/Generator.tsx:121 | Focus is cleared, whichever overlay was focused |

## Left out

- **Background rasterisation is not modelled.** Loading the chosen PDF, rendering its first page at scale 2 with pdf.js, and reading it into a data URL (Generator.tsx:133-157) are asynchronous library I/O. `VisibleOverlays` takes the resulting image as an input.
- **Export is not modelled.** Capturing the preview with html2canvas and building the page with jsPDF (Generator.tsx:37-44) are library calls. Only the file name, `ExportFileName`, is modelled.
- **The QR code's payload is not modelled.** It is `JSON.stringify` of the form data, drawn by `QRCodeSVG`.
- **Overlay text content is not modelled.** This includes the tenure text `start to end`.
- **JavaScript numbers are modelled as exact reals.** NaN, infinities and rounding are left out.
- **DOM geometry is left out.** `getBoundingClientRect` results and event coordinates are parameters.
- **`e.touches[0]` is assumed to exist.** A touch event always carries at least one touch.
- **Date parsing is left out.** `new Date(s)` and the comparison of two dates form the `after` parameter. `FormRules.DatesInOrder` assumes only that it is a strict total order.
- **Identifier generation is left out.** `crypto.randomUUID()` is a constructor parameter.
- **Navigation after submit is not modelled.** This covers `navigate(...)` in both forms.
- **The editor context is not modelled as state.** Storing the file and record in it (`setPdfFile`, `saveFormToContext`) is the intake form's returned `Handoff`.
- **Context plumbing is left out.** The routes, the page components, the header, the course table and the way `useCourseContext` throws outside its provider are not part of this model.
- **Direct list replacement is not modelled.** The provider exposes `setCourses`, which no core operation calls.
- **A non-integer delete index is not modelled.** In `deleteCourse`, such an index, like any out-of-range one, removes nothing. The model's index is an `int`.
- **Input names are restricted to record fields.** `handleChange` is keyed by the input's `name`. The model takes a `Field`, since every input of both forms is named after one.
- **React scheduling is left out.** State updates are applied at once, in statement order. This includes batching and the timing of effects and of `useCallback` closures.
- **Error message display is not modelled.**
- **The focus outline is not modelled.** This is the dashed outline drawn around the focused overlay (Generator.tsx:56).
- **Lone UTF-16 surrogates cannot be represented.** JavaScript strings are sequences of UTF-16 code units, while the model's strings are sequences of Unicode scalar values. `trim` is unaffected, because every character it removes is in the Basic Multilingual Plane.
- Generator.Session.HandleTouchMove: `preventDefault` on the touch event is not modelled.
