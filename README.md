# Artify: a model of the page logic, the photo input, the style grid and the server actions

Artify is a browser application. A user uploads or captures a photo and picks an art style. The page then asks a generative image service for a preview, which the user can download. Recent results are kept in a bounded list in a JSON file. This project models the synchronous logic behind that flow in Dafny and proves what it promises. That logic is what each handler does to the page's state, what the page derives from that state, the camera session flags, and a few pure views and decisions.

- `values.dfy` (module `Values`): JavaScript's `null`/`undefined` (`Option`), string truthiness (`""` is falsy), `a || b` on two `string | null` values, and the `ArtStyle` record of the catalogue.
- `actions.dfy` (module `Actions`): the server actions. The preview and transform actions map errors to a `{ error?, data? }` result. `readCollageData` falls back to the empty list. `saveToCollageAction` looks up the style, then does `unshift` and `slice(0, 50)`. Lemmas cover one save and any sequence of saves.
- `artify_client.dfy` (module `ArtifyClient`): the page. Class `ArtifyPage` has fields `userPhoto`, `previewImage`, `selectedStyle` and a count of unanswered preview requests (`isPreviewLoading` is true while it is positive). Its methods are the handlers, and its functions are the derived views.
- `photo_input.dfy` (module `PhotoInput`): the upload size gate, the camera support check, the ordered camera-error classification, the facing-mode toggle, and class `PhotoInputController`. That class holds `streamRef`, `isCameraLoading`, `isCameraActive`, `activeTab`, `cameraFacingMode` and the other flags the handlers update.
- `art_style_grid.dfy` (module `ArtStyleGrid`): `sortedStyles` (filter by category, then a stable sort by descending `usageCount`), the name-to-icon table with `Palette` as default, and the category gradient chosen by `index % length`.

Asynchronous handlers are split into the event that starts the work and the event that delivers its answer. `HandleStyleSelect` issues a preview request and `OnPreviewResult` applies the answer. `StartCamera` asks for the camera, and `OnAccessGranted` or `OnAccessDenied` handle the reply. `HandleFiles` starts a file read and `OnFileLoaded` finishes it. Browser facts are parameters: whether `videoRef.current` is set, whether the canvas can be drawn on, the captured frame's data URI, and the service's outcome. Media streams are numbers. Each call of `onPhotoSelected` is appended to `selections`, and each stream whose tracks were stopped is appended to `released`.

## Model

| member | source | states |
|---|---|---|
| `Values.Truthy` | src/app/ArtifyClient.tsx:66-68 | definition: a `string \| null` value is truthy iff it is present and not the empty string |
| `Values.Or` | src/app/ArtifyClient.tsx:90 | `a \|\| b`: `a` when it is truthy, `b` otherwise; truthy iff either operand is |
| `Actions.ErrorText` | src/app/actions.ts:44-47 | the reported error is the thrown message when it is a non-empty string, and otherwise the fixed default; it is never empty |
| `Actions.ServiceResult` | src/app/actions.ts:41-60 | success carries only the URI; failure carries only an error; the error is truthy exactly when the service threw |
| `Actions.GeneratePreviewAction` | src/app/actions.ts:37-48 | the preview URI on success; on failure the thrown message, or "An unexpected error occurred during preview generation." when that message is missing or empty |
| `Actions.TransformPhotoAction` | src/app/actions.ts:50-61 | the same mapping with the default "An unexpected error occurred during art transformation." |
| `Actions.ReadCollageData` | src/app/actions.ts:15-27 | the parsed list when reading succeeds; the empty list after any failure, ENOENT or not |
| `Actions.GetCollageImagesAction` | src/app/actions.ts:94-102 | always succeeds, carrying what reading the file produced (the empty list after a failure) |
| `Actions.FindStyleIndex` | src/app/actions.ts:69 | None iff no catalogue style has the id; otherwise an index holding that id with no earlier style holding it |
| `Actions.FindStyle` | src/app/actions.ts:69-72 | None iff no style has the id; otherwise the first style in catalogue order whose id matches |
| `Actions.SaveToCollageAction` | src/app/actions.ts:64-92 | an unknown style id gives "Invalid art style.", and the result does not depend on the stored list and nothing is written; otherwise success, and the written list has length min(old + 1, 50), the new entry (time, URI, the style's name) first, then the first min(old, 49) old entries in order |
| `Actions.Unshifted` | src/app/actions.ts:76-83 | definition: the list a successful save writes, `[entry, ...stored].slice(0, 50)` |
| `Actions.UnshiftedShape` | src/app/actions.ts:76-83 | one save: length min(n + 1, 50), the new entry at the head, the tail equal to the old list's prefix of length min(n, 49) |
| `Actions.SaveAll` | src/app/actions.ts:74-85 | definition: the list left by saving a sequence of entries one after the other, each save being `Unshifted` |
| `Actions.SaveAllShape` | src/app/actions.ts:74-85 | after one or more saves (or none, from a list of at most 50) the list has length min(old + saves, 50), newest first, and the old entries continue after the new ones in their own order; a stored list longer than 50 is cut by the first save |
| `Actions.FiftyOneSavesEvictOldest` | src/app/actions.ts:82-83 | 51 saves into an empty list leave 50 entries, with the newest first and the second one saved last, so the first one saved is gone |
| `ArtifyClient.PreviewAfter` | src/app/ArtifyClient.tsx:51-60 | after an answer, the preview is cleared when the answer's error is truthy, and is otherwise the answer's URI |
| `ArtifyClient.PreviewFollowsService` | src/app/ArtifyClient.tsx:46-60 | through the action's error mapping, a resolved service call shows its URI and a failed one leaves the preview null, whatever message it threw |
| `ArtifyClient.ArtifyPage.constructor` | src/app/ArtifyClient.tsx:17-19 | the page starts with no photo, no preview, no style and no request in flight |
| `ArtifyClient.ArtifyPage.IsPreviewLoading` | src/app/ArtifyClient.tsx:21 | definition: the transition is pending while some issued preview request is unanswered |
| `ArtifyClient.ArtifyPage.DisplayImage` | src/app/ArtifyClient.tsx:90 | the preview when it is a non-empty string, otherwise the photo; it is truthy iff either of them is |
| `ArtifyClient.ArtifyPage.Artwork` | src/app/ArtifyClient.tsx:146-155 | a skeleton while a preview is loading, otherwise the displayed image when it is truthy, otherwise the placeholder |
| `ArtifyClient.ArtifyPage.ShowsStep2` | src/app/ArtifyClient.tsx:110 | definition: step 2 is rendered iff `userPhoto` is truthy |
| `ArtifyClient.ArtifyPage.ShowsStep3` | src/app/ArtifyClient.tsx:110-128 | definition: step 3 is rendered inside step 2 when a style is selected or the preview is truthy |
| `ArtifyClient.ArtifyPage.DownloadEnabled` | src/app/ArtifyClient.tsx:164 | definition: the negation of `!userPhoto \|\| !selectedStyle \|\| isPreviewLoading` |
| `ArtifyClient.ArtifyPage.HandlePhotoSelected` | src/app/ArtifyClient.tsx:23-31 | a null photo resets photo, preview and style to null; a new photo becomes `userPhoto`, clears the preview and keeps the style |
| `ArtifyClient.ArtifyPage.HandleStyleSelect` | src/app/ArtifyClient.tsx:34-49 | the style is always recorded; without a truthy photo no request is made and the preview is untouched; with one the preview is cleared and a request for that photo and the style's prompt is issued |
| `ArtifyClient.ArtifyPage.OnPreviewResult` | src/app/ArtifyClient.tsx:51-60 | an answer sets the preview to null on a truthy error and to the returned URI otherwise, and ends one loading request |
| `ArtifyClient.ArtifyPage.HandleDownload` | src/app/ArtifyClient.tsx:64-74 | a link is made iff the displayed image is truthy, and it points at the displayed image; nothing changes |
| `ArtifyClient.EnabledDownloadHasTarget` | src/app/ArtifyClient.tsx:164 | when the download button is enabled (photo set, style set, no preview loading) there is always an image to download |
| `ArtifyClient.StepsNest` | src/app/ArtifyClient.tsx:110-128 | step 3 (photo and then style or preview) is shown only with step 2 (photo), and an enabled download button implies both |
| `ArtifyClient.ClearAfterPreview` | src/app/ArtifyClient.tsx:23-27 | clearing after a preview was made resets photo, preview and style, hides steps 2 and 3 and disables the download |
| `PhotoInput.ProcessFiles` | src/components/PhotoInput.tsx:160-193 | no file does nothing; a first file over 4·1024·1024 bytes is rejected; any other first file is read |
| `PhotoInput.UploadBoundary` | src/components/PhotoInput.tsx:162 | exactly 4 MiB is read and 4 MiB + 1 byte is rejected |
| `PhotoInput.CheckCameraSupport` | src/components/PhotoInput.tsx:33-55 | false without `mediaDevices.getUserMedia`; otherwise true iff the protocol is `https:` or the host is `localhost` or `127.0.0.1` |
| `PhotoInput.Includes` | src/components/PhotoInput.tsx:119-123 | definition: `String.prototype.includes`, recursively on the message's suffixes |
| `PhotoInput.IncludesAt` | src/components/PhotoInput.tsx:119-123 | the recursive `includes` holds iff the needle occurs at some position of the message |
| `PhotoInput.DeniedMatch` | src/components/PhotoInput.tsx:119 | definition: the message includes "Permission denied" or the name is NotAllowedError |
| `PhotoInput.NotFoundMatch` | src/components/PhotoInput.tsx:121 | definition: the message includes "not found" or the name is NotFoundError |
| `PhotoInput.ClassifyCameraError` | src/components/PhotoInput.tsx:117-126 | a non-`Error` gets the default; otherwise permission denied wins, then not found, then timeout, then the default, each only when the earlier tests fail |
| `PhotoInput.CameraErrorMessage` | src/components/PhotoInput.tsx:117-124 | definition: the toast text of each kind, the default being the text set before the tests |
| `PhotoInput.CameraToastsDistinct` | src/components/PhotoInput.tsx:117-124 | two kinds get the same toast text iff they are the same kind, so the toast tells the four cases apart |
| `PhotoInput.NotAllowedIsDenied` | src/components/PhotoInput.tsx:119 | an error named NotAllowedError is a permission failure whatever its message says |
| `PhotoInput.Toggled` | src/components/PhotoInput.tsx:403 | the toggle always changes the facing mode |
| `PhotoInput.ToggleTwiceIsIdentity` | src/components/PhotoInput.tsx:403 | toggling twice returns the original facing mode |
| `PhotoInput.PhotoInputController.constructor` | src/components/PhotoInput.tsx:20-29 | the upload tab, no stream, neither loading nor active, unknown permission and support, front camera |
| `PhotoInput.PhotoInputController.VideoRendered` | src/components/PhotoInput.tsx:272-366 | definition: the `<video>` element is in the page only on the camera tab with no photo chosen, support not ruled out, and the camera active and not loading |
| `PhotoInput.PhotoInputController.Mount` | src/components/PhotoInput.tsx:33-55 | the mount effect records the support check's result and changes nothing else |
| `PhotoInput.PhotoInputController.StartCamera` | src/components/PhotoInput.tsx:57-71 | does nothing while a stream is held or a start is loading; otherwise starts loading and asks for the current facing mode |
| `PhotoInput.PhotoInputController.OnAccessGranted` | src/components/PhotoInput.tsx:71-111 | as written: the stream is held, listeners are attached only if the video element exists, and the loading flag is left as it was |
| `PhotoInput.PhotoInputController.OnAccessGrantedBound` | src/components/PhotoInput.tsx:71-98 | corrected: the stream is held and the load and error listeners are attached |
| `PhotoInput.PhotoInputController.OnVideoLoaded` | src/components/PhotoInput.tsx:76-85 | the camera becomes active, stops loading and permission is recorded as granted |
| `PhotoInput.PhotoInputController.OnVideoError` | src/components/PhotoInput.tsx:86-96 | a video error clears the flags and stops the camera, which releases the held stream |
| `PhotoInput.PhotoInputController.OnAccessDenied` | src/components/PhotoInput.tsx:112-132 | a refused request records permission as refused, leaves the camera neither active nor loading, and reports the classified message |
| `PhotoInput.PhotoInputController.StopCamera` | src/components/PhotoInput.tsx:135-145 | always ends with no stream, not active and not loading, having released the held stream; on a stopped controller it changes nothing, so twice equals once |
| `PhotoInput.PhotoInputController.Unmount` | src/components/PhotoInput.tsx:147-151 | unmounting stops the camera |
| `PhotoInput.PhotoInputController.HandleTabChange` | src/components/PhotoInput.tsx:153-158 | the tab is recorded; any tab but "camera" stops the camera; "camera" leaves the session as it was, so it does not start it |
| `PhotoInput.PhotoInputController.SwitchCamera` | src/components/PhotoInput.tsx:401-405 | the facing mode flips and the camera stops |
| `PhotoInput.PhotoInputController.CapturePhoto` | src/components/PhotoInput.tsx:212-260 | without video and canvas, or when drawing fails, nothing is selected and nothing changes; otherwise the frame is selected and then the camera is stopped |
| `PhotoInput.PhotoInputController.ClearPhoto` | src/components/PhotoInput.tsx:262-264 | clearing calls `onPhotoSelected(null)` |
| `PhotoInput.PhotoInputController.HandleFiles` | src/components/PhotoInput.tsx:178-193 | the upload decision is `ProcessFiles`; only an accepted file starts a read; nothing is selected yet |
| `PhotoInput.PhotoInputController.OnFileLoaded` | src/components/PhotoInput.tsx:170-174 | a finished read selects its data URI |
| `PhotoInput.FirstStartAsWritten` | src/components/PhotoInput.tsx:71-111 | as written, the first start on a supported browser ends with a stream held, still loading, not active, no listener, and Start Camera now a no-op |
| `PhotoInput.FirstStartCorrected` | src/components/PhotoInput.tsx:71-98 | with the corrected grant the camera becomes active on the granted stream, and a capture selects the frame and releases that stream |
| `ArtStyleGrid.FilterCategory` | src/components/ArtStyleGrid.tsx:59-61 | every style of the category is kept as often as it occurs, and no other style is kept |
| `ArtStyleGrid.Insert` | src/components/ArtStyleGrid.tsx:62 | inserting into a list sorted by non-increasing `usageCount` keeps it sorted and adds exactly the one style; the head is the new style or the old head |
| `ArtStyleGrid.SortByUsage` | src/components/ArtStyleGrid.tsx:62 | non-increasing `usageCount`, and a permutation of its input |
| `ArtStyleGrid.SortedStyles` | src/components/ArtStyleGrid.tsx:59-62 | exactly the catalogue styles of the category, each as often as it occurs there, ordered by non-increasing `usageCount` |
| `ArtStyleGrid.GetStyleIcon` | src/components/ArtStyleGrid.tsx:65-115 | a listed name gets its own icon; Palette appears exactly for the names not in the table |
| `ArtStyleGrid.CategoryGradients` | src/components/ArtStyleGrid.tsx:119-177 | exactly the five named categories (Painting Styles, Drawing & Sketch, Anime & Manga, Video Game Art, Photography Effects) have a palette, each of 5, 6 or 9 gradients |
| `ArtStyleGrid.GetCategoryGradient` | src/components/ArtStyleGrid.tsx:177-180 | an unknown category gets the gray gradient; a known one gets `gradients[index % length]`, an in-bounds entry of its palette |
| `ArtStyleGrid.GradientCycles` | src/components/ArtStyleGrid.tsx:180 | positions i and i + length get the same gradient |

## Findings

| source | as written | input that shows it | evidently intended | confidence | as-written member | corrected member |
|---|---|---|---|---|---|---|
| src/components/PhotoInput.tsx:73-111 | After `getUserMedia` resolves, the load and error listeners, the 3 s fallback and every step that clears `isCameraLoading` are inside `if (videoRef.current)`. The `<video>` element is only rendered when the camera is active and not loading (lines 348-362), so on a first start the ref is null. | An https page, the camera tab, Start Camera, permission granted. The page keeps "Starting camera..." with the stream held, and Start Camera does nothing until the camera is stopped. | Once the stream plays, the camera is active and no longer loading. | medium, not executed | `PhotoInput.FirstStartAsWritten` | `PhotoInput.PhotoInputController.OnAccessGrantedBound` |

`PhotoInput.PhotoInputController.OnAccessGranted` keeps the as-written behaviour, with `videoRef.current` as a parameter. `PhotoInput.FirstStartCorrected` runs the same start through the corrected grant.

## Left out

- The two generative flows (src/ai/flows/) are not part of this model. The service is a `ServiceOutcome`: a resolved URI or a thrown message.
- Data URIs are opaque strings. The browser makes them (`FileReader.readAsDataURL`, `canvas.toDataURL`), and the repository has no codec of its own, so there is no round trip to prove.
- The code rejects no file type. The `accept` attribute of the file input is only a hint to the browser, so the model has no unsupported-type error.
- Not modelled because they are browser or UI effects: canvas mirroring, the resolution hints passed to `getUserMedia`, `video.play()`, toasts, console output, `Image` rendering, drag highlighting (`isDragging`), and opening the file dialog.
- Timers are not modelled: the 3 s fallback (PhotoInput.tsx:104-110) and the 300 ms restart after Switch Camera (PhotoInput.tsx:405). The restart calls the closure of the render that handled the click, so it would request the facing mode from before the toggle. The fallback tests closure values that were both false when the start guard passed.
- The handlers read `isCameraLoading` and `userPhoto` as they are when the handler runs. React closures can hold older values, and that staleness is not modelled.
- Stale preview answers: answers are applied in arrival order and none is discarded, as in the code. `isPreviewLoading` is modelled as "some request is unanswered".
- File I/O, JSON and timestamps: the stored list is a value passed in, and the written list is a value returned. A failed write is only logged, so the save still reports success. The race between two concurrent saves is a concurrency matter, left out.
- The catch blocks of `saveToCollageAction` and `getCollageImagesAction` (actions.ts:88-91, 98-101) are unreachable here. `readCollageData` never throws, and list operations cannot fail on a list. A JSON file holding a non-array would make `unshift` throw, but `ReadOutcome` only holds lists.
- Actions.ErrorText: a thrown `null` or `undefined` (where reading `.message` itself throws) and non-string messages are not modelled.
- The two ENOENT branches of `readCollageData` differ only in logging, so they are one rule here.
- The source comment at actions.ts:82 says 20 entries, but the code keeps 50, and the model follows the code.
- ArtStyleGrid.SortByUsage, ArtStyleGrid.FilterCategory and ArtStyleGrid.SortedStyles: the contracts state which styles appear, how often, and that usage does not increase, but not their relative order. The filter keeps catalogue order and the sort is stable, so ties keep catalogue order, but no contract says so.
- ArtStyleGrid.GetStyleIcon and ArtStyleGrid.GetCategoryGradient: the tables are modelled as plain dictionaries. Names inherited from `Object.prototype` (such as `constructor`) would hit the JavaScript object literal.
- ArtStyleGrid.GetCategoryGradient: `index` is a natural number, because the only caller passes the card's position in the list.
- PhotoInput.PhotoInputController.OnAccessGranted: a grant that arrives while a stream is already held replaces it without stopping its tracks. The model records this, but no property is stated about it. It can happen after Cancel during loading followed by a second start.
- The `loadeddata` and `error` listeners are taken to stop firing once `stopCamera` clears the video element's source.
- The markup of Header.tsx and DevSphereLogo.tsx, the CSS class strings, and the view branches are not modelled. The exceptions are the derived predicates above and `VideoRendered`.
- The contents of the style catalogue are not part of this model. It is any sequence of `ArtStyle` records.
