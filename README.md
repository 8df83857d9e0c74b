# Quick Edit Image: a verified model

This project models the core of the Quick Edit Image module for Drupal, which
lets a user replace an image shown on a page in place: the region becomes
editable, the user drops or picks a file, the file is uploaded and validated,
and the region shows the new image while the entity waits in the temp store.

It has two halves.

- **The in-place editor** (`js/editors/image.js`). `RegionModel` states, on
  values, the abstract state of one editable region. That state covers the
  field state and the previous one, the drop-zone, the
  `quickedit-image-element` and `quickedit-validation-error` classes, the
  error blocks in the toolbar group, the metadata toolbar, the inner HTML,
  `originalValue`, `validationErrors`, the entity's `inTempStore` flag, the
  `_.defer` queue, the requests sent and the calls to `save`. It gives the
  effect of every editor operation as a function. It also states the events
  that drive a region (host transitions, the deferred callback, drops, picks,
  drags, replies, toolbar input, revert) and proves an invariant kept by any
  sequence of them. `ImageEditor.Editor` is the editor as a class whose
  methods change those fields in place. Each method is proved to have exactly
  the effect of its `RegionModel` function. `ImageToolbar` holds the two pure
  parts: the toolbar template and the `currentValue` name matcher.
- **The upload and info controller** (`src/Controller/QuickeditImageController.php`).
  `ImageController` covers the field guards, the info mapping, the added
  resolution validator, the reply of the upload endpoint, the item-0 edit that
  points the entity at the new file, and the choice of renderer for a view
  mode. `QuickeditImageController.Upload` and `SaveEntity` are methods that
  write to a `TempStore` object. Drupal's services are the fields of a
  `Drupal` value: directory preparation, `file_save_upload`, the image
  factory, the view modes, rendering and the rendered status messages.

Behaviour of the code that the model keeps as written:
- A reply with a `main_error` only shows errors. The field state stays as it
  was.
- `errors` is one rendered HTML string.
- `originalValue` is captured once, by `initialize`.
- Nothing stops a second upload while one is in flight. Both requests go out,
  and their replies are applied in whatever order they arrive.
- Restyling a drop-zone adds the literal class `.quickedit-image-dropzone`,
  dot included. So the first and second renderings differ in their class
  lists, and only from the second call on is rendering idempotent.
- The title label's `form-required` class follows `alt_field_required`.
- `showValidationErrors` appends one more block on every call.
- Replacing the region's inner HTML also removes the drop-zone, which is a
  child of the region. This happens on upload success and on revert.
  When the reply's HTML holds no field container, `$el.html(undefined)` only
  reads, so nothing is replaced.

## Model

| member | source | states |
|---|---|---|
| `ImageToolbar.Template` | js/editors/image.js:60-71 | an `alt` entry exists iff `alt_field`, a `title` entry iff `title_field`, alt before title, no other entries; each input is `required` by its own flag and carries the value as value and placeholder; both labels' `form-required` follows `alt_field_required` |
| `ImageToolbar.SuffixesExclusive` | js/editors/image.js:27 | no input name ends in both `alt]` and `title]`, so the regular expression's capture is unambiguous |
| `ImageToolbar.MatchedName` | js/editors/image.js:27-29 | the capture is `alt` iff the name ends in `alt]`, `title` iff it ends in `title]`, and nothing otherwise |
| `ImageToolbar.IndexOfInput` | js/editors/image.js:30-32 | the position of the first toolbar input with the name, or the form's length when none has it (jQuery's `val()` reads the first match) |
| `ImageToolbar.CurrentValue` | js/editors/image.js:26-35 | a value is returned iff the name matches and the toolbar has that input; it is the first such input's value |
| `ImageToolbar.SetInputValue` | js/editors/image.js:282-284 | typing changes only the value of the inputs with that name; labels, names, placeholders and required flags stay |
| `ImageToolbar.TypedValueIsCurrent` | js/editors/image.js:26-35 | round trip: after the user types into the input a host name points at, `currentValue` returns exactly what was typed |
| `ImageToolbar.CurrentValueOfTemplate` | js/editors/image.js:26-35 | on a fresh toolbar, `currentValue` gives the alt text for `…alt]` iff `alt_field`, the title for `…title]` iff `title_field`, nothing otherwise |
| `RegionModel.Trim` | js/editors/image.js:23 | `$.trim`: the result is a slice of the input with only JavaScript white space cut off either end, and neither end of it is white space |
| `RegionModel.Initial` | js/editors/image.js:20-23 | a new region is consistent, keeps its markup and records the trimmed markup as `originalValue` |
| `RegionModel.RenderDropzone` | js/editors/image.js:297-314 | there is exactly one drop-zone afterwards, carrying the text; an existing one loses `upload error hover loading` and gains the dotted class and the style's classes; a new one has `quickedit-image-dropzone` plus the style; its visual classes are exactly the style; nothing else changes |
| `RegionModel.RenderDropzoneSettles` | js/editors/image.js:297-314 | two calls with the same arguments leave one drop-zone with that text whose visual state is the style, and any further call changes nothing |
| `RegionModel.ShowValidationErrors` | js/editors/image.js:333-341 | one more error block, holding the current validation errors, and the validation-error class; nothing else changes |
| `RegionModel.RemoveValidationErrors` | js/editors/image.js:346-351 | no error block and no validation-error class; nothing else changes |
| `RegionModel.RenderToolbar` | js/editors/image.js:272-287 | a metadata request is sent iff no toolbar exists |
| `RegionModel.Save` | js/editors/image.js:169 | the host's save is called once more |
| `RegionModel.StateChange` | js/editors/image.js:83-179 | the field state is never changed during the call; `inactive`, `highlighted`, `changed`, `saved` change nothing; `candidate` from `inactive` changes nothing, and from any other state leaves no drop-zone and no editing class; `candidate` or `saving` from `invalid` leave no error block and no error class, and from any other state keep both; `saving` calls save whatever the previous state and keeps the drop-zone and the editing class; `activating` only enqueues one deferred move to `active`; `active` marks the region, shows exactly the drop-zone `renderDropzone('upload', …)` gives and asks for metadata iff there is no toolbar; `invalid` shows the errors |
| `RegionModel.SetState` | js/editors/image.js:105-107 | `fieldModel.set('state', s)`: the state becomes `s`, the previous state the old one, and the editor is notified iff the state changed |
| `RegionModel.RunDeferred` | js/editors/image.js:105-107 | the oldest deferred callback runs after the current change has returned: it is removed from the queue and its state is set |
| `RegionModel.ActivationIsDeferred` | js/editors/image.js:102-108 | entering `activating` leaves the state `activating` with one queued move and no drop-zone change; running the queue then makes the region `active` with the upload drop-zone |
| `RegionModel.ReplaceContent` | js/editors/image.js:223 | the new inner HTML replaces every child, the drop-zone included |
| `RegionModel.Revert` | js/editors/image.js:319-321 | the inner HTML becomes the region's `originalValue` and the drop-zone, a child of the region, is gone |
| `RegionModel.RunKeepsOriginalValue` | js/editors/image.js:20-23 | no sequence of events changes `originalValue` after it is set |
| `RegionModel.RevertRestoresInitialMarkup` | js/editors/image.js:319-321 | after any events following `initialize`, reverting puts back exactly the trimmed markup of the region at `initialize` |
| `RegionModel.RevertIdempotent` | js/editors/image.js:319-321 | reverting twice equals reverting once |
| `RegionModel.UploadImage` | js/editors/image.js:187-201 | the drop-zone shows `upload loading` with the file's name and the upload request is sent; nothing else changes |
| `RegionModel.SecondUploadNotGuarded` | js/editors/image.js:187-201 | a second upload while one is in flight is sent too, after the first; the drop-zone shows the second file |
| `RegionModel.Drop` | js/editors/image.js:137-145 | without files nothing happens; otherwise `hover` goes and only the first file is uploaded |
| `RegionModel.Pick` | js/editors/image.js:147-155 | without files nothing happens; otherwise only the first picked file is uploaded |
| `RegionModel.DragEnter` | js/editors/image.js:128-131 | the drop-zone gains `hover` |
| `RegionModel.DragLeave` | js/editors/image.js:132-135 | the drop-zone loses `hover` |
| `RegionModel.Classify` | js/editors/image.js:248-263 | the three-way split: main error iff a reply with a truthy `main_error`, callback iff a reply without one, server error iff the transport failed |
| `RegionModel.ShowMainError` | js/editors/image.js:249-255 | the drop-zone shows `error` with the main error; `validationErrors` is overwritten only by non-empty `errors`; one more error block; no field state is set |
| `RegionModel.HandleUploadResponse` | js/editors/image.js:209-224 | the field becomes `changed`, the entity is in the temp store, no error block or class remains, the extracted fragment becomes the inner HTML, and toolbar, original value, queue and requests are untouched |
| `RegionModel.AnswerUpload` | js/editors/image.js:248-263 | a main-error reply only shows errors; a reply without one runs the upload callback; a transport failure shows the generic message and touches neither state, errors nor content; only the callback changes state, temp-store flag or content |
| `RegionModel.AnswerInfo` | js/editors/image.js:279-285 | the metadata reply renders the toolbar from the template; failures go through the same three-way split; the field state is untouched |
| `RegionModel.ToolbarEdited` | js/editors/image.js:282-284 | a keystroke or paste in the toolbar keeps the typed value and sets the field to `changed` |
| `RegionModel.StepKeepsConsistent` | js/editors/image.js:333-351 | every event keeps the invariant: the error class is shown iff some error block is, a drop-zone keeps its base class, and the queue holds only moves to `active` |
| `RegionModel.Step` | js/editors/image.js:127-155 | a drop reaches nothing when there is no drop-zone; the field state moves only through `set`, the deferred callback, a successful upload or typing in the toolbar; `set` leaves the requested state with the old one as previous; no event changes `originalValue` |
| `RegionModel.Run` | js/editors/image.js:83-179 | no events change nothing, and one event is one `Step` |
| `RegionModel.RunConcat` | js/editors/image.js:83-179 | running two sequences of events one after the other equals running their concatenation |
| `RegionModel.RunKeepsConsistent` | js/editors/image.js:83-179 | any sequence of events keeps that invariant |
| `ImageEditor.Editor.constructor` | js/editors/image.js:20-23 | the new editor's region is `RegionModel.Initial` |
| `ImageEditor.Editor.StateChange` | js/editors/image.js:83-179 | the region afterwards is `RegionModel.StateChange` of the region before |
| `ImageEditor.Editor.Save` | js/editors/image.js:169 | as `RegionModel.Save` |
| `ImageEditor.Editor.SetFieldState` | js/editors/image.js:214 | as `RegionModel.SetState` |
| `ImageEditor.Editor.RunDeferred` | js/editors/image.js:105-107 | as `RegionModel.RunDeferred` |
| `ImageEditor.Editor.RenderDropzone` | js/editors/image.js:297-314 | restyles in place or appends, as `RegionModel.RenderDropzone` |
| `ImageEditor.Editor.RenderToolbar` | js/editors/image.js:272-287 | as `RegionModel.RenderToolbar` |
| `ImageEditor.Editor.ShowValidationErrors` | js/editors/image.js:333-341 | as `RegionModel.ShowValidationErrors` |
| `ImageEditor.Editor.RemoveValidationErrors` | js/editors/image.js:346-351 | as `RegionModel.RemoveValidationErrors` |
| `ImageEditor.Editor.UploadImage` | js/editors/image.js:187-201 | as `RegionModel.UploadImage` |
| `ImageEditor.Editor.Drop` | js/editors/image.js:137-145 | as `RegionModel.Drop` |
| `ImageEditor.Editor.Pick` | js/editors/image.js:147-155 | as `RegionModel.Pick` |
| `ImageEditor.Editor.DragEnter` | js/editors/image.js:128-131 | as `RegionModel.DragEnter` |
| `ImageEditor.Editor.DragLeave` | js/editors/image.js:132-135 | as `RegionModel.DragLeave` |
| `ImageEditor.Editor.HandleUploadResponse` | js/editors/image.js:209-224 | as `RegionModel.HandleUploadResponse` |
| `ImageEditor.Editor.ShowMainError` | js/editors/image.js:249-255 | as `RegionModel.ShowMainError` |
| `ImageEditor.Editor.AnswerUpload` | js/editors/image.js:248-263 | as `RegionModel.AnswerUpload` |
| `ImageEditor.Editor.AnswerInfo` | js/editors/image.js:279-285 | as `RegionModel.AnswerInfo` |
| `ImageEditor.Editor.ToolbarEdited` | js/editors/image.js:282-284 | as `RegionModel.ToolbarEdited` |
| `ImageEditor.Editor.Revert` | js/editors/image.js:319-321 | as `RegionModel.Revert` |
| `ImageController.GetField` | src/Controller/QuickeditImageController.php:178-192 | a bad request iff the entity is not a content entity or item 0 of the translated field is not an image item (an empty field has none), with the source's message for each; otherwise item 0 |
| `ImageController.GetInfo` | src/Controller/QuickeditImageController.php:149-161 | fails exactly as `getField` does; otherwise exactly six keys, `alt`/`title` from the item and the four flags copied unchanged from the field settings |
| `ImageController.WithResolutionValidator` | src/Controller/QuickeditImageController.php:96-99 | `file_validate_image_resolution` is set to `[max_resolution, min_resolution]` iff either is PHP-truthy; every other validator entry stays |
| `ImageController.UploadReply` | src/Controller/QuickeditImageController.php:101-129 | a directory failure gives `{main_error, errors: ''}`; a saved file gives exactly `fid` and `html`; otherwise exactly `errors` and the fixed validation message; `main_error` is present iff no file was saved |
| `ImageController.WithFirstItemFile` | src/Controller/QuickeditImageController.php:210-213 | item 0 (created when the list is empty) gets `target_id`, `width`, `height`; its other keys and every other item are unchanged |
| `ImageController.WithUploadedFile` | src/Controller/QuickeditImageController.php:204-214 | only that field of the entity's own language changes, by the item-0 edit; every other field, translation and property stays |
| `ImageController.ModuleOf` | src/Controller/QuickeditImageController.php:243-244 | the module is a prefix of the id with no `-`, and is either the whole id or followed by a `-` |
| `ImageController.BuildImage` | src/Controller/QuickeditImageController.php:235-250 | the renderable always carries the given entity and field; a view mode of the entity type renders that entity's field in that mode, with no module consulted; any other id goes to the `quickedit_render_field` hook of `ModuleOf(id)` with the entity, field, id and language |
| `ImageController.TempStore.Set` | src/Controller/QuickeditImageController.php:217 | the store maps the key to the entity; every other entry stays |
| `ImageController.QuickeditImageController.constructor` | src/Controller/QuickeditImageController.php:55-59 | keeps the temp store and the services it is given |
| `ImageController.QuickeditImageController.SaveEntity` | src/Controller/QuickeditImageController.php:204-218 | the entity is `WithUploadedFile` for the file and the image's size, and it is stored under its uuid |
| `ImageController.QuickeditImageController.Upload` | src/Controller/QuickeditImageController.php:90-130 | a bad request from `getField` changes nothing; otherwise the upload sees the augmented validators; a directory failure or a failed upload gives the matching `UploadReply` and leaves the store alone; a saved file updates the entity, stores it, and replies with its id and the field rendered for the view mode |

## Left out

- DOM querying, the binding of event handlers, `preventDefault` and
  `stopPropagation`, and the creation of the file input. Only their effect
  on the region is modelled.
- `RegionModel.Step`: it does not track whether the drop-zone has handlers
  bound. A drop acts on any drop-zone that is present. In the source, a
  drop-zone re-created by a late error reply has no handlers. Entering
  `active` twice on the same drop-zone binds the handlers twice.
- Transport: `$.ajax`, `FormData`, `Drupal.quickedit.util.buildUrl` and
  `Drupal.url`. A request is recorded by kind and file only. Replies are an
  input datatype.
- Translation and escaping. `Drupal.t` and the templates' HTML escaping are
  not modelled. Messages are the source's English strings.
- HTML parsing of the upload reply. The field container's inner HTML is the
  parameter `fieldContent`.
- Event-loop timing of `_.defer`. It is a FIFO queue that the event loop
  drains with `RunDeferred`.
- The host: `save(options)` (only the call is counted), the field
  coordinator, and its validation of state transitions. Every requested state
  is accepted.
- `getQuickEditUISettings` is a constant, and dependency injection
  (`create`) is left out.
- `RegionModel.AnswerInfo`: the model keeps at most one toolbar form. A
  second metadata reply replaces the form instead of appending a second one.
  In the source, two metadata requests can be in flight when the region is
  activated twice before the first reply.
- `ImageToolbar.Info`: the four metadata flags arrive as JavaScript truth
  values. What jQuery's `val` does with a returned nothing is left out.
- No concurrency policy for uploads. None exists in the source.
- Drupal services are fields of `Drupal`: `file_prepare_directory`,
  `file_save_upload`, the image factory, `getViewModes`,
  `moduleHandler()->invoke`, the renderer and `StatusMessages`. The
  persistence of the private temp store is left out too.
- `ImageController.BuildImage`: `in_array`'s loose comparison is modelled as
  plain string membership.
- `ImageController.WithUploadedFile`: a field shared by all translations is
  modelled per translation.
- `ImageController.QuickeditImageController.Upload`, `ImageController.GetField`,
  `ImageController.GetInfo`, `ImageController.WithUploadedFile` and
  `ImageController.QuickeditImageController.SaveEntity`: these require the
  field to exist in the requested language (`HasTranslatedField`) or in the
  entity's own language (`HasOwnField`), which the route's access check
  guarantees. A missing translation, for which `getTranslation` throws, and a
  missing field are not modelled.
