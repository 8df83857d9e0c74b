/**
 * The image in-place editor of js/editors/image.js, stated on values: the
 * abstract state of one editable image region, the effect of every editor
 * operation on it, the events that drive it, and the invariants they keep.
 * The class ImageEditor.Editor performs these operations in place and is
 * proved against the functions here.
 */
module RegionModel {
  import opened Wrappers
  import opened ImageToolbar

  /** The field states the host's field model moves through. */
  datatype FieldState =
    | Inactive | Candidate | Highlighted | Activating | Active
    | Changed | Saving | Saved | Invalid

  /** The drop-zone element: its class list and the text of its text span. */
  datatype Dropzone = Dropzone(classes: set<string>, text: string)

  /** The three visual states the editor asks the drop-zone to show. */
  datatype ZoneStyle = Upload | UploadLoading | Error

  /** A file the user dropped or picked; only its name is observable here. */
  datatype File = File(name: string)

  /** A request the editor sends to its two endpoints. */
  datatype Request = UploadRequest(file: File) | InfoRequest

  /**
   * Everything the editor reads or writes for one region.
   * - `state`, `previous`: the field model's `state` and `previous('state')`.
   * - `dropzone`: the `.quickedit-image-dropzone` child of the region, if any.
   * - `imageElement`, `validationError`: the `quickedit-image-element` and
   *   `quickedit-validation-error` classes of the region element.
   * - `errorBlocks`: the `.quickedit-image-errors` blocks in the toolbar group,
   *   oldest first, each holding the errors it was rendered with.
   * - `toolbar`: the `quickedit-image-field-info` form, if rendered.
   * - `content`: the region's inner HTML, the drop-zone aside.
   * - `originalValue`, `validationErrors`: the editor model's attributes.
   * - `inTempStore`: the owning entity's flag.
   * - `deferred`: field states whose `fieldModel.set` was handed to `_.defer`,
   *   oldest first.
   * - `sent`: every request issued, oldest first.
   * - `saves`: how many times the host's `save` was called.
   */
  datatype Region = Region(
    state: FieldState,
    previous: FieldState,
    dropzone: Option<Dropzone>,
    imageElement: bool,
    validationError: bool,
    errorBlocks: seq<string>,
    toolbar: Option<Form>,
    content: string,
    originalValue: string,
    validationErrors: string,
    inTempStore: bool,
    deferred: seq<FieldState>,
    sent: seq<Request>,
    saves: nat)

  /** The body of a JSON reply; an empty `mainError` is JavaScript-falsy. */
  datatype Reply<T> = Reply(mainError: string, errors: string, body: T)

  /** What `$.ajax` reports: a parsed reply, or its `error` callback. */
  datatype Outcome<T> = Delivered(reply: Reply<T>) | TransportFailed

  /** The three ways the `ajax` helper dispatches an outcome. */
  datatype Route = ShowsMainError | CallsBack | ShowsServerError

  const DropzoneClass: string := "quickedit-image-dropzone"
  /** The class name `renderDropzone` adds when restyling, dot included. */
  const DottedDropzoneClass: string := ".quickedit-image-dropzone"
  /** The classes `renderDropzone` removes before restyling. */
  const RestyledClasses: set<string> := {"upload", "error", "hover", "loading"}
  const HoverClass: string := "hover"
  const DropHint: string := "Drag file here or click to upload"
  const ServerErrorText: string := "A server error has occurred."

  function StyleClasses(style: ZoneStyle): set<string>
  {
    match style
    case Upload => {"upload"}
    case UploadLoading => {"upload", "loading"}
    case Error => {"error"}
  }

  function UploadingText(file: File): string
  {
    "Uploading <i>" + file.name + "</i>..."
  }

  /**
   * The shape the editor keeps: validation-error class iff some error block is
   * shown, a drop-zone always carries its base class, and the only deferred
   * transition is the one to `active`.
   */
  predicate Consistent(r: Region)
  {
    && (r.validationError <==> |r.errorBlocks| > 0)
    && (r.dropzone.Some? ==> DropzoneClass in r.dropzone.value.classes)
    && (forall i :: 0 <= i < |r.deferred| ==> r.deferred[i] == Active)
  }

  /**
   * `$.trim`: white space as JavaScript's `\s` plus U+FEFF and U+00A0.
   */
  predicate IsTrimmable(c: char)
  {
    || c == ' ' || c == '\t' || c == '\n' || c == '\r' || c == '\U{0B}' || c == '\U{0C}'
    || c == '\U{A0}' || c == '\U{1680}' || ('\U{2000}' <= c <= '\U{200A}')
    || c == '\U{2028}' || c == '\U{2029}' || c == '\U{202F}' || c == '\U{205F}'
    || c == '\U{3000}' || c == '\U{FEFF}'
  }

  function TrimStart(s: string): (r: string)
    ensures |r| <= |s| && r == s[|s| - |r|..]
    ensures forall k :: 0 <= k < |s| - |r| ==> IsTrimmable(s[k])
    ensures r == [] || !IsTrimmable(r[0])
  {
    if |s| > 0 && IsTrimmable(s[0]) then TrimStart(s[1..]) else s
  }

  function TrimEnd(s: string): (r: string)
    ensures |r| <= |s| && r == s[..|r|]
    ensures forall k :: |r| <= k < |s| ==> IsTrimmable(s[k])
    ensures r == [] || !IsTrimmable(r[|r| - 1])
  {
    if |s| > 0 && IsTrimmable(s[|s| - 1]) then TrimEnd(s[..|s| - 1]) else s
  }

  /** `r` is `s` from position `i` on, with only white space cut off either side. */
  predicate TrimmedAt(s: string, r: string, i: nat)
  {
    && i + |r| <= |s| && r == s[i..i + |r|]
    && (forall k :: 0 <= k < i ==> IsTrimmable(s[k]))
    && (forall k :: i + |r| <= k < |s| ==> IsTrimmable(s[k]))
  }

  /** `$.trim(s)`: the slice of `s` left once white space is cut off both ends. */
  function Trim(s: string): (r: string)
    ensures r == [] || (!IsTrimmable(r[0]) && !IsTrimmable(r[|r| - 1]))
    ensures exists i: nat :: TrimmedAt(s, r, i)
  {
    var t := TrimStart(s);
    var r := TrimEnd(t);
    TrimBothEnds(s, t, r);
    r
  }

  lemma TrimBothEnds(s: string, t: string, r: string)
    requires |t| <= |s| && t == s[|s| - |t|..] && (t == [] || !IsTrimmable(t[0]))
    requires forall k :: 0 <= k < |s| - |t| ==> IsTrimmable(s[k])
    requires |r| <= |t| && r == t[..|r|] && (r == [] || !IsTrimmable(r[|r| - 1]))
    requires forall k :: |r| <= k < |t| ==> IsTrimmable(t[k])
    ensures r == [] || (!IsTrimmable(r[0]) && !IsTrimmable(r[|r| - 1]))
    ensures TrimmedAt(s, r, |s| - |t|)
  {
    var i := |s| - |t|;
    assert r == s[i..i + |r|] by {
      assert t == s[i..] && r == t[..|r|];
    }
    assert forall k :: i + |r| <= k < |s| ==> IsTrimmable(s[k]) by {
      TrailingTrimmable(s, t, r, i);
    }
    assert r != [] ==> r[0] == t[0];
  }

  lemma TrailingTrimmable(s: string, t: string, r: string, i: nat)
    requires i <= |s| && t == s[i..]
    requires |r| <= |t| && forall k :: |r| <= k < |t| ==> IsTrimmable(t[k])
    ensures forall k :: i + |r| <= k < |s| ==> IsTrimmable(s[k])
  {
    forall k | i + |r| <= k < |s|
      ensures IsTrimmable(s[k])
    {
      assert s[k] == t[k - i];
    }
  }

  /** The region as `initialize` leaves it, before any state change. */
  function Initial(html: string, state: FieldState, inTempStore: bool): (r: Region)
    ensures Consistent(r)
    ensures r.content == html && r.originalValue == Trim(html)
    ensures r.state == state && r.dropzone.None? && r.toolbar.None? && r.errorBlocks == []
    ensures r.deferred == [] && r.sent == [] && r.saves == 0
  {
    Region(state, state, None, false, false, [], None, html, Trim(html), "", inTempStore, [], [], 0)
  }

  /**
   * `renderDropzone(state, text)`: restyle the existing drop-zone in place, or
   * append a new one. Either way there is exactly one afterwards, with `text`,
   * and its visual state is exactly `style`.
   */
  function RenderDropzone(r: Region, style: ZoneStyle, text: string): (r': Region)
    ensures r'.dropzone.Some? && r'.dropzone.value.text == text
    ensures r'.dropzone.value.classes * RestyledClasses == StyleClasses(style)
    ensures StyleClasses(style) <= r'.dropzone.value.classes
    ensures r.dropzone.None? || DropzoneClass in r.dropzone.value.classes ==> DropzoneClass in r'.dropzone.value.classes
    ensures r.dropzone.None? ==> r'.dropzone.value.classes == {DropzoneClass} + StyleClasses(style)
    ensures r.dropzone.Some? ==>
              r'.dropzone.value.classes == r.dropzone.value.classes - RestyledClasses + {DottedDropzoneClass} + StyleClasses(style)
    ensures r' == r.(dropzone := r'.dropzone)
  {
    match r.dropzone
    case Some(zone) =>
      r.(dropzone := Some(Dropzone(zone.classes - RestyledClasses + {DottedDropzoneClass} + StyleClasses(style), text)))
    case None =>
      r.(dropzone := Some(Dropzone({DropzoneClass} + StyleClasses(style), text)))
  }

  /**
   * Rendering the drop-zone twice with the same arguments leaves one drop-zone
   * with that text, and from the second call on a further call changes nothing.
   */
  lemma RenderDropzoneSettles(r: Region, style: ZoneStyle, text: string)
    ensures var twice := RenderDropzone(RenderDropzone(r, style, text), style, text);
      && twice.dropzone.Some? && twice.dropzone.value.text == text
      && twice.dropzone.value.classes * RestyledClasses == StyleClasses(style)
      && RenderDropzone(twice, style, text) == twice
  {
    var once := RenderDropzone(r, style, text);
    var twice := RenderDropzone(once, style, text);
    var c := twice.dropzone.value.classes;
    assert StyleClasses(style) <= RestyledClasses;
    assert c - RestyledClasses + {DottedDropzoneClass} + StyleClasses(style) == c;
  }

  /** `showValidationErrors`: append one more error block and mark the region. */
  function ShowValidationErrors(r: Region): (r': Region)
    ensures r'.errorBlocks == r.errorBlocks + [r.validationErrors] && r'.validationError
    ensures r' == r.(errorBlocks := r'.errorBlocks, validationError := true)
  {
    r.(errorBlocks := r.errorBlocks + [r.validationErrors], validationError := true)
  }

  /** `removeValidationErrors`: remove every error block and the mark. */
  function RemoveValidationErrors(r: Region): (r': Region)
    ensures r'.errorBlocks == [] && !r'.validationError
    ensures r' == r.(errorBlocks := [], validationError := false)
  {
    r.(errorBlocks := [], validationError := false)
  }

  /** `renderToolbar`: ask for the metadata only when no toolbar is rendered. */
  function RenderToolbar(r: Region): (r': Region)
    ensures r.toolbar.Some? ==> r' == r
    ensures r.toolbar.None? ==> r' == r.(sent := r.sent + [InfoRequest])
  {
    if r.toolbar.None? then r.(sent := r.sent + [InfoRequest]) else r
  }

  /** `this.save(options)`, recorded. */
  function Save(r: Region): (r': Region)
    ensures r' == r.(saves := r.saves + 1)
  {
    r.(saves := r.saves + 1)
  }

  /**
   * `stateChange(fieldModel, r.state)`, with `from` the previous state. It never
   * changes the field state itself: `activating` defers the move to `active`.
   */
  function StateChange(r: Region): (r': Region)
    ensures r'.state == r.state && r'.previous == r.previous
    ensures r.state in {Inactive, Highlighted, Changed, Saved} ==> r' == r
    ensures r.state == Candidate && r.previous == Inactive ==> r' == r
    ensures r.state == Candidate && r.previous != Inactive ==> r'.dropzone.None? && !r'.imageElement
    ensures (r.state == Candidate || r.state == Saving) && r.previous == Invalid ==>
              r'.errorBlocks == [] && !r'.validationError
    ensures r.state in {Candidate, Saving} && r.previous != Invalid ==>
              r'.errorBlocks == r.errorBlocks && r'.validationError == r.validationError
    ensures r.state == Saving ==> r'.saves == r.saves + 1 && r'.dropzone == r.dropzone && r'.imageElement == r.imageElement
    ensures r.state != Saving ==> r'.saves == r.saves
    ensures r.state == Activating ==> r' == r.(deferred := r.deferred + [Active])
    ensures r.state != Activating ==> r'.deferred == r.deferred
    ensures r.state == Active ==>
              && r'.imageElement && r'.dropzone.Some? && r'.dropzone.value.text == DropHint
              && r'.dropzone.value.classes * RestyledClasses == {"upload"}
              && r'.dropzone == RenderDropzone(r, Upload, DropHint).dropzone
              && r'.sent == (if r.toolbar.None? then r.sent + [InfoRequest] else r.sent)
              && r'.errorBlocks == r.errorBlocks && r'.validationError == r.validationError
    ensures r.state == Invalid ==> r' == r.(errorBlocks := r.errorBlocks + [r.validationErrors], validationError := true)
    ensures r.state != Active ==> r'.sent == r.sent
    ensures && r'.content == r.content && r'.toolbar == r.toolbar && r'.originalValue == r.originalValue
            && r'.validationErrors == r.validationErrors && r'.inTempStore == r.inTempStore
  {
    var from := r.previous;
    match r.state
    case Inactive => r
    case Candidate =>
      var torn := if from != Inactive then r.(dropzone := None, imageElement := false) else r;
      if from == Invalid then RemoveValidationErrors(torn) else torn
    case Highlighted => r
    case Activating => r.(deferred := r.deferred + [Active])
    case Active => RenderToolbar(RenderDropzone(r.(imageElement := true), Upload, DropHint))
    case Changed => r
    case Saving => Save(if from == Invalid then RemoveValidationErrors(r) else r)
    case Saved => r
    case Invalid => ShowValidationErrors(r)
  }

  /**
   * `fieldModel.set('state', s)`: the previous state becomes the old one, and
   * the editor is notified only when the state actually changes.
   */
  function SetState(r: Region, s: FieldState): (r': Region)
    ensures r'.state == s && r'.previous == r.state
    ensures s == r.state ==> r' == r.(previous := r.state)
    ensures s != r.state ==> r' == StateChange(r.(previous := r.state, state := s))
  {
    var moved := r.(previous := r.state, state := s);
    if s != r.state then StateChange(moved) else moved
  }

  /** The event loop runs the oldest callback handed to `_.defer`. */
  function RunDeferred(r: Region): (r': Region)
    ensures r.deferred == [] ==> r' == r
    ensures r.deferred != [] ==> r' == SetState(r.(deferred := r.deferred[1..]), r.deferred[0])
  {
    if r.deferred == [] then r else SetState(r.(deferred := r.deferred[1..]), r.deferred[0])
  }

  /** jQuery's `$el.html(html)`: the new inner HTML replaces every child, the drop-zone included. */
  function ReplaceContent(r: Region, html: string): (r': Region)
    ensures r'.content == html && r'.dropzone.None?
    ensures r' == r.(content := html, dropzone := None)
  {
    r.(content := html, dropzone := None)
  }

  /** `revert`: put back the markup captured by `initialize`. */
  function Revert(r: Region): (r': Region)
    ensures r'.content == r.originalValue && r'.dropzone.None?
    ensures r' == r.(content := r.originalValue, dropzone := None)
  {
    ReplaceContent(r, r.originalValue)
  }

  lemma RevertIdempotent(r: Region)
    ensures Revert(Revert(r)) == Revert(r)
  {
  }

  /**
   * `uploadImage(file)`: show the loading state with the file's name and send
   * the upload. No request in flight is consulted or cancelled.
   */
  function UploadImage(r: Region, file: File): (r': Region)
    ensures r'.dropzone.Some? && r'.dropzone.value.text == UploadingText(file)
    ensures r'.dropzone.value.classes * RestyledClasses == {"upload", "loading"}
    ensures r'.sent == r.sent + [UploadRequest(file)]
    ensures r' == r.(dropzone := r'.dropzone, sent := r'.sent)
  {
    RenderDropzone(r, UploadLoading, UploadingText(file)).(sent := r.sent + [UploadRequest(file)])
  }

  /** Two uploads in a row both go out, in order; the drop-zone shows the second. */
  lemma SecondUploadNotGuarded(r: Region, first: File, second: File)
    ensures var r' := UploadImage(UploadImage(r, first), second);
      r'.sent == r.sent + [UploadRequest(first), UploadRequest(second)]
      && r'.dropzone.value.text == UploadingText(second)
  {
  }

  /**
   * The drop handler: with at least one file, un-hover the drop-zone and upload
   * the first file; otherwise nothing happens.
   */
  function Drop(r: Region, files: Option<seq<File>>): (r': Region)
    ensures files.None? || files.value == [] ==> r' == r
    ensures files.Some? && files.value != [] ==>
              r' == UploadImage(DragLeave(r), files.value[0])
  {
    if files.Some? && |files.value| > 0 then UploadImage(DragLeave(r), files.value[0]) else r
  }

  /** The file picker's change handler: upload the first picked file, if any. */
  function Pick(r: Region, files: seq<File>): (r': Region)
    ensures files == [] ==> r' == r
    ensures files != [] ==> r' == UploadImage(r, files[0])
  {
    if |files| > 0 then UploadImage(r, files[0]) else r
  }

  /** `dragenter` on the drop-zone adds `hover`. */
  function DragEnter(r: Region): (r': Region)
    ensures r.dropzone.None? ==> r' == r
    ensures r.dropzone.Some? ==> r' == r.(dropzone := Some(r.dropzone.value.(classes := r.dropzone.value.classes + {HoverClass})))
  {
    match r.dropzone
    case None => r
    case Some(zone) => r.(dropzone := Some(zone.(classes := zone.classes + {HoverClass})))
  }

  /** `dragleave` on the drop-zone, and a drop carrying files, remove `hover`. */
  function DragLeave(r: Region): (r': Region)
    ensures r.dropzone.None? ==> r' == r
    ensures r.dropzone.Some? ==> r' == r.(dropzone := Some(r.dropzone.value.(classes := r.dropzone.value.classes - {HoverClass})))
  {
    match r.dropzone
    case None => r
    case Some(zone) => r.(dropzone := Some(zone.(classes := zone.classes - {HoverClass})))
  }

  /** The `ajax` helper's three-way split of an outcome. */
  function Classify<T>(o: Outcome<T>): (route: Route)
    ensures route == ShowsMainError <==> o.Delivered? && o.reply.mainError != ""
    ensures route == CallsBack <==> o.Delivered? && o.reply.mainError == ""
    ensures route == ShowsServerError <==> o.TransportFailed?
  {
    match o
    case TransportFailed => ShowsServerError
    case Delivered(reply) => if reply.mainError != "" then ShowsMainError else CallsBack
  }

  /**
   * A reply with a `main_error`: show it in the drop-zone, keep a non-empty
   * `errors` as the validation errors, and append one more error block. The
   * field state is left alone.
   */
  function ShowMainError(r: Region, mainError: string, errors: string): (r': Region)
    ensures r'.dropzone.Some? && r'.dropzone.value.text == mainError
    ensures r'.dropzone.value.classes * RestyledClasses == {"error"}
    ensures r'.validationErrors == if errors != "" then errors else r.validationErrors
    ensures r'.errorBlocks == r.errorBlocks + [r'.validationErrors] && r'.validationError
    ensures r' == r.(dropzone := r'.dropzone, validationErrors := r'.validationErrors,
                     errorBlocks := r'.errorBlocks, validationError := true)
  {
    var shown := RenderDropzone(r, Error, mainError);
    var kept := if |errors| > 0 then shown.(validationErrors := errors) else shown;
    ShowValidationErrors(kept)
  }

  /**
   * `handleUploadResponse`: the field becomes `changed`, the entity is marked as
   * held in the temp store, the error blocks go, and the fragment found in the
   * reply's HTML becomes the region's inner HTML. `fieldContent` is the
   * extraction `$(html).closest('[data-quickedit-field-id]').html()`; when it
   * finds nothing, `$el.html(undefined)` only reads and nothing is replaced.
   */
  function HandleUploadResponse(r: Region, html: string, fieldContent: string -> Option<string>): (r': Region)
    ensures r'.state == Changed && r'.previous == r.state
    ensures r'.inTempStore && r'.errorBlocks == [] && !r'.validationError
    ensures fieldContent(html).Some? ==> r'.content == fieldContent(html).value && r'.dropzone.None?
    ensures fieldContent(html).None? ==> r'.content == r.content && r'.dropzone == r.dropzone
    ensures && r'.toolbar == r.toolbar && r'.originalValue == r.originalValue
            && r'.validationErrors == r.validationErrors && r'.imageElement == r.imageElement
            && r'.deferred == r.deferred && r'.sent == r.sent && r'.saves == r.saves
  {
    var stored := SetState(r, Changed).(inTempStore := true);
    var cleared := RemoveValidationErrors(stored);
    match fieldContent(html)
    case Some(content) => ReplaceContent(cleared, content)
    case None => cleared
  }

  /** The upload endpoint's outcome, dispatched by the `ajax` helper. */
  function AnswerUpload(r: Region, o: Outcome<string>, fieldContent: string -> Option<string>): (r': Region)
    ensures Classify(o) == ShowsMainError ==> r' == ShowMainError(r, o.reply.mainError, o.reply.errors)
    ensures Classify(o) == CallsBack ==> r' == HandleUploadResponse(r, o.reply.body, fieldContent)
    ensures Classify(o) == ShowsServerError ==> r' == RenderDropzone(r, Error, ServerErrorText)
    ensures Classify(o) != CallsBack ==>
              r'.state == r.state && r'.previous == r.previous && r'.inTempStore == r.inTempStore
              && r'.content == r.content && r'.dropzone.value.classes * RestyledClasses == {"error"}
    ensures Classify(o) == ShowsServerError ==> r'.errorBlocks == r.errorBlocks && r'.validationErrors == r.validationErrors
  {
    match Classify(o)
    case ShowsMainError => ShowMainError(r, o.reply.mainError, o.reply.errors)
    case CallsBack => HandleUploadResponse(r, o.reply.body, fieldContent)
    case ShowsServerError => RenderDropzone(r, Error, ServerErrorText)
  }

  /** The info endpoint's outcome; its callback renders the toolbar. */
  function AnswerInfo(r: Region, o: Outcome<Info>): (r': Region)
    ensures Classify(o) == ShowsMainError ==> r' == ShowMainError(r, o.reply.mainError, o.reply.errors)
    ensures Classify(o) == CallsBack ==> r' == r.(toolbar := Some(Template(o.reply.body)))
    ensures Classify(o) == ShowsServerError ==> r' == RenderDropzone(r, Error, ServerErrorText)
    ensures r'.state == r.state && r'.previous == r.previous
  {
    match Classify(o)
    case ShowsMainError => ShowMainError(r, o.reply.mainError, o.reply.errors)
    case CallsBack => r.(toolbar := Some(Template(o.reply.body)))
    case ShowsServerError => RenderDropzone(r, Error, ServerErrorText)
  }

  /**
   * A keystroke or paste in the toolbar that leaves `value` in the input called
   * `name`: the input keeps it and the field becomes `changed`.
   */
  function ToolbarEdited(r: Region, name: string, value: string): (r': Region)
    ensures r.toolbar.None? ==> r' == r
    ensures r.toolbar.Some? ==>
              r' == SetState(r.(toolbar := Some(SetInputValue(r.toolbar.value, name, value))), Changed)
  {
    match r.toolbar
    case None => r
    case Some(form) => SetState(r.(toolbar := Some(SetInputValue(form, name, value))), Changed)
  }

  /** What can happen to a region: host transitions, the event loop, the user, replies. */
  datatype Event =
    | StateSet(target: FieldState)
    | DeferredRan
    | Dropped(dropped: Option<seq<File>>)
    | Picked(picked: seq<File>)
    | DraggedIn
    | DraggedOut
    | UploadAnswered(upload: Outcome<string>)
    | InfoAnswered(info: Outcome<Info>)
    | ToolbarTyped(name: string, value: string)
    | Reverted

  /**
   * One event reaching the editor. The drop handler is bound to the drop-zone,
   * so a drop with no drop-zone reaches nothing; the field state moves only
   * through the model's `set`, the deferred callback, a successful upload or
   * typing in the toolbar; and nothing after `initialize` rewrites the markup
   * kept for reverting.
   */
  function Step(r: Region, e: Event, fieldContent: string -> Option<string>): (r': Region)
    ensures r'.originalValue == r.originalValue
    ensures e.Dropped? && r.dropzone.None? ==> r' == r
    ensures e.StateSet? ==> r'.state == e.target && r'.previous == r.state
    ensures !(e.StateSet? || e.DeferredRan? || e.UploadAnswered? || e.ToolbarTyped?) ==>
              r'.state == r.state
  {
    match e
    case StateSet(s) => SetState(r, s)
    case DeferredRan => RunDeferred(r)
    case Dropped(files) => if r.dropzone.Some? then Drop(r, files) else r
    case Picked(files) => Pick(r, files)
    case DraggedIn => DragEnter(r)
    case DraggedOut => DragLeave(r)
    case UploadAnswered(o) => AnswerUpload(r, o, fieldContent)
    case InfoAnswered(o) => AnswerInfo(r, o)
    case ToolbarTyped(name, value) => ToolbarEdited(r, name, value)
    case Reverted => Revert(r)
  }

  /** The events reaching the editor, one after another. */
  function Run(r: Region, events: seq<Event>, fieldContent: string -> Option<string>): (r': Region)
    ensures events == [] ==> r' == r
    ensures |events| == 1 ==> r' == Step(r, events[0], fieldContent)
    decreases |events|
  {
    if events == [] then r else Run(Step(r, events[0], fieldContent), events[1..], fieldContent)
  }

  /** Running two sequences of events is running the first, then the second. */
  lemma {:induction false} RunConcat(r: Region, first: seq<Event>, second: seq<Event>,
                                     fieldContent: string -> Option<string>)
    ensures Run(r, first + second, fieldContent) == Run(Run(r, first, fieldContent), second, fieldContent)
    decreases |first|
  {
    if first != [] {
      assert (first + second)[0] == first[0];
      assert (first + second)[1..] == first[1..] + second;
      RunConcat(Step(r, first[0], fieldContent), first[1..], second, fieldContent);
    } else {
      assert first + second == second;
    }
  }

  /** No sequence of events changes the markup kept for reverting. */
  lemma {:induction false} RunKeepsOriginalValue(r: Region, events: seq<Event>,
                                                 fieldContent: string -> Option<string>)
    ensures Run(r, events, fieldContent).originalValue == r.originalValue
    decreases |events|
  {
    if events != [] {
      RunKeepsOriginalValue(Step(r, events[0], fieldContent), events[1..], fieldContent);
    }
  }

  /**
   * Whatever happened since `initialize`, reverting puts back exactly the
   * trimmed markup the region had then.
   */
  lemma RevertRestoresInitialMarkup(html: string, s: FieldState, inTempStore: bool,
                                    events: seq<Event>, fieldContent: string -> Option<string>)
    ensures Revert(Run(Initial(html, s, inTempStore), events, fieldContent)).content == Trim(html)
  {
    RunKeepsOriginalValue(Initial(html, s, inTempStore), events, fieldContent);
  }

  lemma SetStateKeepsConsistent(r: Region, s: FieldState)
    requires Consistent(r)
    ensures Consistent(SetState(r, s))
  {
    var r' := SetState(r, s);
    assert forall i :: 0 <= i < |r'.deferred| ==> r'.deferred[i] == Active by {
      if s == Activating && s != r.state {
        assert r'.deferred == r.deferred + [Active];
      }
    }
  }

  /** Every single event keeps the region consistent. */
  lemma StepKeepsConsistent(r: Region, e: Event, fieldContent: string -> Option<string>)
    requires Consistent(r)
    ensures Consistent(Step(r, e, fieldContent))
  {
    match e
    case StateSet(s) => SetStateKeepsConsistent(r, s);
    case DeferredRan =>
      if r.deferred != [] {
        SetStateKeepsConsistent(r.(deferred := r.deferred[1..]), r.deferred[0]);
      }
    case ToolbarTyped(name, value) =>
      if r.toolbar.Some? {
        SetStateKeepsConsistent(r.(toolbar := Some(SetInputValue(r.toolbar.value, name, value))), Changed);
      }
    case UploadAnswered(o) =>
      if Classify(o) == CallsBack {
        SetStateKeepsConsistent(r, Changed);
      }
    case _ =>
  }

  /** Any sequence of events keeps the region consistent. */
  lemma {:induction false} RunKeepsConsistent(r: Region, events: seq<Event>, fieldContent: string -> Option<string>)
    requires Consistent(r)
    ensures Consistent(Run(r, events, fieldContent))
    decreases |events|
  {
    if events != [] {
      StepKeepsConsistent(r, events[0], fieldContent);
      RunKeepsConsistent(Step(r, events[0], fieldContent), events[1..], fieldContent);
    }
  }

  /**
   * Entering `activating` only queues the move to `active`; the state is still
   * `activating` when the call returns, and running the queued callback then
   * makes it `active`, drop-zone and all.
   */
  lemma ActivationIsDeferred(r: Region, fieldContent: string -> Option<string>)
    requires r.state != Activating && r.deferred == []
    ensures var activating := Step(r, StateSet(Activating), fieldContent);
      && activating.state == Activating && activating.deferred == [Active]
      && activating.dropzone == r.dropzone && activating.sent == r.sent
      && var active := Step(activating, DeferredRan, fieldContent);
         active.state == Active && active.previous == Activating && active.deferred == []
         && active.imageElement && active.dropzone.Some? && active.dropzone.value.text == DropHint
  {
  }
}
