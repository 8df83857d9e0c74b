/**
 * The image in-place editor of js/editors/image.js as the object it is: one
 * editor per region, whose methods change the region, the field model and the
 * toolbar group in place. Each method is proved to have exactly the effect the
 * matching function of RegionModel describes.
 */
module ImageEditor {
  import opened Wrappers
  import opened ImageToolbar
  import opened RegionModel

  class Editor {
    // The field model.
    var state: FieldState
    var previous: FieldState
    // The region element and its children.
    var dropzone: Option<Dropzone>
    var imageElement: bool
    var validationError: bool
    var content: string
    // The toolbar group.
    var errorBlocks: seq<string>
    var toolbar: Option<Form>
    // The editor model.
    var originalValue: string
    var validationErrors: string
    // The owning entity model.
    var inTempStore: bool
    // Callbacks handed to `_.defer`, requests issued, calls to the host's save.
    var deferred: seq<FieldState>
    var sent: seq<Request>
    var saves: nat

    /** The abstract region this editor currently shows. */
    function View(): Region
      reads this
    {
      Region(state, previous, dropzone, imageElement, validationError, errorBlocks, toolbar,
             content, originalValue, validationErrors, inTempStore, deferred, sent, saves)
    }

    /** `initialize`: remember the trimmed markup for reverting. */
    constructor (html: string, fieldState: FieldState, entityInTempStore: bool)
      ensures View() == Initial(html, fieldState, entityInTempStore)
    {
      var r := Initial(html, fieldState, entityInTempStore);
      state, previous, dropzone, imageElement, validationError := r.state, r.previous, r.dropzone, r.imageElement, r.validationError;
      errorBlocks, toolbar, content, originalValue := r.errorBlocks, r.toolbar, r.content, r.originalValue;
      validationErrors, inTempStore, deferred, sent, saves := r.validationErrors, r.inTempStore, r.deferred, r.sent, r.saves;
    }

    method StateChange()
      modifies this
      ensures View() == RegionModel.StateChange(old(View()))
    {
      var from := previous;
      match state {
        case Inactive | Highlighted | Changed | Saved =>
        case Candidate =>
          if from != Inactive {
            dropzone := None;
            imageElement := false;
          }
          if from == Invalid {
            RemoveValidationErrors();
          }
        case Activating =>
          // Defer the move to `active` until this change has propagated.
          deferred := deferred + [Active];
        case Active =>
          imageElement := true;
          RenderDropzone(Upload, DropHint);
          RenderToolbar();
        case Saving =>
          if from == Invalid {
            RemoveValidationErrors();
          }
          Save();
        case Invalid =>
          ShowValidationErrors();
      }
    }

    /** The host editor's `save(options)`; only the call is recorded. */
    method Save()
      modifies this
      ensures View() == RegionModel.Save(old(View()))
    {
      saves := saves + 1;
    }

    /** `fieldModel.set('state', s)`, which notifies the editor only on a change. */
    method SetFieldState(s: FieldState)
      modifies this
      ensures View() == SetState(old(View()), s)
    {
      var changed := s != state;
      previous, state := state, s;
      if changed {
        StateChange();
      }
    }

    /** The event loop runs the oldest deferred callback. */
    method RunDeferred()
      modifies this
      ensures View() == RegionModel.RunDeferred(old(View()))
    {
      if deferred != [] {
        var next := deferred[0];
        deferred := deferred[1..];
        SetFieldState(next);
      }
    }

    method RenderDropzone(style: ZoneStyle, text: string)
      modifies this
      ensures View() == RegionModel.RenderDropzone(old(View()), style, text)
    {
      match dropzone {
        case Some(zone) =>
          var classes := zone.classes - RestyledClasses;
          classes := classes + {DottedDropzoneClass} + StyleClasses(style);
          dropzone := Some(Dropzone(classes, text));
        case None =>
          dropzone := Some(Dropzone({DropzoneClass} + StyleClasses(style), text));
      }
    }

    method RenderToolbar()
      modifies this
      ensures View() == RegionModel.RenderToolbar(old(View()))
    {
      if toolbar.None? {
        sent := sent + [InfoRequest];
      }
    }

    method ShowValidationErrors()
      modifies this
      ensures View() == RegionModel.ShowValidationErrors(old(View()))
    {
      errorBlocks := errorBlocks + [validationErrors];
      validationError := true;
    }

    method RemoveValidationErrors()
      modifies this
      ensures View() == RegionModel.RemoveValidationErrors(old(View()))
    {
      errorBlocks := [];
      validationError := false;
    }

    method UploadImage(file: File)
      modifies this
      ensures View() == RegionModel.UploadImage(old(View()), file)
    {
      RenderDropzone(UploadLoading, UploadingText(file));
      sent := sent + [UploadRequest(file)];
    }

    /** The drop handler, bound to the drop-zone. */
    method Drop(files: Option<seq<File>>)
      modifies this
      ensures View() == RegionModel.Drop(old(View()), files)
    {
      if files.Some? && |files.value| > 0 {
        DragLeave();
        UploadImage(files.value[0]);
      }
    }

    /** The file picker's change handler. */
    method Pick(files: seq<File>)
      modifies this
      ensures View() == RegionModel.Pick(old(View()), files)
    {
      if |files| > 0 {
        UploadImage(files[0]);
      }
    }

    method DragEnter()
      modifies this
      ensures View() == RegionModel.DragEnter(old(View()))
    {
      if dropzone.Some? {
        dropzone := Some(dropzone.value.(classes := dropzone.value.classes + {HoverClass}));
      }
    }

    method DragLeave()
      modifies this
      ensures View() == RegionModel.DragLeave(old(View()))
    {
      if dropzone.Some? {
        dropzone := Some(dropzone.value.(classes := dropzone.value.classes - {HoverClass}));
      }
    }

    method HandleUploadResponse(html: string, fieldContent: string -> Option<string>)
      modifies this
      ensures View() == RegionModel.HandleUploadResponse(old(View()), html, fieldContent)
    {
      SetFieldState(Changed);
      inTempStore := true;
      RemoveValidationErrors();
      var fragment := fieldContent(html);
      if fragment.Some? {
        content := fragment.value;
        dropzone := None;
      }
    }

    /** The `ajax` helper's handling of a `main_error` reply. */
    method ShowMainError(mainError: string, errors: string)
      modifies this
      ensures View() == RegionModel.ShowMainError(old(View()), mainError, errors)
    {
      RenderDropzone(Error, mainError);
      if |errors| > 0 {
        validationErrors := errors;
      }
      ShowValidationErrors();
    }

    /** The upload request's `success` or `error` callback. */
    method AnswerUpload(o: Outcome<string>, fieldContent: string -> Option<string>)
      modifies this
      ensures View() == RegionModel.AnswerUpload(old(View()), o, fieldContent)
    {
      match o {
        case Delivered(reply) =>
          if reply.mainError != "" {
            ShowMainError(reply.mainError, reply.errors);
          } else {
            HandleUploadResponse(reply.body, fieldContent);
          }
        case TransportFailed =>
          RenderDropzone(Error, ServerErrorText);
      }
    }

    /** The info request's `success` or `error` callback. */
    method AnswerInfo(o: Outcome<Info>)
      modifies this
      ensures View() == RegionModel.AnswerInfo(old(View()), o)
    {
      match o {
        case Delivered(reply) =>
          if reply.mainError != "" {
            ShowMainError(reply.mainError, reply.errors);
          } else {
            toolbar := Some(Template(reply.body));
          }
        case TransportFailed =>
          RenderDropzone(Error, ServerErrorText);
      }
    }

    /** The toolbar's `keyup`/`paste` handler, after the input holds `value`. */
    method ToolbarEdited(name: string, value: string)
      modifies this
      ensures View() == RegionModel.ToolbarEdited(old(View()), name, value)
    {
      if toolbar.Some? {
        toolbar := Some(SetInputValue(toolbar.value, name, value));
        SetFieldState(Changed);
      }
    }

    method Revert()
      modifies this
      ensures View() == RegionModel.Revert(old(View()))
    {
      content := originalValue;
      dropzone := None;
    }
  }
}
