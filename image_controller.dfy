/**
 * The decision logic of src/Controller/QuickeditImageController.php: the
 * upload endpoint's validator set and response, the info endpoint's metadata,
 * the field guards, the item-0 edit that points the entity at the new file,
 * and the choice of renderer for a view mode. Drupal's services (directory
 * preparation, file upload and validation, image loading, view modes,
 * rendering) are the fields of a `Drupal` value.
 */
module ImageController {
  import opened Wrappers

  /** The PHP values that flow through these arrays. */
  datatype Value = Null | Bool(b: bool) | Int(i: int) | Str(s: string) | List(items: seq<Value>)

  type Json = map<string, Value>
  /** Upload validator callbacks and their arguments. */
  type Validators = map<string, seq<Value>>
  type Settings = map<string, Value>
  /** One item of a field, as `getValue()` lists it. */
  type ItemValues = map<string, Value>

  /** PHP's conversion to boolean. */
  predicate Truthy(v: Value)
  {
    match v
    case Null => false
    case Bool(b) => b
    case Int(i) => i != 0
    case Str(s) => s != "" && s != "0"
    case List(items) => items != []
  }

  /** `$array[$key]`, which reads NULL for a missing key. */
  function Get(m: map<string, Value>, key: string): Value
  {
    if key in m then m[key] else Null
  }

  datatype FieldDefinition = FieldDefinition(
    settings: Settings,
    uploadValidators: Validators,
    uploadLocation: Option<string>)

  /** A field of one translation of an entity; `isImage` when its items are image items. */
  datatype FieldItemList = FieldItemList(isImage: bool, definition: FieldDefinition, items: seq<ItemValues>)

  /**
   * An entity: `langcode` is the language `$entity->$field_name` reads,
   * `translations` the fields of each translation.
   */
  datatype Entity = Entity(
    uuid: string,
    entityTypeId: string,
    isContentEntity: bool,
    langcode: string,
    translations: map<string, map<string, FieldItemList>>)

  /** Item 0 of a field, once known to be an image item. */
  datatype ImageItem = ImageItem(values: ItemValues, definition: FieldDefinition)

  datatype HttpError = BadRequest(message: string)

  datatype FileEntity = FileEntity(id: int, uri: string)

  /** What the image factory reports for a file; either side may be NULL. */
  datatype Image = Image(width: Value, height: Value)

  /** The renderable `buildImage` produces. */
  datatype Build =
    | FieldView(entity: Entity, fieldName: string, viewMode: string)
    | ModuleRender(moduleName: string, hook: string, entity: Entity, fieldName: string, viewModeId: string, langcode: string)

  datatype Drupal = Drupal(
    prepareDirectory: string -> bool,
    saveUpload: (Validators, Option<string>) -> Option<FileEntity>,
    loadImage: string -> Image,
    viewModes: string -> set<string>,
    render: Build -> string,
    errorMessages: string)

  const NotContentEntity: string := "Requested Entity is not a Content Entity."
  const NotImageField: string := "Requested Field is not of type \"image\"."
  const DirectoryFailure: string := "The destination directory could not be created.."
  const ValidationFailure: string := "The requested image failed validation."
  const ResolutionValidator: string := "file_validate_image_resolution"
  const RenderHook: string := "quickedit_render_field"
  const InfoKeys: set<string> := {"alt", "title", "alt_field", "title_field", "alt_field_required", "title_field_required"}
  const SettingKeys: set<string> := {"alt_field", "title_field", "alt_field_required", "title_field_required"}
  const FileKeys: set<string> := {"target_id", "width", "height"}

  /** The field exists in the requested translation. */
  predicate HasTranslatedField(e: Entity, fieldName: string, langcode: string)
  {
    langcode in e.translations && fieldName in e.translations[langcode]
  }

  /**
   * `getField`: item 0 of the translated field, or a bad request when the
   * entity is not a content entity or that item is not an image item (an
   * empty field has no item 0).
   */
  function GetField(e: Entity, fieldName: string, langcode: string): (r: Result<ImageItem, HttpError>)
    requires HasTranslatedField(e, fieldName, langcode)
    ensures !e.isContentEntity ==> r == Failure(BadRequest(NotContentEntity))
    ensures var field := e.translations[langcode][fieldName];
      && (e.isContentEntity ==> (r.Success? <==> field.isImage && |field.items| > 0))
      && (e.isContentEntity && r.Failure? ==> r == Failure(BadRequest(NotImageField)))
      && (r.Success? ==> r.value == ImageItem(field.items[0], field.definition))
  {
    if !e.isContentEntity then Failure(BadRequest(NotContentEntity))
    else
      var field := e.translations[langcode][fieldName];
      if |field.items| == 0 || !field.isImage then Failure(BadRequest(NotImageField))
      else Success(ImageItem(field.items[0], field.definition))
  }

  /**
   * `getInfo`: six keys, `alt` and `title` from the item and the four flags
   * copied from the field settings as they are.
   */
  function GetInfo(e: Entity, fieldName: string, langcode: string): (r: Result<Json, HttpError>)
    requires HasTranslatedField(e, fieldName, langcode)
    ensures r.Failure? <==> GetField(e, fieldName, langcode).Failure?
    ensures r.Failure? ==> r.error == GetField(e, fieldName, langcode).error
    ensures r.Success? ==> var item := GetField(e, fieldName, langcode).value;
      && r.value.Keys == InfoKeys
      && r.value["alt"] == Get(item.values, "alt") && r.value["title"] == Get(item.values, "title")
      && forall k :: k in SettingKeys ==> r.value[k] == Get(item.definition.settings, k)
  {
    match GetField(e, fieldName, langcode)
    case Failure(error) => Failure(error)
    case Success(item) =>
      var settings := item.definition.settings;
      Success(map[
        "alt" := Get(item.values, "alt"),
        "title" := Get(item.values, "title"),
        "alt_field" := Get(settings, "alt_field"),
        "title_field" := Get(settings, "title_field"),
        "alt_field_required" := Get(settings, "alt_field_required"),
        "title_field_required" := Get(settings, "title_field_required")])
  }

  /**
   * The validators `upload` passes on: the field's own, plus the resolution
   * check with `[max_resolution, min_resolution]` when either is set.
   */
  function WithResolutionValidator(validators: Validators, settings: Settings): (r: Validators)
    ensures var max, min := Get(settings, "max_resolution"), Get(settings, "min_resolution");
      && (Truthy(max) || Truthy(min) ==> r.Keys == validators.Keys + {ResolutionValidator} && r[ResolutionValidator] == [max, min])
      && (!Truthy(max) && !Truthy(min) ==> r == validators)
    ensures forall k :: k in validators && k != ResolutionValidator ==> k in r && r[k] == validators[k]
  {
    var max, min := Get(settings, "max_resolution"), Get(settings, "min_resolution");
    if Truthy(max) || Truthy(min) then validators[ResolutionValidator := [max, min]] else validators
  }

  /**
   * The edit `saveEntity` makes to the field's values: item 0 (created if the
   * list is empty) gets the file id and the image's size; its other keys and
   * every other item stay as they were.
   */
  function WithFirstItemFile(items: seq<ItemValues>, fid: int, image: Image): (r: seq<ItemValues>)
    ensures |r| == if items == [] then 1 else |items|
    ensures r[0].Keys == (if items == [] then {} else items[0].Keys) + FileKeys
    ensures r[0]["target_id"] == Int(fid) && r[0]["width"] == image.width && r[0]["height"] == image.height
    ensures items != [] ==> forall k :: k in items[0] && k !in FileKeys ==> r[0][k] == items[0][k]
    ensures forall i :: 1 <= i < |r| ==> r[i] == items[i]
  {
    var first := if items == [] then map[] else items[0];
    var rest := if items == [] then [] else items[1..];
    [first["target_id" := Int(fid)]["width" := image.width]["height" := image.height]] + rest
  }

  /** The field `$entity->$field_name` reads and writes. */
  predicate HasOwnField(e: Entity, fieldName: string)
  {
    e.langcode in e.translations && fieldName in e.translations[e.langcode]
  }

  /** The entity after `setValue`: only this field of its own language changes. */
  function WithUploadedFile(e: Entity, fieldName: string, file: FileEntity, image: Image): (r: Entity)
    requires HasOwnField(e, fieldName)
    ensures HasOwnField(r, fieldName)
    ensures r.uuid == e.uuid && r.entityTypeId == e.entityTypeId && r.isContentEntity == e.isContentEntity && r.langcode == e.langcode
    ensures r.translations.Keys == e.translations.Keys
    ensures forall lang :: lang in e.translations && lang != e.langcode ==> r.translations[lang] == e.translations[lang]
    ensures r.translations[e.langcode].Keys == e.translations[e.langcode].Keys
    ensures forall f :: f in e.translations[e.langcode] && f != fieldName ==> r.translations[e.langcode][f] == e.translations[e.langcode][f]
    ensures var before, after := e.translations[e.langcode][fieldName], r.translations[e.langcode][fieldName];
      after == before.(items := WithFirstItemFile(before.items, file.id, image))
  {
    var fields := e.translations[e.langcode];
    var field := fields[fieldName];
    e.(translations := e.translations[e.langcode := fields[fieldName := field.(items := WithFirstItemFile(field.items, file.id, image))]])
  }

  /**
   * `reset(explode('-', $id, 2))`: the text before the first `-`, or all of it
   * when there is none.
   */
  function ModuleOf(viewModeId: string): (m: string)
    ensures |m| <= |viewModeId| && m == viewModeId[..|m|]
    ensures '-' !in m
    ensures m == viewModeId || viewModeId[|m|] == '-'
  {
    if viewModeId == [] || viewModeId[0] == '-' then []
    else [viewModeId[0]] + ModuleOf(viewModeId[1..])
  }

  /**
   * `buildImage`: a view mode of the entity type renders the given entity's
   * field in that mode and consults no module; any other id is handed to the module its first
   * part names.
   */
  function BuildImage(e: Entity, fieldName: string, viewModeId: string, langcode: string, viewModes: set<string>): (b: Build)
    ensures b.entity == e && b.fieldName == fieldName
    ensures viewModeId in viewModes <==> b.FieldView?
    ensures viewModeId in viewModes ==> b == FieldView(e, fieldName, viewModeId)
    ensures viewModeId !in viewModes ==>
              && b.ModuleRender? && b.moduleName == ModuleOf(viewModeId) && b.hook == RenderHook
              && b.entity == e && b.fieldName == fieldName && b.viewModeId == viewModeId && b.langcode == langcode
  {
    if viewModeId in viewModes then FieldView(e, fieldName, viewModeId)
    else ModuleRender(ModuleOf(viewModeId), RenderHook, e, fieldName, viewModeId, langcode)
  }

  /**
   * The reply `upload` sends once `getField` succeeded: the directory failure,
   * the saved file's id and rendered field, or the validation failure. A reply
   * carries `main_error` exactly when no file was saved.
   */
  function UploadReply(directoryFailed: bool, saved: Option<FileEntity>, html: string, errors: string): (j: Json)
    ensures directoryFailed ==> j == map["main_error" := Str(DirectoryFailure), "errors" := Str("")]
    ensures !directoryFailed && saved.Some? ==>
              j.Keys == {"fid", "html"} && j["fid"] == Int(saved.value.id) && j["html"] == Str(html)
    ensures !directoryFailed && saved.None? ==>
              j.Keys == {"errors", "main_error"} && j["errors"] == Str(errors) && j["main_error"] == Str(ValidationFailure)
    ensures "main_error" in j <==> directoryFailed || saved.None?
    ensures j.Keys == {"fid", "html"} || j.Keys == {"errors", "main_error"}
  {
    if directoryFailed then map["main_error" := Str(DirectoryFailure), "errors" := Str("")]
    else match saved
      case Some(file) => map["fid" := Int(file.id), "html" := Str(html)]
      case None => map["errors" := Str(errors), "main_error" := Str(ValidationFailure)]
  }

  /** The private temp store the controller saves entities to, keyed by uuid. */
  class TempStore {
    var entries: map<string, Entity>

    constructor ()
      ensures entries == map[]
    {
      entries := map[];
    }

    method Set(key: string, e: Entity)
      modifies this
      ensures entries == old(entries)[key := e]
    {
      entries := entries[key := e];
    }
  }

  class QuickeditImageController {
    const tempStore: TempStore
    const drupal: Drupal

    constructor (tempStore: TempStore, drupal: Drupal)
      ensures this.tempStore == tempStore && this.drupal == drupal
    {
      this.tempStore := tempStore;
      this.drupal := drupal;
    }

    /**
     * `saveEntity`: point item 0 of the field at the new file, then keep the
     * entity in the temp store under its uuid.
     */
    method SaveEntity(e: Entity, fieldName: string, file: FileEntity) returns (saved: Entity)
      requires HasOwnField(e, fieldName)
      modifies tempStore
      ensures saved == WithUploadedFile(e, fieldName, file, drupal.loadImage(file.uri))
      ensures tempStore.entries == old(tempStore.entries)[e.uuid := saved]
    {
      var image := drupal.loadImage(file.uri);
      var fields := e.translations[e.langcode];
      var field := fields[fieldName];
      var value := field.items;
      if value == [] {
        value := [map[]];
      }
      value := value[0 := value[0]["target_id" := Int(file.id)]];
      value := value[0 := value[0]["width" := image.width]];
      value := value[0 := value[0]["height" := image.height]];
      assert value == WithFirstItemFile(field.items, file.id, image);
      saved := e.(translations := e.translations[e.langcode := fields[fieldName := field.(items := value)]]);
      tempStore.Set(e.uuid, saved);
    }

    /**
     * `upload`: the JSON reply to an image upload, or the bad request `getField`
     * throws. Only a saved file changes the temp store.
     */
    method Upload(e: Entity, fieldName: string, langcode: string, viewModeId: string) returns (response: Result<Json, HttpError>)
      requires HasTranslatedField(e, fieldName, langcode) && HasOwnField(e, fieldName)
      modifies tempStore
      ensures GetField(e, fieldName, langcode).Failure? ==>
                response == Failure(GetField(e, fieldName, langcode).error) && tempStore.entries == old(tempStore.entries)
      ensures GetField(e, fieldName, langcode).Success? ==>
        var item := GetField(e, fieldName, langcode).value;
        var validators := WithResolutionValidator(item.definition.uploadValidators, item.definition.settings);
        var destination := item.definition.uploadLocation;
        var directoryFailed := destination.Some? && !drupal.prepareDirectory(destination.value);
        var upload := if directoryFailed then None else drupal.saveUpload(validators, destination);
        match upload
        case None =>
          && response == Success(UploadReply(directoryFailed, None, "", drupal.errorMessages))
          && tempStore.entries == old(tempStore.entries)
        case Some(file) =>
          var saved := WithUploadedFile(e, fieldName, file, drupal.loadImage(file.uri));
          var build := BuildImage(saved, fieldName, viewModeId, langcode, drupal.viewModes(e.entityTypeId));
          && response == Success(UploadReply(false, upload, drupal.render(build), drupal.errorMessages))
          && tempStore.entries == old(tempStore.entries)[e.uuid := saved]
    {
      var got := GetField(e, fieldName, langcode);
      if got.Failure? {
        return Failure(got.error);
      }
      var field := got.value;
      var fieldValidators := field.definition.uploadValidators;
      var fieldSettings := field.definition.settings;
      var destination := field.definition.uploadLocation;

      // Add upload resolution validation.
      var max, min := Get(fieldSettings, "max_resolution"), Get(fieldSettings, "min_resolution");
      if Truthy(max) || Truthy(min) {
        fieldValidators := fieldValidators[ResolutionValidator := [max, min]];
      }

      if destination.Some? && !drupal.prepareDirectory(destination.value) {
        return Success(map["main_error" := Str(DirectoryFailure), "errors" := Str("")]);
      }

      var result := drupal.saveUpload(fieldValidators, destination);
      if result.Some? {
        var file := result.value;
        var saved := SaveEntity(e, fieldName, file);
        var output := BuildImage(saved, fieldName, viewModeId, langcode, drupal.viewModes(saved.entityTypeId));
        response := Success(map["fid" := Int(file.id), "html" := Str(drupal.render(output))]);
      } else {
        response := Success(map["errors" := Str(drupal.errorMessages), "main_error" := Str(ValidationFailure)]);
      }
    }
  }
}
