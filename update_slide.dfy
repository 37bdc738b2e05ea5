/**
 * The slide editor: the checks on a chosen image, the form fields, the
 * multipart request built from the non-empty fields, and the error text of
 * a failed update.
 */
module UpdateSlide {
  import opened Js

  /** 2 MB, the largest image accepted. */
  const MaxImageBytes: int := 2 * 1024 * 1024
  const ValidTypes: seq<string> := ["image/jpeg", "image/jpg", "image/png"]

  const TooLargeText := "Ukuran gambar terlalu besar. Maksimal 2MB."
  const BadTypeText := "Format gambar tidak valid. Gunakan JPG, JPEG, atau PNG."
  const MissingOrderText := "Urutan harus diisi"
  const UpdateFailedText := "Terjadi kesalahan saat memperbarui slide"

  /** A chosen file: its size in bytes and its MIME type. */
  datatype File = File(size: int, mimeType: string)

  /** The image checks in their order: the size first, then the type. `None` accepts the file. */
  function ImageCheck(f: File): (r: Option<string>)
    ensures r.None? <==> f.size <= MaxImageBytes && f.mimeType in ValidTypes
    ensures f.size > MaxImageBytes ==> r == Some(TooLargeText)
    ensures f.size <= MaxImageBytes && f.mimeType !in ValidTypes ==> r == Some(BadTypeText)
  {
    if f.size > MaxImageBytes then Some(TooLargeText)
    else if f.mimeType !in ValidTypes then Some(BadTypeText)
    else None
  }

  /** Exactly 2 MB is accepted; one byte more is refused even for a valid type. */
  lemma ImageSizeBoundary()
    ensures ImageCheck(File(2097152, "image/png")).None?
    ensures ImageCheck(File(2097153, "image/png")) == Some(TooLargeText)
    ensures ImageCheck(File(2097153, "image/gif")) == Some(TooLargeText)
    ensures ImageCheck(File(10, "image/gif")) == Some(BadTypeText)
  {
  }

  // ---------------------------------------------------------------------
  // Form fields: an object's own properties in insertion order.

  type Fields = seq<(string, JsValue)>

  predicate DistinctKeys(fields: Fields)
  {
    forall i, j :: 0 <= i < j < |fields| ==> fields[i].0 != fields[j].0
  }

  const InitialFields: Fields := [("deskripsi", Str("")), ("urutan", Str(""))]

  /** `formData[key]`: the value of the field, or undefined. */
  function FieldValue(fields: Fields, key: string): (v: JsValue)
    ensures (forall i :: 0 <= i < |fields| ==> fields[i].0 != key) ==> v == Undefined
  {
    if fields == [] then Undefined
    else if fields[0].0 == key then fields[0].1
    else FieldValue(fields[1..], key)
  }

  /** `{...formData, [name]: value}`: replaces the field in place, or appends a new one. */
  function SetField(fields: Fields, name: string, value: JsValue): (r: Fields)
    ensures |r| == |fields| || |r| == |fields| + 1
    ensures forall i :: 0 <= i < |fields| ==> r[i].0 == fields[i].0
    ensures forall i :: 0 <= i < |fields| && fields[i].0 != name ==> r[i] == fields[i]
    ensures |r| == |fields| + 1 <==> forall i :: 0 <= i < |fields| ==> fields[i].0 != name
    ensures |r| == |fields| + 1 ==> r[|fields|] == (name, value)
  {
    if fields == [] then [(name, value)]
    else if fields[0].0 == name then [(name, value)] + fields[1..]
    else [fields[0]] + SetField(fields[1..], name, value)
  }

  /** After a change the field reads back the new value. */
  lemma {:induction false} SetFieldReadsBack(fields: Fields, name: string, value: JsValue)
    ensures FieldValue(SetField(fields, name, value), name) == value
    decreases |fields|
  {
    if fields != [] && fields[0].0 != name {
      SetFieldReadsBack(fields[1..], name, value);
      assert SetField(fields, name, value)[1..] == SetField(fields[1..], name, value);
    }
  }

  /** A change leaves every other field's value as it was. */
  lemma {:induction false} SetFieldLeavesOthers(fields: Fields, name: string, value: JsValue, other: string)
    requires other != name
    ensures FieldValue(SetField(fields, name, value), other) == FieldValue(fields, other)
    decreases |fields|
  {
    if fields != [] && fields[0].0 != name {
      SetFieldLeavesOthers(fields[1..], name, value, other);
      assert SetField(fields, name, value)[1..] == SetField(fields[1..], name, value);
    }
  }

  lemma {:induction false} SetFieldKeepsKeysDistinct(fields: Fields, name: string, value: JsValue)
    requires DistinctKeys(fields)
    ensures DistinctKeys(SetField(fields, name, value))
    decreases |fields|
  {
    if fields != [] && fields[0].0 != name {
      SetFieldKeepsKeysDistinct(fields[1..], name, value);
      var r := SetField(fields, name, value);
      assert r[1..] == SetField(fields[1..], name, value);
      forall j | 1 <= j < |r|
        ensures r[0].0 != r[j].0
      {
        if j - 1 < |fields| - 1 {
          assert r[j].0 == fields[j].0;
        } else {
          assert r[j] == (name, value);
        }
      }
    }
  }

  // ---------------------------------------------------------------------
  // The multipart request.

  datatype PartValue = Text(value: JsValue) | Image(file: File)
  datatype Part = Part(name: string, content: PartValue)

  /** The fields appended by the `forEach`: those whose value is not the empty string, in order. */
  function NonEmptyParts(fields: Fields): (r: seq<Part>)
    ensures |r| <= |fields|
    ensures forall p :: p in r <==> exists i :: 0 <= i < |fields| && fields[i].1 != Str("") && p == Part(fields[i].0, Text(fields[i].1))
  {
    if fields == [] then []
    else
      var init := fields[..|fields| - 1];
      var last := fields[|fields| - 1];
      var r := NonEmptyParts(init) + (if last.1 != Str("") then [Part(last.0, Text(last.1))] else []);
      assert forall i :: 0 <= i < |init| ==> init[i] == fields[i];
      r
  }

  /** The image part, added only when a file was chosen. */
  function ImagePart(image: Option<File>): seq<Part>
  {
    if image.Some? then [Part("urlGambar", Image(image.value))] else []
  }

  /** The loop that fills the FormData buffer, then the optional image. */
  method BuildFormData(fields: Fields, image: Option<File>) returns (data: seq<Part>)
    ensures data == NonEmptyParts(fields) + ImagePart(image)
    ensures forall p :: p in data && p.content.Text? ==> p.content.value != Str("")
    ensures (exists p :: p in data && p.name == "urlGambar" && p.content.Image?) <==> image.Some?
  {
    data := [];
    var i := 0;
    while i < |fields|
      invariant 0 <= i <= |fields|
      invariant data == NonEmptyParts(fields[..i])
    {
      assert fields[..i + 1][..i] == fields[..i];
      if fields[i].1 != Str("") {
        data := data + [Part(fields[i].0, Text(fields[i].1))];
      }
      i := i + 1;
    }
    assert fields[..i] == fields;
    data := data + ImagePart(image);
    if image.Some? {
      assert data[|data| - 1] == Part("urlGambar", Image(image.value));
    }
  }

  /** A form with a description and an order sends both; an empty description is left out. */
  lemma RequestSkipsEmptyFields()
    ensures NonEmptyParts([("deskripsi", Str("")), ("urutan", Str("2"))]) == [Part("urutan", Text(Str("2")))]
    ensures NonEmptyParts([("deskripsi", Str("Pantai")), ("urutan", Str("2"))])
      == [Part("deskripsi", Text(Str("Pantai"))), Part("urutan", Text(Str("2")))]
  {
    assert [("deskripsi", Str("")), ("urutan", Str("2"))][..1] == [("deskripsi", Str(""))];
    assert [("deskripsi", Str("Pantai")), ("urutan", Str("2"))][..1] == [("deskripsi", Str("Pantai"))];
    assert [("deskripsi", Str(""))][..0] == [];
    assert [("deskripsi", Str("Pantai"))][..0] == [];
  }

  /** `err.response?.data?.message || err.message || default`. */
  function UpdateErrorText(err: Failure): (m: JsValue)
    ensures Truthy(m)
    ensures Truthy(ServerMessage(err)) ==> m == ServerMessage(err)
    ensures !Truthy(ServerMessage(err)) && Truthy(err.message) ==> m == err.message
    ensures !Truthy(ServerMessage(err)) && !Truthy(err.message) ==> m == Str(UpdateFailedText)
  {
    Or(Or(ServerMessage(err), err.message), Str(UpdateFailedText))
  }

  /** The editor's component state. */
  class UpdateSlideForm {
    var formData: Fields
    var urlGambar: Option<File>
    var imagePreview: string
    var loading: bool
    var error: JsValue

    constructor ()
      ensures formData == InitialFields && urlGambar.None? && imagePreview == ""
      ensures !loading && error == Str("")
    {
      formData, urlGambar, imagePreview, loading, error := InitialFields, None, "", false, Str("");
    }

    /** The text inputs' change handler. */
    method HandleChange(name: string, value: string)
      modifies this`formData
      ensures formData == SetField(old(formData), name, Str(value))
      ensures FieldValue(formData, name) == Str(value)
      ensures DistinctKeys(old(formData)) ==> DistinctKeys(formData)
    {
      SetFieldReadsBack(formData, name, Str(value));
      if DistinctKeys(formData) {
        SetFieldKeepsKeysDistinct(formData, name, Str(value));
      }
      formData := SetField(formData, name, Str(value));
    }

    /**
     * The file input's change handler: `file` is the first chosen file, if
     * any, and `objectUrl` the preview URL the browser creates for it.
     */
    method HandleImageChange(file: Option<File>, objectUrl: string)
      modifies this`urlGambar, this`imagePreview, this`error
      ensures file.None? ==> urlGambar == old(urlGambar) && imagePreview == old(imagePreview) && error == old(error)
      ensures file.Some? && ImageCheck(file.value).Some? ==>
        error == Str(ImageCheck(file.value).value) && urlGambar == old(urlGambar) && imagePreview == old(imagePreview)
      ensures file.Some? && ImageCheck(file.value).None? ==>
        urlGambar == file && imagePreview == objectUrl && error == Str("")
    {
      if file.Some? {
        var f := file.value;
        if f.size > MaxImageBytes {
          error := Str(TooLargeText);
          return;
        }
        if f.mimeType !in ValidTypes {
          error := Str(BadTypeText);
          return;
        }
        urlGambar := file;
        imagePreview := objectUrl;
        error := Str("");
      }
    }

    /**
     * The submit handler, with the update reply as input. It returns the
     * multipart request, whether the dialog closes, and the message passed
     * to `onError` when there is such a callback.
     */
    method HandleSubmit(reply: Reply, hasOnError: bool) returns (request: Option<seq<Part>>, closed: bool, reported: Option<JsValue>)
      modifies this`urlGambar, this`imagePreview, this`loading, this`error
      ensures !loading
      ensures request.None? <==> FieldValue(formData, "urutan") == Str("")
      ensures request.None? ==>
        error == Str(MissingOrderText) && !closed && reported.None?
        && urlGambar == old(urlGambar) && imagePreview == old(imagePreview)
      ensures request.Some? ==> request.value == NonEmptyParts(formData) + ImagePart(old(urlGambar))
      ensures closed <==> request.Some? && reply.Ok? && reply.status == 200
      ensures closed ==> urlGambar.None? && imagePreview == "" && error == Str("") && reported.None?
      ensures request.Some? && reply.Ok? && reply.status != 200 ==>
        urlGambar == old(urlGambar) && imagePreview == old(imagePreview) && error == Str("") && reported.None?
      ensures request.Some? && reply.Failed? ==>
        error == UpdateErrorText(reply.error)
        && reported == (if hasOnError then Some(UpdateErrorText(reply.error)) else None)
        && urlGambar == old(urlGambar) && imagePreview == old(imagePreview)
    {
      loading := true;
      error := Str("");
      closed, reported := false, None;
      if FieldValue(formData, "urutan") == Str("") {
        error := Str(MissingOrderText);
        loading := false;
        return None, false, None;
      }
      var data := BuildFormData(formData, urlGambar);
      request := Some(data);
      match reply {
        case Ok(status, _) =>
          if status == 200 {
            urlGambar := None;
            imagePreview := "";
            closed := true;
          }
        case Failed(err) =>
          var errorMessage := UpdateErrorText(err);
          error := errorMessage;
          if hasOnError {
            reported := Some(errorMessage);
          }
      }
      loading := false;
    }
  }
}
