/** The state of the administrator's panel (`AdminPanel.tsx`) that its
    handlers change: the new-product form, the images chosen for it with
    their previews, and the CSV file to import. The server's replies are
    parameters, and `URL.createObjectURL` is the panel's `objectUrl`
    function. */
module AdminPanel {
  import opened JsString
  import opened Store
  import AuthContext

  /** A browser `File`, reduced to what the panel reads. */
  datatype File = File(name: string, mime: string, size: nat)

  /** A value of the product form: text inputs hold strings, checkboxes
      booleans. */
  datatype FormValue = Text(s: string) | Checked(b: bool)

  /** A message shown under a form. */
  datatype Message = Message(success: bool, text: string)

  /** The message of the CSV tab, with the rows the server rejected. */
  datatype CsvMessage = CsvMessage(success: bool, text: string, errors: Option<seq<string>>)

  /** The product form's fields when the panel opens and after a reset. */
  const EmptyProduct: map<string, FormValue> := map[
    "title" := Text(""), "artist" := Text(""), "price" := Text(""),
    "installments" := Text("3"), "installment_price" := Text(""), "label" := Text(""),
    "country" := Text(""), "condition_cover" := Text(""), "condition_media" := Text(""),
    "category_id" := Text(""), "stock" := Text("1"), "is_featured" := Checked(false),
    "is_on_sale" := Checked(false), "discount_percentage" := Text("0"), "description" := Text("")]

  /** At most this many images go with one product. */
  const MaxImages := 10

  /** `s.slice(0, n)`: the first `n` elements, or all of them. */
  function Take<T>(s: seq<T>, n: nat): (r: seq<T>)
    ensures |r| == if |s| <= n then |s| else n
    ensures r == s[..|r|]
  {
    if |s| <= n then s else s[..n]
  }

  /** `[...imageFiles, ...files].slice(0, 10)`. */
  function AppendImages(current: seq<File>, chosen: seq<File>): (r: seq<File>)
    ensures |r| == if |current| + |chosen| <= MaxImages then |current| + |chosen| else MaxImages
    ensures r == (current + chosen)[..|r|]
  {
    Take(current + chosen, MaxImages)
  }

  /** A list within the limit keeps all its images, in place, and the new
      ones follow in the order chosen until the limit is reached; when
      everything fits nothing is lost. */
  lemma AppendImagesKeepsCurrent(current: seq<File>, chosen: seq<File>)
    requires |current| <= MaxImages
    ensures var r := AppendImages(current, chosen);
      && |r| == (if |current| + |chosen| <= MaxImages then |current| + |chosen| else MaxImages)
      && r == current + chosen[..|r| - |current|]
  {
    var r := AppendImages(current, chosen);
    assert (current + chosen)[..|r|] == current + chosen[..|r| - |current|];
  }

  /** A list already at the limit takes no more images. */
  lemma FullListIsUnchanged(current: seq<File>, chosen: seq<File>)
    requires |current| == MaxImages
    ensures AppendImages(current, chosen) == current
  {
    AppendImagesKeepsCurrent(current, chosen);
  }

  predicate IsImage(f: File) {
    StartsWith(f.mime, "image/")
  }

  /** The drop zone keeps only the files whose type starts with `image/`. */
  function ImagesOnly(dropped: seq<File>): (r: seq<File>)
    ensures forall f :: f in r <==> f in dropped && IsImage(f)
  {
    Filter(dropped, IsImage)
  }

  /** A drop made only of images keeps all of them, in order. */
  lemma {:induction false} AllImagesKept(dropped: seq<File>)
    requires forall f :: f in dropped ==> IsImage(f)
    ensures ImagesOnly(dropped) == dropped
  {
    if dropped != [] {
      var init := dropped[..|dropped| - 1];
      assert dropped == init + [dropped[|dropped| - 1]];
      assert forall f :: f in init ==> f in dropped;
      AllImagesKept(init);
    }
  }

  /** `files.filter((_, i) => i !== idx)`: the element at `idx` goes, the
      others keep their order; an index outside the list removes nothing. */
  function RemoveAt<T>(s: seq<T>, idx: int): (r: seq<T>)
    ensures 0 <= idx < |s| ==> |r| == |s| - 1
    ensures !(0 <= idx < |s|) ==> r == s
    ensures forall i :: 0 <= i < |r| && i < idx ==> r[i] == s[i]
    ensures forall i :: 0 <= idx <= i < |r| ==> r[i] == s[i + 1]
  {
    if 0 <= idx < |s| then s[..idx] + s[idx + 1..] else s
  }

  /** Putting the removed element back where it was gives the original
      list. */
  lemma RemoveAtRestores<T>(s: seq<T>, idx: int)
    requires 0 <= idx < |s|
    ensures RemoveAt(s, idx)[..idx] + [s[idx]] + RemoveAt(s, idx)[idx..] == s
  {
    var r := RemoveAt(s, idx);
    var back := r[..idx] + [s[idx]] + r[idx..];
    assert |back| == |s|;
    forall i | 0 <= i < |s|
      ensures back[i] == s[i]
    {
      if i > idx {
        assert back[i] == r[i - 1];
      }
    }
  }

  /** `newFiles.map((f) => URL.createObjectURL(f))`. */
  function Previews(files: seq<File>, objectUrl: File -> string): (r: seq<string>)
    ensures |r| == |files|
  {
    seq(|files|, i requires 0 <= i < |files| => objectUrl(files[i]))
  }

  /** The CSV drop zone accepts a file named `*.csv` or typed `text/csv`. */
  predicate CsvAccepted(f: File) {
    EndsWith(f.name, ".csv") || f.mime == "text/csv"
  }

  /** `String(v)` when the form is sent. */
  function FieldText(v: FormValue): (t: string)
    ensures v.Checked? ==> (t == "true" <==> v.b)
    ensures v.Text? ==> t == v.s
  {
    match v
    case Text(s) => s
    case Checked(b) => if b then "true" else "false"
  }

  /** The `FormData` fields of a submission: every field of the form, as
      text. */
  function FormFields(form: map<string, FormValue>): (fields: map<string, string>)
    ensures fields.Keys == form.Keys
    ensures forall k :: k in fields ==> fields[k] == FieldText(form[k])
  {
    map k | k in form :: FieldText(form[k])
  }

  /** The reply to `POST /admin/products`: the request or the body parse
      threw, the server answered with the created product, or it refused
      with its `error` text. */
  datatype CreateReply = CreateThrew(message: string) | Created(title: string, id: nat) | CreateRefused(error: Option<string>)

  /** The reply to `POST /admin/products/csv`. */
  datatype CsvReply = CsvThrew(message: string) | Imported(message: string, errors: Option<seq<string>>) | CsvRefused(error: Option<string>)

  const CreateFailed := "Error al crear vinilo"
  const CsvFailed := "Error al importar CSV"

  function CreatedText(title: string, id: nat): string {
    "\U{2705} Vinilo \"" + title + "\" creado correctamente (ID: " + NatToString(id) + ")"
  }

  class Panel {
    var productForm: map<string, FormValue>
    var imageFiles: seq<File>
    var imagePreviews: seq<string>
    var productLoading: bool
    var productMessage: Option<Message>
    var csvFile: Option<File>
    var csvLoading: bool
    var csvMessage: Option<CsvMessage>
    const objectUrl: File -> string

    /** At most ten images, each with its preview at the same position. */
    predicate Valid()
      reads this
    {
      |imageFiles| <= MaxImages && imagePreviews == Previews(imageFiles, objectUrl)
    }

    /** The panel opens with the empty form, no images and no CSV file. */
    constructor(objectUrl: File -> string)
      ensures this.objectUrl == objectUrl && productForm == EmptyProduct
      ensures imageFiles == [] && productMessage.None? && !productLoading
      ensures csvFile.None? && csvMessage.None? && !csvLoading
      ensures Valid()
    {
      this.objectUrl := objectUrl;
      productForm := EmptyProduct;
      imageFiles := [];
      imagePreviews := [];
      productLoading := false;
      productMessage := None;
      csvFile := None;
      csvLoading := false;
      csvMessage := None;
    }

    /** `handleProductChange`: the named field takes the box's state or the
      input's text; no other field changes. */
    method ChangeField(name: string, isCheckbox: bool, value: string, checked: bool)
      modifies this`productForm
      ensures name in productForm && productForm[name] == (if isCheckbox then Checked(checked) else Text(value))
      ensures productForm.Keys == old(productForm).Keys + {name}
      ensures forall k :: k in old(productForm) && k != name ==> productForm[k] == old(productForm)[k]
    {
      productForm := productForm[name := if isCheckbox then Checked(checked) else Text(value)];
    }

    /** `handleImageSelect`. */
    method SelectImages(chosen: seq<File>)
      modifies this`imageFiles, this`imagePreviews
      ensures imageFiles == AppendImages(old(imageFiles), chosen)
      ensures Valid()
    {
      imageFiles := AppendImages(imageFiles, chosen);
      imagePreviews := Previews(imageFiles, objectUrl);
    }

    /** The image drop zone: only images are appended. */
    method DropImages(dropped: seq<File>)
      modifies this`imageFiles, this`imagePreviews
      ensures imageFiles == AppendImages(old(imageFiles), ImagesOnly(dropped))
      ensures forall f :: f in imageFiles && f !in old(imageFiles) ==> IsImage(f)
      ensures Valid()
    {
      imageFiles := AppendImages(imageFiles, ImagesOnly(dropped));
      imagePreviews := Previews(imageFiles, objectUrl);
    }

    /** `removeImage`. */
    method RemoveImage(idx: int)
      modifies this`imageFiles, this`imagePreviews
      ensures imageFiles == RemoveAt(old(imageFiles), idx)
      ensures old(|imageFiles|) <= MaxImages ==> Valid()
    {
      imageFiles := RemoveAt(imageFiles, idx);
      imagePreviews := Previews(imageFiles, objectUrl);
    }

    /** The clear button: the empty form, no images, no message. */
    method ClearProduct()
      modifies this`productForm, this`imageFiles, this`imagePreviews, this`productMessage
      ensures productForm == EmptyProduct && imageFiles == [] && productMessage.None?
      ensures Valid()
    {
      productForm := EmptyProduct;
      imageFiles := [];
      imagePreviews := [];
      productMessage := None;
    }

    /** `handleProductSubmit`: the form's fields as text and the images in
      order are sent; a created product resets the form and both image
      lists, any failure keeps them and shows the error. Loading ends on
      every path. */
    method SubmitProduct(reply: CreateReply) returns (fields: map<string, string>, images: seq<File>)
      modifies this`productForm, this`imageFiles, this`imagePreviews, this`productMessage, this`productLoading
      ensures fields == FormFields(old(productForm))
      ensures images == old(imageFiles)
      ensures !productLoading
      ensures reply.Created? ==>
        && productForm == EmptyProduct && imageFiles == [] && imagePreviews == []
        && productMessage == Some(Message(true, CreatedText(reply.title, reply.id)))
      ensures !reply.Created? ==>
        productForm == old(productForm) && imageFiles == old(imageFiles) && imagePreviews == old(imagePreviews)
      ensures reply.CreateRefused? ==>
        productMessage == Some(Message(false, AuthContext.ErrorText(reply.error, CreateFailed)))
      ensures reply.CreateThrew? ==> productMessage == Some(Message(false, reply.message))
      ensures old(Valid()) ==> Valid()
    {
      productLoading := true;
      productMessage := None;
      fields := FormFields(productForm);
      images := imageFiles;
      match reply {
        case Created(title, id) =>
          productMessage := Some(Message(true, CreatedText(title, id)));
          productForm := EmptyProduct;
          imageFiles := [];
          imagePreviews := [];
        case CreateRefused(e) =>
          productMessage := Some(Message(false, AuthContext.ErrorText(e, CreateFailed)));
        case CreateThrew(m) =>
          productMessage := Some(Message(false, m));
      }
      productLoading := false;
    }

    /** The CSV drop zone: the first dropped file is taken only when it is
      a CSV; anything else leaves the tab as it was. */
    method DropCsv(dropped: seq<File>)
      modifies this`csvFile, this`csvMessage
      ensures |dropped| > 0 && CsvAccepted(dropped[0]) ==> csvFile == Some(dropped[0]) && csvMessage.None?
      ensures !(|dropped| > 0 && CsvAccepted(dropped[0])) ==> csvFile == old(csvFile) && csvMessage == old(csvMessage)
    {
      if |dropped| > 0 && CsvAccepted(dropped[0]) {
        csvFile := Some(dropped[0]);
        csvMessage := None;
      }
    }

    /** The CSV file picker: the first chosen file is taken as it is. */
    method ChooseCsv(chosen: seq<File>)
      modifies this`csvFile, this`csvMessage
      ensures |chosen| > 0 ==> csvFile == Some(chosen[0]) && csvMessage.None?
      ensures |chosen| == 0 ==> csvFile == old(csvFile) && csvMessage == old(csvMessage)
    {
      if |chosen| > 0 {
        csvFile := Some(chosen[0]);
        csvMessage := None;
      }
    }

    /** The cancel button of the CSV tab. */
    method CancelCsv()
      modifies this`csvFile, this`csvMessage
      ensures csvFile.None? && csvMessage.None?
    {
      csvFile := None;
      csvMessage := None;
    }

    /** `handleCsvSubmit`: without a file nothing happens and nothing is
      sent; an import clears the file and shows the server's message with
      its row errors when there are any; a failure keeps the file. */
    method SubmitCsv(reply: CsvReply) returns (sent: Option<File>)
      modifies this`csvFile, this`csvMessage, this`csvLoading
      ensures sent == old(csvFile)
      ensures old(csvFile).None? ==> csvFile.None? && csvMessage == old(csvMessage) && csvLoading == old(csvLoading)
      ensures old(csvFile).Some? ==> !csvLoading
      ensures old(csvFile).Some? && reply.Imported? ==>
        && csvFile.None?
        && csvMessage == Some(CsvMessage(true, reply.message,
             if reply.errors.Some? && |reply.errors.value| > 0 then reply.errors else None))
      ensures old(csvFile).Some? && !reply.Imported? ==> csvFile == old(csvFile)
      ensures old(csvFile).Some? && reply.CsvRefused? ==>
        csvMessage == Some(CsvMessage(false, AuthContext.ErrorText(reply.error, CsvFailed), None))
      ensures old(csvFile).Some? && reply.CsvThrew? ==> csvMessage == Some(CsvMessage(false, reply.message, None))
    {
      sent := csvFile;
      if csvFile.None? {
        return;
      }
      csvLoading := true;
      csvMessage := None;
      match reply {
        case Imported(m, errs) =>
          csvMessage := Some(CsvMessage(true, m, if errs.Some? && |errs.value| > 0 then errs else None));
          csvFile := None;
        case CsvRefused(e) =>
          csvMessage := Some(CsvMessage(false, AuthContext.ErrorText(e, CsvFailed), None));
        case CsvThrew(m) =>
          csvMessage := Some(CsvMessage(false, m, None));
      }
      csvLoading := false;
    }
  }

  /** A file is accepted by its extension alone or by its type alone. */
  lemma CsvAcceptance(name: string, mime: string, size: nat)
    ensures CsvAccepted(File(name + ".csv", mime, size))
    ensures CsvAccepted(File(name, "text/csv", size))
    ensures !EndsWith(name, ".csv") && mime != "text/csv" ==> !CsvAccepted(File(name, mime, size))
  {
    assert (name + ".csv")[|name|..] == ".csv";
  }
}
