/**
 * The "post a dream" form: the rules for choosing preview images (how many,
 * which sizes), removing a preview, the form's own text schema, and the
 * handlers that put the form back to its defaults.
 */
module PostSuenio {
  import opened Wrappers
  import opened Lists
  import Schema

  const MinPx: nat := 500
  const MaxPx: nat := 1200

  /** A chosen file once its image has loaded: its object URL and its size in pixels. */
  datatype ImageFile = ImageFile(url: string, width: nat, height: nat)

  /** What `archivosParaSubir` holds: nothing yet, `null`, the empty array, or the chosen file list. */
  datatype Files = Undefined | Null | EmptyArray | FileList(files: seq<ImageFile>)
  {
    /** JavaScript truthiness: an array, even an empty one, is truthy. */
    predicate Truthy()
    {
      EmptyArray? || FileList?
    }
  }

  /** The bounds the form's hint announces: 500px minimum, 1200px maximum. */
  predicate WithinStatedBounds(width: nat, height: nat)
  {
    MinPx <= width <= MaxPx && MinPx <= height <= MaxPx
  }

  /**
   * The size test of the load handler, with JavaScript's precedence (`&&` binds tighter than `||`).
   * It rejects an image only when both sides exceed the maximum.
   */
  function SizeAccepted(width: nat, height: nat): (r: bool)
    ensures r <==> width <= MaxPx || height <= MaxPx
    ensures height <= MaxPx ==> r
    ensures WithinStatedBounds(width, height) ==> r
  {
    ((width >= MinPx || height >= MinPx) && width <= MaxPx) || height <= MaxPx
  }

  predicate Accepted(img: ImageFile)
  {
    SizeAccepted(img.width, img.height)
  }

  /** The size test lets through images the hint excludes, such as 5000 x 10 pixels. */
  lemma SizeRuleLooserThanHint()
    ensures SizeAccepted(5000, 10) && !WithinStatedBounds(5000, 10)
    ensures SizeAccepted(10, 10) && !WithinStatedBounds(10, 10)
  {
  }

  /** What the change handler does with a selection, decided before any image loads. */
  datatype Gate = TooMany | Process | Ignore

  function SelectionGate(previewCount: nat, files: Option<seq<ImageFile>>): (g: Gate)
    ensures g == TooMany <==> previewCount >= 3 || (files.Some? && |files.value| >= 4)
    ensures g == Process <==> files.Some? && |files.value| <= 3 && previewCount < 3
    ensures g == Ignore <==> files.None? && previewCount < 3
  {
    if (files.Some? && |files.value| >= 4) || previewCount >= 3 then TooMany
    else if files.Some? && |files.value| <= 3 then Process
    else Ignore
  }

  /**
   * The add-image button, disabled while exactly three previews are shown: whenever it is
   * disabled a selection only sets the count warning, and past three previews it is enabled again.
   */
  function AddImageDisabled(previewCount: nat): (r: bool)
    ensures r ==> forall files :: SelectionGate(previewCount, files) == TooMany
    ensures previewCount > 3 ==> !r
  {
    previewCount == 3
  }

  /** The URLs of the accepted images, in load order. */
  function AcceptedUrls(images: seq<ImageFile>): (r: seq<string>)
    ensures |r| <= |images|
  {
    if images == [] then []
    else
      var last := images[|images| - 1];
      AcceptedUrls(images[..|images| - 1]) + (if Accepted(last) then [last.url] else [])
  }

  predicate AnyAccepted(images: seq<ImageFile>)
  {
    exists i | 0 <= i < |images| :: Accepted(images[i])
  }

  /** The wrong-size flag after the images load: set by the last image's verdict, if there is one. */
  function SizeFlagAfter(flag: bool, images: seq<ImageFile>): (r: bool)
    ensures images == [] ==> r == flag
    ensures images != [] ==> (r <==> images[|images| - 1].width > MaxPx && images[|images| - 1].height > MaxPx)
  {
    if images == [] then flag else !Accepted(images[|images| - 1])
  }

  /** A URL is previewed exactly when some accepted image carries it. */
  lemma {:induction false} AcceptedUrlsMembers(images: seq<ImageFile>, u: string)
    ensures u in AcceptedUrls(images) <==> exists i | 0 <= i < |images| :: Accepted(images[i]) && images[i].url == u
  {
    if images != [] {
      var init := images[..|images| - 1];
      AcceptedUrlsMembers(init, u);
      assert forall i | 0 <= i < |init| :: init[i] == images[i];
    }
  }

  /** Some preview is added exactly when some image is accepted. */
  lemma {:induction false} AcceptedUrlsNonEmpty(images: seq<ImageFile>)
    ensures AcceptedUrls(images) != [] <==> AnyAccepted(images)
  {
    if images != [] {
      var init := images[..|images| - 1];
      AcceptedUrlsNonEmpty(init);
      assert forall i | 0 <= i < |init| :: init[i] == images[i];
    }
  }

  /** When every image is at most 1200 pixels high, every one is previewed, whatever its width. */
  lemma {:induction false} LowImagesAllAccepted(images: seq<ImageFile>)
    requires forall i | 0 <= i < |images| :: images[i].height <= MaxPx
    ensures |AcceptedUrls(images)| == |images|
    ensures forall i | 0 <= i < |images| :: AcceptedUrls(images)[i] == images[i].url
  {
    if images != [] {
      LowImagesAllAccepted(images[..|images| - 1]);
    }
  }

  /** One more loaded image extends the three quantities the load loop keeps. */
  lemma LoadStep(images: seq<ImageFile>, i: nat, flag: bool)
    requires i < |images|
    ensures AcceptedUrls(images[..i + 1]) == AcceptedUrls(images[..i]) + (if Accepted(images[i]) then [images[i].url] else [])
    ensures SizeFlagAfter(flag, images[..i + 1]) == !Accepted(images[i])
    ensures AnyAccepted(images[..i + 1]) <==> AnyAccepted(images[..i]) || Accepted(images[i])
  {
    assert images[..i + 1][..i] == images[..i];
    assert forall k | 0 <= k < i :: images[..i + 1][k] == images[..i][k];
    assert images[..i + 1][i] == images[i];
  }

  /** The form's own schema (the one its resolver uses). */
  const TextoTooShort: string := "Muy corto, contanos algo interesante"
  const TextoTooLong: string := "Muy largooo, máximo 1200 caracteres"

  datatype PostSuenioProps = PostSuenioProps(texto: string, imagenes: Schema.Value, tags: seq<string>)

  predicate TextoValid(v: Schema.Value)
  {
    v.Str? && 20 <= |v.s| <= 1200
  }

  predicate TagsValid(v: Schema.Value)
  {
    v.Arr? && Schema.AllStrings(v.items)
  }

  function PostSuenioSchema(obj: map<string, Schema.Value>): (r: Result<PostSuenioProps, seq<Schema.Issue>>)
    ensures r.Success? <==> TextoValid(Schema.Field(obj, "texto")) && TagsValid(Schema.Field(obj, "tags"))
    ensures r.Success? ==> r.value.texto == Schema.Field(obj, "texto").s && r.value.imagenes == Schema.Field(obj, "imagenes")
    ensures r.Success? ==> r.value.tags == Schema.StringsOf(Schema.Field(obj, "tags").items)
    ensures r.Failure? ==> r.error != []
  {
    var texto := Schema.LengthField("texto", Schema.Field(obj, "texto"), 20, TextoTooShort, 1200, TextoTooLong);
    var tags := Schema.StringArrayField("tags", Schema.Field(obj, "tags"), 0, "");
    if texto.Success? && tags.Success? then Success(PostSuenioProps(texto.value, Schema.Field(obj, "imagenes"), tags.value))
    else Failure(Schema.IssuesOf(texto) + Schema.IssuesOf(tags))
  }

  /** The values the form holds, as the object handed to the schema. */
  function FormObject(texto: string, imagenes: Schema.Value, tags: seq<string>): map<string, Schema.Value>
  {
    map["texto" := Schema.Str(texto), "imagenes" := imagenes, "tags" := Schema.Arr(Schema.Strings(tags))]
  }

  /** For the form's own values only the text length decides: 20 to 1200 characters. */
  lemma FormValuesValid(texto: string, imagenes: Schema.Value, tags: seq<string>)
    ensures PostSuenioSchema(FormObject(texto, imagenes, tags)).Success? <==> 20 <= |texto| <= 1200
    ensures PostSuenioSchema(FormObject(texto, imagenes, tags)).Success? ==>
              PostSuenioSchema(FormObject(texto, imagenes, tags)).value == PostSuenioProps(texto, imagenes, tags)
  {
  }

  /**
   * The component's state: the previews, the two warning flags, the files to upload,
   * and the form values.
   */
  class PostSuenioForm {
    var imagePreview: seq<string>
    var cantidadImgExcedida: bool
    var tamanioIncorrecto: bool
    var archivosParaSubir: Files
    var texto: string
    var imagenes: Schema.Value
    var tags: seq<string>

    /**
     * Previews are only added while fewer than three are shown, at most three at a time,
     * so the list never holds more than five. This rests on the model finishing a selection's
     * image loads before the next selection begins.
     */
    ghost predicate Valid()
      reads this
    {
      |imagePreview| <= 5
    }

    predicate HasDefaultValues()
      reads this
    {
      texto == "" && imagenes == Schema.Null && tags == []
    }

    constructor ()
      ensures Valid() && HasDefaultValues()
      ensures imagePreview == [] && !cantidadImgExcedida && !tamanioIncorrecto && archivosParaSubir == Undefined
    {
      imagePreview := [];
      cantidadImgExcedida := false;
      tamanioIncorrecto := false;
      archivosParaSubir := Undefined;
      texto := "";
      imagenes := Schema.Null;
      tags := [];
    }

    /** A file selection (`None` when the input has no file list); each image is tested as it loads, in order. */
    method ChooseImages(files: Option<seq<ImageFile>>)
      requires Valid()
      modifies this
      ensures Valid()
      ensures texto == old(texto) && imagenes == old(imagenes) && tags == old(tags)
      ensures SelectionGate(old(|imagePreview|), files) == TooMany ==>
                cantidadImgExcedida && imagePreview == old(imagePreview) &&
                tamanioIncorrecto == old(tamanioIncorrecto) && archivosParaSubir == old(archivosParaSubir)
      ensures SelectionGate(old(|imagePreview|), files) == Process ==>
                !cantidadImgExcedida &&
                imagePreview == old(imagePreview) + AcceptedUrls(files.value) &&
                tamanioIncorrecto == SizeFlagAfter(old(tamanioIncorrecto), files.value) &&
                archivosParaSubir == (if AnyAccepted(files.value) then FileList(files.value) else old(archivosParaSubir))
      ensures SelectionGate(old(|imagePreview|), files) == Ignore ==>
                cantidadImgExcedida == old(cantidadImgExcedida) && imagePreview == old(imagePreview) &&
                tamanioIncorrecto == old(tamanioIncorrecto) && archivosParaSubir == old(archivosParaSubir)
    {
      // The two tests are written as the handler writes them; `SelectionGate` is their meaning.
      if (files.Some? && |files.value| >= 4) || |imagePreview| >= 3 {
        cantidadImgExcedida := true;
      } else if files.Some? && |files.value| <= 3 {
        cantidadImgExcedida := false;
        LoadImages(files.value);
      }
    }

    /** The load handlers of the chosen files, run one after the other in file order. */
    method LoadImages(images: seq<ImageFile>)
      modifies this
      ensures imagePreview == old(imagePreview) + AcceptedUrls(images)
      ensures tamanioIncorrecto == SizeFlagAfter(old(tamanioIncorrecto), images)
      ensures archivosParaSubir == if AnyAccepted(images) then FileList(images) else old(archivosParaSubir)
      ensures cantidadImgExcedida == old(cantidadImgExcedida)
      ensures texto == old(texto) && imagenes == old(imagenes) && tags == old(tags)
    {
      for i := 0 to |images|
        invariant imagePreview == old(imagePreview) + AcceptedUrls(images[..i])
        invariant tamanioIncorrecto == SizeFlagAfter(old(tamanioIncorrecto), images[..i])
        invariant archivosParaSubir == if AnyAccepted(images[..i]) then FileList(images) else old(archivosParaSubir)
        invariant cantidadImgExcedida == old(cantidadImgExcedida)
        invariant texto == old(texto) && imagenes == old(imagenes) && tags == old(tags)
      {
        var img := images[i];
        LoadStep(images, i, tamanioIncorrecto);
        // The size test as the load handler writes it; `SizeAccepted` is its meaning.
        if ((img.width >= MinPx || img.height >= MinPx) && img.width <= MaxPx) || img.height <= MaxPx {
          imagePreview := imagePreview + [img.url];
          tamanioIncorrecto := false;
          archivosParaSubir := FileList(images);
        } else {
          tamanioIncorrecto := true;
        }
      }
      assert images[..|images|] == images;
    }

    /** The remove button of the preview `url`. */
    method RemovePreview(url: string)
      requires Valid()
      modifies this
      ensures Valid()
      ensures imagePreview == RemoveAll(old(imagePreview), url)
      ensures cantidadImgExcedida == old(cantidadImgExcedida) && tamanioIncorrecto == old(tamanioIncorrecto)
      ensures archivosParaSubir == old(archivosParaSubir)
      ensures texto == old(texto) && imagenes == old(imagenes) && tags == old(tags)
    {
      imagePreview := RemoveAll(imagePreview, url);
    }

    /** The submit handler: clears both warnings when there are files to upload, then resets the values. */
    method OnSubmitLogin()
      requires Valid()
      modifies this
      ensures Valid() && HasDefaultValues()
      ensures old(archivosParaSubir).Truthy() ==> !cantidadImgExcedida && !tamanioIncorrecto
      ensures !old(archivosParaSubir).Truthy() ==>
                cantidadImgExcedida == old(cantidadImgExcedida) && tamanioIncorrecto == old(tamanioIncorrecto)
      ensures imagePreview == old(imagePreview) && archivosParaSubir == old(archivosParaSubir)
    {
      if archivosParaSubir.Truthy() {
        tamanioIncorrecto := false;
        cantidadImgExcedida := false;
      }
      texto, imagenes, tags := "", Schema.Null, [];
    }

    /** The effect run once a submit has succeeded. */
    method SubmitSucceeded()
      requires Valid()
      modifies this
      ensures Valid() && HasDefaultValues()
      ensures imagePreview == [] && archivosParaSubir == Null
      ensures cantidadImgExcedida == old(cantidadImgExcedida) && tamanioIncorrecto == old(tamanioIncorrecto)
    {
      texto, imagenes, tags := "", Schema.Null, [];
      imagePreview := [];
      archivosParaSubir := Null;
    }

    /** The "Borrar" button. */
    method ResetForm()
      requires Valid()
      modifies this
      ensures Valid() && HasDefaultValues()
      ensures imagePreview == [] && archivosParaSubir == EmptyArray
      ensures cantidadImgExcedida == old(cantidadImgExcedida) && tamanioIncorrecto == old(tamanioIncorrecto)
    {
      texto, imagenes, tags := "", Schema.Null, [];
      imagePreview := [];
      archivosParaSubir := EmptyArray;
    }

    /** Pressing "Enviar": the handler and the success effect run only when the schema accepts the values. */
    method Submit()
      requires Valid()
      modifies this
      ensures Valid()
      ensures PostSuenioSchema(FormObject(old(texto), old(imagenes), old(tags))).Success? <==> 20 <= |old(texto)| <= 1200
      ensures 20 <= |old(texto)| <= 1200 ==>
                HasDefaultValues() && imagePreview == [] && archivosParaSubir == Null &&
                (old(archivosParaSubir).Truthy() ==> !cantidadImgExcedida && !tamanioIncorrecto) &&
                (!old(archivosParaSubir).Truthy() ==>
                   cantidadImgExcedida == old(cantidadImgExcedida) && tamanioIncorrecto == old(tamanioIncorrecto))
      ensures !(20 <= |old(texto)| <= 1200) ==>
                texto == old(texto) && imagenes == old(imagenes) && tags == old(tags) &&
                imagePreview == old(imagePreview) && archivosParaSubir == old(archivosParaSubir) &&
                cantidadImgExcedida == old(cantidadImgExcedida) && tamanioIncorrecto == old(tamanioIncorrecto)
    {
      FormValuesValid(texto, imagenes, tags);
      var parsed := PostSuenioSchema(FormObject(texto, imagenes, tags));
      if parsed.Success? {
        OnSubmitLogin();
        SubmitSucceeded();
      }
    }
  }

  /**
   * Two previews shown and three acceptable images chosen at once: all three are added,
   * the list holds five, and the add button, disabled only at exactly three, stays enabled.
   */
  method FivePreviews() returns (form: PostSuenioForm)
    ensures |form.imagePreview| == 5 && !AddImageDisabled(|form.imagePreview|) && !form.cantidadImgExcedida
  {
    form := new PostSuenioForm();
    var small := [ImageFile("a", 600, 600), ImageFile("b", 600, 600)];
    LowImagesAllAccepted(small);
    form.ChooseImages(Some(small));
    var more := [ImageFile("c", 600, 600), ImageFile("d", 600, 600), ImageFile("e", 600, 600)];
    LowImagesAllAccepted(more);
    form.ChooseImages(Some(more));
  }
}
