/** The flat gallery admin: images of the `gallery` section with a category filter and
    one dialog that either adds an image (upload required) or edits one (upload
    optional). */
module LegacyGallery {
  import opened Common

  /** A `site_images` row of the gallery section, as this screen reads it. */
  datatype GalleryImage = GalleryImage(
    id: string,
    category: string,
    title: string,
    description: string,
    imageUrl: string,
    displayOrder: int)

  /** The dialog's form; `file` is the chosen file, identified by a handle. */
  datatype GalleryForm = GalleryForm(category: string, title: string, description: string, file: Option<nat>)

  const EmptyForm := GalleryForm("", "", "", None)

  /** The columns written by the insert path. */
  datatype NewGalleryRow = NewGalleryRow(
    section: string,
    category: string,
    title: string,
    description: string,
    imageUrl: string,
    displayOrder: int)

  /** Where the image URL of a submission comes from: a failed upload aborts it. */
  datatype UrlChoice = UploadAborted | UseUrl(url: string)

  datatype SubmitOutcome = UploadFailed | SaveFailed | ImageSaved

  /** The category filter: `"all"` shows every image, any other value the images of that
      category. */
  function FilteredImages(images: seq<GalleryImage>, selectedCategory: string): (r: seq<GalleryImage>)
    ensures selectedCategory == "all" ==> r == images
    ensures |r| <= |images|
    ensures selectedCategory != "all" ==>
              forall img :: img in r <==> img in images && img.category == selectedCategory
  {
    if selectedCategory == "all" then images
    else CategoryFilter(images, selectedCategory)
  }

  /** `images.filter(img => img.category === c)`. */
  function CategoryFilter(images: seq<GalleryImage>, c: string): (r: seq<GalleryImage>)
    ensures |r| <= |images|
    ensures forall img :: img in r <==> img in images && img.category == c
  {
    if images == [] then []
    else (if images[0].category == c then [images[0]] else []) + CategoryFilter(images[1..], c)
  }

  /** The filter keeps the images' order: filtering a concatenation is concatenating the
      filtered parts. */
  lemma {:induction false} CategoryFilterAppend(a: seq<GalleryImage>, b: seq<GalleryImage>, c: string)
    ensures CategoryFilter(a + b, c) == CategoryFilter(a, c) + CategoryFilter(b, c)
  {
    if a == [] {
      assert a + b == b;
    } else {
      assert (a + b)[1..] == a[1..] + b;
      CategoryFilterAppend(a[1..], b, c);
    }
  }

  /** An image list already within one category passes the filter unchanged, so
      filtering twice is filtering once. */
  lemma {:induction false} CategoryFilterOfCategory(images: seq<GalleryImage>, c: string)
    requires forall k :: 0 <= k < |images| ==> images[k].category == c
    ensures CategoryFilter(images, c) == images
  {
    if images != [] {
      CategoryFilterOfCategory(images[1..], c);
    }
  }

  lemma FilteredImagesIdempotent(images: seq<GalleryImage>, c: string)
    ensures FilteredImages(FilteredImages(images, c), c) == FilteredImages(images, c)
  {
    if c != "all" {
      var once := CategoryFilter(images, c);
      assert forall k :: 0 <= k < |once| ==> once[k] in once;
      CategoryFilterOfCategory(once, c);
    }
  }

  /** The submit button's `disabled` rule. */
  function SubmitDisabled(uploading: bool, editing: Option<GalleryImage>, form: GalleryForm): (r: bool)
    ensures !r ==> !uploading && form.category != ""
    ensures editing.None? && form.file.None? ==> r
    ensures !uploading && form.category != "" && (editing.Some? || form.file.Some?) ==> !r
  {
    uploading || (editing.None? && form.file.None?) || !Truthy(form.category)
  }

  /** The URL `handleSubmit` writes: the uploaded file's URL when a file was chosen
      (`upload` is what the upload returned, null on failure), otherwise the edited
      image's URL, otherwise the empty string. */
  function ResolveImageUrl(editing: Option<GalleryImage>, file: Option<nat>, upload: Option<string>): (r: UrlChoice)
    ensures r.UploadAborted? <==> file.Some? && !TruthyOpt(upload)
    ensures file.Some? && r.UseUrl? ==> r.url == upload.value && r.url != ""
    ensures file.None? && editing.Some? ==> r == UseUrl(editing.value.imageUrl)
    ensures file.None? && editing.None? ==> r == UseUrl("")
  {
    var current := if editing.Some? && Truthy(editing.value.imageUrl) then editing.value.imageUrl else "";
    if file.Some? then
      if TruthyOpt(upload) then UseUrl(upload.value) else UploadAborted
    else UseUrl(current)
  }

  /** A submission the button allows for a new image always goes through the upload, so
      it never writes an empty URL. */
  lemma EnabledNewImageUploads(uploading: bool, form: GalleryForm, upload: Option<string>)
    requires !SubmitDisabled(uploading, None, form)
    ensures form.file.Some?
    ensures ResolveImageUrl(None, form.file, upload) == if TruthyOpt(upload) then UseUrl(upload.value) else UploadAborted
    ensures ResolveImageUrl(None, form.file, upload).UseUrl? ==> ResolveImageUrl(None, form.file, upload).url != ""
  {
  }

  /** The row an edit writes over the stored one. */
  function Edited(image: GalleryImage, form: GalleryForm, url: string): GalleryImage {
    image.(category := form.category, title := form.title, description := form.description, imageUrl := url)
  }

  /** The screen's state and the part of the store it writes: the gallery rows by id and
      the rows inserted by this screen. */
  class LegacyGalleryAdmin {
    var images: seq<GalleryImage>
    var loading: bool
    var uploading: bool
    var dialogOpen: bool
    var editingImage: Option<GalleryImage>
    var selectedCategory: string
    var form: GalleryForm
    var rows: map<string, GalleryImage>
    var insertedRows: seq<NewGalleryRow>

    constructor(rows: map<string, GalleryImage>)
      ensures this.rows == rows && insertedRows == []
      ensures images == [] && loading && !uploading && !dialogOpen && editingImage == None
      ensures selectedCategory == "all" && form == EmptyForm
    {
      this.rows := rows;
      insertedRows := [];
      images := [];
      loading := true;
      uploading := false;
      dialogOpen := false;
      editingImage := None;
      selectedCategory := "all";
      form := EmptyForm;
    }

    /** `fetchImages`: `result` is the query's rows, None when it failed. */
    method FetchImages(result: Option<seq<GalleryImage>>)
      modifies this`images, this`loading
      ensures images == (if result.Some? then result.value else old(images))
      ensures !loading
    {
      if result.Some? {
        images := result.value;
      }
      loading := false;
    }

    method SelectCategory(c: string)
      modifies this`selectedCategory
      ensures selectedCategory == c
    {
      selectedCategory := c;
    }

    /** The images the grid shows. */
    function VisibleImages(): (r: seq<GalleryImage>)
      reads this
      ensures selectedCategory == "all" ==> r == images
      ensures forall img :: img in r <==> img in images && (selectedCategory == "all" || img.category == selectedCategory)
    {
      FilteredImages(images, selectedCategory)
    }

    method EditForm(newForm: GalleryForm)
      modifies this`form
      ensures form == newForm
    {
      form := newForm;
    }

    /** `handleEdit`: the form shows the image's text fields and no file. */
    method HandleEdit(image: GalleryImage)
      modifies this`editingImage, this`form, this`dialogOpen
      ensures editingImage == Some(image) && dialogOpen
      ensures form == GalleryForm(image.category, image.title, image.description, None)
    {
      editingImage := Some(image);
      form := GalleryForm(image.category, image.title, image.description, None);
      dialogOpen := true;
    }

    /** `resetForm`: clears the form and the edited image and closes the dialog. */
    method ResetForm()
      modifies this`form, this`editingImage, this`dialogOpen
      ensures form == EmptyForm && editingImage == None && !dialogOpen
    {
      form := EmptyForm;
      editingImage := None;
      dialogOpen := false;
    }

    /** `handleSubmit`: `upload` is what uploading the chosen file returned (consulted
        only when a file was chosen) and `writeOk` whether the insert or update
        succeeded. A new image is inserted at position `images.length`; an edit
        without a new file keeps the stored URL; a failed upload writes nothing. */
    method HandleSubmit(upload: Option<string>, writeOk: bool) returns (outcome: SubmitOutcome)
      modifies this`rows, this`insertedRows, this`uploading, this`form, this`editingImage, this`dialogOpen
      ensures !uploading
      ensures outcome == UploadFailed <==> ResolveImageUrl(old(editingImage), old(form).file, upload).UploadAborted?
      ensures outcome == SaveFailed <==> ResolveImageUrl(old(editingImage), old(form).file, upload).UseUrl? && !writeOk
      ensures outcome != ImageSaved ==>
                rows == old(rows) && insertedRows == old(insertedRows)
                && form == old(form) && editingImage == old(editingImage) && dialogOpen == old(dialogOpen)
      ensures outcome == ImageSaved ==>
                var url := ResolveImageUrl(old(editingImage), old(form).file, upload).url;
                && form == EmptyForm && editingImage == None && !dialogOpen
                && (old(editingImage).Some? ==>
                      && insertedRows == old(insertedRows)
                      && rows == (if old(editingImage).value.id in old(rows)
                                  then old(rows)[old(editingImage).value.id :=
                                         Edited(old(rows)[old(editingImage).value.id], old(form), url)]
                                  else old(rows)))
                && (old(editingImage).None? ==>
                      && rows == old(rows)
                      && insertedRows == old(insertedRows) + [NewGalleryRow(
                           "gallery", old(form).category, old(form).title, old(form).description, url, |images|)])
    {
      uploading := true;
      var choice := ResolveImageUrl(editingImage, form.file, upload);
      if choice.UploadAborted? {
        uploading := false;
        return UploadFailed;
      }
      if !writeOk {
        uploading := false;
        return SaveFailed;
      }
      if editingImage.Some? {
        var id := editingImage.value.id;
        if id in rows {
          rows := rows[id := Edited(rows[id], form, choice.url)];
        }
      } else {
        insertedRows := insertedRows + [NewGalleryRow("gallery", form.category, form.title, form.description, choice.url, |images|)];
      }
      ResetForm();
      uploading := false;
      outcome := ImageSaved;
    }
  }
}
