/** The administrator's animal page (src/pages/admin/AnimalManagement.tsx):
    the animal form and its schema, the choice of image URL, the dispatch of
    an add or an update, editing, resetting, the dialog and the page clamps.
    The service calls it makes (`getPaginatedAnimals`, `addAnimal`,
    `updateAnimal`, `deleteAnimal`) do not exist in the animal service, so
    they appear only as the dispatch the page makes and the outcome it is
    told. */
module AnimalManagement {
  import opened Common
  import opened AnimalService

  /** The form's values. */
  datatype AnimalForm = AnimalForm(
    name: string,
    category: string,
    breed: string,
    weight: int,
    age: string,
    price: int,
    pricePerShare: int,
    totalShares: int,
    imageUrl: string,
    description: string)

  /** The form's defaults: a cow of seven shares, every other number 0 and
      every string empty. */
  function DefaultForm(): AnimalForm
  {
    AnimalForm("", "cow", "", 0, "", 0, 0, 7, "", "")
  }

  /** The schema's complaints, one per field rule. */
  datatype Problem = ShortName | NoCategory | NoBreed | LowWeight | LowPrice | LowSharePrice
                   | FewShares | BadUrl | ShortDescription

  /** The message the schema attaches to each complaint. */
  function Message(p: Problem): string
  {
    match p
    case ShortName => "Name must be at least 2 characters"
    case NoCategory => "Category is required"
    case NoBreed => "Breed is required"
    case LowWeight => "Weight must be at least 1"
    case LowPrice => "Price must be at least 1"
    case LowSharePrice => "Price per share must be at least 1"
    case FewShares => "Total shares must be at least 1"
    case BadUrl => "Must be a valid URL"
    case ShortDescription => "Description must be at least 10 characters"
  }

  /** The rule behind each complaint is broken by the form; `urlOk` is the
      verdict of the library's URL check on the image URL. */
  predicate Violated(form: AnimalForm, urlOk: bool, p: Problem)
  {
    match p
    case ShortName => |form.name| < 2
    case NoCategory => form.category == ""
    case NoBreed => form.breed == ""
    case LowWeight => form.weight < 1
    case LowPrice => form.price < 1
    case LowSharePrice => form.pricePerShare < 1
    case FewShares => form.totalShares < 1
    case BadUrl => !urlOk
    case ShortDescription => |form.description| < 10
  }

  /** Every complaint, in the schema's field order. */
  function AllProblems(): seq<Problem>
  {
    [ShortName, NoCategory, NoBreed, LowWeight, LowPrice, LowSharePrice, FewShares, BadUrl, ShortDescription]
  }

  lemma EveryProblemListed(p: Problem)
    ensures p in AllProblems()
  {
    match p
    case ShortName => assert AllProblems()[0] == p;
    case NoCategory => assert AllProblems()[1] == p;
    case NoBreed => assert AllProblems()[2] == p;
    case LowWeight => assert AllProblems()[3] == p;
    case LowPrice => assert AllProblems()[4] == p;
    case LowSharePrice => assert AllProblems()[5] == p;
    case FewShares => assert AllProblems()[6] == p;
    case BadUrl => assert AllProblems()[7] == p;
    case ShortDescription => assert AllProblems()[8] == p;
  }

  /** The schema's complaints about the form, in field order: exactly the
      rules the form breaks. */
  function FormErrors(form: AnimalForm, urlOk: bool): (errors: seq<Problem>)
    ensures forall p :: p in errors <==> Violated(form, urlOk, p)
    ensures |errors| <= 9
  {
    var errors := Filter(AllProblems(), (p: Problem) => Violated(form, urlOk, p));
    assert forall p :: Violated(form, urlOk, p) ==> p in errors by {
      forall p | Violated(form, urlOk, p) ensures p in errors {
        EveryProblemListed(p);
      }
    }
    errors
  }

  /** The schema accepts the form; the age is free. */
  predicate FormValid(form: AnimalForm, urlOk: bool)
  {
    |form.name| >= 2 && form.category != "" && form.breed != "" && form.weight >= 1 &&
    form.price >= 1 && form.pricePerShare >= 1 && form.totalShares >= 1 && urlOk &&
    |form.description| >= 10
  }

  /** The first rule, in field order, that a rejected form breaks. */
  function FirstViolated(form: AnimalForm, urlOk: bool): (p: Problem)
    requires !FormValid(form, urlOk)
    ensures Violated(form, urlOk, p)
  {
    if |form.name| < 2 then ShortName
    else if form.category == "" then NoCategory
    else if form.breed == "" then NoBreed
    else if form.weight < 1 then LowWeight
    else if form.price < 1 then LowPrice
    else if form.pricePerShare < 1 then LowSharePrice
    else if form.totalShares < 1 then FewShares
    else if !urlOk then BadUrl
    else ShortDescription
  }

  /** An accepted form breaks no rule. */
  lemma ValidBreaksNothing(form: AnimalForm, urlOk: bool)
    requires FormValid(form, urlOk)
    ensures forall p :: !Violated(form, urlOk, p)
  {
    forall p ensures !Violated(form, urlOk, p) {
      match p
      case ShortName =>
      case NoCategory =>
      case NoBreed =>
      case LowWeight =>
      case LowPrice =>
      case LowSharePrice =>
      case FewShares =>
      case BadUrl =>
      case ShortDescription =>
    }
  }

  /** The form is accepted exactly when the schema reports nothing, and the
      age never decides it. */
  lemma ValidIffNoErrors(form: AnimalForm, urlOk: bool, age: string)
    ensures FormValid(form, urlOk) <==> FormErrors(form, urlOk) == []
    ensures FormValid(form.(age := age), urlOk) == FormValid(form, urlOk)
  {
    var errors := FormErrors(form, urlOk);
    if FormValid(form, urlOk) {
      ValidBreaksNothing(form, urlOk);
      NoMemberMeansEmpty(errors);
    } else {
      assert FirstViolated(form, urlOk) in errors;
    }
  }

  /** The defaults cannot be submitted as they stand: the name, breed,
      weight, prices and description still have to be filled in. */
  lemma DefaultFormRejected(urlOk: bool)
    ensures forall p :: p in {ShortName, NoBreed, LowWeight, LowPrice, LowSharePrice, ShortDescription} ==>
                        p in FormErrors(DefaultForm(), urlOk)
    ensures NoCategory !in FormErrors(DefaultForm(), urlOk) && FewShares !in FormErrors(DefaultForm(), urlOk)
  {
  }

  /** `handleEditAnimal`'s form: the animal's fields, a missing age as "". */
  function EditForm(animal: Animal): (form: AnimalForm)
    ensures form.name == animal.name && form.category == animal.category && form.breed == animal.breed
    ensures form.weight == animal.weight && form.price == animal.price
    ensures form.pricePerShare == animal.pricePerShare && form.totalShares == animal.totalShares
    ensures form.imageUrl == animal.imageUrl && form.description == animal.description
    ensures animal.age.None? ==> form.age == ""
    ensures animal.age.Some? ==> form.age == animal.age.value
  {
    AnimalForm(animal.name, animal.category, animal.breed, animal.weight,
               match animal.age case Some(a) => a case None => "",
               animal.price, animal.pricePerShare, animal.totalShares, animal.imageUrl, animal.description)
  }

  /** Every catalogue animal, opened for editing, passes the schema as it
      stands (given that its image URL is a URL). */
  lemma CatalogueEditsAreValid()
    ensures forall a :: a in MockAnimals() ==> FormValid(EditForm(a), true)
  {
    assert |PremiumCowText| >= 10 && |LargeGoatText| >= 10;
  }

  /** The URL submitted: with the upload tab selected and a file chosen, the
      preview URL unless it is absent or empty, and the form's URL in every
      other case. */
  function FinalImageUrl(tab: string, hasFile: bool, preview: Option<string>, formUrl: string): (url: string)
    ensures tab != "upload" || !hasFile ==> url == formUrl
    ensures tab == "upload" && hasFile && preview.Some? && preview.value != "" ==> url == preview.value
    ensures tab == "upload" && hasFile && (preview.None? || preview.value == "") ==> url == formUrl
  {
    if tab == "upload" && hasFile then
      (if preview.Some? && preview.value != "" then preview.value else formUrl)
    else formUrl
  }

  /** What a submission asks the service for. */
  datatype Dispatch = UpdateAnimal(id: string, values: AnimalForm) | AddAnimal(values: AnimalForm)

  /** `data?.totalPages || 1`: the reported page count, or 1 while nothing is
      loaded or when it is 0. */
  function TotalPages(reported: Option<int>): (total: int)
    ensures reported.Some? && reported.value != 0 ==> total == reported.value
    ensures reported.None? || reported.value == 0 ==> total == 1
  {
    if reported.Some? && reported.value != 0 then reported.value else 1
  }

  /** The page's state (the chosen file itself is only "chosen or not"). */
  class AnimalManagerPage {
    var page: int
    var isDialogOpen: bool
    var editingAnimal: Option<Animal>
    var selectedImageTab: string
    var hasImageFile: bool
    var imagePreview: Option<string>
    var form: AnimalForm
    var reportedPages: Option<int>
    var toast: Option<string>

    /** The form and image state after `resetForm`. */
    ghost predicate Reset()
      reads this
    {
      form == DefaultForm() && editingAnimal.None? && !hasImageFile && imagePreview.None? &&
      selectedImageTab == "url"
    }

    /** Page 1, dialog closed, the default form, the URL tab. */
    constructor ()
      ensures page == 1 && !isDialogOpen && reportedPages.None? && toast.None?
      ensures Reset()
    {
      page := 1;
      isDialogOpen := false;
      editingAnimal := None;
      selectedImageTab := "url";
      hasImageFile := false;
      imagePreview := None;
      form := DefaultForm();
      reportedPages := None;
      toast := None;
    }

    /** The paginated query answered with a page count. */
    method Loaded(totalPages: int)
      modifies this
      ensures reportedPages == Some(totalPages)
      ensures page == old(page) && form == old(form) && editingAnimal == old(editingAnimal)
    {
      reportedPages := Some(totalPages);
    }

    /** `resetForm`: the defaults, no animal being edited, no file, no
        preview, the URL tab. */
    method ResetForm()
      modifies this
      ensures Reset()
      ensures page == old(page) && isDialogOpen == old(isDialogOpen) && reportedPages == old(reportedPages)
      ensures toast == old(toast)
    {
      form := DefaultForm();
      editingAnimal := None;
      hasImageFile := false;
      imagePreview := None;
      selectedImageTab := "url";
    }

    /** `handleDialogOpenChange`: closing the dialog resets the form; opening
        it keeps the form. */
    method DialogOpenChange(open: bool)
      modifies this
      ensures isDialogOpen == open
      ensures !open ==> Reset()
      ensures open ==> form == old(form) && editingAnimal == old(editingAnimal) &&
                       hasImageFile == old(hasImageFile) && imagePreview == old(imagePreview) &&
                       selectedImageTab == old(selectedImageTab)
      ensures page == old(page) && reportedPages == old(reportedPages) && toast == old(toast)
    {
      isDialogOpen := open;
      if !open {
        ResetForm();
      }
    }

    /** `handleEditAnimal`: edit this animal, with its fields in the form, no
        file, its image as the preview, the URL tab, and the dialog open. */
    method EditAnimal(animal: Animal)
      modifies this
      ensures editingAnimal == Some(animal) && form == EditForm(animal)
      ensures !hasImageFile && imagePreview == Some(animal.imageUrl) && selectedImageTab == "url"
      ensures isDialogOpen
      ensures page == old(page) && reportedPages == old(reportedPages) && toast == old(toast)
    {
      editingAnimal := Some(animal);
      form := EditForm(animal);
      hasImageFile := false;
      imagePreview := Some(animal.imageUrl);
      selectedImageTab := "url";
      isDialogOpen := true;
    }

    /** The form's inputs now hold `values`. */
    method Fill(values: AnimalForm)
      modifies this
      ensures form == values
      ensures editingAnimal == old(editingAnimal) && hasImageFile == old(hasImageFile)
      ensures imagePreview == old(imagePreview) && selectedImageTab == old(selectedImageTab)
      ensures isDialogOpen == old(isDialogOpen) && page == old(page) && reportedPages == old(reportedPages)
      ensures toast == old(toast)
    {
      form := values;
    }

    /** Switching between the URL and upload tabs. */
    method SelectTab(tab: string)
      modifies this
      ensures selectedImageTab == tab
      ensures form == old(form) && editingAnimal == old(editingAnimal) && hasImageFile == old(hasImageFile)
      ensures imagePreview == old(imagePreview) && isDialogOpen == old(isDialogOpen) && page == old(page)
      ensures reportedPages == old(reportedPages) && toast == old(toast)
    {
      selectedImageTab := tab;
    }

    /** `handleImageChange` with a file chosen: the file and its preview URL
        are kept, and on the upload tab the form's URL becomes a placeholder. */
    method ImageChosen(previewUrl: string)
      modifies this
      ensures hasImageFile && imagePreview == Some(previewUrl)
      ensures old(selectedImageTab) == "upload" ==> form == old(form).(imageUrl := "image-being-uploaded")
      ensures old(selectedImageTab) != "upload" ==> form == old(form)
      ensures selectedImageTab == old(selectedImageTab) && editingAnimal == old(editingAnimal)
      ensures isDialogOpen == old(isDialogOpen) && page == old(page) && reportedPages == old(reportedPages)
      ensures toast == old(toast)
    {
      hasImageFile := true;
      imagePreview := Some(previewUrl);
      if selectedImageTab == "upload" {
        form := form.(imageUrl := "image-being-uploaded");
      }
    }

    /** `onSubmit` for a form the schema accepts (otherwise nothing is
        dispatched): the values with the chosen image URL, as an update of
        the animal being edited or as a new animal. */
    method Submit(urlOk: bool) returns (dispatch: Option<Dispatch>)
      ensures !FormValid(form, urlOk) ==> dispatch.None?
      ensures FormValid(form, urlOk) ==>
                var values := form.(imageUrl := FinalImageUrl(selectedImageTab, hasImageFile, imagePreview, form.imageUrl));
                dispatch.Some? &&
                (editingAnimal.Some? ==> dispatch.value == UpdateAnimal(editingAnimal.value.id, values)) &&
                (editingAnimal.None? ==> dispatch.value == AddAnimal(values))
    {
      if !FormValid(form, urlOk) {
        return None;
      }
      var finalImageUrl := form.imageUrl;
      if selectedImageTab == "upload" && hasImageFile {
        finalImageUrl := if imagePreview.Some? && imagePreview.value != "" then imagePreview.value else form.imageUrl;
      }
      var values := form.(imageUrl := finalImageUrl);
      match editingAnimal {
        case Some(animal) => dispatch := Some(UpdateAnimal(animal.id, values));
        case None => dispatch := Some(AddAnimal(values));
      }
    }

    /** The dispatched call has answered: on success the dialog closes and the
        form is reset, on failure only the error is reported. */
    method Settled(dispatch: Dispatch, response: Remote<()>)
      modifies this
      ensures response.Success? ==> !isDialogOpen && Reset()
      ensures response.Success? && dispatch.AddAnimal? ==> toast == Some("Animal added successfully")
      ensures response.Success? && dispatch.UpdateAnimal? ==> toast == Some("Animal updated successfully")
      ensures response.Failure? && dispatch.AddAnimal? ==> toast == Some("Failed to add animal")
      ensures response.Failure? && dispatch.UpdateAnimal? ==> toast == Some("Failed to update animal")
      ensures response.Failure? ==> form == old(form) && editingAnimal == old(editingAnimal) &&
                                    isDialogOpen == old(isDialogOpen)
      ensures page == old(page) && reportedPages == old(reportedPages)
    {
      match response {
        case Success(_) =>
          toast := Some(if dispatch.AddAnimal? then "Animal added successfully" else "Animal updated successfully");
          isDialogOpen := false;
          ResetForm();
        case Failure =>
          toast := Some(if dispatch.AddAnimal? then "Failed to add animal" else "Failed to update animal");
      }
    }

    /** Previous: `Math.max(p - 1, 1)`. */
    method Previous()
      modifies this
      ensures page == if old(page) - 1 > 1 then old(page) - 1 else 1
      ensures page >= 1
      ensures reportedPages == old(reportedPages) && form == old(form) && editingAnimal == old(editingAnimal)
    {
      page := if page - 1 > 1 then page - 1 else 1;
    }

    /** Next: `Math.min(p + 1, totalPages)`. */
    method Next()
      modifies this
      ensures page == if old(page) + 1 < TotalPages(reportedPages) then old(page) + 1 else TotalPages(reportedPages)
      ensures page <= TotalPages(reportedPages)
      ensures reportedPages == old(reportedPages) && form == old(form) && editingAnimal == old(editingAnimal)
    {
      var total := TotalPages(reportedPages);
      page := if page + 1 < total then page + 1 else total;
    }
  }

  /** Editing an animal and then closing the dialog leaves nothing of the
      edit behind: once the form is filled in again, the submission adds a
      new animal instead of updating the one that was being edited. */
  method EditThenCloseAdds(animal: Animal, filled: AnimalForm) returns (dispatch: Option<Dispatch>)
    requires FormValid(filled, true)
    ensures dispatch == Some(AddAnimal(filled))
  {
    var p := new AnimalManagerPage();
    p.EditAnimal(animal);
    p.DialogOpenChange(false);
    p.Fill(filled);
    dispatch := p.Submit(true);
  }
}
