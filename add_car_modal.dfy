/** The add form of components/add-car-modal.tsx: its validation rules, its
    list of image URLs and what a submit passes on. */
module AddCarForm {
  import opened Wrappers
  import opened Cars
  import opened Seqs

  /** `carSchema` of the form: brand, model and color non-empty, a year between 1900
      and next year, a strictly positive price; vin, description and thumbnails free. */
  predicate FormSchemaAccepts(v: CarInput, currentYear: int) {
    && |v.brand| >= 1
    && |v.model| >= 1
    && 1900 <= v.year <= currentYear + 1
    && |v.color| >= 1
    && v.price > 0
  }

  /** The `carSchema` declared in hooks/use-cars.tsx (never applied there): the same
      rules except that a price of 0 passes. */
  predicate HookSchemaAccepts(v: CarInput, currentYear: int) {
    && |v.brand| >= 1
    && |v.model| >= 1
    && 1900 <= v.year <= currentYear + 1
    && |v.color| >= 1
    && v.price >= 0
  }

  /** The form's schema is stricter than the hook's. */
  lemma FormSchemaIsStricter(v: CarInput, currentYear: int)
    ensures FormSchemaAccepts(v, currentYear) ==> HookSchemaAccepts(v, currentYear)
    ensures HookSchemaAccepts(v, currentYear) && !FormSchemaAccepts(v, currentYear) <==>
              HookSchemaAccepts(v, currentYear) && v.price == 0
  {
  }

  /** A free car passes the hook's schema and fails the form's. */
  lemma FreeCarOnlyPassesHookSchema()
    ensures var v := CarInput("Kia", "Soul", 2024, "Green", 0, None, None, None);
            HookSchemaAccepts(v, 2025) && !FormSchemaAccepts(v, 2025)
  {
  }

  /** The form's default values: empty text, this year, price 0. */
  function DefaultValues(currentYear: int): (v: CarInput)
    ensures !FormSchemaAccepts(v, currentYear)
  {
    CarInput("", "", currentYear, "", 0, Some(""), Some(""), Some([]))
  }

  /** The values handed to `onAddCar`: the thumbnails are replaced by the URL list. */
  function Submitted(data: CarInput, imageUrls: seq<string>): (r: CarInput)
    ensures r.thumbnails == Some(imageUrls)
    ensures r.(thumbnails := data.thumbnails) == data
  {
    data.(thumbnails := Some(imageUrls))
  }

  class AddCarModal {
    var imageUrls: seq<string>
    var imageUrl: string
    var isSubmitting: bool
    var values: CarInput

    constructor (currentYear: int)
      ensures imageUrls == [] && imageUrl == "" && !isSubmitting && values == DefaultValues(currentYear)
      ensures NoDuplicates(imageUrls)
    {
      imageUrls := [];
      imageUrl := "";
      isSubmitting := false;
      values := DefaultValues(currentYear);
    }

    /** The URL input's `onChange`. */
    method SetImageUrl(text: string)
      modifies this
      ensures imageUrl == text
      ensures imageUrls == old(imageUrls) && isSubmitting == old(isSubmitting) && values == old(values)
    {
      imageUrl := text;
    }

    /** `handleAddImage`: a non-empty URL that is not yet listed is appended and the
        input cleared; anything else leaves both as they are. The list stays free
        of duplicates. */
    method HandleAddImage()
      modifies this
      ensures old(imageUrl) != "" && old(imageUrl) !in old(imageUrls) ==>
                imageUrls == old(imageUrls) + [old(imageUrl)] && imageUrl == ""
      ensures !(old(imageUrl) != "" && old(imageUrl) !in old(imageUrls)) ==>
                imageUrls == old(imageUrls) && imageUrl == old(imageUrl)
      ensures old(NoDuplicates(imageUrls)) ==> NoDuplicates(imageUrls)
      ensures isSubmitting == old(isSubmitting) && values == old(values)
    {
      if imageUrl != "" && imageUrl !in imageUrls {
        if NoDuplicates(imageUrls) {
          AppendFresh(imageUrls, imageUrl);
        }
        imageUrls := imageUrls + [imageUrl];
        imageUrl := "";
      }
    }

    /** `handleRemoveImage(index)`: the URL at `index` is dropped, the rest keep
        their order; an index outside the list changes nothing. */
    method HandleRemoveImage(index: int)
      modifies this
      ensures imageUrls == RemoveIndex(old(imageUrls), index)
      ensures old(NoDuplicates(imageUrls)) ==> NoDuplicates(imageUrls)
      ensures imageUrl == old(imageUrl) && isSubmitting == old(isSubmitting) && values == old(values)
    {
      if NoDuplicates(imageUrls) {
        RemoveIndexKeepsNoDuplicates(imageUrls, index);
      }
      imageUrls := RemoveIndex(imageUrls, index);
    }

    /** `form.handleSubmit(onSubmit)` for the entered values: nothing happens unless
        the schema accepts them; otherwise the values with the current URL list as
        thumbnails are passed on, and, unless `onAddCar` throws, the form, the URL
        list and the URL input are reset and the dialog is closed. */
    method Submit(data: CarInput, currentYear: int, addThrows: bool) returns (sent: Option<CarInput>, closed: bool)
      modifies this
      ensures !FormSchemaAccepts(data, currentYear) ==>
                sent == None && !closed && imageUrls == old(imageUrls) && imageUrl == old(imageUrl) && values == old(values)
      ensures FormSchemaAccepts(data, currentYear) ==> sent == Some(Submitted(data, old(imageUrls)))
      ensures FormSchemaAccepts(data, currentYear) && !addThrows ==>
                closed && imageUrls == [] && imageUrl == "" && values == DefaultValues(currentYear)
      ensures FormSchemaAccepts(data, currentYear) && addThrows ==>
                !closed && imageUrls == old(imageUrls) && imageUrl == old(imageUrl) && values == old(values)
      ensures FormSchemaAccepts(data, currentYear) ==> !isSubmitting
      ensures !FormSchemaAccepts(data, currentYear) ==> isSubmitting == old(isSubmitting)
    {
      sent, closed := None, false;
      if !FormSchemaAccepts(data, currentYear) {
        return;
      }
      isSubmitting := true;
      var passed := Submitted(data, imageUrls);
      sent := Some(passed);
      if !addThrows {
        values := DefaultValues(currentYear);
        imageUrls := [];
        imageUrl := "";
        closed := true;
      }
      isSubmitting := false;
    }
  }
}
