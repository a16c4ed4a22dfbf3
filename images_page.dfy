/**
 * `ImagesPage`: the in-memory list of property images, the files chosen in
 * the page's upload widget, and the add form. A submit looks the form's
 * property up in the page's fixed property list and, when it is found and at
 * least one file is chosen, appends one image per file, in file order.
 */
module Images {
  import opened Lists
  import opened Upload

  /** The page's own view of a property: identifier and title. */
  datatype PropertyRef = PropertyRef(id: string, title: string)

  datatype PropertyImage = PropertyImage(id: string, propertyId: string, propertyName: string, imageUrl: string,
                                         caption: string, isPrimary: bool, uploadedAt: string)

  datatype ImageForm = ImageForm(propertyId: string, caption: string, isPrimary: bool)

  /** What the browser supplies while the image for one file is built: the identifier
      (`Date.now().toString()` followed by six digits of `Math.random()`), the object URL
      of the file, and the ISO date of the day. */
  datatype Stamp = Stamp(id: string, objectUrl: string, day: string)

  const KnownProperties: seq<PropertyRef> := [
    PropertyRef("1", "Luxury Ocean View Apartment"),
    PropertyRef("2", "Modern Downtown Studio")
  ]

  const InitialImages: seq<PropertyImage> := [
    PropertyImage("1", "1", "Luxury Ocean View Apartment",
                  "https://images.unsplash.com/photo-1522708323590-d24dbb6b0267?ixlib=rb-4.0.3&ixid=M3wxMjA3fDB8MHxzZWFyY2h8NHx8YXBhcnRtZW50fGVufDB8fDB8fHww&auto=format&fit=crop&w=500&q=60",
                  "Living Room with Ocean View", true, "2023-08-15"),
    PropertyImage("2", "1", "Luxury Ocean View Apartment",
                  "https://images.unsplash.com/photo-1560448204-e02f11c3d0e2?ixlib=rb-4.0.3&ixid=M3wxMjA3fDB8MHxzZWFyY2h8MTd8fGtpdGNoZW58ZW58MHx8MHx8fDA%3D&auto=format&fit=crop&w=500&q=60",
                  "Modern Kitchen", false, "2023-08-15")
  ]

  /** The form after a reset. */
  const EmptyForm: ImageForm := ImageForm("", "", false)

  function PropertyRefId(p: PropertyRef): string
  {
    p.id
  }

  function ImageId(i: PropertyImage): string
  {
    i.id
  }

  /** `files.map(...)`: one image per stamp, that is per file, in order. */
  function NewImages(stamps: seq<Stamp>, form: ImageForm, property: PropertyRef): (r: seq<PropertyImage>)
    ensures |r| == |stamps|
    ensures forall i :: 0 <= i < |stamps| ==>
      && r[i].id == stamps[i].id && r[i].imageUrl == stamps[i].objectUrl && r[i].uploadedAt == stamps[i].day
      && r[i].propertyId == form.propertyId && r[i].caption == form.caption && r[i].isPrimary == form.isPrimary
      && r[i].propertyName == property.title
  {
    if stamps == [] then []
    else
      [PropertyImage(stamps[0].id, form.propertyId, property.title, stamps[0].objectUrl, form.caption, form.isPrimary, stamps[0].day)]
      + NewImages(stamps[1..], form, property)
  }

  /** The list after a submit, or `None` when the property lookup fails or no file is chosen.
      `stamps` holds what the browser supplies for each chosen file. */
  function Submitted(images: seq<PropertyImage>, files: seq<File>, form: ImageForm, stamps: seq<Stamp>,
                     properties: seq<PropertyRef>): (r: Option<seq<PropertyImage>>)
    requires |stamps| == |files|
    ensures r.None? <==> FreshId(properties, PropertyRefId, form.propertyId) || files == []
    ensures r.Some? ==> |r.value| == |images| + |files| && r.value[..|images|] == images
    ensures r.Some? ==>
      exists k :: 0 <= k < |properties| && properties[k].id == form.propertyId
                  && (forall j :: 0 <= j < k ==> properties[j].id != form.propertyId)
                  && r.value[|images|..] == NewImages(stamps, form, properties[k])
  {
    match FindById(properties, PropertyRefId, form.propertyId)
    case None => None
    case Some(property) =>
      if |files| == 0 then None
      else Some(images + NewImages(stamps, form, property))
  }

  /** Distinct, fresh stamp identifiers keep the image identifiers unique after a submit. */
  lemma SubmitKeepsIdsUnique(images: seq<PropertyImage>, files: seq<File>, form: ImageForm, stamps: seq<Stamp>,
                             properties: seq<PropertyRef>)
    requires |stamps| == |files|
    requires UniqueIds(images, ImageId)
    requires forall i, j :: 0 <= i < j < |stamps| ==> stamps[i].id != stamps[j].id
    requires forall i :: 0 <= i < |stamps| ==> FreshId(images, ImageId, stamps[i].id)
    requires Submitted(images, files, form, stamps, properties).Some?
    ensures UniqueIds(Submitted(images, files, form, stamps, properties).value, ImageId)
  {
    var property := FindById(properties, PropertyRefId, form.propertyId).value;
    var added := NewImages(stamps, form, property);
    AppendKeepsUnique(images, added, ImageId);
  }

  /** Removing the identifier of one image of a submit leaves the earlier images alone, provided
      none of them carried that identifier. */
  lemma RemoveNewImage(images: seq<PropertyImage>, files: seq<File>, form: ImageForm, stamps: seq<Stamp>,
                       properties: seq<PropertyRef>, i: nat)
    requires |stamps| == |files| && i < |stamps|
    requires FreshId(images, ImageId, stamps[i].id)
    requires Submitted(images, files, form, stamps, properties).Some?
    ensures var added := Submitted(images, files, form, stamps, properties).value[|images|..];
      RemoveById(Submitted(images, files, form, stamps, properties).value, ImageId, stamps[i].id)
        == images + RemoveById(added, ImageId, stamps[i].id)
  {
    var r := Submitted(images, files, form, stamps, properties).value;
    assert r == images + r[|images|..];
    AppendThenRemove(images, r[|images|..], ImageId, stamps[i].id);
  }

  /** The page's state: the image list, the chosen files and the form. */
  class ImagesPage {
    var images: seq<PropertyImage>
    var files: seq<File>
    var form: ImageForm

    constructor ()
      ensures images == InitialImages && files == [] && form == EmptyForm
    {
      images := InitialImages;
      files := [];
      form := EmptyForm;
    }

    /** `handleFileChange`: the upload widget's `onChange` replaces the chosen files. */
    method HandleFileChange(newFiles: seq<File>)
      modifies this
      ensures files == newFiles && images == old(images) && form == old(form)
    {
      files := newFiles;
    }

    /** `handleSubmit`; `stamps[i]` is what the browser supplies for `files[i]`. */
    method HandleSubmit(stamps: seq<Stamp>)
      requires |stamps| == |files|
      modifies this
      ensures match Submitted(old(images), old(files), old(form), stamps, KnownProperties)
        case None => images == old(images) && files == old(files) && form == old(form)
        case Some(updated) => images == updated && files == [] && form == EmptyForm
    {
      var selected := FindById(KnownProperties, PropertyRefId, form.propertyId);
      if selected.None? || |files| == 0 {
        return;
      }
      var newImages := NewImages(stamps, form, selected.value);
      images := images + newImages;
      form := EmptyForm;
      files := [];
    }

    /** `removeImage(id)`. */
    method RemoveImage(id: string)
      modifies this
      ensures images == RemoveById(old(images), ImageId, id)
      ensures files == old(files) && form == old(form)
    {
      images := RemoveById(images, ImageId, id);
    }
  }
}
