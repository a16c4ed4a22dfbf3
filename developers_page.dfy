/**
 * `DevelopersPage`: the in-memory list of developers and the add form.
 * Adding is total: the form record is copied under a fresh identifier and
 * appended. The identifier (`Date.now().toString()`) is a parameter.
 */
module Developers {
  import opened Lists

  datatype Developer = Developer(id: string, name: string, email: string, phone: string, description: string)

  /** The add dialog's form: every field of a developer but its identifier. */
  datatype DeveloperForm = DeveloperForm(name: string, email: string, phone: string, description: string)

  const InitialDevelopers: seq<Developer> := [
    Developer("1", "Skyline Developers", "contact@skyline.dev", "123-456-7890",
              "Luxury residential property developer with over 20 years of experience"),
    Developer("2", "Urban Constructions", "info@urbanconstructions.com", "987-654-3210",
              "Specializing in modern urban developments and commercial properties")
  ]

  /** The form after a reset: four empty strings. */
  const EmptyForm: DeveloperForm := DeveloperForm("", "", "", "")

  function DeveloperId(d: Developer): string
  {
    d.id
  }

  /** The form fields a developer record carries. */
  function FormOf(d: Developer): DeveloperForm
  {
    DeveloperForm(d.name, d.email, d.phone, d.description)
  }

  /** `{ id, ...formData }`. */
  function NewDeveloper(id: string, form: DeveloperForm): (d: Developer)
    ensures d.id == id && FormOf(d) == form
  {
    Developer(id, form.name, form.email, form.phone, form.description)
  }

  /** `[...prev, newDeveloper]`: the list after a submit. */
  function Submitted(developers: seq<Developer>, form: DeveloperForm, id: string): (r: seq<Developer>)
    ensures |r| == |developers| + 1
    ensures r[..|developers|] == developers
    ensures r[|developers|].id == id && FormOf(r[|developers|]) == form
  {
    developers + [NewDeveloper(id, form)]
  }

  /** The seed list has distinct identifiers. */
  lemma InitialIdsUnique()
    ensures UniqueIds(InitialDevelopers, DeveloperId)
  {
  }

  /** A submit under an identifier no developer carries, followed by removing that identifier,
      gives back the list as it was. */
  lemma SubmitThenRemove(developers: seq<Developer>, form: DeveloperForm, id: string)
    requires FreshId(developers, DeveloperId, id)
    ensures RemoveById(Submitted(developers, form, id), DeveloperId, id) == developers
  {
    AddThenRemove(developers, NewDeveloper(id, form), DeveloperId);
  }

  /** A submit under a fresh identifier keeps the identifiers unique. */
  lemma SubmitKeepsIdsUnique(developers: seq<Developer>, form: DeveloperForm, id: string)
    requires UniqueIds(developers, DeveloperId) && FreshId(developers, DeveloperId, id)
    ensures UniqueIds(Submitted(developers, form, id), DeveloperId)
  {
    AppendKeepsUnique(developers, [NewDeveloper(id, form)], DeveloperId);
  }

  /** The page's state: the developer list and the form. */
  class DevelopersPage {
    var developers: seq<Developer>
    var form: DeveloperForm

    constructor ()
      ensures developers == InitialDevelopers && form == EmptyForm
    {
      developers := InitialDevelopers;
      form := EmptyForm;
    }

    /** `handleSubmit`, with `now` standing for `Date.now().toString()`. */
    method HandleSubmit(now: string)
      modifies this
      ensures developers == Submitted(old(developers), old(form), now)
      ensures form == EmptyForm
    {
      var newDeveloper := NewDeveloper(now, form);
      developers := developers + [newDeveloper];
      form := EmptyForm;
    }

    /** `removeDeveloper(id)`. */
    method RemoveDeveloper(id: string)
      modifies this
      ensures developers == RemoveById(old(developers), DeveloperId, id)
      ensures form == old(form)
    {
      developers := RemoveById(developers, DeveloperId, id);
    }
  }
}
