/**
 * `PropertiesPage`: the in-memory list of properties and the add form. A
 * submit looks the form's project up in the page's fixed project list; when
 * no project carries that identifier nothing happens, otherwise the form is
 * copied under a fresh identifier together with the project's name.
 */
module Properties {
  import opened Lists

  /** The page's own view of a project: identifier and display name. */
  datatype ProjectRef = ProjectRef(id: string, name: string)

  /** The numeric fields are integers here; `status` is the string the select produced
      (declared values "Available", "Reserved", "Sold"); `imageUrl` is optional. */
  datatype Property = Property(id: string, title: string, description: string, propertyType: string,
                               bedrooms: int, bathrooms: int, area: int, price: int,
                               projectId: string, projectName: string, address: string, status: string,
                               imageUrl: Option<string>)

  datatype PropertyForm = PropertyForm(title: string, description: string, propertyType: string,
                                       bedrooms: int, bathrooms: int, area: int, price: int,
                                       projectId: string, address: string, status: string, imageUrl: string)

  const KnownProjects: seq<ProjectRef> := [ProjectRef("1", "Seaside Heights"), ProjectRef("2", "Downtown Plaza")]

  /** The placeholder picture the form starts with. */
  const DefaultImageUrl: string :=
    "https://images.unsplash.com/photo-1522708323590-d24dbb6b0267?ixlib=rb-4.0.3&ixid=M3wxMjA3fDB8MHxzZWFyY2h8NHx8YXBhcnRtZW50fGVufDB8fDB8fHww&auto=format&fit=crop&w=500&q=60"

  const InitialProperties: seq<Property> := [
    Property("1", "Luxury Ocean View Apartment", "Spacious apartment with stunning ocean views and modern finishes",
             "Apartment", 3, 2, 1200, 850000, "1", "Seaside Heights", "123 Coastal Drive, Miami, FL", "Available",
             Some(DefaultImageUrl)),
    Property("2", "Modern Downtown Studio", "Contemporary studio apartment in the heart of downtown",
             "Studio", 0, 1, 650, 425000, "2", "Downtown Plaza", "456 Urban Street, New York, NY", "Reserved",
             Some("https://images.unsplash.com/photo-1493809842364-78817add7ffb?ixlib=rb-4.0.3&ixid=M3wxMjA3fDB8MHxzZWFyY2h8MTZ8fGFwYXJ0bWVudHxlbnwwfHwwfHx8MA%3D%3D&auto=format&fit=crop&w=500&q=60"))
  ]

  /** The form after a reset: empty texts, zero numbers, status "Available", the placeholder picture. */
  const EmptyForm: PropertyForm := PropertyForm("", "", "", 0, 0, 0, 0, "", "", "Available", DefaultImageUrl)

  function ProjectRefId(p: ProjectRef): string
  {
    p.id
  }

  function PropertyId(p: Property): string
  {
    p.id
  }

  /** The form fields a property record carries, when it carries a picture. */
  function FormOf(p: Property): PropertyForm
    requires p.imageUrl.Some?
  {
    PropertyForm(p.title, p.description, p.propertyType, p.bedrooms, p.bathrooms, p.area, p.price,
                 p.projectId, p.address, p.status, p.imageUrl.value)
  }

  /** `{ id, ...formData, projectName: selectedProject.name }`. */
  function NewProperty(id: string, form: PropertyForm, project: ProjectRef): (p: Property)
    ensures p.id == id && p.projectName == project.name
    ensures p.imageUrl.Some? && FormOf(p) == form
  {
    Property(id, form.title, form.description, form.propertyType, form.bedrooms, form.bathrooms, form.area, form.price,
             form.projectId, project.name, form.address, form.status, Some(form.imageUrl))
  }

  /** The list after a submit, or `None` when the project lookup fails and the handler returns early. */
  function Submitted(properties: seq<Property>, form: PropertyForm, id: string, projects: seq<ProjectRef>): (r: Option<seq<Property>>)
    ensures r.None? <==> FreshId(projects, ProjectRefId, form.projectId)
    ensures r.Some? ==> |r.value| == |properties| + 1 && r.value[..|properties|] == properties
    ensures r.Some? ==>
      var p := r.value[|properties|];
      && p.id == id && p.imageUrl.Some? && FormOf(p) == form
      && exists i :: 0 <= i < |projects| && projects[i].id == form.projectId && p.projectName == projects[i].name
                     && forall j :: 0 <= j < i ==> projects[j].id != form.projectId
  {
    match FindById(projects, ProjectRefId, form.projectId)
    case None => None
    case Some(project) => Some(properties + [NewProperty(id, form, project)])
  }

  const FallbackColor: string := "bg-gray-100 text-gray-700"

  /** `getStatusColor`. */
  function StatusColor(status: string): (c: string)
    ensures c != FallbackColor <==> status in {"Available", "Reserved", "Sold"}
  {
    match status
    case "Available" => "bg-green-100 text-green-700"
    case "Reserved" => "bg-amber-100 text-amber-700"
    case "Sold" => "bg-blue-100 text-blue-700"
    case _ => FallbackColor
  }

  /** The three declared statuses get three different colours. */
  lemma StatusColorsDistinct()
    ensures StatusColor("Available") != StatusColor("Reserved")
    ensures StatusColor("Available") != StatusColor("Sold")
    ensures StatusColor("Reserved") != StatusColor("Sold")
  {
  }

  /** The seed list has distinct identifiers. */
  lemma InitialIdsUnique()
    ensures UniqueIds(InitialProperties, PropertyId)
  {
  }

  /** A successful submit under a fresh identifier, then removing it, gives back the old list. */
  lemma SubmitThenRemove(properties: seq<Property>, form: PropertyForm, id: string, projects: seq<ProjectRef>)
    requires FreshId(properties, PropertyId, id)
    requires Submitted(properties, form, id, projects).Some?
    ensures RemoveById(Submitted(properties, form, id, projects).value, PropertyId, id) == properties
  {
    var project := FindById(projects, ProjectRefId, form.projectId).value;
    AddThenRemove(properties, NewProperty(id, form, project), PropertyId);
  }

  /** A successful submit under a fresh identifier keeps the identifiers unique. */
  lemma SubmitKeepsIdsUnique(properties: seq<Property>, form: PropertyForm, id: string, projects: seq<ProjectRef>)
    requires UniqueIds(properties, PropertyId) && FreshId(properties, PropertyId, id)
    requires Submitted(properties, form, id, projects).Some?
    ensures UniqueIds(Submitted(properties, form, id, projects).value, PropertyId)
  {
    var project := FindById(projects, ProjectRefId, form.projectId).value;
    AppendKeepsUnique(properties, [NewProperty(id, form, project)], PropertyId);
  }

  /** The page's state: the property list and the form. */
  class PropertiesPage {
    var properties: seq<Property>
    var form: PropertyForm

    constructor ()
      ensures properties == InitialProperties && form == EmptyForm
    {
      properties := InitialProperties;
      form := EmptyForm;
    }

    /** `handleSubmit`, with `now` standing for `Date.now().toString()`. */
    method HandleSubmit(now: string)
      modifies this
      ensures match Submitted(old(properties), old(form), now, KnownProjects)
        case None => properties == old(properties) && form == old(form)
        case Some(updated) => properties == updated && form == EmptyForm
    {
      var selected := FindById(KnownProjects, ProjectRefId, form.projectId);
      if selected.None? {
        return;
      }
      var newProperty := NewProperty(now, form, selected.value);
      properties := properties + [newProperty];
      form := EmptyForm;
    }

    /** `removeProperty(id)`. */
    method RemoveProperty(id: string)
      modifies this
      ensures properties == RemoveById(old(properties), PropertyId, id)
      ensures form == old(form)
    {
      properties := RemoveById(properties, PropertyId, id);
    }
  }
}
