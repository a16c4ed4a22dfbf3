/**
 * `ProjectsPage`: the in-memory list of projects and the add form. A submit
 * looks the form's developer up in the page's fixed developer list; when no
 * developer carries that identifier nothing happens, otherwise the form is
 * copied under a fresh identifier together with the developer's name.
 */
module Projects {
  import opened Lists

  /** The page's own view of a developer: identifier and display name. */
  datatype DeveloperRef = DeveloperRef(id: string, name: string)

  /** `status` is kept as the string the select produced; the declared values are
      "Planning", "In Progress" and "Completed". */
  datatype Project = Project(id: string, name: string, location: string, description: string,
                             developerId: string, developerName: string, startDate: string, status: string)

  datatype ProjectForm = ProjectForm(name: string, location: string, description: string,
                                     developerId: string, startDate: string, status: string)

  const KnownDevelopers: seq<DeveloperRef> := [DeveloperRef("1", "Skyline Developers"), DeveloperRef("2", "Urban Constructions")]

  const InitialProjects: seq<Project> := [
    Project("1", "Seaside Heights", "Miami, Florida", "Luxury beachfront apartments with premium amenities",
            "1", "Skyline Developers", "2023-06-15", "In Progress"),
    Project("2", "Downtown Plaza", "New York, NY", "Mixed-use development with retail and residential units",
            "2", "Urban Constructions", "2022-11-03", "Planning")
  ]

  /** The form after a reset: empty strings, status "Planning". */
  const EmptyForm: ProjectForm := ProjectForm("", "", "", "", "", "Planning")

  function DeveloperRefId(d: DeveloperRef): string
  {
    d.id
  }

  function ProjectId(p: Project): string
  {
    p.id
  }

  /** The form fields a project record carries. */
  function FormOf(p: Project): ProjectForm
  {
    ProjectForm(p.name, p.location, p.description, p.developerId, p.startDate, p.status)
  }

  /** `{ id, ...formData, developerName: selectedDeveloper.name }`. */
  function NewProject(id: string, form: ProjectForm, developer: DeveloperRef): (p: Project)
    ensures p.id == id && FormOf(p) == form && p.developerName == developer.name
  {
    Project(id, form.name, form.location, form.description, form.developerId, developer.name, form.startDate, form.status)
  }

  /** The list after a submit, or `None` when the developer lookup fails and the handler returns early. */
  function Submitted(projects: seq<Project>, form: ProjectForm, id: string, developers: seq<DeveloperRef>): (r: Option<seq<Project>>)
    ensures r.None? <==> FreshId(developers, DeveloperRefId, form.developerId)
    ensures r.Some? ==> |r.value| == |projects| + 1 && r.value[..|projects|] == projects
    ensures r.Some? ==>
      var p := r.value[|projects|];
      && p.id == id && FormOf(p) == form
      && exists i :: 0 <= i < |developers| && developers[i].id == form.developerId && p.developerName == developers[i].name
                     && forall j :: 0 <= j < i ==> developers[j].id != form.developerId
  {
    match FindById(developers, DeveloperRefId, form.developerId)
    case None => None
    case Some(developer) => Some(projects + [NewProject(id, form, developer)])
  }

  /** The badge colour for every status the select offers, and grey for anything else. */
  const FallbackColor: string := "bg-gray-100 text-gray-700"

  /** `getStatusColor`. */
  function StatusColor(status: string): (c: string)
    ensures c != FallbackColor <==> status in {"Planning", "In Progress", "Completed"}
  {
    match status
    case "Planning" => "bg-amber-100 text-amber-700"
    case "In Progress" => "bg-blue-100 text-blue-700"
    case "Completed" => "bg-green-100 text-green-700"
    case _ => FallbackColor
  }

  /** The three declared statuses get three different colours. */
  lemma StatusColorsDistinct()
    ensures StatusColor("Planning") != StatusColor("In Progress")
    ensures StatusColor("Planning") != StatusColor("Completed")
    ensures StatusColor("In Progress") != StatusColor("Completed")
  {
  }

  /** The seed list has distinct identifiers. */
  lemma InitialIdsUnique()
    ensures UniqueIds(InitialProjects, ProjectId)
  {
  }

  /** A successful submit under a fresh identifier, then removing it, gives back the old list. */
  lemma SubmitThenRemove(projects: seq<Project>, form: ProjectForm, id: string, developers: seq<DeveloperRef>)
    requires FreshId(projects, ProjectId, id)
    requires Submitted(projects, form, id, developers).Some?
    ensures RemoveById(Submitted(projects, form, id, developers).value, ProjectId, id) == projects
  {
    var developer := FindById(developers, DeveloperRefId, form.developerId).value;
    AddThenRemove(projects, NewProject(id, form, developer), ProjectId);
  }

  /** A successful submit under a fresh identifier keeps the identifiers unique. */
  lemma SubmitKeepsIdsUnique(projects: seq<Project>, form: ProjectForm, id: string, developers: seq<DeveloperRef>)
    requires UniqueIds(projects, ProjectId) && FreshId(projects, ProjectId, id)
    requires Submitted(projects, form, id, developers).Some?
    ensures UniqueIds(Submitted(projects, form, id, developers).value, ProjectId)
  {
    var developer := FindById(developers, DeveloperRefId, form.developerId).value;
    AppendKeepsUnique(projects, [NewProject(id, form, developer)], ProjectId);
  }

  /** The page's state: the project list and the form. */
  class ProjectsPage {
    var projects: seq<Project>
    var form: ProjectForm

    constructor ()
      ensures projects == InitialProjects && form == EmptyForm
    {
      projects := InitialProjects;
      form := EmptyForm;
    }

    /** `handleSubmit`, with `now` standing for `Date.now().toString()`. */
    method HandleSubmit(now: string)
      modifies this
      ensures match Submitted(old(projects), old(form), now, KnownDevelopers)
        case None => projects == old(projects) && form == old(form)
        case Some(updated) => projects == updated && form == EmptyForm
    {
      var selected := FindById(KnownDevelopers, DeveloperRefId, form.developerId);
      if selected.None? {
        return;
      }
      var newProject := NewProject(now, form, selected.value);
      projects := projects + [newProject];
      form := EmptyForm;
    }

    /** `removeProject(id)`. */
    method RemoveProject(id: string)
      modifies this
      ensures projects == RemoveById(old(projects), ProjectId, id)
      ensures form == old(form)
    {
      projects := RemoveById(projects, ProjectId, id);
    }
  }
}
