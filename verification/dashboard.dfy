/** The projects page (src/pages/Dashboard.jsx): the search over the loaded
    projects, and the data a new project is created with. */
module Dashboard {
  import opened Wrappers
  import opened Domain
  import opened Text
  import opened Seqs
  import R = AppReducer

  /** The search test for an already lower-cased term: the lower-cased name
      includes it, or there is a description and its lower-cased text does. */
  function ProjectMatches(needle: string): Project -> bool {
    (p: Project) =>
      Contains(Lower(p.name), needle)
      || (p.description.Some? && Contains(Lower(p.description.value), needle))
  }

  /** `filteredProjects`: the projects the search term selects, in the store's
      order. */
  function FilteredProjects(projects: seq<Project>, term: string): (r: seq<Project>)
    ensures IsSubsequence(r, projects)
    ensures forall p :: p in r <==> (p in projects &&
      (Contains(Lower(p.name), Lower(term))
       || (p.description.Some? && Contains(Lower(p.description.value), Lower(term)))))
    ensures forall p ::
              multiset(r)[p] == if (|| Contains(Lower(p.name), Lower(term))
                                    || (p.description.Some? && Contains(Lower(p.description.value), Lower(term))))
                                then multiset(projects)[p] else 0
  {
    Filter(ProjectMatches(Lower(term)), projects)
  }

  /** A project is selected when the term occurs, at some position, in its
      lower-cased name or description. */
  lemma SelectedByOccurrence(projects: seq<Project>, term: string, p: Project)
    requires p in projects
    ensures p in FilteredProjects(projects, term) <==>
      (exists i: nat :: i <= |p.name| && OccursAt(Lower(p.name), Lower(term), i))
      || (p.description.Some? &&
          exists i: nat :: i <= |p.description.value| && OccursAt(Lower(p.description.value), Lower(term), i))
  {
    ContainsIffOccurs(Lower(p.name), Lower(term));
    if p.description.Some? {
      ContainsIffOccurs(Lower(p.description.value), Lower(term));
    }
  }

  /** An empty search shows every project. */
  lemma EmptyTermKeepsAll(projects: seq<Project>)
    ensures FilteredProjects(projects, "") == projects
  {
    forall p | p in projects ensures ProjectMatches(Lower(""))(p) {
      ContainsEmpty(Lower(p.name));
    }
    FilterKeepsAll(ProjectMatches(Lower("")), projects);
  }

  /** The search ignores the letter case of the term. */
  lemma CaseInsensitive(projects: seq<Project>, a: string, b: string)
    requires SameIgnoringCase(a, b)
    ensures FilteredProjects(projects, a) == FilteredProjects(projects, b)
  {
  }

  /** Typing the term in capitals finds the same projects. */
  lemma UpperCaseTermFindsSame(projects: seq<Project>, term: string)
    ensures FilteredProjects(projects, Upper(term)) == FilteredProjects(projects, term)
  {
    UpperKeepsLetters(term);
    CaseInsensitive(projects, Upper(term), term);
  }

  /** `newProject`: the create form's state. */
  datatype ProjectForm = ProjectForm(name: string, description: string)

  /** `projectData`: what `createProject` is sent. */
  datatype ProjectData = ProjectData(name: string, description: string, ownerId: Slot)

  /** `{ ...newProject, ownerId: state.user?.id }`: the form's fields, owned by
      whoever is signed in. */
  function NewProjectData(form: ProjectForm, user: Option<User>): (d: ProjectData)
    ensures d.name == form.name && d.description == form.description
    ensures user.Some? ==> d.ownerId == Num(user.value.id)
    ensures user.None? ==> d.ownerId == Undefined
  {
    ProjectData(form.name, form.description, IdOf(user))
  }

  /** Under impersonation the signed-in user is the impersonated one, so the
      project is owned by the impersonated user, not by the administrator. */
  lemma ImpersonatedUserOwnsNewProject(form: ProjectForm, admin: User, target: User)
    ensures var s := R.Reduce(R.InitialState.(user := Some(admin)), R.StartImpersonation(target));
      NewProjectData(form, s.user).ownerId == Num(target.id)
  {
  }
}
