/** The real-estate projects admin page: the add/edit form, its reset
    defaults, the edit-versus-add dispatch on submit, the star button that
    toggles `featured`, and the number inputs for bedrooms and bathrooms. */
module ProjectsPage {
  import opened Optional
  import Text
  import Collection
  import Projects
  import AdminStore

  /** The record being edited (`null` when adding) and the form contents, a
      partial record. */
  datatype ProjectForm = ProjectForm(editing: Option<Projects.Project>, data: Projects.ProjectPatch)

  /** `{ ...a, ...b }` on two partial records: each key present in `b` wins. */
  function PatchOver(a: Projects.ProjectPatch, b: Projects.ProjectPatch): Projects.ProjectPatch {
    Projects.ProjectPatch(
      if b.id.Some? then b.id else a.id,
      if b.title.Some? then b.title else a.title,
      if b.description.Some? then b.description else a.description,
      if b.fullDescription.Some? then b.fullDescription else a.fullDescription,
      if b.category.Some? then b.category else a.category,
      if b.status.Some? then b.status else a.status,
      if b.location.Some? then b.location else a.location,
      if b.image.Some? then b.image else a.image,
      if b.images.Some? then b.images else a.images,
      if b.featured.Some? then b.featured else a.featured,
      if b.specifications.Some? then b.specifications else a.specifications)
  }

  /** Spreading is associative: merging `a` and then `b` over a record is
      merging the combined patch. */
  lemma MergePatchOver(p: Projects.Project, a: Projects.ProjectPatch, b: Projects.ProjectPatch)
    ensures Projects.Merge(p, PatchOver(a, b)) == Projects.Merge(Projects.Merge(p, a), b)
  {
  }

  /** Every key but `id` is present: what the add branch's cast to
      `Omit<Project, "id">` takes for granted. */
  predicate Complete(u: Projects.ProjectPatch) {
    && u.title.Some? && u.description.Some? && u.fullDescription.Some?
    && u.category.Some? && u.status.Some? && u.location.Some? && u.image.Some?
    && u.images.Some? && u.featured.Some? && u.specifications.Some?
  }

  /** The cast itself: the form contents read as a record. The id is a
      placeholder, since `addProject` writes its own. */
  function AsRecord(u: Projects.ProjectPatch): (p: Projects.Project)
    requires Complete(u)
    ensures Projects.Merge(p, u) == p
    ensures forall q :: Projects.Merge(q, u).(id := p.id) == p
  {
    Projects.Project(u.id.GetOr(""), u.title.value, u.description.value, u.fullDescription.value,
      u.category.value, u.status.value, u.location.value, u.image.value, u.images.value,
      u.featured.value, u.specifications.value)
  }

  const BlankSpecs := Projects.Specs("", None, None, None, "")

  /** `resetForm()`: not editing, and the defaults: residential, completed,
      not featured, empty strings and images, no counts. */
  function ResetForm(): (r: ProjectForm)
    ensures r.editing.None? && Complete(r.data) && r.data.id.None?
    ensures AsRecord(r.data) == Projects.Project("", "", "", "", Projects.Residential, Projects.Completed,
      "", "", [], false, BlankSpecs)
  {
    ProjectForm(None, Projects.ProjectPatch(None, Some(""), Some(""), Some(""), Some(Projects.Residential),
      Some(Projects.Completed), Some(""), Some(""), Some([]), Some(false), Some(BlankSpecs)))
  }

  /** `handleEdit(project)`: edit that record, with the whole record as the
      form contents. */
  function HandleEdit(p: Projects.Project): (r: ProjectForm)
    ensures r.editing == Some(p)
    ensures forall q :: Projects.Merge(q, r.data) == p
  {
    ProjectForm(Some(p), Projects.AsPatch(p))
  }

  /** A form field edit `{ ...formData, key: value }`: the keys of `change`
      overwrite the form contents. */
  function Change(f: ProjectForm, change: Projects.ProjectPatch): (r: ProjectForm)
    ensures r.editing == f.editing
    ensures Complete(f.data) ==> Complete(r.data)
    ensures change.id.None? ==> r.data.id == f.data.id
    ensures forall q :: Projects.Merge(q, r.data) == Projects.Merge(Projects.Merge(q, f.data), change)
  {
    forall q ensures Projects.Merge(q, PatchOver(f.data, change)) == Projects.Merge(Projects.Merge(q, f.data), change) {
      MergePatchOver(q, f.data, change);
    }
    f.(data := PatchOver(f.data, change))
  }

  /** `parseInt(value) || undefined`: a count that does not parse, or parses
      to 0, is stored as absent. */
  function StoredCount(input: string): (r: Option<int>)
    ensures r != Some(0)
    ensures r.None? <==> Text.ParseInt(input).None? || Text.ParseInt(input) == Some(0)
    ensures r.Some? ==> r == Text.ParseInt(input)
  {
    var v := Text.ParseInt(input);
    if v.None? || v == Some(0) then None else v
  }

  /** A numeral typed into a count field is stored as that number, except
      that 0 is stored as absent. */
  lemma StoredCountDecimal(n: nat)
    ensures StoredCount(Text.Decimal(n)) == if n == 0 then None else Some(n)
  {
    Text.ParseIntDecimal(n);
  }

  /** The bedrooms input: only `specifications.bedrooms` changes. Every
      form the page can reach (`ResetForm`, `HandleEdit`) has specifications. */
  function SetBedrooms(f: ProjectForm, input: string): (r: ProjectForm)
    requires f.data.specifications.Some?
    ensures r.data.specifications.Some?
    ensures r.data.specifications.value == f.data.specifications.value.(bedrooms := StoredCount(input))
    ensures r.data.(specifications := f.data.specifications) == f.data && r.editing == f.editing
  {
    Change(f, Projects.NoChanges.(specifications :=
      Some(f.data.specifications.value.(bedrooms := StoredCount(input)))))
  }

  /** The bathrooms input: only `specifications.bathrooms` changes. */
  function SetBathrooms(f: ProjectForm, input: string): (r: ProjectForm)
    requires f.data.specifications.Some?
    ensures r.data.specifications.Some?
    ensures r.data.specifications.value == f.data.specifications.value.(bathrooms := StoredCount(input))
    ensures r.data.(specifications := f.data.specifications) == f.data && r.editing == f.editing
  {
    Change(f, Projects.NoChanges.(specifications :=
      Some(f.data.specifications.value.(bathrooms := StoredCount(input)))))
  }

  datatype Submitted = Submitted(state: AdminStore.State, form: ProjectForm)

  /** `handleSubmit`: when editing, update the edited record's id with the
      form contents; otherwise add the form contents as a new record; then
      reset the form. */
  function HandleSubmit(s: AdminStore.State, f: ProjectForm, now: nat): (r: Submitted)
    requires f.editing.Some? || Complete(f.data)
    ensures r.form == ResetForm()
    ensures r.state.(projects := s.projects) == s
    ensures f.editing.Some? ==> |r.state.projects| == |s.projects|
    ensures f.editing.Some? ==> forall i :: 0 <= i < |s.projects| && s.projects[i].id != f.editing.value.id ==>
      r.state.projects[i] == s.projects[i]
    ensures f.editing.Some? ==> forall i :: 0 <= i < |s.projects| && s.projects[i].id == f.editing.value.id ==>
      r.state.projects[i] == Projects.Merge(s.projects[i], f.data)
    ensures f.editing.None? ==> |r.state.projects| == |s.projects| + 1
    ensures f.editing.None? ==> r.state.projects[..|s.projects|] == s.projects
    ensures f.editing.None? ==> r.state.projects[|s.projects|] == AsRecord(f.data).(id := Text.Decimal(now))
  {
    match f.editing
    case Some(e) => Submitted(AdminStore.UpdateProject(s, e.id, f.data), ResetForm())
    case None => Submitted(AdminStore.AddProject(s, AsRecord(f.data), now), ResetForm())
  }

  /** Editing a record and submitting without changes leaves the state as it
      was, when ids are unique. */
  lemma EditSubmitUnchanged(s: AdminStore.State, i: int, now: nat)
    requires Collection.UniqueIds(s.projects, Projects.IdOf)
    requires 0 <= i < |s.projects|
    ensures HandleSubmit(s, HandleEdit(s.projects[i]), now).state == s
  {
    var p := s.projects[i];
    var r := HandleSubmit(s, HandleEdit(p), now).state;
    forall k | 0 <= k < |s.projects| ensures r.projects[k] == s.projects[k] {
      if k != i {
        assert Projects.IdOf(s.projects[k]) != Projects.IdOf(p);
      }
    }
  }

  /** Editing a record, changing some fields (not the id) and submitting
      turns the edited record into the old one with exactly those fields
      replaced. */
  lemma EditSubmitApplies(s: AdminStore.State, p: Projects.Project, change: Projects.ProjectPatch, now: nat)
    requires change.id.None?
    ensures var r := HandleSubmit(s, Change(HandleEdit(p), change), now).state;
      forall i :: 0 <= i < |s.projects| && s.projects[i].id == p.id ==>
        r.projects[i] == Projects.Merge(p, change)
  {
    var u := Change(HandleEdit(p), change).data;
    forall q ensures Projects.Merge(q, u) == Projects.Merge(p, change) {
      MergePatchOver(q, Projects.AsPatch(p), change);
    }
  }

  /** Adding from a freshly reset form appends the default record under the
      new id. */
  lemma AddBlank(s: AdminStore.State, now: nat)
    ensures HandleSubmit(s, ResetForm(), now).state.projects ==
      s.projects + [Projects.Project(Text.Decimal(now), "", "", "", Projects.Residential, Projects.Completed,
        "", "", [], false, BlankSpecs)]
  {
  }

  /** Every form reachable from a reset by field edits can be added. */
  lemma EditsKeepAddable(change: Projects.ProjectPatch, input: string)
    ensures Complete(Change(ResetForm(), change).data)
    ensures Complete(SetBedrooms(ResetForm(), input).data)
    ensures Complete(SetBathrooms(ResetForm(), input).data)
  {
  }

  /** The star button: `updateProject(project.id, { featured: !project.featured })`. */
  function ToggleFeatured(s: AdminStore.State, p: Projects.Project): (r: AdminStore.State)
    ensures |r.projects| == |s.projects|
    ensures forall i :: 0 <= i < |s.projects| && s.projects[i].id == p.id ==>
      r.projects[i] == s.projects[i].(featured := !p.featured)
    ensures forall i :: 0 <= i < |s.projects| && s.projects[i].id != p.id ==> r.projects[i] == s.projects[i]
    ensures r.(projects := s.projects) == s
  {
    forall q ensures Projects.Merge(q, Projects.FeaturedPatch(!p.featured)) == q.(featured := !p.featured) {
      Projects.MergeFeatured(q, !p.featured);
    }
    AdminStore.UpdateProject(s, p.id, Projects.FeaturedPatch(!p.featured))
  }

  /** With unique ids, pressing a row's star twice (the second time on the
      re-rendered row) restores the state. */
  lemma ToggleFeaturedTwice(s: AdminStore.State, i: int)
    requires Collection.UniqueIds(s.projects, Projects.IdOf)
    requires 0 <= i < |s.projects|
    ensures ToggleFeatured(ToggleFeatured(s, s.projects[i]), ToggleFeatured(s, s.projects[i]).projects[i]) == s
  {
    var p := s.projects[i];
    var once := ToggleFeatured(s, p);
    var twice := ToggleFeatured(once, once.projects[i]);
    forall k | 0 <= k < |s.projects| ensures twice.projects[k] == s.projects[k] {
      if k != i {
        assert Projects.IdOf(s.projects[k]) != Projects.IdOf(p);
      }
    }
  }
}
