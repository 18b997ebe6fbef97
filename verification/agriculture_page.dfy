/** The agriculture projects admin page: the same form, dispatch and star
    button as the real-estate page, over agriculture records. */
module AgriculturePage {
  import opened Optional
  import Text
  import Collection
  import AgricultureProjects
  import AdminStore

  datatype AgriForm = AgriForm(editing: Option<AgricultureProjects.AgriProject>, data: AgricultureProjects.AgriPatch)

  /** `{ ...a, ...b }` on two partial records. */
  function PatchOver(a: AgricultureProjects.AgriPatch, b: AgricultureProjects.AgriPatch): AgricultureProjects.AgriPatch {
    AgricultureProjects.AgriPatch(
      if b.id.Some? then b.id else a.id,
      if b.title.Some? then b.title else a.title,
      if b.description.Some? then b.description else a.description,
      if b.fullDescription.Some? then b.fullDescription else a.fullDescription,
      if b.kind.Some? then b.kind else a.kind,
      if b.status.Some? then b.status else a.status,
      if b.location.Some? then b.location else a.location,
      if b.image.Some? then b.image else a.image,
      if b.images.Some? then b.images else a.images,
      if b.featured.Some? then b.featured else a.featured,
      if b.specifications.Some? then b.specifications else a.specifications)
  }

  lemma MergePatchOver(p: AgricultureProjects.AgriProject, a: AgricultureProjects.AgriPatch, b: AgricultureProjects.AgriPatch)
    ensures AgricultureProjects.Merge(p, PatchOver(a, b)) ==
      AgricultureProjects.Merge(AgricultureProjects.Merge(p, a), b)
  {
  }

  /** Every key but `id` is present. */
  predicate Complete(u: AgricultureProjects.AgriPatch) {
    && u.title.Some? && u.description.Some? && u.fullDescription.Some?
    && u.kind.Some? && u.status.Some? && u.location.Some? && u.image.Some?
    && u.images.Some? && u.featured.Some? && u.specifications.Some?
  }

  /** The add branch's cast of the form contents to a record; the id is a
      placeholder that `addAgriProject` overwrites. */
  function AsRecord(u: AgricultureProjects.AgriPatch): (p: AgricultureProjects.AgriProject)
    requires Complete(u)
    ensures AgricultureProjects.Merge(p, u) == p
    ensures forall q :: AgricultureProjects.Merge(q, u).(id := p.id) == p
  {
    AgricultureProjects.AgriProject(u.id.GetOr(""), u.title.value, u.description.value,
      u.fullDescription.value, u.kind.value, u.status.value, u.location.value, u.image.value,
      u.images.value, u.featured.value, u.specifications.value)
  }

  /** The reset specifications: the optional keys present but empty. */
  const BlankSpecs := AgricultureProjects.AgriSpecs(Some(""), Some(""), Some(""), "")

  /** `resetForm()`: not editing; crop, active, not featured, empty strings,
      images and specifications. */
  function ResetForm(): (r: AgriForm)
    ensures r.editing.None? && Complete(r.data) && r.data.id.None?
    ensures AsRecord(r.data) == AgricultureProjects.AgriProject("", "", "", "", AgricultureProjects.Crop,
      AgricultureProjects.Active, "", "", [], false, BlankSpecs)
  {
    AgriForm(None, AgricultureProjects.AgriPatch(None, Some(""), Some(""), Some(""),
      Some(AgricultureProjects.Crop), Some(AgricultureProjects.Active), Some(""), Some(""), Some([]),
      Some(false), Some(BlankSpecs)))
  }

  /** `handleEdit(project)`. */
  function HandleEdit(p: AgricultureProjects.AgriProject): (r: AgriForm)
    ensures r.editing == Some(p)
    ensures forall q :: AgricultureProjects.Merge(q, r.data) == p
  {
    AgriForm(Some(p), AgricultureProjects.AsPatch(p))
  }

  /** A form field edit `{ ...formData, key: value }`. */
  function Change(f: AgriForm, change: AgricultureProjects.AgriPatch): (r: AgriForm)
    ensures r.editing == f.editing
    ensures Complete(f.data) ==> Complete(r.data)
    ensures change.id.None? ==> r.data.id == f.data.id
    ensures forall q :: AgricultureProjects.Merge(q, r.data) == AgricultureProjects.Merge(AgricultureProjects.Merge(q, f.data), change)
  {
    forall q ensures AgricultureProjects.Merge(q, PatchOver(f.data, change))
      == AgricultureProjects.Merge(AgricultureProjects.Merge(q, f.data), change) {
      MergePatchOver(q, f.data, change);
    }
    f.(data := PatchOver(f.data, change))
  }

  datatype Submitted = Submitted(state: AdminStore.State, form: AgriForm)

  /** `handleSubmit`: update the edited id, or add the form contents; then
      reset the form. */
  function HandleSubmit(s: AdminStore.State, f: AgriForm, now: nat): (r: Submitted)
    requires f.editing.Some? || Complete(f.data)
    ensures r.form == ResetForm()
    ensures r.state.(agriProjects := s.agriProjects) == s
    ensures f.editing.Some? ==> |r.state.agriProjects| == |s.agriProjects|
    ensures f.editing.Some? ==> forall i :: 0 <= i < |s.agriProjects| && s.agriProjects[i].id != f.editing.value.id ==>
      r.state.agriProjects[i] == s.agriProjects[i]
    ensures f.editing.Some? ==> forall i :: 0 <= i < |s.agriProjects| && s.agriProjects[i].id == f.editing.value.id ==>
      r.state.agriProjects[i] == AgricultureProjects.Merge(s.agriProjects[i], f.data)
    ensures f.editing.None? ==> |r.state.agriProjects| == |s.agriProjects| + 1
    ensures f.editing.None? ==> r.state.agriProjects[..|s.agriProjects|] == s.agriProjects
    ensures f.editing.None? ==> r.state.agriProjects[|s.agriProjects|] == AsRecord(f.data).(id := Text.Decimal(now))
  {
    match f.editing
    case Some(e) => Submitted(AdminStore.UpdateAgriProject(s, e.id, f.data), ResetForm())
    case None => Submitted(AdminStore.AddAgriProject(s, AsRecord(f.data), now), ResetForm())
  }

  /** Editing and submitting without changes leaves the state as it was,
      when ids are unique. */
  lemma EditSubmitUnchanged(s: AdminStore.State, i: int, now: nat)
    requires Collection.UniqueIds(s.agriProjects, AgricultureProjects.IdOf)
    requires 0 <= i < |s.agriProjects|
    ensures HandleSubmit(s, HandleEdit(s.agriProjects[i]), now).state == s
  {
    var p := s.agriProjects[i];
    var r := HandleSubmit(s, HandleEdit(p), now).state;
    forall k | 0 <= k < |s.agriProjects| ensures r.agriProjects[k] == s.agriProjects[k] {
      if k != i {
        assert AgricultureProjects.IdOf(s.agriProjects[k]) != AgricultureProjects.IdOf(p);
      }
    }
  }

  /** Editing, changing some fields (not the id) and submitting replaces
      exactly those fields of the edited record. */
  lemma EditSubmitApplies(s: AdminStore.State, p: AgricultureProjects.AgriProject,
      change: AgricultureProjects.AgriPatch, now: nat)
    requires change.id.None?
    ensures var r := HandleSubmit(s, Change(HandleEdit(p), change), now).state;
      forall i :: 0 <= i < |s.agriProjects| && s.agriProjects[i].id == p.id ==>
        r.agriProjects[i] == AgricultureProjects.Merge(p, change)
  {
    var u := Change(HandleEdit(p), change).data;
    forall q ensures AgricultureProjects.Merge(q, u) == AgricultureProjects.Merge(p, change) {
      MergePatchOver(q, AgricultureProjects.AsPatch(p), change);
    }
  }

  /** Adding from a freshly reset form appends the default record under the
      new id. */
  lemma AddBlank(s: AdminStore.State, now: nat)
    ensures HandleSubmit(s, ResetForm(), now).state.agriProjects ==
      s.agriProjects + [AgricultureProjects.AgriProject(Text.Decimal(now), "", "", "", AgricultureProjects.Crop,
        AgricultureProjects.Active, "", "", [], false, BlankSpecs)]
  {
  }

  /** The star button: `updateAgriProject(project.id, { featured: !project.featured })`. */
  function ToggleFeatured(s: AdminStore.State, p: AgricultureProjects.AgriProject): (r: AdminStore.State)
    ensures |r.agriProjects| == |s.agriProjects|
    ensures forall i :: 0 <= i < |s.agriProjects| && s.agriProjects[i].id == p.id ==>
      r.agriProjects[i] == s.agriProjects[i].(featured := !p.featured)
    ensures forall i :: 0 <= i < |s.agriProjects| && s.agriProjects[i].id != p.id ==>
      r.agriProjects[i] == s.agriProjects[i]
    ensures r.(agriProjects := s.agriProjects) == s
  {
    forall q ensures AgricultureProjects.Merge(q, AgricultureProjects.FeaturedPatch(!p.featured)) ==
      q.(featured := !p.featured)
    {
      AgricultureProjects.MergeFeatured(q, !p.featured);
    }
    AdminStore.UpdateAgriProject(s, p.id, AgricultureProjects.FeaturedPatch(!p.featured))
  }

  /** With unique ids, pressing a row's star twice restores the state. */
  lemma ToggleFeaturedTwice(s: AdminStore.State, i: int)
    requires Collection.UniqueIds(s.agriProjects, AgricultureProjects.IdOf)
    requires 0 <= i < |s.agriProjects|
    ensures ToggleFeatured(ToggleFeatured(s, s.agriProjects[i]), ToggleFeatured(s, s.agriProjects[i]).agriProjects[i]) == s
  {
    var p := s.agriProjects[i];
    var once := ToggleFeatured(s, p);
    var twice := ToggleFeatured(once, once.agriProjects[i]);
    forall k | 0 <= k < |s.agriProjects| ensures twice.agriProjects[k] == s.agriProjects[k] {
      if k != i {
        assert AgricultureProjects.IdOf(s.agriProjects[k]) != AgricultureProjects.IdOf(p);
      }
    }
  }
}
