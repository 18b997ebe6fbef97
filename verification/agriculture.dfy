/** Agriculture projects: the record, its partial-update form and shallow
    merge, the bundled fixture list and its two queries. */
module AgricultureProjects {
  import opened Optional
  import Seqs
  import Collection

  datatype AgriType = Crop | Livestock | Processing
  datatype AgriStatus = Active | Completed | Planned

  /** `area`, `capacity` and `output` are optional keys; `yearStarted` is
      required. */
  datatype AgriSpecs = AgriSpecs(
    area: Option<string>,
    capacity: Option<string>,
    output: Option<string>,
    yearStarted: string)

  datatype AgriProject = AgriProject(
    id: string,
    title: string,
    description: string,
    fullDescription: string,
    kind: AgriType,
    status: AgriStatus,
    location: string,
    image: string,
    images: seq<string>,
    featured: bool,
    specifications: AgriSpecs)

  /** A `Partial<AgricultureProject>`: every key may be absent (`None`). */
  datatype AgriPatch = AgriPatch(
    id: Option<string>,
    title: Option<string>,
    description: Option<string>,
    fullDescription: Option<string>,
    kind: Option<AgriType>,
    status: Option<AgriStatus>,
    location: Option<string>,
    image: Option<string>,
    images: Option<seq<string>>,
    featured: Option<bool>,
    specifications: Option<AgriSpecs>)

  function IdOf(p: AgriProject): string {
    p.id
  }

  const NoChanges := AgriPatch(None, None, None, None, None, None, None, None, None, None, None)

  /** The patch that sets only `featured`. */
  function FeaturedPatch(b: bool): AgriPatch {
    NoChanges.(featured := Some(b))
  }

  /** A whole record passed where a partial one is expected. */
  function AsPatch(p: AgriProject): AgriPatch {
    AgriPatch(Some(p.id), Some(p.title), Some(p.description), Some(p.fullDescription),
      Some(p.kind), Some(p.status), Some(p.location), Some(p.image), Some(p.images),
      Some(p.featured), Some(p.specifications))
  }

  /** `{ ...p, ...u }`, shallow: a present `specifications` replaces the whole
      nested record. */
  function Merge(p: AgriProject, u: AgriPatch): AgriProject {
    AgriProject(
      u.id.GetOr(p.id),
      u.title.GetOr(p.title),
      u.description.GetOr(p.description),
      u.fullDescription.GetOr(p.fullDescription),
      u.kind.GetOr(p.kind),
      u.status.GetOr(p.status),
      u.location.GetOr(p.location),
      u.image.GetOr(p.image),
      u.images.GetOr(p.images),
      u.featured.GetOr(p.featured),
      u.specifications.GetOr(p.specifications))
  }

  function Merger(u: AgriPatch): AgriProject -> AgriProject {
    (p: AgriProject) => Merge(p, u)
  }

  /** The same laws as for real-estate projects: the empty patch is the
      identity, a whole record overwrites everything, merging is idempotent,
      an absent id is kept and a present `specifications` is taken whole. */
  lemma MergeLaws(p: AgriProject, q: AgriProject, u: AgriPatch)
    ensures Merge(p, NoChanges) == p
    ensures Merge(q, AsPatch(p)) == p
    ensures Merge(Merge(p, u), u) == Merge(p, u)
    ensures u.id.None? ==> Merge(p, u).id == p.id
    ensures u.specifications.Some? ==> Merge(p, u).specifications == u.specifications.value
  {
  }

  /** Merging `FeaturedPatch(b)` changes `featured` to `b` and nothing else. */
  lemma MergeFeatured(p: AgriProject, b: bool)
    ensures Merge(p, FeaturedPatch(b)) == p.(featured := b)
  {
  }

  predicate IsFeatured(p: AgriProject) {
    p.featured
  }

  /** `agricultureProjects.filter(p => p.featured)`. */
  function Featured(ps: seq<AgriProject>): (r: seq<AgriProject>)
    ensures |r| <= |ps|
    ensures forall i :: 0 <= i < |r| ==> r[i].featured && r[i] in ps
    ensures forall p | p in ps :: p in r <==> p.featured
  {
    Seqs.Filter(ps, IsFeatured)
  }

  /** The featured projects keep their relative order. */
  lemma FeaturedKeepsOrder(ps: seq<AgriProject>, qs: seq<AgriProject>)
    ensures Featured(ps + qs) == Featured(ps) + Featured(qs)
  {
    Seqs.FilterAppend(ps, qs, IsFeatured);
  }

  /** `agricultureProjects.find(p => p.id === id)`: the first project with
      that id. */
  function ById(ps: seq<AgriProject>, id: string): (r: Option<AgriProject>)
    ensures r.None? <==> forall i :: 0 <= i < |ps| ==> ps[i].id != id
    ensures r.Some? ==> r.value.id == id && r.value in ps
    ensures r.Some? ==>
      exists i :: 0 <= i < |ps| && ps[i] == r.value && forall j :: 0 <= j < i ==> ps[j].id != id
  {
    Collection.FindById(ps, IdOf, id)
  }

  const RiceFarm := AgriProject(
    "1",
    "Kaduna Rice Farm",
    "500-hectare integrated rice farming operation with modern irrigation systems",
    "Our flagship rice production facility utilizing precision agriculture techniques, mechanized harvesting, and sustainable water management. The farm produces high-quality paddy rice for both domestic consumption and export markets.",
    Crop,
    Active,
    "Kaduna State",
    "https://images.unsplash.com/photo-1500937386664-56d1dfef3854?w=800&q=80",
    ["https://images.unsplash.com/photo-1500937386664-56d1dfef3854?w=800&q=80",
     "https://images.unsplash.com/photo-1574323347407-f5e1ad6d020b?w=800&q=80"],
    true,
    AgriSpecs(Some("500 hectares"), None, Some("4,000 tons/year"), "2019"))

  const PoultryComplex := AgriProject(
    "2",
    "Oyo Poultry Complex",
    "Modern poultry facility with 50,000 bird capacity for egg and meat production",
    "State-of-the-art poultry farm featuring climate-controlled housing, automated feeding systems, and integrated processing facilities. We supply major retailers across the Southwest region.",
    Livestock,
    Active,
    "Oyo State",
    "https://images.unsplash.com/photo-1548550023-2bdb3c5beed7?w=800&q=80",
    ["https://images.unsplash.com/photo-1548550023-2bdb3c5beed7?w=800&q=80"],
    true,
    AgriSpecs(None, Some("50,000 birds"), Some("2M eggs/month"), "2020"))

  const Greenhouse := AgriProject(
    "3",
    "Plateau Greenhouse Project",
    "Climate-controlled greenhouse for year-round vegetable production",
    "Advanced greenhouse facility producing premium vegetables including tomatoes, peppers, and leafy greens. The controlled environment ensures consistent quality and year-round availability.",
    Crop,
    Completed,
    "Plateau State",
    "https://images.unsplash.com/photo-1416879595882-3373a0480b5b?w=800&q=80",
    ["https://images.unsplash.com/photo-1416879595882-3373a0480b5b?w=800&q=80"],
    true,
    AgriSpecs(Some("10 hectares"), None, Some("500 tons/year"), "2021"))

  const CassavaPlant := AgriProject(
    "4",
    "Niger Cassava Processing Plant",
    "Industrial cassava processing facility for flour and starch production",
    "Modern processing plant that transforms raw cassava into high-quality flour, starch, and ethanol. The facility supports over 2,000 local farmers through our outgrower scheme.",
    Processing,
    Active,
    "Niger State",
    "https://images.unsplash.com/photo-1625246333195-78d9c38ad449?w=800&q=80",
    ["https://images.unsplash.com/photo-1625246333195-78d9c38ad449?w=800&q=80"],
    false,
    AgriSpecs(None, Some("100 tons/day"), Some("30,000 tons/year"), "2022"))

  /** The bundled fixture list. */
  const Fixture := [RiceFarm, PoultryComplex, Greenhouse, CassavaPlant]

  /** The fixture ids are "1" to "4", so they are pairwise distinct; every
      fixture names the year it started. */
  lemma FixtureIds()
    ensures Collection.Ids(Fixture, IdOf) == ["1", "2", "3", "4"]
    ensures Collection.UniqueIds(Fixture, IdOf)
    ensures forall i :: 0 <= i < |Fixture| ==> Fixture[i].specifications.yearStarted != ""
  {
    assert Fixture[1..] == [PoultryComplex, Greenhouse, CassavaPlant];
    assert Fixture[2..] == [Greenhouse, CassavaPlant];
    assert Fixture[3..] == [CassavaPlant];
  }

  /** Exactly the first three fixtures are featured. */
  lemma FixtureFeatured()
    ensures Featured(Fixture) == [RiceFarm, PoultryComplex, Greenhouse]
  {
    Seqs.FilterFour(RiceFarm, PoultryComplex, Greenhouse, CassavaPlant, IsFeatured);
  }
}
