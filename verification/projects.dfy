/** Real-estate projects: the record, its partial-update form, the shallow
    merge that applies one, the bundled fixture list and the three queries
    over it. */
module Projects {
  import opened Optional
  import Seqs
  import Collection

  datatype Category = Residential | Commercial
  datatype ProjectStatus = Sold | Leased | Completed

  /** `bedrooms`, `bathrooms` and `floors` are optional keys. */
  datatype Specs = Specs(
    area: string,
    bedrooms: Option<int>,
    bathrooms: Option<int>,
    floors: Option<int>,
    yearCompleted: string)

  datatype Project = Project(
    id: string,
    title: string,
    description: string,
    fullDescription: string,
    category: Category,
    status: ProjectStatus,
    location: string,
    image: string,
    images: seq<string>,
    featured: bool,
    specifications: Specs)

  /** A `Partial<Project>`: every key may be absent (`None`). */
  datatype ProjectPatch = ProjectPatch(
    id: Option<string>,
    title: Option<string>,
    description: Option<string>,
    fullDescription: Option<string>,
    category: Option<Category>,
    status: Option<ProjectStatus>,
    location: Option<string>,
    image: Option<string>,
    images: Option<seq<string>>,
    featured: Option<bool>,
    specifications: Option<Specs>)

  function IdOf(p: Project): string {
    p.id
  }

  const NoChanges := ProjectPatch(None, None, None, None, None, None, None, None, None, None, None)

  /** The patch that sets only `featured`. */
  function FeaturedPatch(b: bool): ProjectPatch {
    NoChanges.(featured := Some(b))
  }

  /** A whole record passed where a `Partial<Project>` is expected: every key
      present, `id` included. */
  function AsPatch(p: Project): ProjectPatch {
    ProjectPatch(Some(p.id), Some(p.title), Some(p.description), Some(p.fullDescription),
      Some(p.category), Some(p.status), Some(p.location), Some(p.image), Some(p.images),
      Some(p.featured), Some(p.specifications))
  }

  /** `{ ...p, ...u }`: each key present in `u` overwrites, the others are
      kept. The merge is shallow: a present `specifications` replaces the
      whole nested record. */
  function Merge(p: Project, u: ProjectPatch): Project {
    Project(
      u.id.GetOr(p.id),
      u.title.GetOr(p.title),
      u.description.GetOr(p.description),
      u.fullDescription.GetOr(p.fullDescription),
      u.category.GetOr(p.category),
      u.status.GetOr(p.status),
      u.location.GetOr(p.location),
      u.image.GetOr(p.image),
      u.images.GetOr(p.images),
      u.featured.GetOr(p.featured),
      u.specifications.GetOr(p.specifications))
  }

  /** `p => ({ ...p, ...u })` as a value. */
  function Merger(u: ProjectPatch): Project -> Project {
    (p: Project) => Merge(p, u)
  }

  /** The empty patch is the identity; a whole record merged over anything
      is that record; merging the same patch twice is merging it once. */
  lemma MergeLaws(p: Project, q: Project, u: ProjectPatch)
    ensures Merge(p, NoChanges) == p
    ensures Merge(q, AsPatch(p)) == p
    ensures Merge(Merge(p, u), u) == Merge(p, u)
    ensures u.id.None? ==> Merge(p, u).id == p.id
    ensures u.specifications.Some? ==> Merge(p, u).specifications == u.specifications.value
  {
  }

  /** Merging `FeaturedPatch(b)` changes `featured` to `b` and nothing else. */
  lemma MergeFeatured(p: Project, b: bool)
    ensures Merge(p, FeaturedPatch(b)) == p.(featured := b)
  {
  }

  predicate IsFeatured(p: Project) {
    p.featured
  }

  function InCategory(c: Category): Project -> bool {
    (p: Project) => p.category == c
  }

  /** `projects.filter(p => p.featured)`. */
  function Featured(ps: seq<Project>): (r: seq<Project>)
    ensures |r| <= |ps|
    ensures forall i :: 0 <= i < |r| ==> r[i].featured && r[i] in ps
    ensures forall p | p in ps :: p in r <==> p.featured
  {
    Seqs.Filter(ps, IsFeatured)
  }

  /** The featured projects keep their relative order. */
  lemma FeaturedKeepsOrder(ps: seq<Project>, qs: seq<Project>)
    ensures Featured(ps + qs) == Featured(ps) + Featured(qs)
  {
    Seqs.FilterAppend(ps, qs, IsFeatured);
  }

  /** `projects.find(p => p.id === id)`: the first project with that id. */
  function ById(ps: seq<Project>, id: string): (r: Option<Project>)
    ensures r.None? <==> forall i :: 0 <= i < |ps| ==> ps[i].id != id
    ensures r.Some? ==> r.value.id == id && r.value in ps
    ensures r.Some? ==>
      exists i :: 0 <= i < |ps| && ps[i] == r.value && forall j :: 0 <= j < i ==> ps[j].id != id
  {
    Collection.FindById(ps, IdOf, id)
  }

  /** `projects.filter(p => p.category === c)`. */
  function ByCategory(ps: seq<Project>, c: Category): (r: seq<Project>)
    ensures |r| <= |ps|
    ensures forall i :: 0 <= i < |r| ==> r[i].category == c && r[i] in ps
    ensures forall p | p in ps :: p in r <==> p.category == c
  {
    Seqs.Filter(ps, InCategory(c))
  }

  /** The category queries keep relative order, and since there are exactly
      two categories, the residential and commercial results split the list. */
  lemma CategoriesPartition(ps: seq<Project>, qs: seq<Project>, c: Category)
    ensures ByCategory(ps + qs, c) == ByCategory(ps, c) + ByCategory(qs, c)
    ensures |ByCategory(ps, Residential)| + |ByCategory(ps, Commercial)| == |ps|
  {
    Seqs.FilterAppend(ps, qs, InCategory(c));
    Seqs.FilterPartitionLength(ps, InCategory(Residential), InCategory(Commercial));
  }

  const Oceanview := Project(
    "1",
    "Lekki Oceanview Residence",
    "Luxury 5-bedroom waterfront villa with panoramic ocean views",
    "An exquisite waterfront property featuring contemporary architecture, infinity pool, smart home technology, and private beach access. This masterpiece combines luxury living with sustainable design principles.",
    Residential,
    Sold,
    "Lekki Phase 1, Lagos",
    "https://images.unsplash.com/photo-1613490493576-7fde63acd811?w=800&q=80",
    ["https://images.unsplash.com/photo-1613490493576-7fde63acd811?w=800&q=80",
     "https://images.unsplash.com/photo-1600596542815-ffad4c1539a9?w=800&q=80",
     "https://images.unsplash.com/photo-1600607687939-ce8a6c25118c?w=800&q=80"],
    true,
    Specs("850 sqm", Some(5), Some(6), Some(3), "2023"))

  const CorporateTower := Project(
    "2",
    "Victoria Island Corporate Tower",
    "Premium Grade A office complex in the heart of Lagos business district",
    "A state-of-the-art commercial development featuring flexible floor plates, advanced building management systems, and LEED certification. Perfect for multinational corporations seeking premium office space.",
    Commercial,
    Leased,
    "Victoria Island, Lagos",
    "https://images.unsplash.com/photo-1486406146926-c627a92ad1ab?w=800&q=80",
    ["https://images.unsplash.com/photo-1486406146926-c627a92ad1ab?w=800&q=80",
     "https://images.unsplash.com/photo-1497366216548-37526070297c?w=800&q=80"],
    true,
    Specs("15,000 sqm", None, None, Some(18), "2022"))

  const GardenEstate := Project(
    "3",
    "Ikoyi Garden Estate",
    "Exclusive gated community with 12 premium detached homes",
    "A carefully curated residential development offering privacy, security, and luxury. Each home features custom finishes, private gardens, and access to shared amenities including a clubhouse and tennis courts.",
    Residential,
    Completed,
    "Ikoyi, Lagos",
    "https://images.unsplash.com/photo-1600585154340-be6161a56a0c?w=800&q=80",
    ["https://images.unsplash.com/photo-1600585154340-be6161a56a0c?w=800&q=80",
     "https://images.unsplash.com/photo-1600566753190-17f0baa2a6c3?w=800&q=80"],
    true,
    Specs("600 sqm per unit", Some(4), Some(5), Some(2), "2023"))

  const RetailPlaza := Project(
    "4",
    "Abuja Retail Plaza",
    "Modern shopping complex with mixed-use development potential",
    "Strategic retail development in Abuja's growing commercial corridor. Features include anchor tenant spaces, boutique retail units, food court, and underground parking.",
    Commercial,
    Completed,
    "Wuse 2, Abuja",
    "https://images.unsplash.com/photo-1441986300917-64674bd600d8?w=800&q=80",
    ["https://images.unsplash.com/photo-1441986300917-64674bd600d8?w=800&q=80"],
    false,
    Specs("8,500 sqm", None, None, Some(4), "2021"))

  const Penthouse := Project(
    "5",
    "Banana Island Penthouse",
    "Ultra-luxury penthouse with private rooftop terrace",
    "The pinnacle of Lagos luxury living. This penthouse spans the top two floors with 360-degree views, private elevator access, wine cellar, and dedicated concierge services.",
    Residential,
    Sold,
    "Banana Island, Lagos",
    "https://images.unsplash.com/photo-1600607687920-4e2a09cf159d?w=800&q=80",
    ["https://images.unsplash.com/photo-1600607687920-4e2a09cf159d?w=800&q=80"],
    false,
    Specs("1,200 sqm", Some(6), Some(7), Some(2), "2024"))

  const BusinessHub := Project(
    "6",
    "Port Harcourt Business Hub",
    "Modern co-working and office space in the oil capital",
    "A flexible workspace solution designed for the modern business. Features hot desks, private offices, meeting rooms, and event spaces with 24/7 access and comprehensive business support services.",
    Commercial,
    Leased,
    "GRA Phase 2, Port Harcourt",
    "https://images.unsplash.com/photo-1497366216548-37526070297c?w=800&q=80",
    ["https://images.unsplash.com/photo-1497366216548-37526070297c?w=800&q=80"],
    false,
    Specs("3,200 sqm", None, None, Some(5), "2023"))

  /** The bundled fixture list. */
  const Fixture := [Oceanview, CorporateTower, GardenEstate, RetailPlaza, Penthouse, BusinessHub]

  lemma FixtureTails()
    ensures Fixture[1..] == [CorporateTower, GardenEstate, RetailPlaza, Penthouse, BusinessHub]
    ensures Fixture[2..] == [GardenEstate, RetailPlaza, Penthouse, BusinessHub]
    ensures Fixture[3..] == [RetailPlaza, Penthouse, BusinessHub]
    ensures Fixture[4..] == [Penthouse, BusinessHub]
    ensures Fixture[5..] == [BusinessHub]
    ensures Fixture[6..] == []
  {
  }

  /** The fixture ids are "1" to "6", so they are pairwise distinct. */
  lemma FixtureIds()
    ensures Collection.Ids(Fixture, IdOf) == ["1", "2", "3", "4", "5", "6"]
    ensures Collection.UniqueIds(Fixture, IdOf)
  {
    FixtureTails();
  }

  /** Exactly the first three fixtures are featured. */
  lemma FixtureFeatured()
    ensures Featured(Fixture) == [Oceanview, CorporateTower, GardenEstate]
  {
    Seqs.FilterFirstThreeOfSix(Oceanview, CorporateTower, GardenEstate, RetailPlaza, Penthouse, BusinessHub,
      IsFeatured);
  }

  /** Three fixtures are residential: the first, third and fifth. */
  lemma FixtureResidential()
    ensures ByCategory(Fixture, Residential) == [Oceanview, GardenEstate, Penthouse]
  {
    Seqs.FilterOddOfSix(Oceanview, CorporateTower, GardenEstate, RetailPlaza, Penthouse, BusinessHub,
      InCategory(Residential));
  }

  /** The other three are commercial. */
  lemma FixtureCommercial()
    ensures ByCategory(Fixture, Commercial) == [CorporateTower, RetailPlaza, BusinessHub]
  {
    Seqs.FilterEvenOfSix(Oceanview, CorporateTower, GardenEstate, RetailPlaza, Penthouse, BusinessHub,
      InCategory(Commercial));
  }
}
