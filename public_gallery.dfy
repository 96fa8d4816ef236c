/**
 * The public gallery page: a portfolio list kept in the browser's storage (seeded with eight
 * sample projects the first time), a category filter and a detail view.
 */
module PublicGallery {
  import opened Wrappers
  import Seqs

  /** A portfolio entry as the page stores it. */
  datatype Showcase = Showcase(id: int, title: string, category: string, image: string, description: string, date: string)

  const Pexels := "https://images.pexels.com/photos/"
  const Sizing := "?auto=compress&cs=tinysrgb&w=800"

  function PhotoUrl(photo: string): string {
    Pexels + photo + "/pexels-photo-" + photo + ".jpeg" + Sizing
  }

  /** `defaultProjects`. */
  const DefaultProjects: seq<Showcase> := [
    Showcase(1, "Modern Living Room", "residential", PhotoUrl("1571460"),
             "Glossy white stretch ceiling with integrated LED lighting system", "2024-01-15"),
    Showcase(2, "Contemporary Kitchen", "residential", PhotoUrl("2089698"),
             "Matte finish ceiling with custom LED integration for perfect task lighting", "2024-01-20"),
    Showcase(3, "Luxury Bedroom", "residential", PhotoUrl("1454806"),
             "Satin texture ceiling with ambient lighting for relaxing atmosphere", "2024-02-01"),
    Showcase(4, "Office Space", "commercial", PhotoUrl("380768"),
             "Commercial grade ceiling system with perfect acoustics and energy efficiency", "2024-02-10"),
    Showcase(5, "Bathroom Renovation", "residential", PhotoUrl("342800"),
             "Waterproof stretch ceiling with moisture protection and integrated ventilation", "2024-02-15"),
    Showcase(6, "Restaurant Interior", "commercial", PhotoUrl("260922"),
             "Fire-resistant ceiling with custom lighting design for dining ambiance", "2024-03-01"),
    Showcase(7, "Hotel Lobby", "commercial", PhotoUrl("271624"),
             "Premium stretch ceiling with architectural lighting features", "2024-03-10"),
    Showcase(8, "Master Suite", "residential", PhotoUrl("1743227"),
             "Multi-level ceiling design with color-changing LED system", "2024-03-15")
  ]

  /** The filter buttons: `(id, label)`. */
  const Categories: seq<(string, string)> := [
    ("all", "Усі проєкти"),
    ("residential", "Житлові приміщення"),
    ("commercial", "Комерційні приміщення")
  ]

  /** The sample list holds eight entries with ids 1 to 8, in order. */
  lemma DefaultIds()
    ensures |DefaultProjects| == 8
    ensures forall i :: 0 <= i < |DefaultProjects| ==> DefaultProjects[i].id == i + 1
  {
  }

  /** Every sample is residential or commercial. */
  lemma DefaultCategories()
    ensures forall i :: 0 <= i < |DefaultProjects| ==> DefaultProjects[i].category in {"residential", "commercial"}
  {
  }

  /** Five of the samples are homes. */
  lemma DefaultResidentialCount()
    ensures CountIn(DefaultProjects, "residential") == 5
  {
  }

  /** Three of the samples are businesses. */
  lemma DefaultCommercialCount()
    ensures CountIn(DefaultProjects, "commercial") == 3
  {
  }


  /** What the mount effect ends up showing: the stored list, or the samples when it is empty. */
  function Seeded(saved: seq<Showcase>): (r: seq<Showcase>)
    ensures |r| > 0
    ensures saved != [] ==> r == saved
    ensures saved == [] ==> r == DefaultProjects
  {
    if |saved| == 0 then DefaultProjects else saved
  }

  /** Seeding is idempotent: once the samples are stored, a later visit shows the same list. */
  lemma SeededIdempotent(saved: seq<Showcase>)
    ensures Seeded(Seeded(saved)) == Seeded(saved)
  {
  }

  predicate InCategory(p: Showcase, category: string) {
    p.category == category
  }

  /** `filteredProjects`: everything for `"all"`, otherwise the entries whose category is exactly that id. */
  function ByCategory(ps: seq<Showcase>, category: string): (r: seq<Showcase>)
    ensures category == "all" ==> r == ps
    ensures category != "all" ==> forall p :: p in r <==> p in ps && p.category == category
    ensures category != "all" ==> forall p :: multiset(r)[p] == if p.category == category then multiset(ps)[p] else 0
    ensures |r| <= |ps|
  {
    if category == "all" then ps else Seqs.Keep(ps, p => InCategory(p, category))
  }

  /** Filtering a list made of two parts filters each part and keeps them in order. */
  lemma ByCategoryConcat(a: seq<Showcase>, b: seq<Showcase>, category: string)
    ensures ByCategory(a + b, category) == ByCategory(a, category) + ByCategory(b, category)
  {
    if category != "all" {
      Seqs.KeepConcat(a, b, p => InCategory(p, category));
    }
  }

  /** Choosing a category after another one shows what choosing it directly shows. */
  lemma ByCategoryNarrows(ps: seq<Showcase>, c: string, d: string)
    requires c != "all" && d != "all"
    ensures ByCategory(ByCategory(ps, c), c) == ByCategory(ps, c)
    ensures c != d ==> ByCategory(ByCategory(ps, c), d) == []
  {
    var r := ByCategory(ps, c);
    Seqs.KeepAll(r, p => InCategory(p, c));
  }

  /** Matching projects with their category, counted. */
  function CountIn(ps: seq<Showcase>, category: string): (n: nat)
    ensures n <= |ps|
  {
    if ps == [] then 0 else (if ps[0].category == category then 1 else 0) + CountIn(ps[1..], category)
  }

  lemma {:induction false} ByCategoryCounts(ps: seq<Showcase>, category: string)
    requires category != "all"
    ensures |ByCategory(ps, category)| == CountIn(ps, category)
    decreases |ps|
  {
    if ps != [] {
      ByCategoryCounts(ps[1..], category);
      assert ps == [ps[0]] + ps[1..];
      Seqs.KeepConcat([ps[0]], ps[1..], p => InCategory(p, category));
    }
  }

  /**
   * When every entry is residential or commercial (as the samples are), the two real filters
   * split the list: together they show each entry exactly once.
   */
  lemma {:induction false} FiltersPartition(ps: seq<Showcase>)
    requires forall i :: 0 <= i < |ps| ==> ps[i].category in {"residential", "commercial"}
    ensures |ByCategory(ps, "residential")| + |ByCategory(ps, "commercial")| == |ps|
    decreases |ps|
  {
    ByCategoryCounts(ps, "residential");
    ByCategoryCounts(ps, "commercial");
    PartitionCounts(ps);
  }

  lemma {:induction false} PartitionCounts(ps: seq<Showcase>)
    requires forall i :: 0 <= i < |ps| ==> ps[i].category in {"residential", "commercial"}
    ensures CountIn(ps, "residential") + CountIn(ps, "commercial") == |ps|
    decreases |ps|
  {
    if ps != [] {
      assert ps[0].category in {"residential", "commercial"};
      assert forall i :: 0 <= i < |ps[1..]| ==> ps[1..][i] == ps[i + 1];
      PartitionCounts(ps[1..]);
    }
  }

  class Gallery {
    var projects: seq<Showcase>
    var selectedCategory: string
    var selectedProject: Option<Showcase>
    /** The decoded `galleryProjects` entry of the browser's storage (an absent entry decodes as empty). */
    var storage: seq<Showcase>

    constructor (storage: seq<Showcase>)
      ensures projects == [] && selectedCategory == "all" && selectedProject == None && this.storage == storage
    {
      projects := [];
      selectedCategory := "all";
      selectedProject := None;
      this.storage := storage;
    }

    /** `filteredProjects` for the current state. */
    function Shown(): (r: seq<Showcase>)
      reads this
      ensures selectedCategory == "all" ==> r == projects
      ensures selectedCategory != "all" ==> forall p :: p in r <==> p in projects && p.category == selectedCategory
    {
      ByCategory(projects, selectedCategory)
    }

    /** The mount effect: shows the stored list, seeding it with the samples when it is empty. */
    method Mount()
      modifies this
      ensures projects == Seeded(old(storage)) && storage == projects
      ensures selectedCategory == old(selectedCategory) && selectedProject == old(selectedProject)
    {
      if |storage| == 0 {
        projects := DefaultProjects;
        storage := DefaultProjects;
      } else {
        projects := storage;
      }
    }

    method SelectCategory(category: string)
      modifies this
      ensures selectedCategory == category
      ensures projects == old(projects) && selectedProject == old(selectedProject) && storage == old(storage)
    {
      selectedCategory := category;
    }

    method OpenProject(p: Showcase)
      modifies this
      ensures selectedProject == Some(p)
      ensures projects == old(projects) && selectedCategory == old(selectedCategory) && storage == old(storage)
    {
      selectedProject := Some(p);
    }

    method CloseProject()
      modifies this
      ensures selectedProject == None
      ensures projects == old(projects) && selectedCategory == old(selectedCategory) && storage == old(storage)
    {
      selectedProject := None;
    }
  }

  /** A second visit after the first one shows the same list and leaves the storage as the first left it. */
  method RevisitShowsSameList(saved: seq<Showcase>) returns (first: seq<Showcase>, second: seq<Showcase>)
    ensures first == second == Seeded(saved)
  {
    var visit1 := new Gallery(saved);
    visit1.Mount();
    first := visit1.projects;
    var visit2 := new Gallery(visit1.storage);
    visit2.Mount();
    second := visit2.projects;
  }
}
