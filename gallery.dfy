/**
 * The graphic-design gallery: a fixed list of sixteen projects, a category
 * filter, the tag badges of each card, and an image modal opened by a card
 * and closed by its backdrop or close button. Images and descriptions are
 * not modelled.
 */
module GraphicDesign {
  import opened Wrappers
  import Navigation

  datatype Project = Project(id: nat, title: string, category: string, tags: seq<string>, year: string)

  /** The filter buttons' category ids, in display order; `all` shows every project. */
  const CategoryIds: seq<string> := ["all", "music", "fashion", "events", "entertainment", "branding"]

  const Projects: seq<Project> := [
    Project(1, "Daft Punk Tribute Poster", "music", ["Poster Design", "Music", "Typography", "Electronic"], "2019"),
    Project(2, "Justice Band Poster", "music", ["Concert Poster", "Music", "Visual Identity", "Print Design"], "2020"),
    Project(3, "Control Game Design", "entertainment", ["Gaming", "Visual Design", "Dark Theme", "Modern"], "2021"),
    Project(4, "Brand Guidelines Manual", "branding", ["Brand Guidelines", "Visual Identity", "Standards", "Documentation"], "2020"),
    Project(5, "Illuminati Poster Design", "events", ["Poster Design", "Conceptual", "Symbolic", "Dark Art"], "2019"),
    Project(6, "Breil World Invasion", "fashion", ["Fashion", "Campaign", "Bold Design", "Modern"], "2021"),
    Project(7, "Event Flyers Collection", "events", ["Flyers", "Events", "Promotional", "Diverse Styles"], "2020"),
    Project(8, "Sportmax Fashion Design", "fashion", ["Fashion", "Luxury", "Elegant", "Sophisticated"], "2021"),
    Project(9, "Album Cover Design", "music", ["Album Cover", "Music", "Artistic", "Creative"], "2020"),
    Project(10, "Mac Design Concept", "branding", ["Technology", "Clean Design", "Modern", "Concept"], "2021"),
    Project(11, "Halloween Pumpkin Design", "events", ["Seasonal", "Halloween", "Playful", "Festive"], "2020"),
    Project(12, "Sportmax Code Collection", "fashion", ["Fashion Line", "Visual Identity", "Contemporary", "Branding"], "2021"),
    Project(13, "World of Warcraft Design", "entertainment", ["Gaming", "Fantasy", "Epic", "Storytelling"], "2019"),
    Project(14, "Reggio Design Project", "branding", ["Regional", "Cultural", "Local Identity", "Community"], "2020"),
    Project(15, "Stylo Design Concept", "branding", ["Stylish", "Typography", "Clean", "Modern"], "2021"),
    Project(16, "Regina Project Design", "branding", ["Elegant", "Refined", "Sophisticated", "Premium"], "2020")
  ]

  /** `projects.filter(project => project.category === c)`. */
  function Filter(ps: seq<Project>, c: string): (r: seq<Project>)
    ensures |r| <= |ps|
    ensures forall p :: p in r <==> p in ps && p.category == c
  {
    if ps == [] then []
    else if ps[0].category == c then [ps[0]] + Filter(ps[1..], c)
    else Filter(ps[1..], c)
  }

  /** Filtering a concatenation filters each part, in order. */
  lemma {:induction false} FilterAppend(a: seq<Project>, b: seq<Project>, c: string)
    ensures Filter(a + b, c) == Filter(a, c) + Filter(b, c)
  {
    if a == [] {
      assert a + b == b;
    } else {
      assert (a + b)[0] == a[0];
      assert (a + b)[1..] == a[1..] + b;
      FilterAppend(a[1..], b, c);
    }
  }

  /** Filtering twice by the same category is filtering once. */
  lemma {:induction false} FilterIdempotent(ps: seq<Project>, c: string)
    ensures Filter(Filter(ps, c), c) == Filter(ps, c)
  {
    if ps != [] {
      FilterIdempotent(ps[1..], c);
      if ps[0].category == c {
        var r := Filter(ps, c);
        assert r[0] == ps[0] && r[1..] == Filter(ps[1..], c);
      }
    }
  }

  /** How many projects have category `c`. */
  function CountCategory(ps: seq<Project>, c: string): nat {
    if ps == [] then 0 else (if ps[0].category == c then 1 else 0) + CountCategory(ps[1..], c)
  }

  /** The filter keeps exactly the projects of its category, no more and no fewer. */
  lemma {:induction false} FilterLength(ps: seq<Project>, c: string)
    ensures |Filter(ps, c)| == CountCategory(ps, c)
  {
    if ps != [] {
      FilterLength(ps[1..], c);
    }
  }

  /**
   * When every project has one of `cats` (no category twice), the
   * filtered views over `cats` together hold every project exactly once.
   */
  lemma {:induction false} FiltersPartition(ps: seq<Project>, cats: seq<string>)
    requires Navigation.Distinct(cats)
    requires forall i :: 0 <= i < |ps| ==> ps[i].category in cats
    ensures SumLengths(ps, cats) == |ps|
  {
    if ps != [] {
      assert forall i :: 0 <= i < |ps[1..]| ==> ps[1..][i] == ps[i + 1];
      FiltersPartition(ps[1..], cats);
      SumLengthsStep(ps, cats);
      Navigation.HighlightCount(cats, ps[0].category);
      assert SumLengths(ps[1..], cats) == |ps| - 1;
    } else {
      SumLengthsNone(cats);
    }
  }

  lemma {:induction false} SumLengthsNone(cats: seq<string>)
    ensures SumLengths([], cats) == 0
  {
    if cats != [] {
      SumLengthsNone(cats[1..]);
    }
  }

  /** The sum over `cats` of the number of projects in each. */
  function SumLengths(ps: seq<Project>, cats: seq<string>): nat {
    if cats == [] then 0 else |Filter(ps, cats[0])| + SumLengths(ps, cats[1..])
  }

  /** The step of the sum: the first project counts once for every entry of `cats` that is its category. */
  lemma {:induction false} SumLengthsStep(ps: seq<Project>, cats: seq<string>)
    requires ps != []
    ensures SumLengths(ps, cats) ==
      Navigation.CountTrue(Navigation.Highlights(cats, ps[0].category)) + SumLengths(ps[1..], cats)
  {
    if cats != [] {
      SumLengthsStep(ps, cats[1..]);
      var h := Navigation.Highlights(cats, ps[0].category);
      assert h[1..] == Navigation.Highlights(cats[1..], ps[0].category);
    }
  }

  /** `filteredProjects`: every project for `all`, otherwise the projects of the selected category. */
  function FilteredProjects(selectedCategory: string): (r: seq<Project>)
    ensures selectedCategory == "all" ==> r == Projects
    ensures selectedCategory != "all" ==> forall p :: p in r <==> p in Projects && p.category == selectedCategory
  {
    if selectedCategory == "all" then Projects else Filter(Projects, selectedCategory)
  }

  lemma ProjectCategoriesKnown()
    ensures forall i :: 0 <= i < |Projects| ==> Projects[i].category in CategoryIds[1..]
  {
    var cats := CategoryIds[1..];
    assert cats == ["music", "fashion", "events", "entertainment", "branding"];
  }

  /**
   * Every project belongs to exactly one of the five categories below `all`,
   * so the five filtered views hold all sixteen projects between them
   * without overlap.
   */
  lemma CategoriesPartitionProjects()
    ensures SumLengths(Projects, CategoryIds[1..]) == |Projects| == 16
  {
    ProjectCategoriesKnown();
    FiltersPartition(Projects, CategoryIds[1..]);
  }

  /** A category id that is not among the filter buttons' shows an empty grid. */
  lemma UnknownCategoryShowsNothing(c: string)
    requires c !in CategoryIds
    ensures FilteredProjects(c) == []
  {
    ProjectCategoriesKnown();
    assert forall i :: 0 <= i < |Projects| ==> Projects[i].category != c by {
      assert forall d :: d in CategoryIds[1..] ==> d in CategoryIds;
    }
    FilterNoMatch(Projects, c);
  }

  lemma {:induction false} FilterNoMatch(ps: seq<Project>, c: string)
    requires forall i :: 0 <= i < |ps| ==> ps[i].category != c
    ensures Filter(ps, c) == []
  {
    if ps != [] {
      assert forall i :: 0 <= i < |ps[1..]| ==> ps[1..][i] == ps[i + 1];
      FilterNoMatch(ps[1..], c);
    }
  }

  /** Exactly one filter button is drawn as selected, for any selected category id. */
  lemma OneFilterButtonSelected(selectedCategory: string)
    requires selectedCategory in CategoryIds
    ensures Navigation.CountTrue(Navigation.Highlights(CategoryIds, selectedCategory)) == 1
  {
    Navigation.HighlightCount(CategoryIds, selectedCategory);
  }

  /** A card's tag badges: the first three tags, and a `+n` badge for the rest when there are more. */
  datatype TagBadges = TagBadges(shown: seq<string>, more: Option<nat>)

  function CardTags(tags: seq<string>): TagBadges {
    var shown := if |tags| <= 3 then tags else tags[..3];
    TagBadges(shown, if |tags| > 3 then Some(|tags| - 3) else None)
  }

  /**
   * The shown tags are a prefix of the tags, at most three of them; the
   * `+n` badge appears exactly when some are hidden, and counts them.
   */
  lemma CardTagsAccountForAll(tags: seq<string>)
    ensures var b := CardTags(tags);
      && b.shown <= tags
      && |b.shown| == (if |tags| < 3 then |tags| else 3)
      && (b.more.Some? <==> |tags| > 3)
      && |b.shown| + b.more.GetOr(0) == |tags|
  {
  }

  /** Every project has four tags, so every card shows three of them and a `+1` badge. */
  lemma EveryCardShowsThreeAndOneMore(p: Project)
    requires p in Projects
    ensures CardTags(p.tags) == TagBadges(p.tags[..3], Some(1))
  {
  }

  /** Where a click inside the open modal lands. */
  datatype ModalTarget = Backdrop | Content | CloseButton

  /** The `GraphicDesignPortfolio` component's state. */
  class Portfolio {
    var selectedCategory: string
    var selectedImage: Option<Project>

    /** The selected category is one of the filter buttons', and an open modal shows a project. */
    ghost predicate Valid()
      reads this
    {
      selectedCategory in CategoryIds && (selectedImage.Some? ==> selectedImage.value in Projects)
    }

    constructor ()
      ensures Valid() && selectedCategory == "all" && selectedImage.None?
    {
      selectedCategory := "all";
      selectedImage := None;
    }

    /** The cards on the grid. */
    function Visible(): seq<Project>
      reads this
    {
      FilteredProjects(selectedCategory)
    }

    /** A click on the filter button at position `k`. */
    method SelectCategory(k: nat)
      requires Valid() && k < |CategoryIds|
      modifies this
      ensures Valid()
      ensures selectedCategory == CategoryIds[k] && selectedImage == old(selectedImage)
    {
      selectedCategory := CategoryIds[k];
    }

    /** A click on the image of the card at position `k` in the grid opens that project's modal. */
    method ClickCard(k: nat)
      requires Valid() && k < |Visible()|
      modifies this
      ensures Valid()
      ensures selectedImage == Some(old(Visible())[k]) && selectedCategory == old(selectedCategory)
    {
      selectedImage := Some(FilteredProjects(selectedCategory)[k]);
    }

    /**
     * A click in the open modal: the backdrop and the close button close it;
     * a click on its content stops there and leaves it open.
     */
    method ModalClick(target: ModalTarget)
      requires Valid() && selectedImage.Some?
      modifies this
      ensures Valid()
      ensures selectedImage == (if target == Content then old(selectedImage) else None)
      ensures selectedCategory == old(selectedCategory)
    {
      match target
      case Backdrop =>
        selectedImage := None;
      case Content =>
      case CloseButton =>
        selectedImage := None;
    }
  }
}
