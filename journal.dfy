/** The journal: a category filter over the shipped articles, a featured
    article card, and the grid of the remaining articles. */
module Journal {
  import opened Common

  datatype Article = Article(id: int, category: string, featured: bool)

  /** The shipped articles, as the filter sees them. */
  function Articles(): seq<Article>
  {
    [ Article(1, "Sustainability", true),
      Article(2, "Technology", false),
      Article(3, "Lifestyle", false),
      Article(4, "Organic", false),
      Article(5, "Investment", false),
      Article(6, "Community", false) ]
  }

  /** The category buttons, in display order. */
  function Categories(): seq<string>
  {
    ["All", "Sustainability", "Technology", "Lifestyle", "Organic", "Investment", "Community"]
  }

  const All: string := "All"

  function InCategory(category: string): Article -> bool
  {
    (a: Article) => a.category == category
  }

  function IsFeatured(): Article -> bool
  {
    (a: Article) => a.featured
  }

  function NotFeatured(): Article -> bool
  {
    (a: Article) => !a.featured
  }

  /** filteredArticles: every article under "All"; otherwise the articles of
      the chosen category, in their original order. */
  function FilteredArticles(arts: seq<Article>, category: string): (r: seq<Article>)
    ensures category == All ==> r == arts
    ensures category != All ==> SubSeq(r, arts)
    ensures category != All ==> forall a :: a in arts ==> (a in r <==> a.category == category)
  {
    if category == All then arts
    else
      FilterIsSubSeq(arts, InCategory(category));
      Filter(arts, InCategory(category))
  }

  /** featuredArticle: `articles.find(article => article.featured)`. */
  function FeaturedArticle(arts: seq<Article>): (r: Option<Article>)
    ensures r.Some? ==> r.value in arts && r.value.featured
    ensures r.None? <==> forall i :: 0 <= i < |arts| ==> !arts[i].featured
  {
    FindIsFirst(arts, IsFeatured());
    Find(arts, IsFeatured())
  }

  /** regularArticles: the filtered articles minus the featured ones. */
  function RegularArticles(arts: seq<Article>, category: string): (r: seq<Article>)
    ensures SubSeq(r, FilteredArticles(arts, category))
    ensures forall a :: a in r ==> !a.featured
    ensures forall a :: a in FilteredArticles(arts, category) && !a.featured ==> a in r
  {
    FilterIsSubSeq(FilteredArticles(arts, category), NotFeatured());
    Filter(FilteredArticles(arts, category), NotFeatured())
  }

  /** The featured card renders only when a featured article exists and the
      chosen category is "All". */
  predicate ShowsFeaturedCard(arts: seq<Article>, category: string)
    ensures ShowsFeaturedCard(arts, category) <==>
              category == All && exists i :: 0 <= i < |arts| && arts[i].featured
  {
    FeaturedArticle(arts).Some? && category == All
  }

  /** featuredArticle is the first featured article, and is absent only when
      no article is featured. */
  lemma FeaturedIsFirstFeatured(arts: seq<Article>)
    ensures FeaturedArticle(arts).None? <==> forall i :: 0 <= i < |arts| ==> !arts[i].featured
    ensures FeaturedArticle(arts).Some? ==>
              exists k :: 0 <= k < |arts| && arts[k] == FeaturedArticle(arts).value && arts[k].featured
                          && forall i :: 0 <= i < k ==> !arts[i].featured
  {
    FindIsFirst(arts, IsFeatured());
  }

  /** With the shipped articles the featured one is article 1. */
  lemma ShippedFeatured()
    ensures FeaturedArticle(Articles()) == Some(Articles()[0]) && Articles()[0].id == 1
  {
    FeaturedIsFirstFeatured(Articles());
  }

  /** Each category button other than "All" lists exactly one article: the
      article at the same position. */
  lemma EachCategoryListsOne(k: nat)
    requires 1 <= k < |Categories()|
    ensures FilteredArticles(Articles(), Categories()[k]) == [Articles()[k - 1]]
  {
    var arts := Articles();
    var c := Categories()[k];
    forall i | 0 <= i < |arts| ensures InCategory(c)(arts[i]) <==> i == k - 1 {
    }
    FilterUnique(arts, InCategory(c), k - 1);
  }

  /** Choosing "Sustainability" shows nothing: its only article is the
      featured one, which the grid leaves out and whose card needs "All". */
  lemma SustainabilityShowsNothing()
    ensures RegularArticles(Articles(), "Sustainability") == []
    ensures !ShowsFeaturedCard(Articles(), "Sustainability")
  {
    EachCategoryListsOne(1);
  }
}
