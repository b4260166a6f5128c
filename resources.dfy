/** The article library: category tabs, text search, featured articles and the article view. */
module Resources {
  import opened Wrappers
  import opened Text
  import opened Seqs

  /** An article card; an article without a `featured` flag counts as not featured. */
  datatype Article = Article(
    id: int, title: string, description: string, category: string, readTime: string,
    image: string, featured: bool)

  /** The articles the panel lists. */
  const MockArticles: seq<Article> := [
    Article(1, "Understanding Anxiety: Symptoms and Management",
      "Learn about common anxiety symptoms and effective strategies for managing them in your daily life.",
      "Mental Health", "5 min", "/images/article1.jpg", true),
    Article(2, "The Science of Sleep: How Rest Affects Mental Health",
      "Explore the crucial link between sleep quality and mental wellbeing, plus tips for better sleep hygiene.",
      "Health", "8 min", "/images/article2.jpg", true),
    Article(3, "Mindfulness Meditation: A Beginner's Guide",
      "Start your meditation journey with this simple guide to mindfulness practices for stress reduction.",
      "Wellness", "6 min", "/images/article3.jpg", false),
    Article(4, "Recognizing Depression: Signs to Watch For",
      "Understanding the common signs of depression and when to seek professional help.",
      "Mental Health", "7 min", "/images/article4.jpg", false),
    Article(5, "Nutritional Psychiatry: Food and Mood",
      "How your diet choices can impact your mental health and emotional wellbeing.",
      "Health", "10 min", "/images/article5.jpg", false),
    Article(6, "Building Resilience: Bouncing Back from Setbacks",
      "Practical strategies to develop emotional resilience and cope with life's challenges.",
      "Wellness", "9 min", "/images/article6.jpg", false),
    Article(7, "The Psychology of Social Media Use",
      "Understanding how social media affects our mental health and relationships.",
      "Digital Wellbeing", "12 min", "/images/article7.jpg", false),
    Article(8, "Supporting a Loved One with Mental Illness",
      "Guidance for family members and friends of those experiencing mental health challenges.",
      "Relationships", "8 min", "/images/article8.jpg", false),
    Article(9, "Stress Management Techniques for Busy Professionals",
      "Effective strategies to manage workplace stress and prevent burnout.",
      "Workplace", "7 min", "/images/article9.jpg", false)
  ]

  /** The tab that disables the category test. */
  const AllTab := "all"

  /** The lower-cased category of every article, in list order. */
  function CategoryKeys(articles: seq<Article>): (r: seq<string>)
    ensures |r| == |articles|
    ensures forall i :: 0 <= i < |articles| ==> r[i] == Lower(articles[i].category)
  {
    seq(|articles|, i requires 0 <= i < |articles| => Lower(articles[i].category))
  }

  /** `categories`: the sentinel tab, then each lower-cased category once, in order of first occurrence. */
  function Categories(articles: seq<Article>): (r: seq<string>)
    ensures 1 <= |r| <= |articles| + 1 && r[0] == AllTab
  {
    [AllTab] + Distinct(CategoryKeys(articles))
  }

  /** The tabs after the sentinel are exactly the lower-cased categories, each once, in the
      order in which they first occur in the article list. */
  lemma CategoriesSpec(articles: seq<Article>)
    ensures var cs := Categories(articles);
      && |cs| >= 1 && cs[0] == AllTab
      && NoDuplicates(cs[1..])
      && IsSubsequence(cs[1..], CategoryKeys(articles))
      && (forall k :: 1 <= k < |cs| ==> exists j :: 0 <= j < |articles| && Lower(articles[j].category) == cs[k])
      && (forall j :: 0 <= j < |articles| ==> Lower(articles[j].category) in cs[1..])
      && InFirstOccurrenceOrder(cs[1..], CategoryKeys(articles))
  {
    var cs := Categories(articles);
    assert cs[1..] == Distinct(CategoryKeys(articles));
    DistinctIsSubsequence(CategoryKeys(articles));
    DistinctInFirstOccurrenceOrder(CategoryKeys(articles));
    forall k | 1 <= k < |cs| ensures exists j :: 0 <= j < |articles| && Lower(articles[j].category) == cs[k] {
      assert cs[k] == cs[1..][k - 1];
      var j :| 0 <= j < |CategoryKeys(articles)| && CategoryKeys(articles)[j] == cs[k];
    }
  }

  /** The category test: the sentinel tab, or the tab equals the lower-cased category. */
  predicate MatchesCategory(a: Article, tab: string)
  {
    tab == AllTab || Lower(a.category) == tab
  }

  /** The text test: the lower-cased query occurs in the lower-cased title or description. */
  predicate MatchesSearch(a: Article, query: string)
  {
    Includes(Lower(a.title), Lower(query)) || Includes(Lower(a.description), Lower(query))
  }

  /** `filteredArticles`. */
  function FilteredArticles(articles: seq<Article>, tab: string, query: string): (r: seq<Article>)
    ensures forall i :: 0 <= i < |r| ==> r[i] in articles && MatchesCategory(r[i], tab) && MatchesSearch(r[i], query)
    ensures forall i :: 0 <= i < |articles| && MatchesCategory(articles[i], tab) && MatchesSearch(articles[i], query)
                        ==> articles[i] in r
  {
    Filter(articles, a => MatchesCategory(a, tab) && MatchesSearch(a, query))
  }

  /** The list keeps article order; the sentinel tab with an empty query lists every article. */
  lemma FilteredArticlesOrder(articles: seq<Article>, tab: string, query: string)
    ensures IsSubsequence(FilteredArticles(articles, tab, query), articles)
    ensures tab == AllTab && query == "" ==> FilteredArticles(articles, tab, query) == articles
  {
    var p := a => MatchesCategory(a, tab) && MatchesSearch(a, query);
    FilterIsSubsequence(articles, p);
    if tab == AllTab && query == "" {
      forall i | 0 <= i < |articles| ensures p(articles[i]) {
        IncludesEmpty(Lower(articles[i].title));
      }
      FilterKeepsAll(articles, p);
    }
  }

  /** With an empty query, an article is listed under its own category tab and under the sentinel tab. */
  lemma ListedUnderOwnTab(articles: seq<Article>, j: nat)
    requires j < |articles|
    ensures articles[j] in FilteredArticles(articles, Lower(articles[j].category), "")
    ensures articles[j] in FilteredArticles(articles, AllTab, "")
  {
    IncludesEmpty(Lower(articles[j].title));
    assert MatchesSearch(articles[j], "");
  }

  /** With an empty query no category tab is empty, and neither is the sentinel tab
      unless there are no articles at all. */
  lemma EveryTabSelectsAnArticle(articles: seq<Article>, k: nat)
    requires k < |Categories(articles)|
    ensures k > 0 || |articles| > 0 ==> |FilteredArticles(articles, Categories(articles)[k], "")| > 0
  {
    CategoriesSpec(articles);
    var cs := Categories(articles);
    if k > 0 {
      var j :| 0 <= j < |articles| && Lower(articles[j].category) == cs[k];
      ListedUnderOwnTab(articles, j);
    } else if |articles| > 0 {
      ListedUnderOwnTab(articles, 0);
    }
  }

  /** `featuredArticles`: the flagged articles, in order; it depends on the list alone. */
  function Featured(articles: seq<Article>): (r: seq<Article>)
    ensures forall i :: 0 <= i < |r| ==> r[i] in articles && r[i].featured
    ensures forall i :: 0 <= i < |articles| && articles[i].featured ==> articles[i] in r
  {
    Filter(articles, (a: Article) => a.featured)
  }

  /** The featured list is a subsequence of the article list. */
  lemma FeaturedOrder(articles: seq<Article>)
    ensures IsSubsequence(Featured(articles), articles)
  {
    FilterIsSubsequence(articles, (a: Article) => a.featured);
  }

  /** The text of a category tab button. */
  function TabLabel(category: string): (r: string)
    ensures category == AllTab ==> r == "All"
    ensures category != AllTab ==> |r| == |category|
    ensures category != AllTab && |category| > 0 ==> r[0] == UpperChar(category[0]) && r[1..] == category[1..]
  {
    if category == AllTab then "All" else UpperFirst(category)
  }

  /** What the panel shows: one article, or the library. */
  datatype View = ArticleView(articleId: int) | LibraryView(featured: seq<Article>, tabs: seq<string>, listed: seq<Article>)

  /** The library panel's state. */
  class ResourcesPanel {
    var activeTab: string
    var searchQuery: string
    var selectedArticleId: Option<int>
    const articles: seq<Article>

    constructor ()
      ensures activeTab == AllTab && searchQuery == "" && selectedArticleId == None && articles == MockArticles
    {
      activeTab, searchQuery, selectedArticleId := AllTab, "", None;
      articles := MockArticles;
    }

    /** The article view while an article is selected, the library otherwise. */
    function CurrentView(): (v: View)
      reads this
      ensures selectedArticleId.Some? <==> v.ArticleView?
      ensures v.ArticleView? ==> v.articleId == selectedArticleId.value
      ensures v.LibraryView? ==>
        v.featured == Featured(articles) && v.tabs == Categories(articles)
        && v.listed == FilteredArticles(articles, activeTab, searchQuery)
    {
      match selectedArticleId
      case Some(id) => ArticleView(id)
      case None => LibraryView(Featured(articles), Categories(articles), FilteredArticles(articles, activeTab, searchQuery))
    }

    /** A category tab button. */
    method SelectTab(category: string)
      modifies this
      ensures activeTab == category && searchQuery == old(searchQuery) && selectedArticleId == old(selectedArticleId)
    {
      activeTab := category;
    }

    /** Typing in the search box. */
    method SetSearchQuery(q: string)
      modifies this
      ensures searchQuery == q && activeTab == old(activeTab) && selectedArticleId == old(selectedArticleId)
    {
      searchQuery := q;
    }

    /** 'Read' on a card (featured or listed). */
    method ReadArticle(articleId: int)
      modifies this
      ensures selectedArticleId == Some(articleId) && activeTab == old(activeTab) && searchQuery == old(searchQuery)
    {
      selectedArticleId := Some(articleId);
    }

    /** An `openArticle` event dispatched by another panel. */
    method OpenArticleEvent(articleId: int)
      modifies this
      ensures selectedArticleId == Some(articleId) && activeTab == old(activeTab) && searchQuery == old(searchQuery)
    {
      selectedArticleId := Some(articleId);
    }

    /** The article view's back button. */
    method BackToArticles()
      modifies this
      ensures selectedArticleId == None && activeTab == old(activeTab) && searchQuery == old(searchQuery)
    {
      selectedArticleId := None;
    }
  }
}
