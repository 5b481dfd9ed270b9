/**
 * Properties of the Backend Apps page: how the three named category tabs
 * split the catalogue, and what the search box keeps.
 */
module BackendAppsFacts {
  import opened AppCard
  import opened JsString
  import opened JsArray
  import opened BackendApps

  /** The names of a list of apps, in order. */
  ghost function Names(apps: seq<DjangoApp>): seq<string> {
    seq(|apps|, i requires 0 <= i < |apps| => apps[i].name)
  }

  /** The names of an app's models, in order. */
  ghost function ModelNames(app: DjangoApp): seq<string> {
    seq(|app.models|, i requires 0 <= i < |app.models| => app.models[i].name)
  }

  /** The twelve app names the page heading counts, in catalogue order. */
  const CatalogueAppNames: seq<string> := [
    "accounts", "projects", "code_gen", "github_integration", "payments", "credits",
    "agents", "classifiers", "interstitials", "lm_apis", "api", "fly_io"]

  // ---------------------------------------------------------------------------
  // The catalogue and its category name lists
  // ---------------------------------------------------------------------------

  /** The catalogue holds twelve apps, with these names in this order. */
  lemma CatalogueNames()
    ensures |DjangoApps| == 12
    ensures Names(DjangoApps) == CatalogueAppNames
  {
  }

  /** No two apps of the catalogue share a name. */
  lemma CatalogueNamesDistinct()
    ensures forall i, j :: 0 <= i < j < |DjangoApps| ==> DjangoApps[i].name != DjangoApps[j].name
  {
  }

  /** The three name lists are pairwise disjoint and together name exactly the catalogue. */
  lemma CategoryNameListsPartition()
    ensures forall n :: n in CoreAppNames ==> n !in IntegrationAppNames && n !in InfrastructureAppNames
    ensures forall n :: n in IntegrationAppNames ==> n !in InfrastructureAppNames
    ensures forall n :: n in CatalogueAppNames <==>
      n in CoreAppNames || n in IntegrationAppNames || n in InfrastructureAppNames
  {
  }

  /** Every app of a list named like the catalogue carries one of the twelve names. */
  lemma CatalogueAppName(apps: seq<DjangoApp>, app: DjangoApp)
    requires Names(apps) == CatalogueAppNames && app in apps
    ensures app.name in CatalogueAppNames
  {
    var i :| 0 <= i < |apps| && apps[i] == app;
    assert Names(apps)[i] == app.name;
  }

  /** How many of the three named tabs list `app`, over the catalogue `apps`. */
  function TabsListing(apps: seq<DjangoApp>, app: DjangoApp): nat {
    (if app in CategoryApps(apps, "Core") then 1 else 0)
    + (if app in CategoryApps(apps, "Integration") then 1 else 0)
    + (if app in CategoryApps(apps, "Infrastructure") then 1 else 0)
  }

  /** Over a list named like the catalogue, each of its apps is in exactly one named tab, any other app in none. */
  lemma TabsListingExactlyOne(apps: seq<DjangoApp>, app: DjangoApp)
    requires Names(apps) == CatalogueAppNames
    ensures TabsListing(apps, app) == if app in apps then 1 else 0
  {
    CategoryNameListsPartition();
    if app in apps {
      CatalogueAppName(apps, app);
    }
  }

  /** Over a list named like the catalogue, the three named tabs together hold `app` as often as the list does. */
  lemma CategoriesPartitionAt(apps: seq<DjangoApp>, app: DjangoApp)
    requires Names(apps) == CatalogueAppNames
    ensures multiset(CategoryApps(apps, "Core"))[app] + multiset(CategoryApps(apps, "Integration"))[app]
      + multiset(CategoryApps(apps, "Infrastructure"))[app] == multiset(apps)[app]
  {
    assert CategoryApps(apps, "Core") == AppsNamed(apps, CoreAppNames);
    assert CategoryApps(apps, "Integration") == AppsNamed(apps, IntegrationAppNames);
    assert CategoryApps(apps, "Infrastructure") == AppsNamed(apps, InfrastructureAppNames);
    if app in apps {
      CatalogueAppName(apps, app);
      CategoryNameListsPartition();
    }
  }

  /** Over a list named like the catalogue, the three named tabs together hold each app as often as the list does. */
  lemma CategoriesPartition(apps: seq<DjangoApp>)
    requires Names(apps) == CatalogueAppNames
    ensures multiset(CategoryApps(apps, "Core")) + multiset(CategoryApps(apps, "Integration"))
      + multiset(CategoryApps(apps, "Infrastructure")) == multiset(apps)
  {
    var core, integration, infrastructure :=
      CategoryApps(apps, "Core"), CategoryApps(apps, "Integration"), CategoryApps(apps, "Infrastructure");
    forall app
      ensures (multiset(core) + multiset(integration) + multiset(infrastructure))[app] == multiset(apps)[app]
    {
      CategoriesPartitionAt(apps, app);
    }
    assert multiset(core) + multiset(integration) + multiset(infrastructure) == multiset(apps);
  }

  /**
   * The page's three named tabs split its catalogue: together they hold every
   * app exactly as often as the catalogue does, so sizes add up to twelve.
   */
  lemma CategoriesPartitionCatalogue()
    ensures multiset(CategoryApps(DjangoApps, "Core")) + multiset(CategoryApps(DjangoApps, "Integration"))
      + multiset(CategoryApps(DjangoApps, "Infrastructure")) == multiset(DjangoApps)
    ensures |CategoryApps(DjangoApps, "Core")| + |CategoryApps(DjangoApps, "Integration")|
      + |CategoryApps(DjangoApps, "Infrastructure")| == 12
  {
    CatalogueNames();
    CategoriesPartition(DjangoApps);
    assert |multiset(DjangoApps)| == 12;
  }

  /** Each app of the page's catalogue is listed by exactly one named tab. */
  lemma CatalogueAppInExactlyOneTab(app: DjangoApp)
    requires app in DjangoApps
    ensures TabsListing(DjangoApps, app) == 1
  {
    CatalogueNames();
    TabsListingExactlyOne(DjangoApps, app);
  }

  /** Over a list named like the catalogue, no category tab is empty. */
  lemma NoEmptyCategory(apps: seq<DjangoApp>, category: string)
    requires Names(apps) == CatalogueAppNames
    ensures |CategoryApps(apps, category)| > 0
  {
    assert apps[0].name == "accounts" && apps[3].name == "github_integration" && apps[6].name == "agents" by {
      assert Names(apps)[0] == apps[0].name && Names(apps)[3] == apps[3].name && Names(apps)[6] == apps[6].name;
    }
    var member := if category == "Integration" then apps[3]
      else if category == "Infrastructure" then apps[6]
      else apps[0];
    assert member in CategoryApps(apps, category);
  }

  /** With an empty search box every tab of the page shows its whole category, and none is empty. */
  lemma NoEmptyTabWithoutQuery(category: string)
    ensures TabApps(category, "") == CategoryApps(DjangoApps, category)
    ensures |TabApps(category, "")| > 0
  {
    CatalogueNames();
    NoEmptyCategory(DjangoApps, category);
  }

  // ---------------------------------------------------------------------------
  // The search box
  // ---------------------------------------------------------------------------

  /**
   * For a non-empty query, an app of the list is kept exactly when the
   * lower-cased query occurs at some position of its lower-cased name, of its
   * lower-cased purpose, or of the lower-cased name of one of its models.
   */
  lemma FilterAppsKeepsExactly(apps: seq<DjangoApp>, searchQuery: string, app: DjangoApp)
    requires searchQuery != "" && app in apps
    ensures var query := Lower(searchQuery);
      app in FilterApps(apps, searchQuery) <==>
        || OccursIn(Lower(app.name), query)
        || OccursIn(Lower(app.purpose), query)
        || exists m :: m in app.models && OccursIn(Lower(m.name), query)
  {
    var query := Lower(searchQuery);
    IncludesIff(Lower(app.name), query);
    IncludesIff(Lower(app.purpose), query);
    forall m | m in app.models
      ensures Includes(Lower(m.name), query) <==> OccursIn(Lower(m.name), query)
    {
      IncludesIff(Lower(m.name), query);
    }
  }

  /** Each app the search keeps occurs as often as in the input; the others not at all. */
  lemma FilterAppsCounts(apps: seq<DjangoApp>, searchQuery: string, app: DjangoApp)
    ensures multiset(FilterApps(apps, searchQuery))[app] ==
      if searchQuery == "" || Matches(app, Lower(searchQuery)) then multiset(apps)[app] else 0
  {
    if searchQuery != "" {
      FilterCount(apps, SearchTest(Lower(searchQuery)), app);
    }
  }

  /**
   * Only the name, the purpose and the model names are searched: two apps that
   * agree on those (whatever their directory, icon, colour, key files or model
   * descriptions) match the same queries.
   */
  lemma SearchReadsOnlyNamePurposeModels(a: DjangoApp, b: DjangoApp, query: string)
    requires a.name == b.name && a.purpose == b.purpose && ModelNames(a) == ModelNames(b)
    ensures Matches(a, query) == Matches(b, query)
  {
    assert |a.models| == |ModelNames(a)| == |ModelNames(b)| == |b.models|;
    if m :| m in a.models && Includes(Lower(m.name), query) {
      var i :| 0 <= i < |a.models| && a.models[i] == m;
      assert ModelNames(a)[i] == m.name == ModelNames(b)[i] == b.models[i].name;
      assert b.models[i] in b.models;
    }
    if m :| m in b.models && Includes(Lower(m.name), query) {
      var i :| 0 <= i < |b.models| && b.models[i] == m;
      assert ModelNames(b)[i] == m.name == ModelNames(a)[i] == a.models[i].name;
      assert a.models[i] in a.models;
    }
  }

  /** Searching the result of a search again with the same text changes nothing. */
  lemma FilterAppsIdempotent(apps: seq<DjangoApp>, searchQuery: string)
    ensures FilterApps(FilterApps(apps, searchQuery), searchQuery) == FilterApps(apps, searchQuery)
  {
    if searchQuery != "" {
      FilterIdempotent(apps, SearchTest(Lower(searchQuery)));
    }
  }

  /** The search ignores ASCII case: queries with the same lower-case form keep the same apps. */
  lemma FilterAppsCaseInsensitive(apps: seq<DjangoApp>, q1: string, q2: string)
    requires Lower(q1) == Lower(q2)
    ensures FilterApps(apps, q1) == FilterApps(apps, q2)
  {
  }

  /** Typing any contiguous part of an app's name into the search box keeps that app. */
  lemma SearchFindsNamePart(apps: seq<DjangoApp>, app: DjangoApp, i: nat, j: nat)
    requires app in apps && i <= j <= |app.name|
    ensures app in FilterApps(apps, app.name[i..j])
  {
    var searchQuery := app.name[i..j];
    if searchQuery != "" {
      LowerSlice(app.name, i, j);
      IncludesSlice(Lower(app.name), i, j);
    }
  }

  /**
   * Whatever the search text, searching a category of `apps` keeps a
   * subsequence of what searching all of `apps` keeps.
   */
  lemma SearchWithinAll(apps: seq<DjangoApp>, category: string, searchQuery: string)
    ensures IsSubsequence(FilterApps(CategoryApps(apps, category), searchQuery), FilterApps(apps, searchQuery))
    ensures forall app :: app in FilterApps(CategoryApps(apps, category), searchQuery) ==>
      app in FilterApps(apps, searchQuery)
  {
    var tab, all := FilterApps(CategoryApps(apps, category), searchQuery), FilterApps(apps, searchQuery);
    if searchQuery != "" {
      FilterMonotone(CategoryApps(apps, category), apps, SearchTest(Lower(searchQuery)));
    }
    SubsequenceMultiset(tab, all);
    forall app | app in tab
      ensures app in all
    {
      assert multiset(tab)[app] > 0;
    }
  }

  /**
   * On the page, whatever the search text, a category tab shows a subsequence
   * of what the "All" tab shows: every app it lists is listed there too.
   */
  lemma TabWithinAllTab(category: string, searchQuery: string)
    ensures IsSubsequence(TabApps(category, searchQuery), TabApps("All", searchQuery))
    ensures forall app :: app in TabApps(category, searchQuery) ==> app in TabApps("All", searchQuery)
  {
    SearchWithinAll(DjangoApps, category, searchQuery);
  }
}
