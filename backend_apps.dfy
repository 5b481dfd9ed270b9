/**
 * The Backend Apps catalogue page: the fixed list of twelve backend apps, the
 * category tabs that pick a sublist of it, and the search box that narrows a
 * tab's list by a case-insensitive substring match.
 */
module BackendApps {
  import opened AppCard
  import opened JsString
  import opened JsArray

  // The twelve apps of the catalogue, one constant each.

  const AccountsApp: DjangoApp :=
    DjangoApp(
    "accounts", "accounts/",
    "User authentication and management with social OAuth providers",
    "database", "blue",
    [
      NamedItem("User", "Custom user model with social auth fields"),
      NamedItem("UserProfile", "Extended user profile information")
    ],
    [
      NamedItem("models.py", "User and profile models"),
      NamedItem("views.py", "Authentication endpoints"),
      NamedItem("serializers.py", "User data serialization")
    ])

  const ProjectsApp: DjangoApp :=
    DjangoApp(
    "projects", "projects/",
    "Project and file management with version control",
    "code", "green",
    [
      NamedItem("Project", "User projects with GitHub integration"),
      NamedItem("ProjectFile", "Individual files within projects"),
      NamedItem("ProjectAsset", "Images and binary assets")
    ],
    [
      NamedItem("models.py", "Project and file models"),
      NamedItem("views.py", "CRUD operations"),
      NamedItem("serializers.py", "Project data serialization")
    ])

  const CodeGenApp: DjangoApp :=
    DjangoApp(
    "code_gen", "code_gen/",
    "AI code generation core with conversation management",
    "code", "purple",
    [
      NamedItem("Conversation", "AI chat conversations"),
      NamedItem("ChatMessage", "Individual messages with streaming"),
      NamedItem("ConversationTemplate", "Reusable conversation templates")
    ],
    [
      NamedItem("models.py", "Conversation and message models"),
      NamedItem("views.py", "Message streaming endpoints"),
      NamedItem("system_prompt.py", "Prompt generation logic"),
      NamedItem("consumers.py", "WebSocket consumers")
    ])

  const GithubIntegrationApp: DjangoApp :=
    DjangoApp(
    "github_integration", "github_integration/",
    "GitHub repository connectivity and synchronization",
    "code", "blue",
    [
      NamedItem("GitHubRepository", "Connected GitHub repos"),
      NamedItem("GitHubWebhook", "Webhook event handlers")
    ],
    [
      NamedItem("models.py", "GitHub connection models"),
      NamedItem("views.py", "Repo creation and sync"),
      NamedItem("github_client.py", "GitHub API wrapper")
    ])

  const PaymentsApp: DjangoApp :=
    DjangoApp(
    "payments", "payments/",
    "Stripe payment processing and subscription management",
    "database", "green",
    [
      NamedItem("StripeCustomer", "Stripe customer records"),
      NamedItem("PaymentIntent", "Payment transaction records"),
      NamedItem("Subscription", "Recurring subscriptions")
    ],
    [
      NamedItem("models.py", "Payment models"),
      NamedItem("views.py", "Payment endpoints"),
      NamedItem("stripe_client.py", "Stripe API integration"),
      NamedItem("webhooks.py", "Stripe webhook handlers")
    ])

  const CreditsApp: DjangoApp :=
    DjangoApp(
    "credits", "credits/",
    "Usage tracking and credit balance management",
    "database", "purple",
    [
      NamedItem("CreditBalance", "User credit balances"),
      NamedItem("CreditTransaction", "Credit usage history"),
      NamedItem("CreditPackage", "Purchasable credit packages")
    ],
    [
      NamedItem("models.py", "Credit models"),
      NamedItem("views.py", "Credit management endpoints"),
      NamedItem("usage_tracker.py", "Usage metering logic")
    ])

  const AgentsApp: DjangoApp :=
    DjangoApp(
    "agents", "agents/",
    "AI agent orchestration and multi-agent workflows",
    "code", "blue",
    [
      NamedItem("Agent", "Agent definitions and configurations"),
      NamedItem("AgentTool", "Available tools for agents"),
      NamedItem("AgentExecution", "Agent execution history")
    ],
    [
      NamedItem("models.py", "Agent models"),
      NamedItem("orchestrator.py", "Multi-agent coordination"),
      NamedItem("tools.py", "Tool definitions")
    ])

  const ClassifiersApp: DjangoApp :=
    DjangoApp(
    "classifiers", "classifiers/",
    "ML-based content classification and intent detection",
    "database", "green",
    [
      NamedItem("ClassificationResult", "Classification outputs"),
      NamedItem("ClassifierModel", "Trained classifier metadata")
    ],
    [
      NamedItem("models.py", "Classifier models"),
      NamedItem("intent_classifier.py", "Intent detection logic"),
      NamedItem("safety_classifier.py", "Content safety checks")
    ])

  const InterstitialsApp: DjangoApp :=
    DjangoApp(
    "interstitials", "interstitials/",
    "User notifications, modals, and onboarding flows",
    "settings", "purple",
    [
      NamedItem("Interstitial", "Notification/modal definitions"),
      NamedItem("UserInterstitialState", "User interaction tracking")
    ],
    [
      NamedItem("models.py", "Interstitial models"),
      NamedItem("views.py", "Interstitial delivery endpoints"),
      NamedItem("triggers.py", "Display trigger logic")
    ])

  const LmApisApp: DjangoApp :=
    DjangoApp(
    "lm_apis", "lm_apis/",
    "Language model API integrations and response parsing",
    "code", "blue",
    [],
    [
      NamedItem("anthropic_client.py", "Claude API wrapper"),
      NamedItem("streaming.py", "SSE streaming handler"),
      NamedItem("token_counter.py", "Token counting utilities"),
      NamedItem("response_parser.py", "Response parsing logic")
    ])

  const ApiApp: DjangoApp :=
    DjangoApp(
    "api", "api/",
    "General API utilities and common endpoints",
    "settings", "green",
    [],
    [
      NamedItem("views.py", "Common API views"),
      NamedItem("serializers.py", "Shared serializers"),
      NamedItem("urls.py", "API routing"),
      NamedItem("permissions.py", "Custom permissions")
    ])

  const FlyIoApp: DjangoApp :=
    DjangoApp(
    "fly_io", "fly_io/",
    "Preview deployment system with Fly.io integration",
    "code", "purple",
    [],
    [
      NamedItem("deploy.py", "Deployment orchestration"),
      NamedItem("fly_api.py", "Fly.io API client"),
      NamedItem("dockerfile_template.py", "Dynamic Dockerfile generation")
    ])

  /** The catalogue, in the order the page lists it. */
  const DjangoApps: seq<DjangoApp> := [
    AccountsApp, ProjectsApp, CodeGenApp, GithubIntegrationApp, PaymentsApp, CreditsApp,
    AgentsApp, ClassifiersApp, InterstitialsApp, LmApisApp, ApiApp, FlyIoApp
  ]

  /** The tab labels, in the order the tab bar shows them. */
  const Categories: seq<string> := ["All", "Core", "Integration", "Infrastructure"]

  /** The app names each named category tab keeps. */
  const CoreAppNames: seq<string> := ["accounts", "projects", "code_gen", "credits"]
  const IntegrationAppNames: seq<string> := ["github_integration", "payments", "lm_apis", "api"]
  const InfrastructureAppNames: seq<string> := ["agents", "classifiers", "interstitials", "fly_io"]

  /**
   * `apps.filter((app) => names.includes(app.name))`: the apps, in order,
   * whose name is one of `names`.
   */
  function AppsNamed(apps: seq<DjangoApp>, names: seq<string>): (r: seq<DjangoApp>)
    ensures IsSubsequence(r, apps)
    ensures forall app :: app in r <==> app in apps && app.name in names
    ensures forall app :: multiset(r)[app] == if app.name in names then multiset(apps)[app] else 0
  {
    var p := NameTest(names);
    FilterSubsequence(apps, p);
    forall app
      ensures app in Filter(apps, p) <==> app in apps && p(app)
      ensures multiset(Filter(apps, p))[app] == if p(app) then multiset(apps)[app] else 0
    {
      FilterMembers(apps, p, app);
      FilterCount(apps, p, app);
    }
    Filter(apps, p)
  }

  /** The test a named category applies: `(app) => names.includes(app.name)`. */
  function NameTest(names: seq<string>): DjangoApp -> bool {
    (app: DjangoApp) => app.name in names
  }

  /**
   * `getCategoryApps(category)` over the catalogue `apps` it closes over: the
   * whole list for "All" and for any unknown label; for the three named
   * categories the apps, in order, whose name is in that category's fixed
   * name list.
   */
  function CategoryApps(apps: seq<DjangoApp>, category: string): (r: seq<DjangoApp>)
    ensures category == "All" ==> r == apps
    ensures category !in Categories ==> r == apps
    ensures IsSubsequence(r, apps)
    ensures category == "Core" ==>
      forall app :: app in r <==> app in apps && app.name in CoreAppNames
    ensures category == "Integration" ==>
      forall app :: app in r <==> app in apps && app.name in IntegrationAppNames
    ensures category == "Infrastructure" ==>
      forall app :: app in r <==> app in apps && app.name in InfrastructureAppNames
  {
    SubsequenceReflexive(apps);
    if category == "All" then apps
    else if category == "Core" then AppsNamed(apps, CoreAppNames)
    else if category == "Integration" then AppsNamed(apps, IntegrationAppNames)
    else if category == "Infrastructure" then AppsNamed(apps, InfrastructureAppNames)
    else apps
  }

  /**
   * The search test for one app against an already lower-cased query: the
   * query occurs in the lower-cased name, the lower-cased purpose, or the
   * lower-cased name of one of the app's models.
   */
  predicate Matches(app: DjangoApp, query: string) {
    || Includes(Lower(app.name), query)
    || Includes(Lower(app.purpose), query)
    || exists m :: m in app.models && Includes(Lower(m.name), query)
  }

  /**
   * `filterApps(apps)` with the search box's text `searchQuery`: an empty
   * query keeps the list as it is; otherwise the query is lower-cased once
   * and the apps that match it are kept, in order.
   */
  function FilterApps(apps: seq<DjangoApp>, searchQuery: string): (r: seq<DjangoApp>)
    ensures searchQuery == "" ==> r == apps
    ensures IsSubsequence(r, apps)
    ensures searchQuery != "" ==>
      forall app :: app in r <==> app in apps && Matches(app, Lower(searchQuery))
  {
    if searchQuery == "" then
      SubsequenceReflexive(apps);
      apps
    else
      var p := SearchTest(Lower(searchQuery));
      FilterSubsequence(apps, p);
      forall app ensures app in Filter(apps, p) <==> app in apps && p(app) {
        FilterMembers(apps, p, app);
      }
      Filter(apps, p)
  }

  /** The test the search applies to each app, for an already lower-cased query. */
  function SearchTest(query: string): DjangoApp -> bool {
    (app: DjangoApp) => Matches(app, query)
  }

  /** What one category tab of the page shows: `filterApps(getCategoryApps(category))`. */
  function TabApps(category: string, searchQuery: string): seq<DjangoApp> {
    FilterApps(CategoryApps(DjangoApps, category), searchQuery)
  }
}
