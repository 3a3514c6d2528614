/** Version 1.2.0 of the router, the earlier shape of the same class: no
    default context and no default template, `create_url` always takes a
    page, and the rewrite rule's page class has no '_'. The resolver and
    the body-class filter are the ones in `Routing`. */
module LegacyTemplateRouter {
  import opened Wrappers
  import opened PhpStrings
  import opened CharClass
  import opened WordPressHost
  import opened Routing
  import TemplateRouter

  /** The class's static state: the routes by name and the resolved-items log. */
  datatype Registry = Registry(instances: map<string, Route>, currentItems: seq<Item>)

  const EmptyRegistry: Registry := Registry(map[], [])

  /** Every stored route sits under its own name and is normalised. */
  predicate Valid(reg: Registry) {
    forall name :: name in reg.instances ==> reg.instances[name].context == name && Normalised(reg.instances[name])
  }

  /** `register_context`: stores a fresh route under its name, replacing any
      earlier one and leaving every other entry alone. */
  function RegisterContext(
    reg: Registry, context: string, magicFolder: string, templatePath: string,
    magicPage: string, templateSubfolder: string
  ): (r: Registry)
    ensures r.instances == reg.instances[context := NewRoute(context, magicFolder, templatePath, magicPage, templateSubfolder)]
    ensures r.currentItems == reg.currentItems
  {
    reg.(instances := reg.instances[context := NewRoute(context, magicFolder, templatePath, magicPage, templateSubfolder)])
  }

  /** Registration keeps the registry `Valid`. */
  lemma RegisterContextPreservesValid(
    reg: Registry, context: string, magicFolder: string, templatePath: string,
    magicPage: string, templateSubfolder: string
  )
    ensures Valid(reg) ==> Valid(RegisterContext(reg, context, magicFolder, templatePath, magicPage, templateSubfolder))
  {
    if !Valid(reg) { return; }
    var r := RegisterContext(reg, context, magicFolder, templatePath, magicPage, templateSubfolder);
    forall name | name in r.instances
      ensures r.instances[name].context == name && Normalised(r.instances[name])
    {
      if name != context {
        assert r.instances[name] == reg.instances[name];
      }
    }
  }

  /** The registry before any registration is valid and has logged nothing. */
  lemma EmptyRegistryValid()
    ensures Valid(EmptyRegistry) && GetCurrentItems(EmptyRegistry) == []
    ensures forall name :: GetInstance(EmptyRegistry, name) == None
  {
  }

  /** Registering with `register_context`'s default page variable and subfolder
      gives a route that reads the page from `page` and looks for
      `<path>/templates/<page>.php`. */
  lemma RegisterWithDefaults(reg: Registry, context: string, magicFolder: string, templatePath: string, page: string)
    ensures var r := RegisterContext(reg, context, magicFolder, templatePath, DefaultMagicPage, DefaultTemplateSubfolder);
            && r.instances[context].magicPage == "page"
            && TemplateFile(r.instances[context], page) == Untrailingslashit(templatePath) + "/templates/" + page + ".php"
  {
    NewRouteDefaults(context, magicFolder, templatePath, page);
  }

  /** `get_instance`: the route registered under exactly this name, or `null`;
      there is no default to fall back to. */
  function GetInstance(reg: Registry, context: string): (r: Option<Route>)
    ensures r.Some? <==> context in reg.instances
    ensures r.Some? ==> r.value == reg.instances[context]
  {
    if context in reg.instances then Some(reg.instances[context]) else None
  }

  /** `get_current_items`: the resolved-items log. */
  function GetCurrentItems(reg: Registry): seq<Item> {
    reg.currentItems
  }

  /** `create_url`: `prefix/folder/page/` with the query arguments added by
      the host's `add_query_arg`; the page is used as given, even when empty. */
  function CreateUrl(
    route: Route, page: string, args: seq<(string, string)>, fullyQualified: bool, server: Server,
    addQueryArg: (seq<(string, string)>, string) -> string
  ): string
  {
    addQueryArg(args, UrlPath(UrlPrefix(fullyQualified, server), route.magicFolder, page))
  }

  /** `_do_wire_rewrite_rules`: the rule routing `folder/page` to the route;
      its page class admits letters, digits and '-' only. */
  function WireRewriteRules(route: Route): (r: RewriteRule)
    ensures r.folder == route.magicFolder && r.magicPage == route.magicPage
    ensures Pattern(r) == "^" + route.magicFolder + "/([" + "a-zA-Z\\-0-9" + "]+)$"
    ensures Target(r) == "index.php?" + route.magicFolder + "=1&" + route.magicPage + "=" + "$matches[1]"
    ensures forall ch :: Matches(r.pageClass, ch) <==> IsAsciiLetter(ch) || IsDigit(ch) || ch == '-'
  {
    forall ch ensures Matches(NoUnderscoreClass, ch) <==> IsAsciiLetter(ch) || IsDigit(ch) || ch == '-' {
      NoUnderscoreClassMeaning(ch);
    }
    RewriteRule(route.magicFolder, NoUnderscoreClass, route.magicPage)
  }

  /** The result of `look_for_magic_folder`. */
  datatype Resolution = Resolution(registry: Registry, outcome: Outcome, trace: seq<Action>)

  /** `look_for_magic_folder` for `route`: the shared resolver, with the
      registry's log as the resolved-items log. */
  function LookForMagicFolder(reg: Registry, route: Route, req: Request, isFile: string -> bool, escHtml: string -> string): (r: Resolution)
    ensures r.outcome.NotApplicable? <==> !Applies(route, req)
    ensures r.registry.instances == reg.instances
    ensures !r.outcome.Included? ==> r.registry == reg && r.trace == []
    ensures r.outcome.Included? ==>
              GetCurrentItems(r.registry) == GetCurrentItems(reg) + [Item(route.context, route.templateSubfolder, r.outcome.page)]
    ensures r.outcome.Included? ==> |r.trace| == 7 && r.trace[3] == OverrideTemplate(TemplateFile(route, r.outcome.page))
    ensures var step := Resolve(route, req, isFile, escHtml, reg.currentItems);
            r.outcome == step.outcome && r.trace == step.trace
  {
    var step := Resolve(route, req, isFile, escHtml, reg.currentItems);
    if step.outcome.Included? then
      Resolution(reg.(currentItems := step.log), step.outcome, step.trace)
    else
      Resolution(reg, step.outcome, step.trace)
  }

  /** A registered route is what `get_instance` returns for its name, and a
      second registration under the name replaces it. */
  lemma RegisterThenGet(
    reg: Registry, context: string,
    folder1: string, path1: string, page1: string, sub1: string,
    folder2: string, path2: string, page2: string, sub2: string
  )
    ensures var r1 := RegisterContext(reg, context, folder1, path1, page1, sub1);
            var r2 := RegisterContext(r1, context, folder2, path2, page2, sub2);
            && GetInstance(r1, context) == Some(NewRoute(context, folder1, path1, page1, sub1))
            && GetInstance(r2, context) == Some(NewRoute(context, folder2, path2, page2, sub2))
  {
  }

  /** An empty name is looked up like any other: there is no default. */
  lemma NoDefaultFallback(reg: Registry)
    requires "" !in reg.instances
    ensures GetInstance(reg, "") == None
  {
  }

  /** With no query arguments the URL is the prefix, then the folder and the
      page between slashes, whatever the page is. */
  lemma CreateUrlShape(
    route: Route, page: string, fullyQualified: bool, server: Server,
    addQueryArg: (seq<(string, string)>, string) -> string
  )
    requires var u := UrlPrefix(fullyQualified, server) + "/" + route.magicFolder + "/" + page + "/"; addQueryArg([], u) == u
    ensures CreateUrl(route, page, [], fullyQualified, server, addQueryArg)
            == UrlPrefix(fullyQualified, server) + "/" + route.magicFolder + "/" + page + "/"
  {
  }

  /** For a truthy page both versions build the same URL for the same route. */
  lemma CreateUrlAgreesAcrossVersions(
    route: Route, page: string, args: seq<(string, string)>, fullyQualified: bool, server: Server,
    addQueryArg: (seq<(string, string)>, string) -> string
  )
    requires Truthy(page)
    ensures TemplateRouter.CreateUrl(TemplateRouter.Context(route, None), Some(page), args, fullyQualified, server, addQueryArg)
            == Ok(CreateUrl(route, page, args, fullyQualified, server, addQueryArg))
  {
  }

  /** A URL built for a page of letters, digits and '-' comes back through
      the route's rewrite rule as the router's query variables, and the
      resolver then acts on exactly that page. */
  lemma CreatedUrlReachesResolver(
    route: Route, page: string, server: Server,
    addQueryArg: (seq<(string, string)>, string) -> string,
    isFile: string -> bool, escHtml: string -> string, log: seq<Item>
  )
    requires PlainName(route.magicFolder) && PlainName(route.magicPage) && route.magicFolder != route.magicPage
    requires |page| > 0 && forall i :: 0 <= i < |page| ==> IsAsciiLetter(page[i]) || IsDigit(page[i]) || page[i] == '-'
    requires var u := "/" + route.magicFolder + "/" + page + "/"; addQueryArg([], u) == u
    ensures CreateUrl(route, page, [], false, server, addQueryArg) == "/" + route.magicFolder + "/" + page + "/"
    ensures var vars := map[route.magicFolder := "1", route.magicPage := page];
            && ApplyRule(WireRewriteRules(route), RequestPath("/" + route.magicFolder + "/" + page + "/")) == Some(vars)
            && Applies(route, Request(true, vars))
            && RequestedPage(route, Request(true, vars)) == page
  {
    RelativeUrlPath(server, route.magicFolder, page);
    assert PlainName(page);
    var rule := WireRewriteRules(route);
    RequestPathOfUrl(route.magicFolder, page);
    assert forall i :: 0 <= i < |page| ==> Matches(rule.pageClass, page[i]);
    ApplyRuleRoundTrip(rule, page);
    ResolveRuleVars(route, page, isFile, escHtml, log);
  }

  /** Without '_' in the page class, no path matched by the rule can name the
      header or footer template: the resolver's reserved-name guard is only
      reached through a plain query string, never through a rewritten URL. */
  lemma RuleNeverCapturesReservedPage(route: Route, path: string)
    ensures var m := MatchRule(WireRewriteRules(route), path);
            m.Some? ==> !IsReserved(m.value)
  {
    var rule := WireRewriteRules(route);
    var m := MatchRule(rule, path);
    ReservedNamesArePlain();
    if m.Some? && |m.value| > 2 {
      assert Matches(rule.pageClass, m.value[2]);
      assert m.value[2] != '_';
    }
  }
}
