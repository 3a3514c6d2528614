/** Version 1.3.4 of the router: named routing contexts in a process-wide
    registry with an optional default context, URL building that falls back
    to a default template, the rewrite rule each context wires, and the
    per-request resolver. The registry is a value here; each operation that
    changes it returns the new registry. */
module TemplateRouter {
  import opened Wrappers
  import opened PhpStrings
  import opened CharClass
  import opened WordPressHost
  import opened Routing

  /** A registered context: its route and, when registered as the default
      context, the template used when no page is named. */
  datatype Context = Context(route: Route, defaultTemplateName: Option<string>)

  /** The class's static state: the contexts by name, the default context's
      name, and the resolved-items log. */
  datatype Registry = Registry(
    instances: map<string, Context>,
    defaultInstanceName: Option<string>,
    currentItems: seq<Item>
  )

  /** The state before any registration. */
  const EmptyRegistry: Registry := Registry(map[], None, [])

  /** The exceptions the class throws, and the fatal error of calling a
      method that does not exist. */
  datatype RouterError = NoContextProvided | NoPageProvided | UndefinedMethod(name: string)

  /** The message each error carries. */
  function ErrorMessage(e: RouterError): string {
    match e
    case NoContextProvided => "No context provided and no default instance previously set."
    case NoPageProvided => "No page provided and no default template previously set."
    case UndefinedMethod(name) => "Call to undefined method Vendi\\Shared\\template_router::" + name + "()"
  }

  /** What registration guarantees of every stored context: it is stored
      under its own name, it is normalised, and a default template, when
      present, is truthy. */
  predicate Valid(reg: Registry) {
    forall name :: name in reg.instances ==>
      && reg.instances[name].route.context == name
      && Normalised(reg.instances[name].route)
      && (reg.instances[name].defaultTemplateName.Some? ==> Truthy(reg.instances[name].defaultTemplateName.value))
  }

  /** `set_default_instance_name`: records the default context's name, whether
      or not such a context exists. */
  function SetDefaultInstanceName(reg: Registry, name: Option<string>): (r: Registry)
    ensures r.defaultInstanceName == name
    ensures r.instances == reg.instances && r.currentItems == reg.currentItems
    ensures Valid(reg) ==> Valid(r)
  {
    reg.(defaultInstanceName := name)
  }

  /** `register_default_context`: stores a fresh context under its name,
      replacing any earlier one. A truthy template name becomes the context's
      default template and makes it the default context. */
  function RegisterDefaultContext(
    reg: Registry, context: string, magicFolder: string, templatePath: string,
    templateName: Option<string>, magicPage: string, templateSubfolder: string
  ): (r: Registry)
    ensures r.instances == reg.instances[context := Context(
              NewRoute(context, magicFolder, templatePath, magicPage, templateSubfolder),
              if TruthyOpt(templateName) then templateName else None)]
    ensures TruthyOpt(templateName) ==> r.defaultInstanceName == Some(context)
    ensures !TruthyOpt(templateName) ==> r.defaultInstanceName == reg.defaultInstanceName
    ensures r.currentItems == reg.currentItems
  {
    var route := NewRoute(context, magicFolder, templatePath, magicPage, templateSubfolder);
    if TruthyOpt(templateName) then
      // the default template is kept and `set_default_instance_name` is called
      Registry(reg.instances[context := Context(route, templateName)], Some(context), reg.currentItems)
    else
      reg.(instances := reg.instances[context := Context(route, None)])
  }

  /** Registration keeps the registry `Valid`. */
  lemma RegisterDefaultContextPreservesValid(
    reg: Registry, context: string, magicFolder: string, templatePath: string,
    templateName: Option<string>, magicPage: string, templateSubfolder: string
  )
    ensures Valid(reg) ==> Valid(RegisterDefaultContext(reg, context, magicFolder, templatePath, templateName, magicPage, templateSubfolder))
  {
    if !Valid(reg) { return; }
    var r := RegisterDefaultContext(reg, context, magicFolder, templatePath, templateName, magicPage, templateSubfolder);
    forall name | name in r.instances
      ensures r.instances[name].route.context == name && Normalised(r.instances[name].route)
      ensures r.instances[name].defaultTemplateName.Some? ==> Truthy(r.instances[name].defaultTemplateName.value)
    {
      if name != context {
        assert r.instances[name] == reg.instances[name];
      }
    }
  }

  /** Registering with `register_default_context`'s default page variable and subfolder
      gives a context that reads the page from `page` and looks for
      `<path>/templates/<page>.php`; `register_context` uses the same
      defaults. */
  lemma RegisterWithDefaults(
    reg: Registry, context: string, magicFolder: string, templatePath: string, templateName: Option<string>, page: string
  )
    ensures var r := RegisterDefaultContext(reg, context, magicFolder, templatePath, templateName, DefaultMagicPage, DefaultTemplateSubfolder);
            && r.instances[context].route.magicPage == "page"
            && TemplateFile(r.instances[context].route, page) == Untrailingslashit(templatePath) + "/templates/" + page + ".php"
    ensures var r := RegisterContext(reg, context, magicFolder, templatePath, DefaultMagicPage, DefaultTemplateSubfolder);
            && r.instances[context].route.magicPage == "page"
            && TemplateFile(r.instances[context].route, page) == Untrailingslashit(templatePath) + "/templates/" + page + ".php"
  {
    NewRouteDefaults(context, magicFolder, templatePath, page);
  }

  /** The registry before any registration is valid and has logged nothing. */
  lemma EmptyRegistryValid()
    ensures Valid(EmptyRegistry) && GetCurrentItems(EmptyRegistry) == []
    ensures GetInstance(EmptyRegistry, None) == Err(NoContextProvided)
  {
  }

  /** `register_context` as written: it calls
      `register_context_with_default_template`, which the class does not
      define, so every call ends in a fatal error. */
  function RegisterContextAsWritten(
    reg: Registry, context: string, magicFolder: string, templatePath: string,
    magicPage: string, templateSubfolder: string
  ): (r: Result<Registry, RouterError>)
    ensures r.Err?
  {
    Err(UndefinedMethod("register_context_with_default_template"))
  }

  /** `register_context` as intended: registration with no default template,
      which stores the context and leaves the default context alone. */
  function RegisterContext(
    reg: Registry, context: string, magicFolder: string, templatePath: string,
    magicPage: string, templateSubfolder: string
  ): (r: Registry)
    ensures r.instances == reg.instances[context := Context(NewRoute(context, magicFolder, templatePath, magicPage, templateSubfolder), None)]
    ensures r.defaultInstanceName == reg.defaultInstanceName
    ensures r.currentItems == reg.currentItems
    ensures Valid(reg) ==> Valid(r)
  {
    RegisterDefaultContextPreservesValid(reg, context, magicFolder, templatePath, None, magicPage, templateSubfolder);
    RegisterDefaultContext(reg, context, magicFolder, templatePath, None, magicPage, templateSubfolder)
  }

  /** `get_instance`: a falsy name means the default context, and fails when
      no default was set; a name nobody registered gives `null`. */
  function GetInstance(reg: Registry, context: Option<string>): (r: Result<Option<Context>, RouterError>)
    ensures r.Err? <==> !TruthyOpt(context) && !TruthyOpt(reg.defaultInstanceName)
    ensures r.Err? ==> r.error == NoContextProvided
    ensures r.Err? ==> ErrorMessage(r.error) == "No context provided and no default instance previously set."
    ensures r.Ok? ==>
              var name := if TruthyOpt(context) then context.value else reg.defaultInstanceName.value;
              && (r.value.Some? <==> name in reg.instances)
              && (r.value.Some? ==> r.value.value == reg.instances[name])
  {
    if !TruthyOpt(context) && !TruthyOpt(reg.defaultInstanceName) then
      Err(NoContextProvided)
    else
      var name := if TruthyOpt(context) then context.value else reg.defaultInstanceName.value;
      if name in reg.instances then Ok(Some(reg.instances[name])) else Ok(None)
  }

  /** `get_current_items`: the resolved-items log. */
  function GetCurrentItems(reg: Registry): seq<Item> {
    reg.currentItems
  }

  /** `create_url`: the page named, else the default template, else an
      error; then `prefix/folder/page/` with the query arguments added by the
      host's `add_query_arg`. */
  function CreateUrl(
    c: Context, page: Option<string>, args: seq<(string, string)>, fullyQualified: bool, server: Server,
    addQueryArg: (seq<(string, string)>, string) -> string
  ): (r: Result<string, RouterError>)
    ensures r.Err? <==> !TruthyOpt(page) && !TruthyOpt(c.defaultTemplateName)
    ensures r.Err? ==> r.error == NoPageProvided
    ensures r.Err? ==> ErrorMessage(r.error) == "No page provided and no default template previously set."
    ensures r.Ok? && TruthyOpt(page) ==>
              r.value == addQueryArg(args, UrlPath(UrlPrefix(fullyQualified, server), c.route.magicFolder, page.value))
    ensures r.Ok? && !TruthyOpt(page) ==>
              r.value == addQueryArg(args, UrlPath(UrlPrefix(fullyQualified, server), c.route.magicFolder, c.defaultTemplateName.value))
  {
    if !TruthyOpt(page) && !TruthyOpt(c.defaultTemplateName) then
      Err(NoPageProvided)
    else
      var p := if TruthyOpt(page) then page.value else c.defaultTemplateName.value;
      Ok(addQueryArg(args, UrlPath(UrlPrefix(fullyQualified, server), c.route.magicFolder, p)))
  }

  /** `_do_wire_rewrite_rules`: the rule routing `folder/page` to the
      context; its page class admits letters, digits, '-' and '_'. */
  function WireRewriteRules(c: Context): (r: RewriteRule)
    ensures r.folder == c.route.magicFolder && r.magicPage == c.route.magicPage
    ensures Pattern(r) == "^" + c.route.magicFolder + "/([" + "a-zA-Z\\-0-9_" + "]+)$"
    ensures Target(r) == "index.php?" + c.route.magicFolder + "=1&" + c.route.magicPage + "=" + "$matches[1]"
    ensures forall ch :: Matches(r.pageClass, ch) <==> IsWordChar(ch)
  {
    forall ch ensures Matches(WordClass, ch) <==> IsWordChar(ch) {
      WordClassMeaning(ch);
    }
    RewriteRule(c.route.magicFolder, WordClass, c.route.magicPage)
  }

  /** The result of `look_for_magic_folder`: the registry afterwards, how the
      request ended and the actions emitted. */
  datatype Resolution = Resolution(registry: Registry, outcome: Outcome, trace: seq<Action>)

  /** `look_for_magic_folder` for context `c`: the shared resolver, with the
      registry's log as the resolved-items log. */
  function LookForMagicFolder(reg: Registry, c: Context, req: Request, isFile: string -> bool, escHtml: string -> string): (r: Resolution)
    ensures r.outcome.NotApplicable? <==> !Applies(c.route, req)
    ensures r.registry.instances == reg.instances && r.registry.defaultInstanceName == reg.defaultInstanceName
    ensures Valid(reg) ==> Valid(r.registry)
    ensures !r.outcome.Included? ==> r.registry == reg && r.trace == []
    ensures r.outcome.Included? ==>
              GetCurrentItems(r.registry) == GetCurrentItems(reg) + [Item(c.route.context, c.route.templateSubfolder, r.outcome.page)]
    ensures r.outcome.Included? ==> |r.trace| == 7 && r.trace[3] == OverrideTemplate(TemplateFile(c.route, r.outcome.page))
    ensures var step := Resolve(c.route, req, isFile, escHtml, reg.currentItems);
            r.outcome == step.outcome && r.trace == step.trace
  {
    var step := Resolve(c.route, req, isFile, escHtml, reg.currentItems);
    if step.outcome.Included? then
      Resolution(reg.(currentItems := step.log), step.outcome, step.trace)
    else
      Resolution(reg, step.outcome, step.trace)
  }

  /** A context registered under a truthy name is what `get_instance`
      returns for that name. */
  lemma RegisterThenGet(
    reg: Registry, context: string, magicFolder: string, templatePath: string, templateName: Option<string>,
    magicPage: string, templateSubfolder: string
  )
    requires Truthy(context)
    ensures var r := RegisterDefaultContext(reg, context, magicFolder, templatePath, templateName, magicPage, templateSubfolder);
            var route := NewRoute(context, magicFolder, templatePath, magicPage, templateSubfolder);
            GetInstance(r, Some(context)) == Ok(Some(Context(route, if TruthyOpt(templateName) then templateName else None)))
  {
  }

  /** Registering twice under one name leaves only the second context. */
  lemma LastWriterWins(
    reg: Registry, context: string,
    folder1: string, path1: string, template1: Option<string>, page1: string, sub1: string,
    folder2: string, path2: string, template2: Option<string>, page2: string, sub2: string
  )
    requires Truthy(context)
    ensures var r1 := RegisterDefaultContext(reg, context, folder1, path1, template1, page1, sub1);
            var r2 := RegisterDefaultContext(r1, context, folder2, path2, template2, page2, sub2);
            && GetInstance(r2, Some(context)).Ok?
            && GetInstance(r2, Some(context)).value.Some?
            && GetInstance(r2, Some(context)).value.value.route == NewRoute(context, folder2, path2, page2, sub2)
            && r2.instances.Keys == reg.instances.Keys + {context}
  {
  }

  /** Registering with a truthy template makes `get_instance()` return the
      context and `create_url()` use that template. */
  lemma DefaultContextServesDefaults(
    reg: Registry, context: string, magicFolder: string, templatePath: string, templateName: string,
    magicPage: string, templateSubfolder: string,
    server: Server, addQueryArg: (seq<(string, string)>, string) -> string
  )
    requires Truthy(context) && Truthy(templateName)
    ensures var r := RegisterDefaultContext(reg, context, magicFolder, templatePath, Some(templateName), magicPage, templateSubfolder);
            && GetInstance(r, None) == Ok(Some(r.instances[context]))
            && CreateUrl(r.instances[context], None, [], false, server, addQueryArg)
               == Ok(addQueryArg([], "/" + magicFolder + "/" + templateName + "/"))
  {
    RelativeUrlPath(server, magicFolder, templateName);
  }

  /** Re-registering the default context with `register_context` keeps its
      name as the default but drops its template, so `create_url()` on it
      then fails. */
  lemma ReRegisteringDropsDefaultTemplate(
    reg: Registry, context: string, magicFolder: string, templatePath: string, templateName: string,
    magicPage: string, templateSubfolder: string,
    server: Server, addQueryArg: (seq<(string, string)>, string) -> string
  )
    requires Truthy(context) && Truthy(templateName)
    ensures var r1 := RegisterDefaultContext(reg, context, magicFolder, templatePath, Some(templateName), magicPage, templateSubfolder);
            var r2 := RegisterContext(r1, context, magicFolder, templatePath, magicPage, templateSubfolder);
            && GetInstance(r2, None).Ok? && GetInstance(r2, None).value.Some?
            && CreateUrl(GetInstance(r2, None).value.value, None, [], false, server, addQueryArg) == Err(NoPageProvided)
  {
  }

  /** `get_instance()` with no name fails until a default name is set. */
  lemma NoDefaultNoInstance(reg: Registry)
    requires reg.defaultInstanceName.None?
    ensures GetInstance(reg, None) == Err(NoContextProvided)
    ensures GetInstance(reg, Some("")) == Err(NoContextProvided)
    ensures GetInstance(reg, Some("0")) == Err(NoContextProvided)
  {
  }

  /** The as-written `register_context` never registers anything, while the
      intended one makes the context retrievable by name. */
  lemma RegisterContextDefect(
    reg: Registry, context: string, magicFolder: string, templatePath: string, magicPage: string, templateSubfolder: string
  )
    requires Truthy(context)
    ensures RegisterContextAsWritten(reg, context, magicFolder, templatePath, magicPage, templateSubfolder)
            == Err(UndefinedMethod("register_context_with_default_template"))
    ensures GetInstance(RegisterContext(reg, context, magicFolder, templatePath, magicPage, templateSubfolder), Some(context))
            == Ok(Some(Context(NewRoute(context, magicFolder, templatePath, magicPage, templateSubfolder), None)))
  {
    var r := RegisterContext(reg, context, magicFolder, templatePath, magicPage, templateSubfolder);
    assert context in r.instances;
  }

  /** With no query arguments the URL is the prefix, then the folder and the
      chosen page between slashes. */
  lemma CreateUrlShape(
    c: Context, page: Option<string>, fullyQualified: bool, server: Server,
    addQueryArg: (seq<(string, string)>, string) -> string
  )
    requires TruthyOpt(page) || TruthyOpt(c.defaultTemplateName)
    requires var chosen := if TruthyOpt(page) then page.value else c.defaultTemplateName.value;
             var u := UrlPrefix(fullyQualified, server) + "/" + c.route.magicFolder + "/" + chosen + "/";
             addQueryArg([], u) == u
    ensures var chosen := if TruthyOpt(page) then page.value else c.defaultTemplateName.value;
            CreateUrl(c, page, [], fullyQualified, server, addQueryArg)
            == Ok(UrlPrefix(fullyQualified, server) + "/" + c.route.magicFolder + "/" + chosen + "/")
  {
  }

  /** A relative URL for a named page on folder "shop". */
  lemma RelativeUrlExample(c: Context, addQueryArg: (seq<(string, string)>, string) -> string, server: Server)
    requires c.route.magicFolder == "shop"
    requires addQueryArg([], "/shop/catalog/") == "/shop/catalog/"
    ensures CreateUrl(c, Some("catalog"), [], false, server, addQueryArg) == Ok("/shop/catalog/")
  {
    RelativeUrlPath(server, "shop", "catalog");
    assert "/" + "shop" + "/" + "catalog" + "/" == "/shop/catalog/";
  }

  /** An absolute URL from the default template with the TLS indicator
      unset uses http and the lower-cased host. */
  lemma AbsoluteUrlWithoutTls(route: Route, host: string, addQueryArg: (seq<(string, string)>, string) -> string)
    requires route.magicFolder == "shop" && Truthy(host)
    requires var u := "http://" + ToLower(host) + "/" + "shop" + "/" + "home" + "/"; addQueryArg([], u) == u
    ensures CreateUrl(Context(route, Some("home")), None, [], true, Server(host, ""), addQueryArg)
            == Ok("http://" + ToLower(host) + "/" + "shop" + "/" + "home" + "/")
  {
    var server := Server(host, "");
    assert !IsHttps("");
    AbsoluteUrlPath(server, "shop", "home");
    assert TruthyOpt(Some("home"));
    assert CreateUrl(Context(route, Some("home")), None, [], true, server, addQueryArg)
           == Ok(addQueryArg([], UrlPath(UrlPrefix(true, server), "shop", "home")));
  }

  /** The same URL with the TLS indicator "on" uses https. */
  lemma AbsoluteUrlWithTls(route: Route, host: string, addQueryArg: (seq<(string, string)>, string) -> string)
    requires route.magicFolder == "shop" && Truthy(host)
    requires var u := "https://" + ToLower(host) + "/" + "shop" + "/" + "home" + "/"; addQueryArg([], u) == u
    ensures CreateUrl(Context(route, Some("home")), None, [], true, Server(host, "on"), addQueryArg)
            == Ok("https://" + ToLower(host) + "/" + "shop" + "/" + "home" + "/")
  {
    var server := Server(host, "on");
    assert IsHttps("on") by {
      assert "on"[0] == 'o' && "on"[1] != 'f' && "off"[1] == 'f';
      assert !EqualsIgnoreCase("on", "off");
    }
    AbsoluteUrlPath(server, "shop", "home");
    assert TruthyOpt(Some("home"));
    assert CreateUrl(Context(route, Some("home")), None, [], true, server, addQueryArg)
           == Ok(addQueryArg([], UrlPath(UrlPrefix(true, server), "shop", "home")));
  }

  /** Without a host an absolute URL silently stays relative. */
  lemma AbsoluteUrlWithoutHost(c: Context, page: string, https: string, addQueryArg: (seq<(string, string)>, string) -> string)
    requires Truthy(page)
    ensures CreateUrl(c, Some(page), [], true, Server("", https), addQueryArg)
            == CreateUrl(c, Some(page), [], false, Server("", https), addQueryArg)
  {
  }

  /** A URL built by `create_url` for a plain page comes back through the
      context's own rewrite rule as the router's query variables, and the
      resolver then acts on exactly that page. */
  lemma CreatedUrlReachesResolver(
    reg: Registry, c: Context, page: string, server: Server,
    addQueryArg: (seq<(string, string)>, string) -> string,
    isFile: string -> bool, escHtml: string -> string
  )
    requires PlainName(c.route.magicFolder) && PlainName(c.route.magicPage) && c.route.magicFolder != c.route.magicPage
    requires PlainName(page) && page != "0"
    requires var u := "/" + c.route.magicFolder + "/" + page + "/"; addQueryArg([], u) == u
    ensures CreateUrl(c, Some(page), [], false, server, addQueryArg) == Ok("/" + c.route.magicFolder + "/" + page + "/")
    ensures var vars := map[c.route.magicFolder := "1", c.route.magicPage := page];
            && ApplyRule(WireRewriteRules(c), RequestPath("/" + c.route.magicFolder + "/" + page + "/")) == Some(vars)
            && Applies(c.route, Request(true, vars))
            && RequestedPage(c.route, Request(true, vars)) == page
  {
    var folder := c.route.magicFolder;
    var url := "/" + folder + "/" + page + "/";
    assert TruthyOpt(Some(page));
    RelativeUrlPath(server, folder, page);
    assert CreateUrl(c, Some(page), [], false, server, addQueryArg) == Ok(addQueryArg([], url));
    var rule := WireRewriteRules(c);
    RequestPathOfUrl(folder, page);
    assert forall i :: 0 <= i < |page| ==> Matches(rule.pageClass, page[i]);
    ApplyRuleRoundTrip(rule, page);
    ResolveRuleVars(c.route, page, isFile, escHtml, reg.currentItems);
  }

  /** Since '_' is in the page class, a pretty URL can name the header and
      footer templates, and the resolver's guard then aborts. */
  lemma ReservedPagesReachableByRule(c: Context, isFile: string -> bool, escHtml: string -> string, reg: Registry)
    requires PlainName(c.route.magicFolder) && PlainName(c.route.magicPage) && c.route.magicFolder != c.route.magicPage
    ensures var vars := map[c.route.magicFolder := "1", c.route.magicPage := "wp_header"];
            && ApplyRule(WireRewriteRules(c), c.route.magicFolder + "/" + "wp_header") == Some(vars)
            && LookForMagicFolder(reg, c, Request(true, vars), isFile, escHtml).outcome == DirectAccessAbort(DirectAccessMessage)
  {
    var page := "wp_header";
    ReservedNamesArePlain();
    var rule := WireRewriteRules(c);
    assert forall i :: 0 <= i < |page| ==> Matches(rule.pageClass, page[i]);
    ApplyRuleRoundTrip(rule, page);
    ResolveRuleVars(c.route, page, isFile, escHtml, reg.currentItems);
    var vars := map[c.route.magicFolder := "1", c.route.magicPage := page];
    assert IsReserved(RequestedPage(c.route, Request(true, vars)));
  }
}
