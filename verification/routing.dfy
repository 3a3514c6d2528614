/** What both versions of the template router share: the per-context route
    record and its normalisation, the per-request resolver with the ordered
    actions it emits, the body-class transform it installs, the scheme and
    host prefix of absolute URLs, and the rewrite rule that maps a pretty URL
    to the router's query variables. */
module Routing {
  import opened Wrappers
  import opened PhpStrings
  import opened CharClass
  import opened WordPressHost

  /** One routing context: its name, the magic folder that selects it, the
      query variable carrying the page, and where its templates live. */
  datatype Route = Route(
    context: string,
    magicFolder: string,
    magicPage: string,
    templatePath: string,
    templateSubfolder: string
  )

  /** The shape the constructor leaves a route in: the template path has no
      trailing separator, the subfolder none at either end. */
  predicate Normalised(r: Route) {
    && (|r.templatePath| > 0 ==> r.templatePath[|r.templatePath| - 1] !in {'/', '\\'})
    && (|r.templateSubfolder| > 0 ==> r.templateSubfolder[0] != '/' && r.templateSubfolder[|r.templateSubfolder| - 1] != '/')
  }

  /** The constructor: the names are stored as given, the template path loses
      its trailing separators and the subfolder its leading and trailing '/'. */
  function NewRoute(context: string, magicFolder: string, templatePath: string, magicPage: string, templateSubfolder: string): (r: Route)
    ensures r.context == context && r.magicFolder == magicFolder && r.magicPage == magicPage
    ensures Normalised(r)
    ensures r.templatePath <= templatePath && AllIn(templatePath[|r.templatePath|..], {'/', '\\'})
    ensures StripsTo(templateSubfolder, r.templateSubfolder, {'/'})
  {
    Route(context, magicFolder, magicPage, Untrailingslashit(templatePath), Trim(templateSubfolder, {'/'}))
  }

  /** The query variable a context uses when registration names none. */
  const DefaultMagicPage: string := "page"

  /** The template subfolder a context uses when registration names none. */
  const DefaultTemplateSubfolder: string := "templates"

  /** A route built with the default page variable and subfolder reads the
      page from `page` and looks for `<path>/templates/<page>.php`. */
  lemma NewRouteDefaults(context: string, magicFolder: string, templatePath: string, page: string)
    ensures var route := NewRoute(context, magicFolder, templatePath, DefaultMagicPage, DefaultTemplateSubfolder);
            && route.magicPage == "page"
            && TemplateFile(route, page) == Untrailingslashit(templatePath) + "/templates/" + page + ".php"
  {
    DefaultSubfolderKept(context, magicFolder, templatePath);
    TemplateFileUnderDefault(NewRoute(context, magicFolder, templatePath, DefaultMagicPage, DefaultTemplateSubfolder), page);
  }

  /** The default subfolder has no '/' to strip. */
  lemma DefaultSubfolderKept(context: string, magicFolder: string, templatePath: string)
    ensures NewRoute(context, magicFolder, templatePath, DefaultMagicPage, DefaultTemplateSubfolder).templateSubfolder == DefaultTemplateSubfolder
  {
    var sub := DefaultTemplateSubfolder;
    assert sub[0] == 't' && sub[|sub| - 1] == 's';
    TrimOfTrimmed(sub, {'/'});
  }

  /** The template file of a route whose subfolder is the default one. */
  lemma TemplateFileUnderDefault(route: Route, page: string)
    requires route.templateSubfolder == DefaultTemplateSubfolder
    ensures TemplateFile(route, page) == route.templatePath + "/templates/" + page + ".php"
  {
    var path := route.templatePath;
    assert path + "/" + DefaultTemplateSubfolder + "/" + page + ".php" == path + ("/" + DefaultTemplateSubfolder + "/") + page + ".php";
    assert "/" + DefaultTemplateSubfolder + "/" == "/templates/";
  }

  /** A subfolder given as "/templates/" is stored as "templates". */
  lemma SubfolderNormalisedExample(context: string, magicFolder: string, templatePath: string, magicPage: string)
    ensures NewRoute(context, magicFolder, templatePath, magicPage, "/templates/").templateSubfolder == "templates"
  {
    assert "/templates/" == "/" + "templates" + "/";
    TrimSurrounded("templates", '/', {'/'});
  }

  /** One record of the resolved-items log. */
  datatype Item = Item(context: string, subfolder: string, page: string)

  /** The arguments every render notification carries. */
  datatype Payload = Payload(context: string, magicFolder: string, magicPage: string, page: string)

  /** The effects of a successful resolution, in the order they happen: the
      record appended to the resolved-items log (before any listener runs, so
      listeners already see it), a `do_action` notification, the
      `template_include` override returning a fixed file, and the
      `body_class` filter (`FilterBodyClasses`). */
  datatype Action =
    | AppendItem(item: Item)
    | Notify(hook: string, payload: Payload)
    | OverrideTemplate(file: string)
    | AddBodyClassFilter

  /** How one resolver run ends: nothing to do, one of the two hard aborts
      (`die` with a message), or the page's template chosen for rendering. */
  datatype Outcome =
    | NotApplicable
    | DirectAccessAbort(message: string)
    | UnknownPageAbort(message: string)
    | Included(page: string, file: string)

  /** The parts of the current query the resolver reads. */
  datatype Request = Request(isMainQuery: bool, vars: map<string, string>)

  /** A resolver run: its outcome, the resolved-items log afterwards and the
      actions it emitted. */
  datatype Step = Step(outcome: Outcome, log: seq<Item>, trace: seq<Action>)

  const PreIncludeHook: string := "vendi/shared/template_router/pre_include_template"
  const PostIncludeHook: string := "vendi/shared/template_router/post_include_template"
  const DirectAccessMessage: string := "This template does not support direct access"
  const UnknownPagePrefix: string := "Unknown page: "

  /** The per-context variant of a hook name. */
  function ScopedHook(hook: string, context: string): string {
    hook + "/" + context
  }

  /** The header and footer override templates cannot be requested as pages. */
  predicate IsReserved(page: string) {
    page == "wp_header" || page == "wp_footer"
  }

  /** The reserved names are plain names, each containing '_'. */
  lemma ReservedNamesArePlain()
    ensures PlainName("wp_header") && PlainName("wp_footer")
    ensures "wp_header"[2] == '_' && "wp_footer"[2] == '_'
  {
    var h, f := "wp_header", "wp_footer";
    forall i | 0 <= i < |h| ensures IsWordChar(h[i]) {
      assert h[i] == '_' || IsAsciiLetter(h[i]);
    }
    forall i | 0 <= i < |f| ensures IsWordChar(f[i]) {
      assert f[i] == '_' || IsAsciiLetter(f[i]);
    }
  }

  /** The resolver only acts on the main query when the magic-folder flag is "1". */
  predicate Applies(route: Route, req: Request) {
    req.isMainQuery && GetQueryVar(req.vars, route.magicFolder) == "1"
  }

  /** The page named by the request: the last component of the page variable. */
  function RequestedPage(route: Route, req: Request): string {
    Basename(GetQueryVar(req.vars, route.magicPage))
  }

  /** Where a page's template lives. */
  function TemplateFile(route: Route, page: string): string {
    route.templatePath + "/" + route.templateSubfolder + "/" + page + ".php"
  }

  /** `look_for_magic_folder`: decides what one request means for one route.
      `isFile` is the filesystem test and `escHtml` the HTML escaper. */
  function Resolve(route: Route, req: Request, isFile: string -> bool, escHtml: string -> string, log: seq<Item>): (r: Step)
    ensures r.outcome.NotApplicable? <==> !Applies(route, req)
    ensures r.outcome.DirectAccessAbort? <==> Applies(route, req) && IsReserved(RequestedPage(route, req))
    ensures r.outcome.DirectAccessAbort? ==> r.outcome.message == DirectAccessMessage
    ensures r.outcome.UnknownPageAbort? <==>
              Applies(route, req) && !IsReserved(RequestedPage(route, req))
              && !isFile(TemplateFile(route, RequestedPage(route, req)))
    ensures r.outcome.UnknownPageAbort? ==> r.outcome.message == UnknownPagePrefix + escHtml(RequestedPage(route, req))
    ensures !r.outcome.Included? ==> r.log == log && r.trace == []
    ensures r.outcome.Included? ==>
              var page := RequestedPage(route, req);
              && r.outcome.page == page
              && NoneIn(page, {'/'})
              && r.outcome.file == TemplateFile(route, page)
              && isFile(r.outcome.file)
              && r.log == log + [Item(route.context, route.templateSubfolder, page)]
    ensures r.outcome.Included? ==>
              var payload := Payload(route.context, route.magicFolder, route.magicPage, r.outcome.page);
              && |r.trace| == 7
              && r.trace[0] == AppendItem(Item(route.context, route.templateSubfolder, r.outcome.page))
              && r.trace[1] == Notify(ScopedHook(PreIncludeHook, route.context), payload)
              && r.trace[2] == Notify(PreIncludeHook, payload)
              && r.trace[3] == OverrideTemplate(r.outcome.file)
              && r.trace[4] == AddBodyClassFilter
              && r.trace[5] == Notify(ScopedHook(PostIncludeHook, route.context), payload)
              && r.trace[6] == Notify(PostIncludeHook, payload)
  {
    if !req.isMainQuery || GetQueryVar(req.vars, route.magicFolder) != "1" then
      Step(NotApplicable, log, [])
    else
      var page := Basename(GetQueryVar(req.vars, route.magicPage));
      if IsReserved(page) then
        Step(DirectAccessAbort(DirectAccessMessage), log, [])
      else if isFile(TemplateFile(route, page)) then
        Render(route, page, log)
      else
        Step(UnknownPageAbort(UnknownPagePrefix + escHtml(page)), log, [])
  }

  /** The success branch of the resolver: log the page, then notify, install
      the two filters and notify again. */
  function Render(route: Route, page: string, log: seq<Item>): (r: Step)
    ensures r.outcome == Included(page, TemplateFile(route, page))
    ensures r.log == log + [Item(route.context, route.templateSubfolder, page)]
    ensures var payload := Payload(route.context, route.magicFolder, route.magicPage, page);
            && |r.trace| == 7
            && r.trace[0] == AppendItem(Item(route.context, route.templateSubfolder, page))
            && r.trace[1] == Notify(ScopedHook(PreIncludeHook, route.context), payload)
            && r.trace[2] == Notify(PreIncludeHook, payload)
            && r.trace[3] == OverrideTemplate(TemplateFile(route, page))
            && r.trace[4] == AddBodyClassFilter
            && r.trace[5] == Notify(ScopedHook(PostIncludeHook, route.context), payload)
            && r.trace[6] == Notify(PostIncludeHook, payload)
  {
    var file := TemplateFile(route, page);
    var item := Item(route.context, route.templateSubfolder, page);
    var payload := Payload(route.context, route.magicFolder, route.magicPage, page);
    var pre := [Notify(ScopedHook(PreIncludeHook, route.context), payload), Notify(PreIncludeHook, payload)];
    var filters := [OverrideTemplate(file), AddBodyClassFilter];
    var post := [Notify(ScopedHook(PostIncludeHook, route.context), payload), Notify(PostIncludeHook, payload)];
    Step(Included(page, file), log + [item], [AppendItem(item)] + pre + filters + post)
  }

  /** A traversal attempt in the page variable resolves to its last
      component, so only the template subfolder is ever searched. */
  lemma TraversalStaysInSubfolder(route: Route, req: Request, isFile: string -> bool, escHtml: string -> string, log: seq<Item>)
    requires Applies(route, req) && GetQueryVar(req.vars, route.magicPage) == "../../etc/passwd"
    ensures var r := Resolve(route, req, isFile, escHtml, log);
            && (isFile(TemplateFile(route, "passwd")) ==> r.outcome == Included("passwd", TemplateFile(route, "passwd")))
            && (!isFile(TemplateFile(route, "passwd")) ==> r.outcome == UnknownPageAbort(UnknownPagePrefix + escHtml("passwd")))
  {
    BasenameDropsTraversal();
  }

  /** The reserved names abort whatever the filesystem holds. */
  lemma ReservedPagesAlwaysAbort(route: Route, req: Request, isFile: string -> bool, isFile': string -> bool, escHtml: string -> string, log: seq<Item>)
    requires Applies(route, req) && IsReserved(RequestedPage(route, req))
    ensures Resolve(route, req, isFile, escHtml, log) == Resolve(route, req, isFile', escHtml, log)
    ensures Resolve(route, req, isFile, escHtml, log) == Step(DirectAccessAbort(DirectAccessMessage), log, [])
  {
  }

  /** Two successful resolutions in a row log their records in call order. */
  lemma ResolutionsLogInCallOrder(r1: Route, r2: Route, req: Request, isFile: string -> bool, escHtml: string -> string, log: seq<Item>, s1: Step, s2: Step)
    requires s1 == Resolve(r1, req, isFile, escHtml, log) && s1.outcome.Included?
    requires s2 == Resolve(r2, req, isFile, escHtml, s1.log) && s2.outcome.Included?
    ensures s2.log == log + [Item(r1.context, r1.templateSubfolder, s1.outcome.page)] + [Item(r2.context, r2.templateSubfolder, s2.outcome.page)]
  {
  }

  /** The classes the `body_class` filter keeps, in their original order:
      everything but "home" and "blog". */
  function KeepClasses(classes: seq<string>): (r: seq<string>)
    ensures forall i :: 0 <= i < |r| ==> r[i] != "home" && r[i] != "blog"
    decreases |classes|
  {
    if |classes| == 0 then []
    else
      var init := classes[..|classes| - 1];
      var last := classes[|classes| - 1];
      if last == "home" || last == "blog" then KeepClasses(init) else KeepClasses(init) + [last]
  }

  /** Every class other than "home" and "blog" is kept as often as it occurs,
      and nothing else is. */
  lemma {:induction false} KeepClassesCounts(classes: seq<string>)
    ensures forall x :: x != "home" && x != "blog" ==> multiset(KeepClasses(classes))[x] == multiset(classes)[x]
    ensures |KeepClasses(classes)| == |classes| - multiset(classes)["home"] - multiset(classes)["blog"]
    decreases |classes|
  {
    if |classes| > 0 {
      var init := classes[..|classes| - 1];
      var last := classes[|classes| - 1];
      assert classes == init + [last];
      KeepClassesCounts(init);
    }
  }

  /** Filtering one more class either drops it or appends it. */
  lemma KeepClassesSnoc(init: seq<string>, x: string)
    ensures KeepClasses(init + [x]) == if x == "home" || x == "blog" then KeepClasses(init) else KeepClasses(init) + [x]
  {
    assert (init + [x])[..|init|] == init;
  }

  /** `a` can be obtained from `b` by deleting elements. */
  predicate IsSubsequence(a: seq<string>, b: seq<string>)
    decreases |b|
  {
    if |a| == 0 then true
    else if |b| == 0 then false
    else (a[|a| - 1] == b[|b| - 1] && IsSubsequence(a[..|a| - 1], b[..|b| - 1])) || IsSubsequence(a, b[..|b| - 1])
  }

  /** The kept classes appear in the order they had in the input. */
  lemma {:induction false} KeepClassesKeepsOrder(classes: seq<string>)
    ensures IsSubsequence(KeepClasses(classes), classes)
    decreases |classes|
  {
    if |classes| > 0 {
      var init := classes[..|classes| - 1];
      var last := classes[|classes| - 1];
      KeepClassesKeepsOrder(init);
      var k := KeepClasses(classes);
      if last == "home" || last == "blog" {
        assert k == KeepClasses(init);
        if |k| > 0 {
          assert IsSubsequence(k, init);
        }
      } else {
        assert k == KeepClasses(init) + [last];
        assert k[..|k| - 1] == KeepClasses(init);
      }
    }
  }

  /** The `body_class` filter the resolver installs: drops every "home" and
      "blog" class, keeps the rest in order, and appends "page". */
  method FilterBodyClasses(classes: seq<string>) returns (r: seq<string>)
    ensures r == KeepClasses(classes) + ["page"]
    ensures forall i :: 0 <= i < |r| - 1 ==> r[i] != "home" && r[i] != "blog"
    ensures |r| == |classes| - multiset(classes)["home"] - multiset(classes)["blog"] + 1
  {
    var kept: seq<string> := [];
    var i := 0;
    while i < |classes|
      invariant 0 <= i <= |classes|
      invariant kept == KeepClasses(classes[..i])
    {
      assert classes[..i + 1] == classes[..i] + [classes[i]];
      KeepClassesSnoc(classes[..i], classes[i]);
      if classes[i] != "home" && classes[i] != "blog" {
        kept := kept + [classes[i]];
      }
      i := i + 1;
    }
    assert classes[..i] == classes;
    KeepClassesCounts(classes);
    r := kept + ["page"];
  }

  /** The request's host and TLS indicator, as the server reports them ('' when unset). */
  datatype Server = Server(host: string, https: string)

  /** The TLS indicator means https unless it is empty or, in any case, "off". */
  function IsHttps(indicator: string): (r: bool)
    ensures r <==> indicator != "" && !EqualsIgnoreCase(indicator, "off")
  {
    var https := ToLower(indicator);
    assert https == "off" <==> EqualsIgnoreCase(indicator, "off") by {
      if EqualsIgnoreCase(indicator, "off") {
        assert https == "off";
      }
    }
    https != "off" && https != ""
  }

  lemma IsHttpsExamples()
    ensures !IsHttps("") && !IsHttps("off") && !IsHttps("OFF") && !IsHttps("Off")
    ensures IsHttps("on") && IsHttps("1")
  {
    assert EqualsIgnoreCase("OFF", "off");
    assert EqualsIgnoreCase("Off", "off");
    assert !EqualsIgnoreCase("on", "off");
    assert !EqualsIgnoreCase("1", "off");
  }

  /** The scheme-and-host prefix of a URL: empty unless an absolute URL is
      asked for and the host is known; then `http(s)://` and the lower-cased host. */
  function UrlPrefix(fullyQualified: bool, server: Server): (r: string)
    ensures !fullyQualified || !Truthy(server.host) ==> r == ""
    ensures fullyQualified && Truthy(server.host) && IsHttps(server.https) ==> r == "https://" + ToLower(server.host)
    ensures fullyQualified && Truthy(server.host) && !IsHttps(server.https) ==> r == "http://" + ToLower(server.host)
  {
    if fullyQualified then
      var host := ToLower(server.host);
      var https := IsHttps(server.https);
      ToLowerTruthy(server.host);
      if Truthy(host) then (if https then "https://" else "http://") + host else ""
    else ""
  }

  /** The path part of a router URL: `prefix/folder/page/`. */
  function UrlPath(prefix: string, folder: string, page: string): string {
    prefix + "/" + folder + "/" + page + "/"
  }

  /** A relative URL path is the folder and page between slashes. */
  lemma RelativeUrlPath(server: Server, folder: string, page: string)
    ensures UrlPath(UrlPrefix(false, server), folder, page) == "/" + folder + "/" + page + "/"
  {
    assert UrlPrefix(false, server) == "";
    assert "" + "/" + folder == "/" + folder;
  }

  /** An absolute URL path is the scheme, the lower-cased host, the folder
      and the page. */
  lemma AbsoluteUrlPath(server: Server, folder: string, page: string)
    requires Truthy(server.host)
    ensures UrlPath(UrlPrefix(true, server), folder, page)
            == (if IsHttps(server.https) then "https://" else "http://") + ToLower(server.host) + "/" + folder + "/" + page + "/"
  {
  }

  /** A rewrite rule as `add_rewrite_rule` receives it: the regex
      `^folder/([class]+)$` (`Pattern`) and the target
      `index.php?folder=1&page=$matches[1]` (`Target`). The rule is added at
      position "top", ahead of the host's own rules; the model matches it
      on its own. */
  datatype RewriteRule = RewriteRule(folder: string, pageClass: string, magicPage: string)

  const MatchRef: string := "$matches[1]"

  /** The regex string handed to the host. */
  function Pattern(rule: RewriteRule): string {
    "^" + rule.folder + "/([" + rule.pageClass + "]+)$"
  }

  /** The target string handed to the host. */
  function Target(rule: RewriteRule): string {
    "index.php?" + rule.folder + "=1&" + rule.magicPage + "=" + MatchRef
  }

  /** A non-empty run of characters the class admits. */
  predicate ClassRun(pageClass: string, s: string) {
    |s| > 0 && forall i :: 0 <= i < |s| ==> Matches(pageClass, s[i])
  }

  /** What the pattern matches, for a folder free of regex metacharacters:
      the folder, a '/', and a non-empty run of class characters, which is
      captured. Without the `D` modifier PCRE's `$` also matches just before
      a final newline, so one trailing '\n' outside the capture is accepted
      too; a class admitting '\n' captures it greedily instead. */
  function MatchRule(rule: RewriteRule, path: string): (r: Option<string>)
    ensures r.Some? ==> path == rule.folder + "/" + r.value || path == rule.folder + "/" + r.value + "\n"
    ensures r.Some? ==> ClassRun(rule.pageClass, r.value)
    ensures r.Some? && path == rule.folder + "/" + r.value + "\n" ==> !Matches(rule.pageClass, '\n')
  {
    var n := |rule.folder| + 1;
    if |path| > n && path[..n] == rule.folder + "/" then
      var rest := path[n..];
      assert path == rule.folder + "/" + rest;
      if ClassRun(rule.pageClass, rest) then
        Some(rest)
      else if |rest| > 1 && rest[|rest| - 1] == '\n' && ClassRun(rule.pageClass, rest[..|rest| - 1]) then
        assert rest == rest[..|rest| - 1] + "\n";
        Some(rest[..|rest| - 1])
      else None
    else None
  }

  /** Every path of the documented shape is matched, capturing its page. */
  lemma MatchRuleComplete(rule: RewriteRule, page: string)
    requires ClassRun(rule.pageClass, page)
    ensures MatchRule(rule, rule.folder + "/" + page) == Some(page)
  {
    var path := rule.folder + "/" + page;
    var n := |rule.folder| + 1;
    assert path[..n] == rule.folder + "/";
    assert path[n..] == page;
  }

  /** A page followed by one newline is matched too, and the newline is
      left out of the capture when the class does not admit it: the subject
      `folder/page\n`, which the host reaches by url-decoding
      `/folder/page%0A`, captures `page`. */
  lemma MatchRuleTrailingNewline(rule: RewriteRule, page: string)
    requires ClassRun(rule.pageClass, page) && !Matches(rule.pageClass, '\n')
    ensures MatchRule(rule, rule.folder + "/" + page + "\n") == Some(page)
  {
    var path := rule.folder + "/" + page + "\n";
    var n := |rule.folder| + 1;
    assert path[..n] == rule.folder + "/";
    var rest := path[n..];
    assert rest == page + "\n";
    assert rest[|rest| - 1] == '\n';
    assert !ClassRun(rule.pageClass, rest) by {
      assert !Matches(rule.pageClass, rest[|rest| - 1]);
    }
    assert rest[..|rest| - 1] == page;
  }

  /** The query variables the host derives from a matched path: the target
      with the capture substituted, read as a query string. */
  function ApplyRule(rule: RewriteRule, path: string): Option<map<string, string>> {
    match MatchRule(rule, path)
    case None => None
    case Some(page) => Some(QueryVarsOf(ReplaceAll(Target(rule), MatchRef, page)))
  }

  /** Substituting the capture into the target of a rule with plain names
      yields exactly the two router variables: the folder flag "1" and the
      page. */
  lemma ApplyRuleRoundTrip(rule: RewriteRule, page: string)
    requires PlainName(rule.folder) && PlainName(rule.magicPage) && rule.folder != rule.magicPage
    requires PlainName(page) && forall i :: 0 <= i < |page| ==> Matches(rule.pageClass, page[i])
    ensures ApplyRule(rule, rule.folder + "/" + page) == Some(map[rule.folder := "1", rule.magicPage := page])
  {
    MatchRuleComplete(rule, page);
    var query := rule.folder + "=1&" + rule.magicPage + "=" + page;
    SubstituteTarget(rule, page);
    SplitFirstAt("index.php", query, '?');
    ParsePlainQuery(rule.folder, rule.magicPage, page);
  }

  /** Substituting the capture into the target of a rule with plain names
      gives `index.php?folder=1&page=<capture>`. */
  lemma SubstituteTarget(rule: RewriteRule, page: string)
    requires PlainName(rule.folder) && PlainName(rule.magicPage)
    ensures ReplaceAll(Target(rule), MatchRef, page) == "index.php" + ['?'] + (rule.folder + "=1&" + rule.magicPage + "=" + page)
  {
    var f, p := rule.folder, rule.magicPage;
    var head := "index.php?" + f + "=1&" + p + "=";
    assert Target(rule) == head + MatchRef;
    PlainNameExcludes(f);
    PlainNameExcludes(p);
    assert '$' !in head;
    ReplaceAllSkips(head, MatchRef, MatchRef, page);
    assert MatchRef[..|MatchRef|] == MatchRef;
    assert MatchRef[|MatchRef|..] == "";
    assert ReplaceAll(MatchRef, MatchRef, page) == page + ReplaceAll("", MatchRef, page);
  }

  /** `f=1&p=page` reads back as its two variables. */
  lemma ParsePlainQuery(f: string, p: string, page: string)
    requires PlainName(f) && PlainName(p) && f != p && PlainName(page)
    ensures ParseQuery(f + "=1&" + p + "=" + page) == map[f := "1", p := page]
  {
    var first := f + "=1";
    var second := p + "=" + page;
    assert f + "=1&" + p + "=" + page == first + ['&'] + second;
    PlainNameExcludes(f);
    PlainNameExcludes(p);
    PlainNameExcludes(page);
    assert '&' !in first;
    assert '&' !in second;
    ParseQueryCons(first, second);
    ParseQuerySingle(second);
    assert first == f + ['='] + "1";
    PairMapOf(f, "1");
    assert second == p + ['='] + page;
    PairMapOf(p, page);
  }

  /** The URL path `/folder/page/` reaches the rules as `folder/page`. */
  lemma RequestPathOfUrl(folder: string, page: string)
    requires PlainName(folder) && PlainName(page)
    ensures RequestPath("/" + folder + "/" + page + "/") == folder + "/" + page
  {
    var x := folder + "/" + page;
    assert "/" + folder + "/" + page + "/" == ['/'] + x + ['/'];
    assert x[0] == folder[0];
    assert x[|x| - 1] == page[|page| - 1];
    TrimSurrounded(x, '/', {'/'});
  }

  /** The variables a matched rule produces make the resolver act on the
      page that was captured. */
  lemma ResolveRuleVars(route: Route, page: string, isFile: string -> bool, escHtml: string -> string, log: seq<Item>)
    requires route.magicFolder != route.magicPage && PlainName(page)
    ensures var req := Request(true, map[route.magicFolder := "1", route.magicPage := page]);
            && Applies(route, req)
            && RequestedPage(route, req) == page
  {
    PlainNameExcludes(page);
    BasenameOfPlain(page);
  }
}
