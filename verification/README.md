# Vendi template router, modelled in Dafny

`Vendi\Shared\template_router` is a WordPress helper. It routes "pretty"
URLs such as `/shop/catalog/` to PHP template files. A site registers named
routing contexts, and each context has four parts:

- a magic folder (`shop`);
- a query variable that carries the page name (`page`);
- a template path;
- a template subfolder.

A rewrite rule turns `shop/<page>` into the query variables `shop=1&page=<page>`.
On every main query the router checks that flag and takes the last component
of the page variable. It then does one of three things:

- refuses the header and footer templates;
- refuses pages with no template file;
- logs the page, notifies listeners, and overrides the template WordPress
  renders. It also installs a `body_class` filter, which drops `home` and
  `blog` and adds `page`.

`create_url` builds the matching URLs.

Two versions of the class are modelled:

- `src/template_router.php` (1.3.4) is the primary one. It adds a default
  context and a default template.
- `vendi-wordpress-template-router.php` (1.2.0) is the earlier variant. It has
  no default context and no default template, and its rewrite rule's page
  class has no `_`.

Modules:

- `Wrappers`: `Option` and `Result`.
- `PhpStrings`: the PHP string behaviour the router depends on:
  - truthiness, where `""` and `"0"` are falsy;
  - `trim`, `untrailingslashit`, `basename`, `strtolower`.
- `CharClass`: a parser for regex character-class bodies. It also proves
  which characters the two versions' page classes admit.
- `WordPressHost`: how the host reads the router's strings:
  - `get_query_var`;
  - `$matches[1]` substitution;
  - query-string parsing of a rewrite target;
  - the request path.

  These definitions only give the router's strings a meaning. They are
  assumptions about the host, not a model of its code.
- `Routing`: what both versions share:
  - the route record and the constructor's normalisation;
  - the resolver (`look_for_magic_folder`) with its outcome, resolved-items
    log and ordered action trace;
  - the body-class filter;
  - the URL prefix;
  - the rewrite rule.
- `TemplateRouter`: version 1.3.4, in which the registry is a value.
- `LegacyTemplateRouter`: version 1.2.0.

Host inputs become parameters:

- `isFile` for `is_file`;
- `escHtml` for `esc_html`;
- `addQueryArg` for `add_query_arg`;
- a `Server` record for the `HTTP_HOST` and `HTTPS` server values;
- a `Request` record for the main-query test and the query variables.

`die` becomes an abort outcome that carries its message. A thrown exception
becomes `Err`. Hook registrations and `do_action` calls become entries in an
ordered action trace.

The https rule follows the code. The scheme is `https` exactly when the
lower-cased `HTTPS` value is neither empty nor `off`. So with no `HTTPS`
value the URL is `http://…` (`TemplateRouter.AbsoluteUrlWithoutTls`).

## Model

| member | source | states |
|---|---|---|
| PhpStrings.Trim | src/template_router.php:139 | The result is a contiguous slice of the input, and everything cut off on either side is in the trim set. A non-empty result neither starts nor ends with a trimmed character. |
| PhpStrings.TrimIdempotent | src/template_router.php:139 | Trimming a trimmed string changes nothing. |
| PhpStrings.Untrailingslashit | src/template_router.php:135 | The result is a prefix of the input. Only '/' and '\' were removed, and a non-empty result does not end in either. |
| PhpStrings.Basename | src/template_router.php:244 | The result contains no '/'. It is empty exactly when the input is all slashes. The input is some text ending in '/' (or nothing), then the result, then trailing slashes. |
| PhpStrings.BasenameIdempotent | src/template_router.php:244 | Taking the basename twice gives the same page as taking it once. |
| PhpStrings.BasenameDropsTraversal | src/template_router.php:244 | `../../etc/passwd` becomes `passwd`. |
| PhpStrings.ToLower | src/template_router.php:169-170 | Each character is mapped to its ASCII lower case, and nothing else changes. |
| PhpStrings.ToLowerIdempotent | src/template_router.php:169-170 | The lower-cased host and TLS value contain no upper-case ASCII letter, and lower-casing them again changes nothing. |
| CharClass.WordClassMeaning | src/template_router.php:199 | The class `a-zA-Z\-0-9_` matches a character exactly when it is an ASCII letter, a digit, '-' or '_'. |
| CharClass.NoUnderscoreClassMeaning | vendi-wordpress-template-router.php:137 | The class `a-zA-Z\-0-9` matches exactly the ASCII letters, the digits and '-'. |
| Routing.NewRoute | src/template_router.php:131-139 | Names are stored as given. The template path loses only trailing '/' or '\', and the subfolder loses only leading and trailing '/'. The result is normalised. |
| Routing.NewRouteDefaults | src/template_router.php:73-84 | With the default arguments `$magic_page = 'page'` and `$template_subfolder = 'templates'`, the route reads the page from `page` and looks for `<path>/templates/<page>.php`, the path without its trailing separators. |
| Routing.SubfolderNormalisedExample | src/template_router.php:138-139 | The subfolder "/templates/" is stored as "templates". |
| Routing.Resolve | src/template_router.php:230-302 | The outcome is decided as follows. Not applicable exactly when the query is not main or the flag is not "1". Direct-access abort exactly when the basename is wp_header or wp_footer. Unknown-page abort, with "Unknown page: " and the escaped page, exactly when the template file is missing. On any abort the log is unchanged and nothing is emitted. On success the log gains exactly one record (context, subfolder, page), and the trace is that append followed by the six hook actions in source order. |
| Routing.Render | src/template_router.php:252-297 | The page's file is chosen. One record is appended to the log. The trace is: the log append (so listeners already see the record), scoped pre, global pre, template override, body-class filter, scoped post, global post. |
| Routing.TraversalStaysInSubfolder | src/template_router.php:244-252 | A traversal such as `../../etc/passwd` only ever looks up `passwd.php` in the template subfolder. |
| Routing.ReservedPagesAlwaysAbort | src/template_router.php:246-250 | The header and footer names abort before any file check, whatever the filesystem holds. |
| Routing.ResolutionsLogInCallOrder | src/template_router.php:255-259 | Two successful resolutions leave their records in the log in call order, after the earlier records. |
| Routing.KeepClasses | src/template_router.php:276-286 | No kept class is "home" or "blog". |
| Routing.KeepClassesCounts | src/template_router.php:278-286 | Every other class is kept as often as it occurs. The kept length is the input length minus the home and blog occurrences. |
| Routing.KeepClassesKeepsOrder | src/template_router.php:279-285 | The kept classes are a subsequence of the input. |
| Routing.FilterBodyClasses | src/template_router.php:274-291 | The loop's result is the kept classes followed by "page". No home or blog appears before it, and the length is the number of other classes plus one. |
| Routing.IsHttps | src/template_router.php:170-172 | The scheme is https exactly when the TLS value is non-empty and not "off" in any letter case. |
| Routing.IsHttpsExamples | src/template_router.php:170-172 | Values "", "off", "OFF" and "Off" give http. Values "on" and "1" give https. |
| Routing.UrlPrefix | src/template_router.php:165-178 | The prefix is empty unless an absolute URL is asked for and the host is truthy. Otherwise it is `https://` or `http://` followed by the lower-cased host. |
| Routing.RelativeUrlPath | src/template_router.php:180 | A relative URL path is `/folder/page/`. |
| Routing.AbsoluteUrlPath | src/template_router.php:165-180 | An absolute URL path is the scheme, the lower-cased host, then `/folder/page/`. |
| Routing.MatchRule | src/template_router.php:199 | A match means the path is the folder, a '/', and a non-empty run of class characters, which is the capture, optionally followed by one newline that PCRE's `$` lets through. The newline is left out of the capture only when the class does not admit it. |
| Routing.MatchRuleComplete | src/template_router.php:199 | Every such path is matched and captures its page. |
| Routing.MatchRuleTrailingNewline | src/template_router.php:199 | `folder/page` followed by one newline also matches and captures `page`, for a class without '\n'. The host reaches that subject by url-decoding `/folder/page%0A`. |
| Routing.ApplyRuleRoundTrip | src/template_router.php:197-203 | For plain folder and page names, the matched path `folder/page` yields exactly the variables folder = "1" and magic page = page. |
| Routing.ResolveRuleVars | src/template_router.php:237-244 | Those variables make the resolver applicable, and the page it reads is the captured page. |
| TemplateRouter.SetDefaultInstanceName | src/template_router.php:126-129 | The default name is recorded whether or not such a context exists. Nothing else changes. |
| TemplateRouter.RegisterDefaultContext | src/template_router.php:73-82 | The map afterwards is the old map with the new context stored under its name, with the constructed route, so every other entry is unchanged. A truthy template name becomes the default template and the default context name. Otherwise there is no default template and the default name is unchanged. |
| TemplateRouter.RegisterWithDefaults | src/template_router.php:73-87 | Registering through either method with the default page variable and subfolder gives a context that reads `page` and looks for `<path>/templates/<page>.php`. |
| TemplateRouter.RegisterDefaultContextPreservesValid | src/template_router.php:73-82 | Every stored context stays under its own name, normalised, with a truthy default template if it has one. |
| TemplateRouter.RegisterContextAsWritten | src/template_router.php:84-87 | Every call fails, because the method it calls does not exist. |
| TemplateRouter.RegisterContext | src/template_router.php:84-87 | The intended behaviour stores the context with no default template and leaves the default name alone. |
| TemplateRouter.RegisterContextDefect | src/template_router.php:84-87 | The as-written method always fails, while the intended one makes the context retrievable. |
| TemplateRouter.GetInstance | src/template_router.php:99-117 | It fails exactly when both the given name and the default name are falsy, with the class's exception message. Otherwise it looks up the given name, or the default name, and gives null when that name is absent. |
| TemplateRouter.NoDefaultNoInstance | src/template_router.php:101-106 | With no default set, lookups with no name, "" or "0" all throw. |
| TemplateRouter.RegisterThenGet | src/template_router.php:73-117 | A registered context is what `get_instance` returns for its name. |
| TemplateRouter.LastWriterWins | src/template_router.php:81 | A second registration under the same name replaces the first. |
| TemplateRouter.GetCurrentItems | src/template_router.php:51-54 | Returns the resolved-items log. What it holds is stated by `TemplateRouter.EmptyRegistryValid` (empty before any request) and `TemplateRouter.LookForMagicFolder` (one record appended per successful resolution, in call order). |
| TemplateRouter.CreateUrl | src/template_router.php:153-181 | It fails exactly when neither the page nor the default template is truthy, with the class's exception message. Otherwise it uses the page if truthy, else the default template. |
| TemplateRouter.CreateUrlShape | src/template_router.php:165-180 | With no arguments the URL is the prefix followed by `/folder/page/`. |
| TemplateRouter.DefaultContextServesDefaults | src/template_router.php:155-163 | After registering with a template, `get_instance()` gives that context, and `create_url()` uses the template. |
| TemplateRouter.ReRegisteringDropsDefaultTemplate | src/template_router.php:155-163 | Re-registering the default context without a template makes `create_url()` on it throw. |
| TemplateRouter.RelativeUrlExample | src/template_router.php:165-180 | Folder "shop" and page "catalog" give "/shop/catalog/". |
| TemplateRouter.AbsoluteUrlWithoutTls | src/template_router.php:169-176 | With no TLS value the absolute URL starts with `http://` and the lower-cased host. |
| TemplateRouter.AbsoluteUrlWithTls | src/template_router.php:169-176 | With TLS value "on" it starts with `https://`. |
| TemplateRouter.AbsoluteUrlWithoutHost | src/template_router.php:174-177 | With no host an absolute URL is the same as the relative one. |
| TemplateRouter.WireRewriteRules | src/template_router.php:195-204 | The pattern is `^folder/([a-zA-Z\-0-9_]+)$` and the target `index.php?folder=1&page=$matches[1]` for the context's folder and page variable. The class matches exactly letters, digits, '-' and '_'. |
| TemplateRouter.CreatedUrlReachesResolver | src/template_router.php:195-204 | A URL built for a plain page is rewritten into the router's variables, and the resolver then acts on exactly that page. |
| TemplateRouter.ReservedPagesReachableByRule | src/template_router.php:246-250 | `folder/wp_header` passes the rule, and the resolver then aborts with the direct-access message. |
| TemplateRouter.LookForMagicFolder | src/template_router.php:230-302 | Its outcome and trace are exactly the resolver's for the context's route and the registry's log. The registered contexts and default name never change, and validity is kept. Any non-success leaves the registry alone and emits nothing. Success appends one record to `get_current_items()` and installs the override for the page's file. |
| TemplateRouter.EmptyRegistryValid | src/template_router.php:26-39 | Before any registration the registry is valid, nothing is logged, and `get_instance()` throws. |
| LegacyTemplateRouter.RegisterContext | vendi-wordpress-template-router.php:69-72 | The map afterwards is the old map with the constructed route stored under its name, so every other entry is unchanged. The log is unchanged. |
| LegacyTemplateRouter.RegisterWithDefaults | vendi-wordpress-template-router.php:69-72 | Registering with the default page variable and subfolder gives a route that reads `page` and looks for `<path>/templates/<page>.php`. |
| LegacyTemplateRouter.RegisterContextPreservesValid | vendi-wordpress-template-router.php:69-72 | Every stored route stays under its own name and normalised. |
| LegacyTemplateRouter.GetInstance | vendi-wordpress-template-router.php:74-82 | It gives the route under exactly this name, or null. |
| LegacyTemplateRouter.RegisterThenGet | vendi-wordpress-template-router.php:69-82 | A registered route is what lookup returns, and a second registration replaces it. |
| LegacyTemplateRouter.NoDefaultFallback | vendi-wordpress-template-router.php:74-82 | An empty name is looked up like any other, because there is no default. |
| LegacyTemplateRouter.GetCurrentItems | vendi-wordpress-template-router.php:59-62 | Returns the resolved-items log. What it holds is stated by `LegacyTemplateRouter.EmptyRegistryValid` and `LegacyTemplateRouter.LookForMagicFolder`. |
| LegacyTemplateRouter.CreateUrl | vendi-wordpress-template-router.php:101-119 | Builds `prefix/folder/page/` and hands it to `add_query_arg`, with no page check. Its meaning is stated by `LegacyTemplateRouter.CreateUrlShape` and `LegacyTemplateRouter.CreateUrlAgreesAcrossVersions`. |
| LegacyTemplateRouter.CreateUrlShape | vendi-wordpress-template-router.php:101-119 | With no arguments the URL is the prefix followed by `/folder/page/`, for any page. |
| LegacyTemplateRouter.CreateUrlAgreesAcrossVersions | vendi-wordpress-template-router.php:101-119 | For a truthy page, both versions build the same URL. |
| LegacyTemplateRouter.WireRewriteRules | vendi-wordpress-template-router.php:133-142 | The pattern is `^folder/([a-zA-Z\-0-9]+)$` and the target `index.php?folder=1&page=$matches[1]`. The class matches exactly letters, digits and '-'. |
| LegacyTemplateRouter.CreatedUrlReachesResolver | vendi-wordpress-template-router.php:133-142 | A URL for a page of letters, digits and '-' is rewritten into the router's variables, and the resolver acts on that page. |
| LegacyTemplateRouter.RuleNeverCapturesReservedPage | vendi-wordpress-template-router.php:184-188 | No path the rule matches captures wp_header or wp_footer, so the guard is never reached through this rule. |
| LegacyTemplateRouter.LookForMagicFolder | vendi-wordpress-template-router.php:168-240 | Its outcome and trace are exactly the resolver's for the route and the registry's log. Routes never change. Any non-success leaves the registry alone and emits nothing. Success appends one record and installs the override. |
| LegacyTemplateRouter.EmptyRegistryValid | vendi-wordpress-template-router.php:36-47 | Before any registration the registry is valid, nothing is logged, and every lookup gives null. |

## Left out

- `add_query_arg` is host code. It is a parameter. The URL properties are stated for empty arguments, under the hypothesis that adding no arguments leaves the one URL being built as it is. That holds for URLs with no '?' that are either absolute or free of '='. WordPress reads a relative URL such as `/shop/a=b/`, which has '=' but no '?', as a query string. It re-parses and re-encodes whatever follows a '?', so the page `a?b=c` gives `/shop/a?b=c%2F`. The lemmas say nothing about such URLs.
- The flag test `'1' != $x` is PHP loose comparison. It is modelled as string equality with "1", so numeric spellings such as "01" are treated as not applicable.
- `in_array` is also loose, but it compares only non-numeric strings here, so it is modelled as string equality.
- The `basename`, `trim`, `strtolower` and `esc_html` helpers:
  - `basename` treats only '/' as a separator and ignores locale and multibyte rules;
  - `trim` and `strtolower` are byte-wise and ASCII-only;
  - `esc_html` is an opaque parameter.
- `get_default_url` reads a property the class never defines.
- `get_config_for_debug` only dumps the registry.
- `get_header` and `get_footer` only include files.
- `wire_rewrite_rules` and `add_query_var` are hook plumbing. Their effect on a request is captured by the rewrite rule and the query variables.
- TemplateRouter.LastWriterWins: holds for `get_instance` only. The constructor hooks every object it builds into `pre_get_posts` (src/template_router.php:143, vendi-wordpress-template-router.php:96), and replacing an entry does not unhook the old object. So after re-registration under one name, both the old and the new context resolve every main query, and one request can log two records. The model resolves one context per `LookForMagicFolder` call and does not model the hook list.
- TemplateRouter.LookForMagicFolder: the `do_action` listeners are not modelled. They run after the record is appended (the trace's first action) and may read `get_current_items()` or register contexts. "The registered contexts never change" holds only for the router's own code. The same holds for `LegacyTemplateRouter.LookForMagicFolder`.
- The rule's position "top", which places it ahead of the host's own rules, is not modelled; `Routing.ApplyRule` matches the rule on its own.
- The `template_include` and `body_class` filters are trace entries. What they return is modelled by `Routing.TemplateFile` and `Routing.FilterBodyClasses`.
- `Routing.MatchRule` covers folders without regex metacharacters. A folder holding `.`, `+` or the like would make the pattern match more than the folder text. `WordPressHost.RequestPath` does not url-decode the path; WordPress also tries each rule on the decoded path, and `Routing.MatchRuleTrailingNewline` states the decoded subject `folder/page\n` directly.
- `WordPressHost.ParseQuery` does not model `parse_str`'s URL decoding or its key mangling, such as `.` becoming `_` or brackets making arrays. Nor does it model WordPress putting `urlencode` of the capture in place of `$matches[1]`. The round-trip lemmas only use plain names, where none of these applies.
- TemplateRouter.RegisterDefaultContextPreservesValid: holds only for the router's own code. A context is an object with public, writable properties (src/template_router.php:16-37, vendi-wordpress-template-router.php:28-45), and `get_instance` hands out that same object, so a caller may set `template_subfolder` to `/x/` or change `default_template_name`, and the resolver and `create_url` then read the new values. The model stores values, not shared objects, and does not model such writes. The same holds for `LegacyTemplateRouter.RegisterContextPreservesValid` and for `Valid` in both modules.
- The registry is process-wide static state in PHP. Here it is a value passed in and returned. Concurrent requests are not modelled.

## Findings

| source | as written | input that shows it | evidently intended | confidence | as-written member | corrected member |
|---|---|---|---|---|---|---|
| src/template_router.php:84-87 | `register_context` calls `register_context_with_default_template`, which the class does not define | any call, e.g. `register_context('shop', 'shop', '/var/www/t')` | register with no default template via `register_default_context` | high (not executed) | TemplateRouter.RegisterContextAsWritten (counterexample: TemplateRouter.RegisterContextDefect) | TemplateRouter.RegisterContext |
