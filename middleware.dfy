/** The request middleware (middleware.ts): API paths and, outside
    maintenance, every path go to the next-intl locale routing; in
    maintenance mode every other path is redirected to the maintenance page
    of its locale. The MAINTENANCE_MODE environment variable and the path
    are inputs; what next-intl then does is not part of this model. */
module Middleware {
  import opened Wrappers
  import opened Text

  datatype Decision = I18nRouting | Redirect(path: string)

  /** `process.env.MAINTENANCE_MODE === 'true'`. */
  predicate MaintenanceMode(env: Option<string>) {
    env == Some("true")
  }

  predicate IsLowerAscii(c: char) {
    'a' <= c <= 'z'
  }

  /** `/^\/([a-z]{2})(?:\/|$)/`: a slash, two lower-case ASCII letters, then
      a slash or the end of the path. */
  predicate HasLocalePrefix(pathname: string) {
    |pathname| >= 3 && pathname[0] == '/' && IsLowerAscii(pathname[1]) && IsLowerAscii(pathname[2])
    && (|pathname| == 3 || pathname[3] == '/')
  }

  /** `localeMatch ? localeMatch[1] : 'en'`. */
  function LocaleOf(pathname: string): (locale: string)
    ensures |locale| == 2 && IsLowerAscii(locale[0]) && IsLowerAscii(locale[1])
  {
    if HasLocalePrefix(pathname) then pathname[1..3] else "en"
  }

  function MaintenancePath(locale: string): string {
    "/" + locale + "/maintenance"
  }

  /** middleware(request), with the request reduced to its path. */
  function Route(env: Option<string>, pathname: string): Decision {
    if StartsWith(pathname, "/api/") then I18nRouting
    else if MaintenanceMode(env) && !Contains(pathname, "/maintenance") then
      Redirect(MaintenancePath(LocaleOf(pathname)))
    else I18nRouting
  }

  // ---------------------------------------------------------------------
  // Properties

  /** API routes are never redirected, whatever the flag says. */
  lemma ApiPassesThrough(env: Option<string>, pathname: string)
    requires StartsWith(pathname, "/api/")
    ensures Route(env, pathname) == I18nRouting
  {
  }

  /** Outside maintenance nothing is redirected. */
  lemma NoRedirectOutsideMaintenance(env: Option<string>, pathname: string)
    requires !MaintenanceMode(env)
    ensures Route(env, pathname) == I18nRouting
  {
  }

  /** A redirect happens exactly in maintenance mode, off the API and off
      any maintenance page, and it targets the maintenance page of the
      path's locale. */
  lemma RedirectRule(env: Option<string>, pathname: string)
    ensures Route(env, pathname).Redirect? <==>
      MaintenanceMode(env) && !StartsWith(pathname, "/api/") && !Contains(pathname, "/maintenance")
    ensures Route(env, pathname).Redirect? ==> Route(env, pathname).path == MaintenancePath(LocaleOf(pathname))
  {
  }

  /** The locale is the two-letter first segment, or "en". */
  lemma LocaleExamples()
    ensures LocaleOf("/fr/x") == "fr" && LocaleOf("/fr") == "fr" && LocaleOf("/de/events") == "de"
    ensures LocaleOf("/fra") == "en" && LocaleOf("/") == "en" && LocaleOf("/FR/x") == "en"
  {
    assert HasLocalePrefix("/fr/x") && HasLocalePrefix("/fr") && HasLocalePrefix("/de/events");
    assert "/fr/x"[1..3] == "fr" && "/fr"[1..3] == "fr" && "/de/events"[1..3] == "de";
    assert !HasLocalePrefix("/fra") && !HasLocalePrefix("/") && !HasLocalePrefix("/FR/x");
  }

  /** The maintenance page of a locale is under that locale. */
  lemma MaintenancePathKeepsLocale(locale: string)
    requires |locale| == 2 && IsLowerAscii(locale[0]) && IsLowerAscii(locale[1])
    ensures LocaleOf(MaintenancePath(locale)) == locale
    ensures Contains(MaintenancePath(locale), "/maintenance")
  {
    var p := MaintenancePath(locale);
    assert p[3] == '/';
    assert p[1..3] == locale;
    assert p[3..] == "/maintenance";
    assert OccursAt(p, "/maintenance", 3);
  }

  /** No redirect loop: the redirect target is itself let through, and it
      keeps the locale it was chosen for. */
  lemma RedirectIsFinal(env: Option<string>, pathname: string)
    requires Route(env, pathname).Redirect?
    ensures Route(env, Route(env, pathname).path) == I18nRouting
    ensures LocaleOf(Route(env, pathname).path) == LocaleOf(pathname)
  {
    MaintenancePathKeepsLocale(LocaleOf(pathname));
  }
}
