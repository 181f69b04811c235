/**
 * The analytics configuration's page helpers: the title reported for a
 * route and the content group it is counted under.
 *
 * A route path always begins with '/', and no member every JavaScript
 * object inherits has such a name, so the lookups see only the listed paths.
 */
module Analytics {

  /** The nine routes both helpers know. */
  const KnownPaths: set<string> :=
    {"/", "/about", "/projects", "/publications", "/skills", "/experience", "/achievements", "/contact", "/social"}

  /** `pathMap` of `getPageTitle`. */
  const PathTitles: map<string, string> := map[
    "/" := "Home - Muhammed Fuhad C Portfolio",
    "/about" := "About - Muhammed Fuhad C",
    "/projects" := "Projects - Portfolio",
    "/publications" := "Publications - Research",
    "/skills" := "Skills - Technical Profile",
    "/experience" := "Experience - Career",
    "/achievements" := "Achievements - Recognition",
    "/contact" := "Contact - Get In Touch",
    "/social" := "Social Media - Connect"
  ]

  const DefaultTitle := "Muhammed Fuhad C Portfolio"

  /** `CONTENT_GROUPS`. */
  const HomeGroup := "Home"

  /** `groupMap` of `getContentGroup`. */
  const PathGroups: map<string, string> := map[
    "/" := HomeGroup,
    "/about" := "About",
    "/projects" := "Projects",
    "/publications" := "Publications",
    "/skills" := "Skills",
    "/experience" := "Experience",
    "/achievements" := "Achievements",
    "/contact" := "Contact",
    "/social" := "Social"
  ]

  /** `getPageTitle`: the route's title, or the site's name for any other path. */
  function GetPageTitle(pathname: string): (r: string)
    ensures r != ""
    ensures pathname !in KnownPaths ==> r == DefaultTitle
    ensures pathname in KnownPaths ==> r == PathTitles[pathname]
  {
    if pathname in PathTitles && PathTitles[pathname] != "" then PathTitles[pathname] else DefaultTitle
  }

  /** `getContentGroup`: the route's group, or the home group for any other path. */
  function GetContentGroup(pathname: string): (r: string)
    ensures r in PathGroups.Values
    ensures pathname !in KnownPaths ==> r == HomeGroup
    ensures pathname in KnownPaths ==> r == PathGroups[pathname]
  {
    if pathname in PathGroups && PathGroups[pathname] != "" then PathGroups[pathname]
    else assert PathGroups["/"] == HomeGroup; HomeGroup
  }

  /** Both maps are defined over the same routes. */
  lemma SamePaths()
    ensures PathTitles.Keys == KnownPaths && PathGroups.Keys == KnownPaths
  {
  }

  /** Only an unknown path gets the site's name as its title: no route's own title is that name. */
  lemma DefaultTitleOnlyForUnknown(pathname: string)
    ensures GetPageTitle(pathname) == DefaultTitle <==> pathname !in KnownPaths
  {
    if pathname in KnownPaths {
      assert GetPageTitle(pathname) in PathTitles.Values;
    }
  }

  /** Different routes have different titles, so the title identifies the route. */
  lemma TitlesIdentifyRoutes(p: string, q: string)
    requires p in KnownPaths && q in KnownPaths && p != q
    ensures GetPageTitle(p) != GetPageTitle(q)
  {
  }

  /** The home group is reported for the home route and for unknown paths, and for nothing else. */
  lemma HomeGroupCases(pathname: string)
    ensures GetContentGroup(pathname) == HomeGroup <==> pathname == "/" || pathname !in KnownPaths
  {
  }

  /** The social route's title and group. */
  lemma SocialRoute()
    ensures GetPageTitle("/social") == "Social Media - Connect"
    ensures GetContentGroup("/social") == "Social"
  {
  }
}
