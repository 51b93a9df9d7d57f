/** The header navigation: which of the "Courses" and "Profile" buttons is
    highlighted for the current location. */
module Navigation {

  const CoursesPath: string := "/courses"
  const ProfilePath: string := "/profile"

  predicate StartsWith(s: string, prefix: string) {
    |prefix| <= |s| && s[..|prefix|] == prefix
  }

  /** `isActive(path)` with `location.pathname` as `pathname`: the courses
      button stays lit on every course detail page below `/courses/`; any other
      button is lit only on its own exact path. */
  predicate IsActive(pathname: string, path: string) {
    if path == CoursesPath then
      pathname == CoursesPath || StartsWith(pathname, CoursesPath + "/")
    else
      pathname == path
  }

  /** Character-level reading of the courses rule: the path begins with
      "/courses" and either ends there or continues with a slash. */
  lemma CoursesActiveIff(pathname: string)
    ensures IsActive(pathname, CoursesPath) <==>
      |pathname| >= 8 && pathname[..8] == "/courses" && (|pathname| == 8 || pathname[8] == '/')
  {
    if |pathname| >= 9 && pathname[..8] == "/courses" && pathname[8] == '/' {
      assert pathname[..9] == pathname[..8] + [pathname[8]];
    }
    if |pathname| >= 9 && pathname[..9] == "/courses/" {
      assert pathname[..8] == pathname[..9][..8];
    }
  }

  /** Every other button is lit on its own path and nowhere else, so
      "/profile/x" does not light "/profile". */
  lemma OtherTargetsMatchExactly(pathname: string, path: string)
    requires path != CoursesPath
    ensures IsActive(pathname, path) <==> pathname == path
    ensures IsActive(path, path) && !IsActive(path + "/x", path)
  {
    assert |path + "/x"| != |path|;
  }

  /** Every course detail page `/courses/<id>` (and its sub-pages) lights the courses button. */
  lemma CourseDetailPagesActivateCourses(rest: string)
    ensures IsActive(CoursesPath + "/" + rest, CoursesPath)
  {
    var p := CoursesPath + "/" + rest;
    assert p[..9] == CoursesPath + "/";
  }

  /** The trailing slash in the prefix keeps look-alike paths from lighting the button. */
  lemma LookAlikePathNotActive()
    ensures !IsActive("/coursesX", CoursesPath)
    ensures !IsActive("/courses-archive/1", CoursesPath)
  {
    CoursesActiveIff("/coursesX");
    CoursesActiveIff("/courses-archive/1");
  }

  /** The two navigation buttons are never highlighted together. */
  lemma NeverBothActive(pathname: string)
    ensures !(IsActive(pathname, CoursesPath) && IsActive(pathname, ProfilePath))
  {
    if IsActive(pathname, ProfilePath) {
      assert pathname[1] == 'p';
    }
  }
}
