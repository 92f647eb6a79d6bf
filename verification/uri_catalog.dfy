/** The fixed table of XNAT REST path templates. Each template is a `/`-separated
    sequence of fixed segments and `{name}` parameters. */
module UriCatalog {
  import opened Wrappers
  import Text
  import opened UriTemplate

  datatype UriKind =
    | UserResource | UserResourcesById | UserFile | UserFileById | User | UserById
    | Project | ProjectById | ProjectAccessibility | ProjectAccessibilityByType
    | ProjectArcPath | ProjectArcPathBySubdir | ProjectFiles
    | ProjectPrearchiveCode | ProjectPrearchiveCodeById
    | ProjectQuarantineCode | ProjectQuarantineCodeById
    | ProjectResources | ProjectResourcesById | ProjectResourcesByFilename
    | ProjectSearches

  /** One path segment: fixed text, or a `{name}` placeholder. */
  datatype Segment = Fixed(text: string) | Param(name: string)

  function SegmentText(s: Segment): string {
    match s
    case Fixed(t) => t
    case Param(n) => "{" + n + "}"
  }

  /** `/seg1/seg2/...` */
  function Path(segments: seq<Segment>): string
    decreases |segments|
  {
    if segments == [] then "" else "/" + SegmentText(segments[0]) + Path(segments[1..])
  }

  const UserCacheResources: seq<Segment> := [Fixed("data"), Fixed("user"), Fixed("cache"), Fixed("resources")]
  const Users: seq<Segment> := [Fixed("data"), Fixed("users")]
  const Projects: seq<Segment> := [Fixed("data"), Fixed("archive"), Fixed("projects")]
  const OneProject: seq<Segment> := Projects + [Param("project")]

  /** The segments of each `URI_*` constant. */
  function Segments(k: UriKind): seq<Segment> {
    match k
    case UserResource => UserCacheResources
    case UserResourcesById => UserCacheResources + [Param("resource")]
    case UserFile => UserCacheResources + [Param("resource"), Fixed("files")]
    case UserFileById => UserCacheResources + [Param("resource"), Fixed("files"), Param("file")]
    case User => Users
    case UserById => Users + [Param("user")]
    case Project => Projects
    case ProjectById => OneProject
    case ProjectAccessibility => OneProject + [Fixed("accessibility")]
    case ProjectAccessibilityByType => OneProject + [Fixed("accessibility"), Param("accessibility")]
    case ProjectArcPath => OneProject + [Fixed("current_arc")]
    case ProjectArcPathBySubdir => OneProject + [Fixed("current_arc"), Param("folder")]
    case ProjectFiles => OneProject + [Fixed("files"), Param("file")]
    case ProjectPrearchiveCode => OneProject + [Fixed("prearchive_code")]
    case ProjectPrearchiveCodeById => OneProject + [Fixed("prearchive_code"), Param("code")]
    case ProjectQuarantineCode => OneProject + [Fixed("quarantine_code")]
    case ProjectQuarantineCodeById => OneProject + [Fixed("quarantine_code"), Param("code")]
    case ProjectResources => OneProject + [Fixed("resources")]
    case ProjectResourcesById => OneProject + [Fixed("resources"), Param("resource")]
    case ProjectResourcesByFilename => OneProject + [Fixed("resources"), Param("resource"), Fixed("files"), Param("file")]
    case ProjectSearches => OneProject + [Fixed("searches"), Param("search")]
  }

  /** The `URI_*` constant of each kind; `URI_PROJECT_PREARCHIVE_CODE_BY_ID` is
      written without the leading `/`. */
  function Template(k: UriKind): string {
    if k == ProjectPrearchiveCodeById then Path(Segments(k))[1..] else Path(Segments(k))
  }

  /** For each `*_BY_*` kind, the kind without the suffix (for `URI_USER_RESOURCES_BY_ID`
      the singular `URI_USER_RESOURCE`, the only user-resource list constant). */
  function Sibling(k: UriKind): Option<UriKind> {
    match k
    case UserResourcesById => Some(UserResource)
    case UserFileById => Some(UserFile)
    case UserById => Some(User)
    case ProjectById => Some(Project)
    case ProjectAccessibilityByType => Some(ProjectAccessibility)
    case ProjectArcPathBySubdir => Some(ProjectArcPath)
    case ProjectPrearchiveCodeById => Some(ProjectPrearchiveCode)
    case ProjectQuarantineCodeById => Some(ProjectQuarantineCode)
    case ProjectResourcesById => Some(ProjectResources)
    case ProjectResourcesByFilename => Some(ProjectResources)
    case _ => None
  }

  lemma {:induction false} PathAppend(a: seq<Segment>, b: seq<Segment>)
    ensures Path(a + b) == Path(a) + Path(b)
    decreases |a|
  {
    if a == [] {
      assert a + b == b;
    } else {
      assert (a + b)[0] == a[0] && (a + b)[1..] == a[1..] + b;
      PathAppend(a[1..], b);
    }
  }

  lemma PathSnoc(a: seq<Segment>, s: Segment)
    ensures Path(a + [s]) == Path(a) + "/" + SegmentText(s)
  {
    PathAppend(a, [s]);
    assert [s][1..] == [];
    assert Path([s]) == "/" + SegmentText(s) + "";
  }

  /** One to four segments after a prefix whose spelling is known: each adds a
      `/` and its own text. */
  lemma PathPlusOne(prefix: seq<Segment>, prefixText: string, a: Segment)
    requires Path(prefix) == prefixText
    ensures Path(prefix + [a]) == prefixText + "/" + SegmentText(a)
  {
    PathSnoc(prefix, a);
  }

  lemma PathPlusTwo(prefix: seq<Segment>, prefixText: string, a: Segment, b: Segment)
    requires Path(prefix) == prefixText
    ensures Path(prefix + [a, b]) == prefixText + "/" + SegmentText(a) + "/" + SegmentText(b)
  {
    var p1 := prefix + [a];
    assert p1 + [b] == prefix + [a, b];
    PathSnoc(prefix, a);
    PathSnoc(p1, b);
  }

  lemma PathPlusThree(prefix: seq<Segment>, prefixText: string, a: Segment, b: Segment, c: Segment)
    requires Path(prefix) == prefixText
    ensures Path(prefix + [a, b, c])
            == prefixText + "/" + SegmentText(a) + "/" + SegmentText(b) + "/" + SegmentText(c)
  {
    var p1 := prefix + [a];
    var p2 := p1 + [b];
    assert p2 + [c] == prefix + [a, b, c];
    PathSnoc(prefix, a);
    PathSnoc(p1, b);
    PathSnoc(p2, c);
  }

  lemma PathPlusFour(prefix: seq<Segment>, prefixText: string, a: Segment, b: Segment, c: Segment, d: Segment)
    requires Path(prefix) == prefixText
    ensures Path(prefix + [a, b, c, d])
            == prefixText + "/" + SegmentText(a) + "/" + SegmentText(b) + "/" + SegmentText(c) + "/" + SegmentText(d)
  {
    var p1 := prefix + [a];
    var p2 := p1 + [b];
    var p3 := p2 + [c];
    assert p3 + [d] == prefix + [a, b, c, d];
    PathSnoc(prefix, a);
    PathSnoc(p1, b);
    PathSnoc(p2, c);
    PathSnoc(p3, d);
  }

  lemma PathStartsWithSlash(segments: seq<Segment>)
    requires segments != []
    ensures |Path(segments)| > 0 && Path(segments)[0] == '/'
  {
  }

  /** Every template is an absolute path except the prearchive-code-by-id one. */
  lemma LeadingSlash(k: UriKind)
    ensures Text.StartsWith(Template(k), "/") <==> k != ProjectPrearchiveCodeById
  {
    var segments := Segments(k);
    PathStartsWithSlash(segments);
    Text.StartsWithChar(Template(k), '/');
    if k == ProjectPrearchiveCodeById {
      var p := Path(segments);
      assert p == "/" + "data" + Path(segments[1..]);
      assert Template(k)[0] == p[1] == 'd';
    }
  }

  /** The segments a `*_BY_*` kind adds to its sibling. */
  function Suffix(k: UriKind): seq<Segment>
    requires Sibling(k).Some?
  {
    match k
    case UserResourcesById => [Param("resource")]
    case UserFileById => [Param("file")]
    case UserById => [Param("user")]
    case ProjectById => [Param("project")]
    case ProjectAccessibilityByType => [Param("accessibility")]
    case ProjectArcPathBySubdir => [Param("folder")]
    case ProjectPrearchiveCodeById => [Param("code")]
    case ProjectQuarantineCodeById => [Param("code")]
    case ProjectResourcesById => [Param("resource")]
    case ProjectResourcesByFilename => [Param("resource"), Fixed("files"), Param("file")]
  }

  lemma SiblingSegments(k: UriKind)
    requires Sibling(k).Some?
    ensures Segments(k) == Segments(Sibling(k).value) + Suffix(k)
  {
    match k
    case UserFileById =>
      assert UserCacheResources + [Param("resource"), Fixed("files"), Param("file")]
          == (UserCacheResources + [Param("resource"), Fixed("files")]) + [Param("file")];
    case ProjectById =>
    case ProjectResourcesByFilename =>
      assert OneProject + [Fixed("resources"), Param("resource"), Fixed("files"), Param("file")]
          == (OneProject + [Fixed("resources")]) + [Param("resource"), Fixed("files"), Param("file")];
    case _ =>
  }

  /** The prearchive-code-by-id template does not extend its sibling. */
  lemma PrearchiveByIdNotExtension()
    ensures !Text.StartsWith(Template(ProjectPrearchiveCodeById), Template(ProjectPrearchiveCode))
  {
    var t := Template(ProjectPrearchiveCodeById);
    var s := Template(ProjectPrearchiveCode);
    LeadingSlash(ProjectPrearchiveCodeById);
    LeadingSlash(ProjectPrearchiveCode);
    Text.StartsWithChar(t, '/');
    Text.StartsWithChar(s, '/');
  }

  lemma PathPrefix(a: seq<Segment>, b: seq<Segment>)
    ensures Text.StartsWith(Path(a + b), Path(a))
  {
    PathAppend(a, b);
    Text.StartsWithAppend(Path(a), Path(b));
  }

  lemma SiblingIsAbsolute(k: UriKind)
    requires Sibling(k).Some?
    ensures Template(Sibling(k).value) == Path(Segments(Sibling(k).value))
  {
  }

  /** Every `*_BY_*` template extends its sibling's, except the prearchive-code-by-id
      one, which lost the leading `/`. */
  lemma SiblingIsPrefix(k: UriKind)
    requires Sibling(k).Some?
    ensures Text.StartsWith(Template(k), Template(Sibling(k).value)) <==> k != ProjectPrearchiveCodeById
  {
    if k == ProjectPrearchiveCodeById {
      PrearchiveByIdNotExtension();
    } else {
      var s := Sibling(k).value;
      SiblingSegments(k);
      SiblingIsAbsolute(k);
      PathPrefix(Segments(s), Suffix(k));
    }
  }

  /** Fixed segments are brace-free; parameters are identifiers. */
  predicate ValidSegment(s: Segment) {
    match s
    case Fixed(t) => '{' !in t && '}' !in t
    case Param(n) => IsFieldName(n)
  }

  predicate AllValid(segments: seq<Segment>) {
    forall i :: 0 <= i < |segments| ==> ValidSegment(segments[i])
  }

  lemma AllValidAppend(a: seq<Segment>, b: seq<Segment>)
    requires AllValid(a) && AllValid(b)
    ensures AllValid(a + b)
  {
    forall i | 0 <= i < |a + b|
      ensures ValidSegment((a + b)[i])
    {
      if i >= |a| { assert (a + b)[i] == b[i - |a|]; }
    }
  }

  /** The segment itself, or the fixed value of a parameter. */
  function BindSegment(s: Segment, values: map<string, string>): Segment
    requires s.Param? ==> s.name in values
  {
    match s
    case Fixed(t) => Fixed(t)
    case Param(n) => Fixed(values[n])
  }

  /** The segments with every parameter replaced by its value. */
  function Bind(segments: seq<Segment>, values: map<string, string>): (r: seq<Segment>)
    requires forall i :: 0 <= i < |segments| && segments[i].Param? ==> segments[i].name in values
    ensures |r| == |segments|
    ensures forall i :: 0 <= i < |r| ==> r[i] == BindSegment(segments[i], values)
    ensures forall i :: 0 <= i < |r| ==> r[i].Fixed?
    decreases |segments|
  {
    if segments == [] then []
    else [BindSegment(segments[0], values)] + Bind(segments[1..], values)
  }

  /** A path template formats segment by segment: fixed text stays, each parameter
      becomes its value. */
  lemma {:induction false} FormatPath(segments: seq<Segment>, values: map<string, string>)
    requires AllValid(segments)
    requires forall i :: 0 <= i < |segments| && segments[i].Param? ==> segments[i].name in values
    ensures FormatUri(Path(segments), values) == Done(Some(Path(Bind(segments, values))), [])
    decreases |segments|
  {
    if segments == [] {
      BraceFreeIsLiteral("", values);
    } else {
      var head := "/" + SegmentText(segments[0]);
      assert ValidSegment(segments[0]);
      if segments[0].Fixed? {
        BraceFreeIsLiteral(head, values);
      } else {
        var n := segments[0].name;
        BraceFreeIsLiteral("/", values);
        PlaceholderIsValue(n, values);
        FormatAppend("/", "{" + n + "}", values);
      }
      FormatPath(segments[1..], values);
      FormatAppend(head, Path(segments[1..]), values);
      assert Bind(segments, values)[1..] == Bind(segments[1..], values);
    }
  }

  /** The parameter names the catalog uses are identifiers. */
  lemma CatalogNamesValid()
    ensures IsFieldName("project") && IsFieldName("resource") && IsFieldName("file")
    ensures IsFieldName("user") && IsFieldName("accessibility") && IsFieldName("folder")
    ensures IsFieldName("code") && IsFieldName("search")
  {
  }

  lemma UserCacheValid()
    ensures AllValid(UserCacheResources)
  {
  }

  lemma ResourceFileTailValid()
    ensures AllValid([Param("resource"), Fixed("files"), Param("file")])
    ensures AllValid([Param("resource"), Fixed("files")]) && AllValid([Param("resource")])
  {
    assert IsFieldName("resource") && IsFieldName("file");
  }

  lemma UserCacheSegmentsValid(k: UriKind)
    requires k in {UserResource, UserResourcesById, UserFile, UserFileById}
    ensures AllValid(Segments(k))
  {
    UserCacheValid();
    ResourceFileTailValid();
    match k
    case UserResourcesById => AllValidAppend(UserCacheResources, [Param("resource")]);
    case UserFile => AllValidAppend(UserCacheResources, [Param("resource"), Fixed("files")]);
    case UserFileById => AllValidAppend(UserCacheResources, [Param("resource"), Fixed("files"), Param("file")]);
    case UserResource =>
  }

  lemma UserSegmentsValid(k: UriKind)
    requires k in {User, UserById}
    ensures AllValid(Segments(k))
  {
    assert IsFieldName("user");
    AllValidAppend(Users, [Param("user")]);
  }

  lemma ProjectSettingSegmentsValid(k: UriKind)
    requires k in {ProjectAccessibility, ProjectAccessibilityByType, ProjectArcPath, ProjectArcPathBySubdir}
    ensures AllValid(Segments(k))
  {
    CatalogNamesValid();
    AllValidAppend(Projects, [Param("project")]);
    match k
    case ProjectAccessibility => AllValidAppend(OneProject, [Fixed("accessibility")]);
    case ProjectAccessibilityByType => AllValidAppend(OneProject, [Fixed("accessibility"), Param("accessibility")]);
    case ProjectArcPath => AllValidAppend(OneProject, [Fixed("current_arc")]);
    case ProjectArcPathBySubdir => AllValidAppend(OneProject, [Fixed("current_arc"), Param("folder")]);
  }

  lemma CodeFoldersValid()
    ensures ValidSegment(Fixed("prearchive_code")) && ValidSegment(Fixed("quarantine_code"))
  {
  }

  lemma ProjectCodeSegmentsValid(k: UriKind)
    requires k in {ProjectPrearchiveCode, ProjectPrearchiveCodeById, ProjectQuarantineCode, ProjectQuarantineCodeById}
    ensures AllValid(Segments(k))
  {
    CatalogNamesValid();
    CodeFoldersValid();
    AllValidAppend(Projects, [Param("project")]);
    match k
    case ProjectPrearchiveCode => AllValidAppend(OneProject, [Fixed("prearchive_code")]);
    case ProjectPrearchiveCodeById => AllValidAppend(OneProject, [Fixed("prearchive_code"), Param("code")]);
    case ProjectQuarantineCode => AllValidAppend(OneProject, [Fixed("quarantine_code")]);
    case ProjectQuarantineCodeById => AllValidAppend(OneProject, [Fixed("quarantine_code"), Param("code")]);
  }

  lemma ProjectDataSegmentsValid(k: UriKind)
    requires k in {Project, ProjectById, ProjectFiles, ProjectResources, ProjectResourcesById,
                   ProjectResourcesByFilename, ProjectSearches}
    ensures AllValid(Segments(k))
  {
    CatalogNamesValid();
    AllValidAppend(Projects, [Param("project")]);
    match k
    case ProjectFiles => AllValidAppend(OneProject, [Fixed("files"), Param("file")]);
    case ProjectResources => AllValidAppend(OneProject, [Fixed("resources")]);
    case ProjectResourcesById => AllValidAppend(OneProject, [Fixed("resources"), Param("resource")]);
    case ProjectResourcesByFilename =>
      AllValidAppend(OneProject, [Fixed("resources"), Param("resource"), Fixed("files"), Param("file")]);
    case ProjectSearches => AllValidAppend(OneProject, [Fixed("searches"), Param("search")]);
    case _ =>
  }

  /** Every catalog entry is made of valid segments. */
  lemma CatalogSegmentsValid(k: UriKind)
    ensures AllValid(Segments(k))
  {
    if k in {UserResource, UserResourcesById, UserFile, UserFileById} {
      UserCacheSegmentsValid(k);
    } else if k in {User, UserById} {
      UserSegmentsValid(k);
    } else if k in {ProjectAccessibility, ProjectAccessibilityByType, ProjectArcPath, ProjectArcPathBySubdir} {
      ProjectSettingSegmentsValid(k);
    } else if k in {ProjectPrearchiveCode, ProjectPrearchiveCodeById, ProjectQuarantineCode, ProjectQuarantineCodeById} {
      ProjectCodeSegmentsValid(k);
    } else {
      ProjectDataSegmentsValid(k);
    }
  }

  lemma DropLeadingSlash(segments: seq<Segment>)
    requires segments != []
    ensures Path(segments)[1..] == SegmentText(segments[0]) + Path(segments[1..])
  {
    var rest := SegmentText(segments[0]) + Path(segments[1..]);
    assert Path(segments) == "/" + rest;
    assert ("/" + rest)[1..] == rest;
  }

  /** The relative prearchive template is its segments' path without the leading `/`. */
  lemma RelativeTemplate(values: map<string, string>)
    requires forall i :: 0 <= i < |Segments(ProjectPrearchiveCodeById)| && Segments(ProjectPrearchiveCodeById)[i].Param?
               ==> Segments(ProjectPrearchiveCodeById)[i].name in values
    ensures Template(ProjectPrearchiveCodeById) == "data" + Path(Segments(ProjectPrearchiveCodeById)[1..])
    ensures Path(Bind(Segments(ProjectPrearchiveCodeById), values))[1..]
            == "data" + Path(Bind(Segments(ProjectPrearchiveCodeById)[1..], values))
  {
    var segments := Segments(ProjectPrearchiveCodeById);
    assert segments[0] == Fixed("data");
    DropLeadingSlash(segments);
    var bound := Bind(segments, values);
    assert bound[0] == Fixed("data") && bound[1..] == Bind(segments[1..], values);
    DropLeadingSlash(bound);
  }

  /** Every catalog template formats by replacing each `{name}` segment with its
      value; the relative one stays relative. */
  lemma FormatCatalogEntry(k: UriKind, values: map<string, string>)
    requires forall i :: 0 <= i < |Segments(k)| && Segments(k)[i].Param? ==> Segments(k)[i].name in values
    ensures k != ProjectPrearchiveCodeById ==>
              FormatUri(Template(k), values) == Done(Some(Path(Bind(Segments(k), values))), [])
    ensures k == ProjectPrearchiveCodeById ==>
              FormatUri(Template(k), values) == Done(Some(Path(Bind(Segments(k), values))[1..]), [])
  {
    CatalogSegmentsValid(k);
    if k == ProjectPrearchiveCodeById {
      var segments := Segments(k);
      assert AllValid(segments[1..]) by {
        forall i | 0 <= i < |segments[1..]| ensures ValidSegment(segments[1..][i]) {
          assert segments[1..][i] == segments[i + 1];
        }
      }
      assert forall i :: 0 <= i < |segments[1..]| && segments[1..][i].Param? ==> segments[1..][i].name in values by {
        forall i | 0 <= i < |segments[1..]| ensures segments[1..][i] == segments[i + 1] { }
      }
      FormatPath(segments[1..], values);
      BraceFreeIsLiteral("data", values);
      RelativeTemplate(values);
      FormatAppend("data", Path(segments[1..]), values);
    } else {
      FormatPath(Segments(k), values);
    }
  }

  lemma BindFixed(segments: seq<Segment>, values: map<string, string>)
    requires forall i :: 0 <= i < |segments| ==> segments[i].Fixed?
    ensures Bind(segments, values) == segments
  {
  }

  /** The list templates without placeholders format to themselves for any values. */
  lemma PlainTemplatesFormatToThemselves(k: UriKind, values: map<string, string>)
    requires k == UserResource || k == User || k == Project
    ensures FormatUri(Template(k), values) == Done(Some(Template(k)), [])
  {
    var segments := Segments(k);
    assert forall i :: 0 <= i < |segments| ==> segments[i].Fixed?;
    FormatCatalogEntry(k, values);
    BindFixed(segments, values);
  }

  lemma UserPath(user: string)
    ensures Path([Fixed("data"), Fixed("users"), Fixed(user)]) == "/data/users/" + user
  {
    var bound := [Fixed("data"), Fixed("users"), Fixed(user)];
    assert bound[1..] == [Fixed("users"), Fixed(user)];
    assert bound[1..][1..] == [Fixed(user)];
    assert Path([Fixed(user)]) == "/" + user by {
      assert [Fixed(user)][1..] == [];
      assert "/" + user + "" == "/" + user;
    }
    var rest := "/" + "users" + ("/" + user);
    assert Path(bound) == "/" + "data" + rest;
    assert rest == "/users/" + user;
    assert "/" + "data" + ("/users/" + user) == "/data/users/" + user;
  }

  /** `URI_USER_BY_ID` with a user name: `/data/users/` followed by the name. */
  lemma UserByIdFormat(user: string)
    ensures FormatUri(Template(UserById), map["user" := user]) == Done(Some("/data/users/" + user), [])
  {
    var k := UserById;
    var values := map["user" := user];
    assert Segments(k) == [Fixed("data"), Fixed("users"), Param("user")];
    FormatCatalogEntry(k, values);
    assert Bind(Segments(k), values) == [Fixed("data"), Fixed("users"), Fixed(user)];
    UserPath(user);
  }

  lemma BindAppend(a: seq<Segment>, b: seq<Segment>, values: map<string, string>)
    requires forall i :: 0 <= i < |a| && a[i].Param? ==> a[i].name in values
    requires forall i :: 0 <= i < |b| && b[i].Param? ==> b[i].name in values
    ensures forall i :: 0 <= i < |a + b| && (a + b)[i].Param? ==> (a + b)[i].name in values
    ensures Bind(a + b, values) == Bind(a, values) + Bind(b, values)
  {
    assert forall i :: |a| <= i < |a + b| ==> (a + b)[i] == b[i - |a|];
    var l := Bind(a + b, values);
    var r := Bind(a, values) + Bind(b, values);
    assert |l| == |r|;
    forall i | 0 <= i < |l| ensures l[i] == r[i] {
      if i >= |a| { assert (a + b)[i] == b[i - |a|]; }
    }
  }

  /** Binding a fixed, parameter, fixed, parameter, fixed... run of five segments. */
  lemma BindAlternating(p: string, x: string, r: string, y: string, f: string, values: map<string, string>)
    requires p in values && r in values && f in values
    ensures Bind([Param(p), Fixed(x), Param(r), Fixed(y), Param(f)], values)
            == [Fixed(values[p]), Fixed(x), Fixed(values[r]), Fixed(y), Fixed(values[f])]
  {
    var segments := [Param(p), Fixed(x), Param(r), Fixed(y), Param(f)];
    var bound := Bind(segments, values);
    assert bound[0] == BindSegment(segments[0], values);
    assert bound[1] == BindSegment(segments[1], values);
    assert bound[2] == BindSegment(segments[2], values);
    assert bound[3] == BindSegment(segments[3], values);
    assert bound[4] == BindSegment(segments[4], values);
  }

  lemma ResourcesByFilenameSegments(k: UriKind)
    requires k == ProjectResourcesByFilename
    ensures Segments(k) == Projects + [Param("project"), Fixed("resources"), Param("resource"), Fixed("files"), Param("file")]
  {
  }

  /** The segments of `URI_PROJECT_RESOURCES_BY_FILENAME` with the three values bound. */
  lemma ResourcesByFilenameBinding(k: UriKind, values: map<string, string>)
    requires k == ProjectResourcesByFilename
    requires "project" in values && "resource" in values && "file" in values
    ensures forall i :: 0 <= i < |Segments(k)| && Segments(k)[i].Param? ==> Segments(k)[i].name in values
    ensures Bind(Segments(k), values)
            == Projects + [Fixed(values["project"]), Fixed("resources"), Fixed(values["resource"]), Fixed("files"), Fixed(values["file"])]
  {
    var tail := [Param("project"), Fixed("resources"), Param("resource"), Fixed("files"), Param("file")];
    ResourcesByFilenameSegments(k);
    assert forall i :: 0 <= i < |Projects| ==> Projects[i].Fixed?;
    BindAppend(Projects, tail, values);
    BindFixed(Projects, values);
    BindAlternating("project", "resources", "resource", "files", "file", values);
  }

  /** The spelling of a project path with three values, regrouped around the
      fixed words. */
  lemma ResourceFileText(project: string, resource: string, file: string)
    ensures "/data/archive/projects" + "/" + SegmentText(Fixed(project))
            + "/" + SegmentText(Fixed("resources")) + "/" + SegmentText(Fixed(resource))
            + "/" + SegmentText(Fixed("files")) + "/" + SegmentText(Fixed(file))
            == "/data/archive/projects/" + project + "/resources/" + resource + "/files/" + file
  {
    assert "/data/archive/projects" + "/" == "/data/archive/projects/";
    assert "/" + "resources" + "/" == "/resources/";
    assert "/" + "files" + "/" == "/files/";
  }

  /** The bound segments of `URI_PROJECT_RESOURCES_BY_FILENAME` spelled out. */
  lemma ResourcesByFilenamePath(project: string, resource: string, file: string)
    ensures Path(Projects + [Fixed(project), Fixed("resources"), Fixed(resource), Fixed("files"), Fixed(file)])
            == "/data/archive/projects/" + project + "/resources/" + resource + "/files/" + file
  {
    var first := Projects + [Fixed(project)];
    assert first + [Fixed("resources"), Fixed(resource), Fixed("files"), Fixed(file)]
           == Projects + [Fixed(project), Fixed("resources"), Fixed(resource), Fixed("files"), Fixed(file)];
    ProjectsPath();
    PathPlusOne(Projects, "/data/archive/projects", Fixed(project));
    PathPlusFour(first, "/data/archive/projects" + "/" + SegmentText(Fixed(project)),
                 Fixed("resources"), Fixed(resource), Fixed("files"), Fixed(file));
    ResourceFileText(project, resource, file);
  }

  /** `URI_PROJECT_RESOURCES_BY_FILENAME`: the fixed text between the placeholders
      is kept, in order, around the three values. */
  lemma ResourcesByFilenameFormat(k: UriKind, project: string, resource: string, file: string)
    requires k == ProjectResourcesByFilename
    ensures FormatUri(Template(k), map["project" := project, "resource" := resource, "file" := file])
            == Done(Some("/data/archive/projects/" + project + "/resources/" + resource + "/files/" + file), [])
  {
    var values := map["project" := project, "resource" := resource, "file" := file];
    ResourcesByFilenameBinding(k, values);
    FormatCatalogEntry(k, values);
    ResourcesByFilenamePath(project, resource, file);
  }

  lemma ProjectsText()
    ensures "" + "/" + SegmentText(Fixed("data")) + "/" + SegmentText(Fixed("archive"))
            + "/" + SegmentText(Fixed("projects"))
            == "/data/archive/projects"
  {
  }

  lemma ProjectsPath()
    ensures Path(Projects) == "/data/archive/projects"
  {
    PathPlusThree([], "", Fixed("data"), Fixed("archive"), Fixed("projects"));
    assert [] + [Fixed("data"), Fixed("archive"), Fixed("projects")] == Projects;
    ProjectsText();
  }

  lemma OneProjectPath()
    ensures Path(OneProject) == "/data/archive/projects/{project}"
  {
    ProjectsPath();
    PathSnoc(Projects, Param("project"));
    assert SegmentText(Param("project")) == "{project}";
  }

  lemma UserCacheText()
    ensures "" + "/" + SegmentText(Fixed("data")) + "/" + SegmentText(Fixed("user"))
            + "/" + SegmentText(Fixed("cache")) + "/" + SegmentText(Fixed("resources"))
            == "/data/user/cache/resources"
  {
  }

  lemma UserCachePath()
    ensures Path(UserCacheResources) == "/data/user/cache/resources"
  {
    PathPlusFour([], "", Fixed("data"), Fixed("user"), Fixed("cache"), Fixed("resources"));
    assert [] + [Fixed("data"), Fixed("user"), Fixed("cache"), Fixed("resources")] == UserCacheResources;
    UserCacheText();
  }

  lemma UsersPath()
    ensures Path(Users) == "/data/users"
  {
    PathPlusTwo([], "", Fixed("data"), Fixed("users"));
    assert [] + [Fixed("data"), Fixed("users")] == Users;
  }
}
