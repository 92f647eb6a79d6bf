/** The catalog's segment form against the `URI_*` constants as written: every
    template spells exactly the text of the constant it stands for. */
module UriSpelling {
  import opened UriCatalog

  /** The `URI_*` constants as `utils/uriutil.py` writes them. */
  function Literal(k: UriKind): string {
    match k
    case UserResource => "/data/user/cache/resources"
    case UserResourcesById => "/data/user/cache/resources/{resource}"
    case UserFile => "/data/user/cache/resources/{resource}/files"
    case UserFileById => "/data/user/cache/resources/{resource}/files/{file}"
    case User => "/data/users"
    case UserById => "/data/users/{user}"
    case Project => "/data/archive/projects"
    case ProjectById => "/data/archive/projects/{project}"
    case ProjectAccessibility => "/data/archive/projects/{project}/accessibility"
    case ProjectAccessibilityByType => "/data/archive/projects/{project}/accessibility/{accessibility}"
    case ProjectArcPath => "/data/archive/projects/{project}/current_arc"
    case ProjectArcPathBySubdir => "/data/archive/projects/{project}/current_arc/{folder}"
    case ProjectFiles => "/data/archive/projects/{project}/files/{file}"
    case ProjectPrearchiveCode => "/data/archive/projects/{project}/prearchive_code"
    case ProjectPrearchiveCodeById => "data/archive/projects/{project}/prearchive_code/{code}"
    case ProjectQuarantineCode => "/data/archive/projects/{project}/quarantine_code"
    case ProjectQuarantineCodeById => "/data/archive/projects/{project}/quarantine_code/{code}"
    case ProjectResources => "/data/archive/projects/{project}/resources"
    case ProjectResourcesById => "/data/archive/projects/{project}/resources/{resource}"
    case ProjectResourcesByFilename => "/data/archive/projects/{project}/resources/{resource}/files/{file}"
    case ProjectSearches => "/data/archive/projects/{project}/searches/{search}"
  }

  /** An absolute template whose segments spell its constant. */
  lemma AbsoluteSpelled(k: UriKind, text: string)
    requires k != ProjectPrearchiveCodeById
    requires Path(Segments(k)) == text && text == Literal(k)
    ensures Template(k) == Literal(k)
  {
  }

  /** The relative template: `data` followed by the path of its other segments. */
  lemma RelativeSpelled(k: UriKind)
    requires k == ProjectPrearchiveCodeById
    ensures Template(k) == Literal(k)
  {
    var head := [Fixed("archive"), Fixed("projects")];
    var tail := [Param("project"), Fixed("prearchive_code"), Param("code")];
    var segments := Segments(k);
    assert segments == [Fixed("data")] + (head + tail);
    assert segments[0] == Fixed("data") && segments[1..] == head + tail;
    DropLeadingSlash(segments);
    PathPlusTwo([], "", Fixed("archive"), Fixed("projects"));
    assert [] + head == head;
    var headText := "" + "/" + SegmentText(Fixed("archive")) + "/" + SegmentText(Fixed("projects"));
    PathPlusThree(head, headText, Param("project"), Fixed("prearchive_code"), Param("code"));
    ProjectPrearchiveCodeByIdText(k);
  }


  lemma UserResourcesByIdText(k: UriKind)
    requires k == UserResourcesById
    ensures "/data/user/cache/resources" + "/" + SegmentText(Param("resource"))
            == Literal(k)
  {
    assert SegmentText(Param("resource")) == "{resource}";
  }

  lemma UserFileText(k: UriKind)
    requires k == UserFile
    ensures "/data/user/cache/resources" + "/" + SegmentText(Param("resource"))
            + "/" + SegmentText(Fixed("files"))
            == Literal(k)
  {
    var parent := "/data/user/cache/resources" + "/" + SegmentText(Param("resource"));
    UserResourcesByIdText(UserResourcesById);
    assert SegmentText(Fixed("files")) == "files";
    assert parent + "/" + SegmentText(Fixed("files")) == "/data/user/cache/resources/{resource}" + "/files";
  }


  lemma UserFileByIdText(k: UriKind)
    requires k == UserFileById
    ensures "/data/user/cache/resources" + "/" + SegmentText(Param("resource"))
            + "/" + SegmentText(Fixed("files")) + "/" + SegmentText(Param("file"))
            == Literal(k)
  {
    var files := "/data/user/cache/resources" + "/" + SegmentText(Param("resource"))
                 + "/" + SegmentText(Fixed("files"));
    UserFileText(UserFile);
    assert files + "/" + SegmentText(Param("file")) == "/data/user/cache/resources/{resource}/files" + "/{file}";
  }

  lemma UserByIdText(k: UriKind)
    requires k == UserById
    ensures "/data/users" + "/" + SegmentText(Param("user"))
            == Literal(k)
  {
    assert SegmentText(Param("user")) == "{user}";
  }

  lemma ProjectByIdText(k: UriKind)
    requires k == ProjectById
    ensures "/data/archive/projects" + "/" + SegmentText(Param("project"))
            == Literal(k)
  {
    assert SegmentText(Param("project")) == "{project}";
  }

  lemma ProjectAccessibilityText(k: UriKind)
    requires k == ProjectAccessibility
    ensures "/data/archive/projects/{project}"
            + "/" + SegmentText(Fixed("accessibility"))
            == Literal(k)
  {
  }

  lemma AccessibilityByTypeLiteral(k: UriKind)
    requires k == ProjectAccessibilityByType
    ensures "/data/archive/projects/{project}/accessibility" + "/" + "{accessibility}" == Literal(k)
  {
  }

  lemma ProjectAccessibilityByTypeText(k: UriKind)
    requires k == ProjectAccessibilityByType
    ensures "/data/archive/projects/{project}"
            + "/" + SegmentText(Fixed("accessibility"))
            + "/" + SegmentText(Param("accessibility"))
            == Literal(k)
  {
    ProjectAccessibilityText(ProjectAccessibility);
    assert SegmentText(Param("accessibility")) == "{accessibility}";
    AccessibilityByTypeLiteral(k);
  }

  lemma ProjectArcPathText(k: UriKind)
    requires k == ProjectArcPath
    ensures "/data/archive/projects/{project}"
            + "/" + SegmentText(Fixed("current_arc"))
            == Literal(k)
  {
  }

  lemma ProjectArcPathBySubdirText(k: UriKind)
    requires k == ProjectArcPathBySubdir
    ensures "/data/archive/projects/{project}"
            + "/" + SegmentText(Fixed("current_arc"))
            + "/" + SegmentText(Param("folder"))
            == Literal(k)
  {
    var parent := "/data/archive/projects/{project}" + "/" + SegmentText(Fixed("current_arc"));
    ProjectArcPathText(ProjectArcPath);
    assert SegmentText(Param("folder")) == "{folder}";
    assert parent + "/" + SegmentText(Param("folder")) == "/data/archive/projects/{project}/current_arc" + "/{folder}";
  }


  lemma ProjectFilesText(k: UriKind)
    requires k == ProjectFiles
    ensures "/data/archive/projects/{project}" + "/" + SegmentText(Fixed("files"))
            + "/" + SegmentText(Param("file"))
            == Literal(k)
  {
    assert SegmentText(Param("file")) == "{file}";
  }

  lemma ProjectPrearchiveCodeText(k: UriKind)
    requires k == ProjectPrearchiveCode
    ensures "/data/archive/projects/{project}"
            + "/" + SegmentText(Fixed("prearchive_code"))
            == Literal(k)
  {
  }

  /** Appending one more `/`-separated segment text after a fixed front. */
  lemma FrontAppend(front: string, t: string, seg: string)
    ensures front + (t + "/" + seg) == front + t + "/" + seg
  {
  }

  lemma DataArchiveText()
    ensures "data" + ("" + "/" + SegmentText(Fixed("archive")) + "/" + SegmentText(Fixed("projects")))
            == "data/archive/projects"
  {
    var t1 := "" + "/" + SegmentText(Fixed("archive"));
    assert "data" + t1 == "data/archive";
    FrontAppend("data", t1, SegmentText(Fixed("projects")));
  }

  /** `data` followed by the first three segments after it. */
  lemma PrearchiveFrontText()
    ensures "data" + ("" + "/" + SegmentText(Fixed("archive")) + "/" + SegmentText(Fixed("projects"))
                      + "/" + SegmentText(Param("project")))
            == "data/archive/projects/{project}"
  {
    var t2 := "" + "/" + SegmentText(Fixed("archive")) + "/" + SegmentText(Fixed("projects"));
    DataArchiveText();
    FrontAppend("data", t2, SegmentText(Param("project")));
    assert SegmentText(Param("project")) == "{project}";
  }


  lemma ProjectPrearchiveCodeByIdText(k: UriKind)
    requires k == ProjectPrearchiveCodeById
    ensures "data" + ("" + "/" + SegmentText(Fixed("archive")) + "/" + SegmentText(Fixed("projects"))
                      + "/" + SegmentText(Param("project"))
                      + "/" + SegmentText(Fixed("prearchive_code")) + "/" + SegmentText(Param("code")))
            == Literal(k)
  {
    var t3 := "" + "/" + SegmentText(Fixed("archive")) + "/" + SegmentText(Fixed("projects"))
              + "/" + SegmentText(Param("project"));
    var t4 := t3 + "/" + SegmentText(Fixed("prearchive_code"));
    PrearchiveFrontText();
    FrontAppend("data", t3, SegmentText(Fixed("prearchive_code")));
    assert "data" + t4 == "data/archive/projects/{project}/prearchive_code";
    FrontAppend("data", t4, SegmentText(Param("code")));
    assert SegmentText(Param("code")) == "{code}";
  }





  lemma ProjectQuarantineCodeText(k: UriKind)
    requires k == ProjectQuarantineCode
    ensures "/data/archive/projects/{project}"
            + "/" + SegmentText(Fixed("quarantine_code"))
            == Literal(k)
  {
  }

  lemma ProjectQuarantineCodeByIdText(k: UriKind)
    requires k == ProjectQuarantineCodeById
    ensures "/data/archive/projects/{project}"
            + "/" + SegmentText(Fixed("quarantine_code"))
            + "/" + SegmentText(Param("code"))
            == Literal(k)
  {
    var parent := "/data/archive/projects/{project}" + "/" + SegmentText(Fixed("quarantine_code"));
    ProjectQuarantineCodeText(ProjectQuarantineCode);
    assert SegmentText(Param("code")) == "{code}";
    assert parent + "/" + SegmentText(Param("code")) == "/data/archive/projects/{project}/quarantine_code" + "/{code}";
  }


  lemma ProjectResourcesText(k: UriKind)
    requires k == ProjectResources
    ensures "/data/archive/projects/{project}"
            + "/" + SegmentText(Fixed("resources"))
            == Literal(k)
  {
  }

  lemma ProjectResourcesByIdText(k: UriKind)
    requires k == ProjectResourcesById
    ensures "/data/archive/projects/{project}"
            + "/" + SegmentText(Fixed("resources"))
            + "/" + SegmentText(Param("resource"))
            == Literal(k)
  {
    var parent := "/data/archive/projects/{project}" + "/" + SegmentText(Fixed("resources"));
    ProjectResourcesText(ProjectResources);
    assert SegmentText(Param("resource")) == "{resource}";
    assert parent + "/" + SegmentText(Param("resource")) == "/data/archive/projects/{project}/resources" + "/{resource}";
  }


  lemma ProjectResourcesByFilenameText(k: UriKind)
    requires k == ProjectResourcesByFilename
    ensures "/data/archive/projects/{project}"
            + "/" + SegmentText(Fixed("resources"))
            + "/" + SegmentText(Param("resource"))
            + "/" + SegmentText(Fixed("files")) + "/" + SegmentText(Param("file"))
            == Literal(k)
  {
    var byId := "/data/archive/projects/{project}" + "/" + SegmentText(Fixed("resources"))
                + "/" + SegmentText(Param("resource"));
    ProjectResourcesByIdText(ProjectResourcesById);
    assert byId + "/" + SegmentText(Fixed("files")) + "/" + SegmentText(Param("file"))
           == "/data/archive/projects/{project}/resources/{resource}" + "/files/{file}";
  }

  lemma ProjectSearchesText(k: UriKind)
    requires k == ProjectSearches
    ensures "/data/archive/projects/{project}" + "/" + SegmentText(Fixed("searches"))
            + "/" + SegmentText(Param("search"))
            == Literal(k)
  {
    assert SegmentText(Param("search")) == "{search}";
  }

  /** The segments of the `URI_USER_*` cache-resource constants spell the constants. */
  lemma UserCacheSpelling(k: UriKind)
    requires k in {UserResource, UserResourcesById, UserFile, UserFileById}
    ensures Template(k) == Literal(k)
  {
    UserCachePath();
    match k
    case UserResource => AbsoluteSpelled(k, "/data/user/cache/resources");
    case UserResourcesById =>
      PathPlusOne(UserCacheResources, "/data/user/cache/resources", Param("resource"));
      UserResourcesByIdText(k);
      AbsoluteSpelled(k, "/data/user/cache/resources" + "/" + SegmentText(Param("resource")));
    case UserFile =>
      PathPlusTwo(UserCacheResources, "/data/user/cache/resources", Param("resource"), Fixed("files"));
      UserFileText(k);
      AbsoluteSpelled(k, "/data/user/cache/resources" + "/" + SegmentText(Param("resource")) + "/" + SegmentText(Fixed("files")));
    case UserFileById =>
      PathPlusThree(UserCacheResources, "/data/user/cache/resources", Param("resource"), Fixed("files"), Param("file"));
      UserFileByIdText(k);
      AbsoluteSpelled(k, "/data/user/cache/resources" + "/" + SegmentText(Param("resource")) + "/" + SegmentText(Fixed("files")) + "/" + SegmentText(Param("file")));
  }

  /** The segments of `URI_USER` and `URI_USER_BY_ID` spell the constants. */
  lemma UsersSpelling(k: UriKind)
    requires k in {User, UserById}
    ensures Template(k) == Literal(k)
  {
    UsersPath();
    match k
    case User => AbsoluteSpelled(k, "/data/users");
    case UserById =>
      PathPlusOne(Users, "/data/users", Param("user"));
      UserByIdText(k);
      AbsoluteSpelled(k, "/data/users" + "/" + SegmentText(Param("user")));
  }

  /** The segments of `URI_PROJECT` and `URI_PROJECT_BY_ID` spell the constants. */
  lemma ProjectListSpelling(k: UriKind)
    requires k in {Project, ProjectById}
    ensures Template(k) == Literal(k)
  {
    ProjectsPath();
    match k
    case Project => AbsoluteSpelled(k, "/data/archive/projects");
    case ProjectById =>
      PathPlusOne(Projects, "/data/archive/projects", Param("project"));
      ProjectByIdText(k);
      AbsoluteSpelled(k, "/data/archive/projects" + "/" + SegmentText(Param("project")));
  }

  /** The segments of the accessibility and archive-path constants spell the constants. */
  lemma ProjectSettingSpelling(k: UriKind)
    requires k in {ProjectAccessibility, ProjectAccessibilityByType, ProjectArcPath, ProjectArcPathBySubdir}
    ensures Template(k) == Literal(k)
  {
    OneProjectPath();
    match k
    case ProjectAccessibility =>
      PathPlusOne(OneProject, "/data/archive/projects/{project}", Fixed("accessibility"));
      ProjectAccessibilityText(k);
      AbsoluteSpelled(k, "/data/archive/projects/{project}" + "/" + SegmentText(Fixed("accessibility")));
    case ProjectAccessibilityByType =>
      PathPlusTwo(OneProject, "/data/archive/projects/{project}", Fixed("accessibility"), Param("accessibility"));
      ProjectAccessibilityByTypeText(k);
      AbsoluteSpelled(k, "/data/archive/projects/{project}" + "/" + SegmentText(Fixed("accessibility")) + "/" + SegmentText(Param("accessibility")));
    case ProjectArcPath =>
      PathPlusOne(OneProject, "/data/archive/projects/{project}", Fixed("current_arc"));
      ProjectArcPathText(k);
      AbsoluteSpelled(k, "/data/archive/projects/{project}" + "/" + SegmentText(Fixed("current_arc")));
    case ProjectArcPathBySubdir =>
      PathPlusTwo(OneProject, "/data/archive/projects/{project}", Fixed("current_arc"), Param("folder"));
      ProjectArcPathBySubdirText(k);
      AbsoluteSpelled(k, "/data/archive/projects/{project}" + "/" + SegmentText(Fixed("current_arc")) + "/" + SegmentText(Param("folder")));
  }

  /** The segments of the prearchive and quarantine constants spell the constants. */
  lemma ProjectCodeSpelling(k: UriKind)
    requires k in {ProjectPrearchiveCode, ProjectPrearchiveCodeById, ProjectQuarantineCode, ProjectQuarantineCodeById}
    ensures Template(k) == Literal(k)
  {
    OneProjectPath();
    match k
    case ProjectPrearchiveCode =>
      PathPlusOne(OneProject, "/data/archive/projects/{project}", Fixed("prearchive_code"));
      ProjectPrearchiveCodeText(k);
      AbsoluteSpelled(k, "/data/archive/projects/{project}" + "/" + SegmentText(Fixed("prearchive_code")));
    case ProjectPrearchiveCodeById =>
      RelativeSpelled(k);
    case ProjectQuarantineCode =>
      PathPlusOne(OneProject, "/data/archive/projects/{project}", Fixed("quarantine_code"));
      ProjectQuarantineCodeText(k);
      AbsoluteSpelled(k, "/data/archive/projects/{project}" + "/" + SegmentText(Fixed("quarantine_code")));
    case ProjectQuarantineCodeById =>
      PathPlusTwo(OneProject, "/data/archive/projects/{project}", Fixed("quarantine_code"), Param("code"));
      ProjectQuarantineCodeByIdText(k);
      AbsoluteSpelled(k, "/data/archive/projects/{project}" + "/" + SegmentText(Fixed("quarantine_code")) + "/" + SegmentText(Param("code")));
  }

  /** The segments of the file, resource and search constants spell the constants. */
  lemma ProjectDataSpelling(k: UriKind)
    requires k in {ProjectFiles, ProjectResources, ProjectResourcesById, ProjectResourcesByFilename, ProjectSearches}
    ensures Template(k) == Literal(k)
  {
    OneProjectPath();
    match k
    case ProjectFiles =>
      PathPlusTwo(OneProject, "/data/archive/projects/{project}", Fixed("files"), Param("file"));
      ProjectFilesText(k);
      AbsoluteSpelled(k, "/data/archive/projects/{project}" + "/" + SegmentText(Fixed("files")) + "/" + SegmentText(Param("file")));
    case ProjectResources =>
      PathPlusOne(OneProject, "/data/archive/projects/{project}", Fixed("resources"));
      ProjectResourcesText(k);
      AbsoluteSpelled(k, "/data/archive/projects/{project}" + "/" + SegmentText(Fixed("resources")));
    case ProjectResourcesById =>
      PathPlusTwo(OneProject, "/data/archive/projects/{project}", Fixed("resources"), Param("resource"));
      ProjectResourcesByIdText(k);
      AbsoluteSpelled(k, "/data/archive/projects/{project}" + "/" + SegmentText(Fixed("resources")) + "/" + SegmentText(Param("resource")));
    case ProjectResourcesByFilename =>
      PathPlusFour(OneProject, "/data/archive/projects/{project}", Fixed("resources"), Param("resource"), Fixed("files"), Param("file"));
      ProjectResourcesByFilenameText(k);
      AbsoluteSpelled(k, "/data/archive/projects/{project}" + "/" + SegmentText(Fixed("resources")) + "/" + SegmentText(Param("resource")) + "/" + SegmentText(Fixed("files")) + "/" + SegmentText(Param("file")));
    case ProjectSearches =>
      PathPlusTwo(OneProject, "/data/archive/projects/{project}", Fixed("searches"), Param("search"));
      ProjectSearchesText(k);
      AbsoluteSpelled(k, "/data/archive/projects/{project}" + "/" + SegmentText(Fixed("searches")) + "/" + SegmentText(Param("search")));
  }

  /** Every template's segments spell the `URI_*` constant it stands for. */
  lemma TemplateSpelling(k: UriKind)
    ensures Template(k) == Literal(k)
  {
    if k in {UserResource, UserResourcesById, UserFile, UserFileById} {
      UserCacheSpelling(k);
    } else if k in {User, UserById} {
      UsersSpelling(k);
    } else if k in {Project, ProjectById} {
      ProjectListSpelling(k);
    } else if k in {ProjectAccessibility, ProjectAccessibilityByType, ProjectArcPath, ProjectArcPathBySubdir} {
      ProjectSettingSpelling(k);
    } else if k in {ProjectPrearchiveCode, ProjectPrearchiveCodeById, ProjectQuarantineCode, ProjectQuarantineCodeById} {
      ProjectCodeSpelling(k);
    } else {
      ProjectDataSpelling(k);
    }
  }
}
