/** The settings resolver of `DAX_Settings`: the normalising getter, the
    option-to-dict helper, and the typed getters built on them. */
module DaxSettings {
  import opened Wrappers
  import opened IniDocument
  import Text

  /** The six cluster options whose values are paths to command files. */
  const FilesOptions: seq<string> :=
    ["cmd_count_nb_jobs", "cmd_get_job_status", "cmd_get_job_memory",
     "cmd_get_job_walltime", "cmd_get_job_node", "job_template"]

  /** The dax_manager options and their default values, in declaration order. */
  const DaxManagerDefaults: seq<(string, string)> := [
    ("api_url", ""),
    ("api_key_dax", ""),
    ("project", "dax_project"),
    ("settingsfile", "dax_settings_full_path"),
    ("masimatlab", "dax_masimatlab"),
    ("tmp", "dax_tmp_directory"),
    ("logsdir", "dax_logs_path"),
    ("user", "dax_cluster_user"),
    ("gateway", "dax_gateway"),
    ("email", "dax_cluster_email"),
    ("queue", "dax_queue_limit"),
    ("priority", "dax_proj_order"),
    ("email_opts", "dax_job_email_options"),
    ("dax_build_start_date", "dax_build_start_date"),
    ("dax_build_end_date", "dax_build_end_date"),
    ("dax_build_pid", "dax_build_pid"),
    ("dax_update_tasks_start_date", "dax_update_tasks_start_date"),
    ("dax_update_tasks_end_date", "dax_update_tasks_end_date"),
    ("dax_update_tasks_pid", "dax_update_tasks_pid"),
    ("dax_launch_start_date", "dax_launch_start_date"),
    ("dax_launch_end_date", "dax_launch_end_date"),
    ("dax_launch_pid", "dax_launch_pid"),
    ("max_age", "dax_max_age"),
    ("admin_email", "dax_email_address")]

  /** `DAX_MANAGER_DEFAULTS.keys()` */
  function DaxManagerKeys(): (keys: seq<string>)
    ensures |keys| == |DaxManagerDefaults|
    ensures forall i :: 0 <= i < |keys| ==> keys[i] == DaxManagerDefaults[i].0
  {
    seq(|DaxManagerDefaults|, i requires 0 <= i < |DaxManagerDefaults| => DaxManagerDefaults[i].0)
  }

  /** Used by `get_queue_limit` when `queue_limit` is unset. */
  const DefaultQueueLimit: int := 14

  /** The messages the resolver writes to stdout or stderr instead of raising. */
  datatype Warning =
    | NoOptionInHeader(option: string, section: string)
    | NoHeader(section: string)
    | ClusterOptionNotSet(option: string)
    | ClusterFileNotFound(path: string, option: string)
    | ManagerOptionMissing(option: string)
    | ManagerApiNotSet

  /** Exceptions that escape from a resolver call to its caller. */
  datatype PyError =
    | NoOptionError(section: string, option: string)
    | NoSectionError(section: string)
    | AttributeError
    | TypeError
    | ValueError(text: string)
    | IOError(path: string)

  type Traced<+T> = Logged<T, Warning>

  /** Python's `int(text)`, left uninterpreted: `None` stands for the ValueError it raises. */
  type IntParser = string -> Option<int>

  /** A stored value that `get` reports: present, with a value, and not `''`. */
  predicate IsSet(doc: Document, section: string, option: string) {
    section in doc && option in doc[section] && doc[section][option].Some?
    && doc[section][option].value != ""
  }

  /** `DAX_Settings.get`: missing section, missing option, no value and `''` all
      read as `None`; a missing section or option also prints one warning, and
      nothing is raised. */
  function Get(doc: Document, section: string, option: string): (r: Traced<Option<string>>)
    ensures r.value.Some? <==> IsSet(doc, section, option)
    ensures r.value.Some? ==> r.value.value == doc[section][option].value
    ensures r.value != Some("")
    ensures |r.log| <= 1
    ensures r.log != [] <==> section !in doc || option !in doc[section]
  {
    match RawGet(doc, section, option)
    case NoSection => Logged(None, [NoHeader(section)])
    case NoOption => Logged(None, [NoOptionInHeader(option, section)])
    case Found(v) => Logged(if v == Some("") then None else v, [])
  }

  /** The warnings of `Get` for each of `options`, in order. */
  function GetLogs(doc: Document, section: string, options: seq<string>): seq<Warning>
    decreases |options|
  {
    if options == [] then []
    else GetLogs(doc, section, options[..|options| - 1])
         + Get(doc, section, options[|options| - 1]).log
  }

  /** `DAX_Settings.iterate_options`: a dict with exactly the listed options as
      keys, each mapped to what `get` returns for it. */
  function IterateOptions(doc: Document, section: string, options: seq<string>)
    : (r: Traced<map<string, Option<string>>>)
    ensures forall k :: k in r.value <==> k in options
    ensures forall k :: k in r.value ==> r.value[k] == Get(doc, section, k).value
    ensures r.log == GetLogs(doc, section, options)
    ensures section !in doc ==> |r.log| == |options|
    ensures (section in doc && forall i :: 0 <= i < |options| ==> options[i] in doc[section])
            ==> r.log == []
    decreases |options|
  {
    if options == [] then Logged(map[], [])
    else
      var front := options[..|options| - 1];
      var last := options[|options| - 1];
      assert options == front + [last];
      var rest := IterateOptions(doc, section, front);
      var g := Get(doc, section, last);
      Logged(rest.value[last := g.value], rest.log + g.log)
  }

  /** `get_cluster_config`, `get_admin_config`, `get_code_path_config` and
      `get_dax_manager_config`: every option of one section through `get`;
      `options(section)` raises NoSectionError when the section is absent. */
  function SectionConfig(doc: Document, section: string)
    : (r: Result<map<string, Option<string>>, PyError>)
    ensures r.Err? <==> section !in doc
    ensures r.Err? ==> r.error == NoSectionError(section)
    ensures r.Ok? ==> r.value.Keys == doc[section].Keys
    ensures r.Ok? ==> forall k :: k in r.value ==>
              (r.value[k].Some? <==> IsSet(doc, section, k))
  {
    if section !in doc then Err(NoSectionError(section))
    else Ok(map k | k in doc[section] :: Get(doc, section, k).value)
  }

  /** Iterating over any listing of a section's options gives its whole config and
      prints nothing. */
  lemma SectionConfigIsIteration(doc: Document, section: string, options: seq<string>)
    requires section in doc
    requires forall k :: k in options <==> k in doc[section]
    ensures SectionConfig(doc, section) == Ok(IterateOptions(doc, section, options).value)
    ensures IterateOptions(doc, section, options).log == []
  {
    var it := IterateOptions(doc, section, options).value;
    var sc := SectionConfig(doc, section).value;
    assert it.Keys == sc.Keys;
    assert forall k :: k in it ==> it[k] == sc[k];
    assert it == sc;
    assert forall i :: 0 <= i < |options| ==> options[i] in doc[section];
  }

  /** `get_user_home`: the stored `user_home`, with `'~'` replaced by the home directory. */
  function GetUserHome(doc: Document, home: string): (r: Traced<Option<string>>)
    ensures r.value.Some? <==> IsSet(doc, "admin", "user_home")
    ensures r.log == Get(doc, "admin", "user_home").log
  {
    var g := Get(doc, "admin", "user_home");
    if g.value == Some("~") then Logged(Some(home), g.log) else g
  }

  /** The home directory is returned exactly when the stored value is `'~'` or
      already equals it; any other stored value passes through unchanged. */
  lemma UserHomeExpandsOnlyTilde(doc: Document, home: string)
    ensures GetUserHome(doc, home).value == Some(home) <==>
              IsSet(doc, "admin", "user_home")
              && (doc["admin"]["user_home"].value == "~" || doc["admin"]["user_home"].value == home)
    ensures (IsSet(doc, "admin", "user_home") && doc["admin"]["user_home"].value != "~")
              ==> GetUserHome(doc, home).value == Some(doc["admin"]["user_home"].value)
  {
  }

  /** `get_xsitype_include`: `[]` when unset, otherwise the value split on `','`. */
  function GetXsitypeInclude(doc: Document): (r: Traced<seq<string>>)
    ensures r.value == [] <==> !IsSet(doc, "admin", "xsitype_include")
    ensures IsSet(doc, "admin", "xsitype_include") ==>
              Text.Join(r.value, ',') == doc["admin"]["xsitype_include"].value
    ensures forall i :: 0 <= i < |r.value| ==> ',' !in r.value[i]
    ensures r.log == Get(doc, "admin", "xsitype_include").log
  {
    var g := Get(doc, "admin", "xsitype_include");
    match g.value
    case None => Logged([], g.log)
    case Some(v) =>
      Text.JoinSplit(v, ',');
      Logged(Text.Split(v, ','), g.log)
  }

  /** `get_queue_limit`: 14 when `queue_limit` is unset, otherwise `int()` of the value. */
  function GetQueueLimit(doc: Document, parseInt: IntParser): (r: Traced<Result<int, PyError>>)
    ensures !IsSet(doc, "cluster", "queue_limit") ==> r.value == Ok(DefaultQueueLimit)
    ensures IsSet(doc, "cluster", "queue_limit") ==>
              var v := doc["cluster"]["queue_limit"].value;
              r.value == (if parseInt(v).Some? then Ok(parseInt(v).value) else Err(ValueError(v)))
    ensures r.log == Get(doc, "cluster", "queue_limit").log
  {
    var g := Get(doc, "cluster", "queue_limit");
    match g.value
    case None => Logged(Ok(DefaultQueueLimit), g.log)
    case Some(v) =>
      match parseInt(v)
      case None => Logged(Err(ValueError(v)), g.log)
      case Some(n) => Logged(Ok(n), g.log)
  }

  /** `get_max_age`: `int()` of the value, which raises TypeError on `None`. */
  function GetMaxAge(doc: Document, parseInt: IntParser): (r: Traced<Result<int, PyError>>)
    ensures r.value == Err(TypeError) <==> !IsSet(doc, "cluster", "max_age")
    ensures (IsSet(doc, "cluster", "max_age") && parseInt(doc["cluster"]["max_age"].value).None?)
              ==> r.value == Err(ValueError(doc["cluster"]["max_age"].value))
    ensures (IsSet(doc, "cluster", "max_age") && parseInt(doc["cluster"]["max_age"].value).Some?)
              ==> r.value == Ok(parseInt(doc["cluster"]["max_age"].value).value)
    ensures r.value.Ok? ==>
              IsSet(doc, "cluster", "max_age")
              && parseInt(doc["cluster"]["max_age"].value) == Some(r.value.value)
    ensures r.log == Get(doc, "cluster", "max_age").log
  {
    var g := Get(doc, "cluster", "max_age");
    match g.value
    case None => Logged(Err(TypeError), g.log)
    case Some(v) =>
      match parseInt(v)
      case None => Logged(Err(ValueError(v)), g.log)
      case Some(n) => Logged(Ok(n), g.log)
  }

  /** The limit is the default exactly when unset, unless the value itself parses to 14. */
  lemma QueueLimitDefault(doc: Document, parseInt: IntParser)
    ensures GetQueueLimit(doc, parseInt).value == Ok(14) <==>
              !IsSet(doc, "cluster", "queue_limit")
              || parseInt(doc["cluster"]["queue_limit"].value) == Some(14)
  {
  }
}
