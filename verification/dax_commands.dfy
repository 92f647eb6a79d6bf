/** The six file-backed cluster getters of `DAX_Settings`: the option holds a path,
    and the command is the content of the file it names. */
module DaxCommands {
  import opened Wrappers
  import opened IniDocument
  import opened Files
  import Text
  import opened DaxSettings
  import DaxValidation

  /** What a file-backed getter hands back: a plain string, or a `string.Template`
      built from a text (its substitution is left uninterpreted). */
  datatype Command = Plain(text: string) | Template(source: string)

  /** `DEFAULT_TEMPLATE` */
  const DefaultTemplate: Command := Template("echo ")

  /** The text a command was built from. */
  function CommandText(c: Command): string {
    match c
    case Plain(t) => t
    case Template(t) => t
  }

  datatype CommandKind =
    | CountNbJobs | GetJobStatus | GetJobMemory | GetJobWalltime | GetJobNode | JobTemplate
  {
    /** The cluster option that holds the command file's path. */
    function OptionName(): string {
      match this
      case CountNbJobs => "cmd_count_nb_jobs"
      case GetJobStatus => "cmd_get_job_status"
      case GetJobMemory => "cmd_get_job_memory"
      case GetJobWalltime => "cmd_get_job_walltime"
      case GetJobNode => "cmd_get_job_node"
      case JobTemplate => "job_template"
    }

    /** Only `get_cmd_count_nb_jobs` reads its file as a plain string. */
    predicate ReadsTemplate() {
      !CountNbJobs?
    }

    /** The result when the option is unset: the `echo ` template for the three
        optional queries, `''` for the others. */
    function WhenUnset(): Command {
      if GetJobMemory? || GetJobWalltime? || GetJobNode? then DefaultTemplate else Plain("")
    }
  }

  /** The getters in the order of `FILES_OPTIONS`. */
  const AllKinds: seq<CommandKind> :=
    [CountNbJobs, GetJobStatus, GetJobMemory, GetJobWalltime, GetJobNode, JobTemplate]

  /** The six getters read exactly the options `is_cluster_valid` checks, in the same order. */
  lemma KindsMatchFilesOptions()
    ensures |AllKinds| == |FilesOptions|
    ensures forall i :: 0 <= i < |AllKinds| ==> AllKinds[i].OptionName() == FilesOptions[i]
    ensures forall k: CommandKind :: k in AllKinds
  {
    forall k: CommandKind ensures k in AllKinds {
      match k
      case CountNbJobs => assert AllKinds[0] == k;
      case GetJobStatus => assert AllKinds[1] == k;
      case GetJobMemory => assert AllKinds[2] == k;
      case GetJobWalltime => assert AllKinds[3] == k;
      case GetJobNode => assert AllKinds[4] == k;
      case JobTemplate => assert AllKinds[5] == k;
    }
  }

  /** `read_file_and_return_string` / `read_file_and_return_template`: `''` for an
      empty file, otherwise its content, wrapped as a template when asked. Opening a
      path that is not a file raises IOError. */
  function ReadCommandFile(fs: FileSystem, path: string, asTemplate: bool): (r: Result<Command, PyError>)
    ensures r.Err? <==> !fs.IsFile(path)
    ensures r.Err? ==> r.error == IOError(path)
    ensures r.Ok? ==> CommandText(r.value) == fs.contents[path]
    ensures r.Ok? ==> (r.value.Template? <==> asTemplate && fs.contents[path] != "")
  {
    if !fs.IsFile(path) then Err(IOError(path))
    else
      var data := fs.contents[path];
      if data == "" then Ok(Plain(""))
      else if asTemplate then Ok(Template(data))
      else Ok(Plain(data))
  }

  /** The path a getter checks: one starting with `~/` is joined onto `get_user_home()`
      (the `~` component is kept), which raises AttributeError when that is None. */
  function ResolvePath(doc: Document, home: string, path: string): (r: Traced<Result<string, PyError>>)
    ensures !Text.StartsWith(path, "~/") ==> r == Logged(Ok(path), [])
    ensures Text.StartsWith(path, "~/") ==>
              r.log == GetUserHome(doc, home).log
              && (r.value.Err? <==> !IsSet(doc, "admin", "user_home"))
    ensures Text.StartsWith(path, "~/") && IsSet(doc, "admin", "user_home") ==>
              var stored := doc["admin"]["user_home"].value;
              r.value == Ok(PathJoin(if stored == "~" then home else stored, path))
    ensures r.value.Ok? ==> Text.EndsWith(r.value.value, path)
    ensures r.value.Err? ==> r.value.error == AttributeError
  {
    if Text.StartsWith(path, "~/") then
      var h := GetUserHome(doc, home);
      match h.value
      case None => Logged(Err(AttributeError), h.log)
      case Some(dir) => Logged(Ok(PathJoin(dir, path)), h.log)
    else Logged(Ok(path), [])
  }

  /** One file-backed getter. Unset option: the kind's fallback. Otherwise the
      resolved path; `''` when it is not a file or the file is empty; else the
      file's content. */
  function GetCommand(doc: Document, fs: FileSystem, home: string, kind: CommandKind)
    : (r: Traced<Result<Command, PyError>>)
    ensures !IsSet(doc, "cluster", kind.OptionName()) ==> r.value == Ok(kind.WhenUnset())
    ensures r.value.Err? ==> r.value.error == AttributeError
    ensures r.value.Err? <==>
              IsSet(doc, "cluster", kind.OptionName())
              && Text.StartsWith(doc["cluster"][kind.OptionName()].value, "~/")
              && !IsSet(doc, "admin", "user_home")
    ensures IsSet(doc, "cluster", kind.OptionName()) && r.value.Ok? ==>
              var p := ResolvePath(doc, home, doc["cluster"][kind.OptionName()].value).value.value;
              if fs.IsFile(p) && fs.contents[p] != "" then
                CommandText(r.value.value) == fs.contents[p] && (r.value.value.Template? <==> kind.ReadsTemplate())
              else r.value.value == Plain("")
  {
    var g := Get(doc, "cluster", kind.OptionName());
    match g.value
    case None => Logged(Ok(kind.WhenUnset()), g.log)
    case Some(raw) =>
      var p := ResolvePath(doc, home, raw);
      match p.value
      case Err(e) => Logged(Err(e), g.log + p.log)
      case Ok(path) =>
        if !fs.IsFile(path) then Logged(Ok(Plain("")), g.log + p.log)
        else Logged(Ok(ReadCommandFile(fs, path, kind.ReadsTemplate()).value), g.log + p.log)
  }

  /** Whatever a getter returns is its fallback, `''`, or the content of an existing
      non-empty file read as the kind prescribes. */
  lemma CommandOrigin(doc: Document, fs: FileSystem, home: string, kind: CommandKind)
    requires GetCommand(doc, fs, home, kind).value.Ok?
    ensures var c := GetCommand(doc, fs, home, kind).value.value;
            c == kind.WhenUnset() || c == Plain("")
            || exists p :: fs.IsFile(p) && fs.contents[p] == CommandText(c) && fs.contents[p] != ""
  {
    var c := GetCommand(doc, fs, home, kind).value.value;
    if IsSet(doc, "cluster", kind.OptionName()) {
      var p := ResolvePath(doc, home, doc["cluster"][kind.OptionName()].value).value.value;
      if fs.IsFile(p) && fs.contents[p] != "" {
        assert fs.contents[p] == CommandText(c);
      }
    }
  }

  /** With a cluster section that passes `is_cluster_valid` and paths not starting
      with `~/`, each getter
      returns its file's content, read as the kind prescribes, and prints nothing. */
  lemma ValidClusterCommandsComeFromFiles(doc: Document, fs: FileSystem, home: string, i: nat)
    requires i < |AllKinds|
    requires "cluster" in doc
    requires forall j :: 0 <= j < |FilesOptions| ==>
               DaxValidation.CommandOptionUsable(doc["cluster"], fs, FilesOptions[j])
               && !Text.StartsWith(doc["cluster"][FilesOptions[j]].value, "~/")
    ensures DaxValidation.CommandOptionUsable(doc["cluster"], fs, FilesOptions[i])
            && GetCommand(doc, fs, home, AllKinds[i])
               == Logged(ReadCommandFile(fs, doc["cluster"][FilesOptions[i]].value, AllKinds[i].ReadsTemplate()), [])
  {
    KindsMatchFilesOptions();
    assert DaxValidation.CommandOptionUsable(doc["cluster"], fs, FilesOptions[i]);
  }

  /** A `~/` path is joined onto `get_user_home()`, not stripped: with a home `d`
      not ending in `/`, the file read is `d + "/~/" + rest`. */
  lemma TildeIsJoinedNotStripped(doc: Document, home: string, rest: string)
    requires IsSet(doc, "admin", "user_home")
    requires GetUserHome(doc, home).value.value != ""
    requires !Text.EndsWith(GetUserHome(doc, home).value.value, "/")
    ensures ResolvePath(doc, home, "~/" + rest).value
              == Ok(GetUserHome(doc, home).value.value + "/~/" + rest)
  {
    var d := GetUserHome(doc, home).value.value;
    assert ("~/" + rest)[..2] == "~/";
    Text.StartsWithChar("~/" + rest, '/');
    assert d + "/" + ("~/" + rest) == d + "/~/" + rest;
  }

  /** With the documented setting `user_home = ~`, a `~/` path becomes the home
      directory followed by `/~/`: the `~` is not expanded a second time. */
  lemma TildeHomeKeepsTilde(doc: Document, home: string, rest: string)
    requires IsSet(doc, "admin", "user_home") && doc["admin"]["user_home"].value == "~"
    requires home != "" && !Text.EndsWith(home, "/")
    ensures ResolvePath(doc, home, "~/" + rest).value == Ok(home + "/~/" + rest)
  {
    TildeIsJoinedNotStripped(doc, home, rest);
  }
}
