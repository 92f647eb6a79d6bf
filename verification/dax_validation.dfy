/** The two section validators of `DAX_Settings`. */
module DaxValidation {
  import opened Wrappers
  import opened IniDocument
  import opened Files
  import opened DaxSettings

  /** What a validator call amounts to for its caller. */
  datatype Verdict = ReturnsTrue | ReturnsFalse | ReturnsNone | Raises(error: PyError)

  /** A cluster command option that passes `is_cluster_valid`: present, with a
      non-empty value naming a regular file. */
  predicate CommandOptionUsable(sec: Section, fs: FileSystem, option: string) {
    option in sec && sec[option].Some? && sec[option].value != "" && fs.IsFile(sec[option].value)
  }

  /** The outcome of the scan at the first option that is not usable. */
  function FailureAt(sec: Section, fs: FileSystem, option: string): Traced<Verdict> {
    if option !in sec then Logged(Raises(NoOptionError("cluster", option)), [])
    else if sec[option].None? || sec[option].value == "" then
      Logged(ReturnsFalse, [ClusterOptionNotSet(option)])
    else Logged(ReturnsFalse, [ClusterFileNotFound(sec[option].value, option)])
  }

  /** The loop of `is_cluster_valid` over `options`, in order, with the raw parser:
      it stops at the first option that is not usable. */
  function ScanCommandOptions(sec: Section, fs: FileSystem, options: seq<string>)
    : (r: Traced<Verdict>)
    ensures r.value == ReturnsTrue <==>
              forall i :: 0 <= i < |options| ==> CommandOptionUsable(sec, fs, options[i])
    ensures r.value == ReturnsTrue ==> r.log == []
    ensures r.value != ReturnsNone
    ensures forall i :: 0 <= i < |options| && !CommandOptionUsable(sec, fs, options[i])
              && (forall j :: 0 <= j < i ==> CommandOptionUsable(sec, fs, options[j]))
              ==> r == FailureAt(sec, fs, options[i])
    decreases |options|
  {
    if options == [] then Logged(ReturnsTrue, [])
    else if !CommandOptionUsable(sec, fs, options[0]) then FailureAt(sec, fs, options[0])
    else
      var r := ScanCommandOptions(sec, fs, options[1..]);
      r
  }

  /** `is_cluster_valid`: False without a `cluster` section, otherwise the scan of
      the six command options; it never returns None. */
  function IsClusterValid(doc: Document, fs: FileSystem): (r: Traced<Verdict>)
    ensures "cluster" !in doc ==> r == Logged(ReturnsFalse, [])
    ensures r.value != ReturnsNone
  {
    if "cluster" !in doc then Logged(ReturnsFalse, [])
    else
      var r := ScanCommandOptions(doc["cluster"], fs, FilesOptions);
      r
  }

  /** `is_cluster_valid` returns True exactly when there is a `cluster` section and
      all six command options name existing files. */
  lemma ClusterValidIffAllUsable(doc: Document, fs: FileSystem)
    ensures IsClusterValid(doc, fs).value == ReturnsTrue <==>
              "cluster" in doc
              && forall i :: 0 <= i < |FilesOptions| ==> CommandOptionUsable(doc["cluster"], fs, FilesOptions[i])
  {
    if "cluster" in doc {
      var _ := ScanCommandOptions(doc["cluster"], fs, FilesOptions);
    }
  }

  /** Otherwise the first unusable option decides: False with one warning when it is
      unset or names no file, an uncaught NoOptionError when it is absent. */
  lemma ClusterFailsAtFirstUnusable(doc: Document, fs: FileSystem, i: nat)
    requires "cluster" in doc && i < |FilesOptions|
    requires !CommandOptionUsable(doc["cluster"], fs, FilesOptions[i])
    requires forall j :: 0 <= j < i ==> CommandOptionUsable(doc["cluster"], fs, FilesOptions[j])
    ensures IsClusterValid(doc, fs) == FailureAt(doc["cluster"], fs, FilesOptions[i])
  {
    var _ := ScanCommandOptions(doc["cluster"], fs, FilesOptions);
  }

  /** An option absent from the section is an uncaught error, never a False. */
  lemma AbsentClusterOptionRaises(doc: Document, fs: FileSystem)
    requires "cluster" in doc && "cmd_count_nb_jobs" !in doc["cluster"]
    ensures IsClusterValid(doc, fs).value == Raises(NoOptionError("cluster", "cmd_count_nb_jobs"))
  {
    assert !CommandOptionUsable(doc["cluster"], fs, FilesOptions[0]);
  }

  /** The first key of `keys` that is not an option of `sec`. */
  function FirstMissing(sec: Section, keys: seq<string>): (r: Option<string>)
    ensures r.None? <==> forall i :: 0 <= i < |keys| ==> keys[i] in sec
    ensures r.Some? ==> r.value in keys && r.value !in sec
    ensures forall i :: 0 <= i < |keys| && keys[i] !in sec
              && (forall j :: 0 <= j < i ==> keys[j] in sec)
              ==> r == Some(keys[i])
    decreases |keys|
  {
    if keys == [] then None
    else if keys[0] !in sec then Some(keys[0])
    else
      var r := FirstMissing(sec, keys[1..]);
      r
  }

  /** All 24 dax_manager options are present in the section. */
  predicate ManagerOptionsPresent(doc: Document) {
    "dax_manager" in doc && forall i :: 0 <= i < |DaxManagerKeys()| ==> DaxManagerKeys()[i] in doc["dax_manager"]
  }

  /** `is_dax_manager_valid` as written: False without the section, False at the first
      missing option, False when neither `api_url` nor `api_key_dax` is set, and
      otherwise it falls off the end and returns None: never True. */
  function IsDaxManagerValid(doc: Document): (r: Traced<Verdict>)
    ensures r.value == ReturnsNone <==>
              ManagerOptionsPresent(doc)
              && (IsSet(doc, "dax_manager", "api_url") || IsSet(doc, "dax_manager", "api_key_dax"))
    ensures r.value == ReturnsFalse || r.value == ReturnsNone
    ensures "dax_manager" !in doc ==> r.log == []
    ensures "dax_manager" in doc ==>
              forall i :: 0 <= i < |DaxManagerKeys()| && DaxManagerKeys()[i] !in doc["dax_manager"]
                && (forall j :: 0 <= j < i ==> DaxManagerKeys()[j] in doc["dax_manager"])
                ==> r == Logged(ReturnsFalse, [ManagerOptionMissing(DaxManagerKeys()[i])])
  {
    if "dax_manager" !in doc then Logged(ReturnsFalse, [])
    else
      match FirstMissing(doc["dax_manager"], DaxManagerKeys())
      case Some(option) => Logged(ReturnsFalse, [ManagerOptionMissing(option)])
      case None =>
        var url := Get(doc, "dax_manager", "api_url");
        if url.value.Some? then Logged(ReturnsNone, url.log)
        else
          var key := Get(doc, "dax_manager", "api_key_dax");
          if key.value.Some? then Logged(ReturnsNone, url.log + key.log)
          else Logged(ReturnsFalse, url.log + key.log + [ManagerApiNotSet])
  }

  /** `is_dax_manager_valid` as its documentation promises: the same checks and
      messages, with True returned once they all pass. */
  function DaxManagerValid(doc: Document): (r: Traced<bool>)
    ensures r.value <==>
              ManagerOptionsPresent(doc)
              && (IsSet(doc, "dax_manager", "api_url") || IsSet(doc, "dax_manager", "api_key_dax"))
    ensures "dax_manager" in doc ==>
              forall i :: 0 <= i < |DaxManagerKeys()| && DaxManagerKeys()[i] !in doc["dax_manager"]
                && (forall j :: 0 <= j < i ==> DaxManagerKeys()[j] in doc["dax_manager"])
                ==> r == Logged(false, [ManagerOptionMissing(DaxManagerKeys()[i])])
  {
    if "dax_manager" !in doc then Logged(false, [])
    else
      match FirstMissing(doc["dax_manager"], DaxManagerKeys())
      case Some(option) => Logged(false, [ManagerOptionMissing(option)])
      case None =>
        var url := Get(doc, "dax_manager", "api_url");
        if url.value.Some? then Logged(true, url.log)
        else
          var key := Get(doc, "dax_manager", "api_key_dax");
          if key.value.Some? then Logged(true, url.log + key.log)
          else Logged(false, url.log + key.log + [ManagerApiNotSet])
  }

  /** The code as written agrees with the documented check on every False and its
      messages, and returns None wherever the documented check returns True. */
  lemma ManagerValidityMissingReturn(doc: Document)
    ensures IsDaxManagerValid(doc).log == DaxManagerValid(doc).log
    ensures IsDaxManagerValid(doc).value == (if DaxManagerValid(doc).value then ReturnsNone else ReturnsFalse)
  {
  }

  /** A complete section with an API URL: the documented check says valid, the code
      returns None. */
  lemma DaxManagerValidReturnsNone()
    ensures var doc := map["dax_manager" := map i | 0 <= i < |DaxManagerKeys()| :: DaxManagerKeys()[i] := Some("https://dax.example")];
            DaxManagerValid(doc) == Logged(true, []) && IsDaxManagerValid(doc).value == ReturnsNone
  {
    var sec := map i | 0 <= i < |DaxManagerKeys()| :: DaxManagerKeys()[i] := Some("https://dax.example");
    var doc := map["dax_manager" := sec];
    assert DaxManagerKeys()[0] == "api_url";
    assert "api_url" in sec;
    assert IsSet(doc, "dax_manager", "api_url");
  }
}
