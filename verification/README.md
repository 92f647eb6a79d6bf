# DAX settings resolver and XNAT URI templates in Dafny

This project models two layers of DAX (Distributed Automation for XNAT):

- **The settings resolver** `DAX_Settings` (`dax/dax_settings.py`). It reads
  options from an INI document:
  - `get` turns every kind of "not there" into None and prints a warning instead
    of raising;
  - `iterate_options` and the four `get_*_config` methods collect a section;
  - the typed getters are `get_user_home`, `get_xsitype_include`,
    `get_queue_limit` and `get_max_age`;
  - the two validators are `is_cluster_valid` and `is_dax_manager_valid`;
  - six getters take a file path from the `cluster` section and return that
    file's contents, as a plain string or as a `string.Template`, with the
    `echo ` template as the fallback for three of them.
- **The URI layer** (`utils/uriutil.py`). This is the table of 21 `URI_*` XNAT
  REST path templates, and `format_uri`, which fills their `{name}` placeholders
  from a dict. When a name is missing, it prints a warning and returns None.

The model uses the following representations:

- **The INI document** is a map from section to a map from option to
  `Option<string>` (module `IniDocument`). None is an option written without a
  value (`allow_no_value=True`).
- **The file system** is a map from path to contents (module `Files`).
  `os.path.join` is modelled as Python 2's `posixpath.join`.
- **Output to stdout and stderr** is a log of `Warning` values appended to the
  result (`Logged`, `Traced`).
- **Exceptions that escape to the caller** are `PyError` values inside a
  `Result`.
- **Python's `int()`** is a parameter `parseInt: string -> Option<int>`. None
  stands for its ValueError.
- **The home directory** (`os.path.expanduser('~')`) is a string parameter.

The modules are `Wrappers`, `Text`, `Files`, `IniDocument`, `DaxSettings`,
`DaxValidation`, `DaxCommands`, `UriTemplate`, `UriCatalog` and `UriSpelling`.

Three behaviours of the code are easy to misread:

- **`~/` paths.** A leading `~/` is not expanded. The file-backed getters pass
  the whole path to `os.path.join` after `get_user_home()`
  (`dax/dax_settings.py:333-334`), which keeps the `~` component. With
  `user_home` set to `/h`, the path `~/x` gives `/h/~/x`. With `user_home = ~`
  and home directory `/home/u`, it gives `/home/u/~/x`
  (`DaxCommands.TildeIsJoinedNotStripped`, `DaxCommands.TildeHomeKeepsTilde`).
- **Absent cluster options.** `is_cluster_valid` documents ":return: True if
  valid settings, False otherwise" (`dax/dax_settings.py:82`). It reads each
  option through the parser's own `get`. So when the first of the six options
  that fails is absent from `[cluster]`, ConfigParser's NoOptionError escapes
  instead of a False (`DaxValidation.ClusterFailsAtFirstUnusable`,
  `DaxValidation.AbsentClusterOptionRaises`).
- **Braces in values.** `format_uri` inserts each value as it is. A formatted
  URI is free of `{` and `}` only when the values are
  (`UriTemplate.FormatLeavesNoBraces`).

## Model

| member | source | states |
|---|---|---|
| DaxSettings.Get | dax/dax_settings.py:154-178 | The result is a value exactly when the section has the option with a non-empty value, and then it is the stored value. `''` never comes back. A missing section or missing option gives exactly one warning, and nothing is raised. |
| DaxSettings.IterateOptions | dax/dax_settings.py:180-194 | The dict has exactly the listed options as keys, each mapped to what `get` returns for it. The warnings are those of the `get` calls in list order. A missing section gives one warning per option, and options that are all present give none. |
| DaxSettings.SectionConfig | dax/dax_settings.py:196-228 | Without the section, NoSectionError escapes. Otherwise the dict's keys are exactly the section's options, and a value is present exactly when it is set. |
| DaxSettings.SectionConfigIsIteration | dax/dax_settings.py:196-228 | For any listing of a section's options, a section config is `iterate_options` over that listing, and it prints nothing. |
| DaxSettings.GetUserHome | dax/dax_settings.py:247-258 | The result is a value exactly when `user_home` is set. It warns exactly as `get` does. |
| DaxSettings.UserHomeExpandsOnlyTilde | dax/dax_settings.py:254-258 | The home directory comes back exactly when the stored value is `~` or already equals it. Any other value passes through unchanged. |
| DaxSettings.GetXsitypeInclude | dax/dax_settings.py:288-297 | The list is empty exactly when the option is unset. Otherwise, joining the parts with `,` gives back the stored text, and no part contains `,`. |
| DaxSettings.GetQueueLimit | dax/dax_settings.py:479-487 | An unset `queue_limit` gives 14. A set value gives `int()` of it, or the ValueError that `int()` raises. |
| DaxSettings.QueueLimitDefault | dax/dax_settings.py:484-487 | The limit is 14 exactly when the option is unset or its text parses to 14. |
| DaxSettings.GetMaxAge | dax/dax_settings.py:496-501 | TypeError escapes exactly when `max_age` is unset. Unparsable text gives ValueError, and parsable text gives its integer. |
| DaxValidation.ScanCommandOptions | dax/dax_settings.py:85-94 | The scan returns True exactly when every option is present, set and names a file, and then it prints nothing. Otherwise the first option that fails decides the outcome. It never returns None. |
| DaxValidation.IsClusterValid | dax/dax_settings.py:79-97 | Without a `cluster` section the result is False and nothing is printed. It never returns None. |
| DaxValidation.ClusterValidIffAllUsable | dax/dax_settings.py:79-97 | True exactly when a `cluster` section exists and all six command options are set to paths of existing files. |
| DaxValidation.ClusterFailsAtFirstUnusable | dax/dax_settings.py:85-94 | The first unusable option decides the result. An unset value gives False with a "not set" warning. A path that names no file gives False with a "not found" warning naming the path. An absent option raises. |
| DaxValidation.AbsentClusterOptionRaises | dax/dax_settings.py:84-86 | An absent `cmd_count_nb_jobs`, the option checked first, raises NoOptionError and does not return False. |
| DaxValidation.FirstMissing | dax/dax_settings.py:140-145 | The result is None exactly when all keys are present. Otherwise it is the first absent key in `DAX_MANAGER_DEFAULTS` order. |
| DaxValidation.IsDaxManagerValid | dax/dax_settings.py:132-152 | As written, the result is never True. It is None exactly when all 24 options are present and `api_url` or `api_key_dax` is set. The first missing option gives False with one message naming it. |
| DaxValidation.DaxManagerValid | dax/dax_settings.py:132-150 | The documented check: True exactly when all 24 options are present and `api_url` or `api_key_dax` is set. The first missing option gives False with one message naming it. |
| DaxValidation.ManagerValidityMissingReturn | dax/dax_settings.py:139-152 | The code as written prints the same messages as the documented check. It returns None exactly where that check returns True, and False elsewhere. |
| DaxValidation.DaxManagerValidReturnsNone | dax/dax_settings.py:139-152 | For a complete section with `api_url` set, the documented check says valid, but the code returns None. |
| DaxCommands.KindsMatchFilesOptions | dax/dax_settings.py:11-13 | The six file-backed getters read exactly the options in `FILES_OPTIONS`, in the same order, and there are no others. |
| DaxCommands.ReadCommandFile | dax/dax_settings.py:517-543 | A path that is not a file raises IOError. An empty file gives `''`. Otherwise the result is the file's text, as a Template exactly when a template was asked for. |
| DaxCommands.ResolvePath | dax/dax_settings.py:333-334 | A path without `~/` is unchanged and prints nothing. A `~/` path needs `user_home`: AttributeError escapes exactly when that is unset. Otherwise the whole path is joined onto the stored home, or onto the home directory when the stored value is `~`. |
| DaxCommands.GetCommand | dax/dax_settings.py:321-456 | An unset option gives `echo ` for memory, walltime and node, and `''` for the rest. AttributeError is the only error, raised exactly for an unresolvable `~/` path. Otherwise an existing non-empty file gives its text, as a Template for all but `cmd_count_nb_jobs`. Anything else gives `''`. |
| DaxCommands.CommandOrigin | dax/dax_settings.py:321-456 | Whatever a getter returns is its fallback, `''`, or the text of an existing non-empty file. |
| DaxCommands.ValidClusterCommandsComeFromFiles | dax/dax_settings.py:321-337 | When `is_cluster_valid` accepts the section and no path starts with `~/`, each getter reads the file its option names and prints nothing. |
| DaxCommands.TildeIsJoinedNotStripped | dax/dax_settings.py:333-334 | Suppose `get_user_home()` returns a non-empty directory `d` not ending in `/`. A path `~/rest` then reads `d/~/rest`: the `~` is kept. |
| DaxCommands.TildeHomeKeepsTilde | dax/dax_settings.py:254-256 | With `user_home = ~` and a home directory `h`, a path `~/rest` reads `h/~/rest`. |
| Files.PathJoin | dax/dax_settings.py:334 | An absolute second part replaces the first. Otherwise exactly one `/` separates the parts: it is added unless the first part is empty or already ends in `/`. |
| Text.Split | dax/dax_settings.py:295 | `split(',')` gives at least one part, and no part contains the separator. |
| Text.JoinSplit | dax/dax_settings.py:295 | Joining the parts of `split(',')` with `,` gives back the original text. |
| Text.SplitJoin | dax/dax_settings.py:295 | Parts without a separator are recovered by splitting their join. |
| UriTemplate.Tokenize | utils/uriutil.py:44 | An accepted template is a sequence of literal characters and `{identifier}` placeholders that spells the template back. |
| UriTemplate.TokenizeUnparse | utils/uriutil.py:44 | Any such sequence is read back from the text it spells, so reading is exactly the grammar. |
| UriTemplate.Render | utils/uriutil.py:44-46 | Substitution succeeds exactly when every placeholder has a key. A failure names a placeholder of the template that is not a key. |
| UriTemplate.RenderFirstMissing | utils/uriutil.py:44-46 | The name reported is the first placeholder, left to right, that has no key. |
| UriTemplate.FormatUri | utils/uriutil.py:31-47 | Only templates outside the modelled grammar fall outside. A URI comes back exactly when every placeholder name is a key, and then with no warning. Otherwise None comes back with exactly one warning, naming a missing placeholder. Nothing escapes. |
| UriTemplate.FormatIgnoresUnusedKeys | utils/uriutil.py:44 | Keys the template does not mention do not change the result. |
| UriTemplate.FormatRestoresTemplate | utils/uriutil.py:44 | Mapping each name to its own `{name}` text gives the template back. |
| UriTemplate.FormatPlaceholderFree | utils/uriutil.py:44 | A template without placeholders formats to itself for any dict. |
| UriTemplate.FormatLeavesNoBraces | utils/uriutil.py:44 | With brace-free values, a formatted URI contains no `{` or `}`. |
| UriTemplate.FormatAppend | utils/uriutil.py:44 | Formatting two templates that both succeed and concatenating the results equals formatting their concatenation. |
| UriTemplate.BraceFreeIsLiteral | utils/uriutil.py:44 | Brace-free text formats to itself. |
| UriTemplate.PlaceholderIsValue | utils/uriutil.py:44 | `{name}` formats to the value of `name`. |
| UriCatalog.LeadingSlash | utils/uriutil.py:6-28 | Every template starts with `/` except `URI_PROJECT_PREARCHIVE_CODE_BY_ID`. |
| UriCatalog.SiblingIsPrefix | utils/uriutil.py:6-28 | Every `*_BY_*` template extends the template without the suffix, except the prearchive-code one. |
| UriCatalog.PrearchiveByIdNotExtension | utils/uriutil.py:21-22 | `URI_PROJECT_PREARCHIVE_CODE_BY_ID` does not start with `URI_PROJECT_PREARCHIVE_CODE`. |
| UriCatalog.CatalogSegmentsValid | utils/uriutil.py:6-28 | Every template consists of brace-free fixed segments and identifier placeholders. |
| UriCatalog.FormatPath | utils/uriutil.py:44 | A `/`-separated path template formats segment by segment: fixed text stays and each placeholder becomes its value. |
| UriCatalog.FormatCatalogEntry | utils/uriutil.py:6-47 | Given values for its placeholders, every catalog template formats to its path with the values put in place. The relative template stays relative. |
| UriCatalog.PlainTemplatesFormatToThemselves | utils/uriutil.py:6-14 | `URI_USER_RESOURCE`, `URI_USER` and `URI_PROJECT` format to themselves for any dict. |
| UriCatalog.UserByIdFormat | utils/uriutil.py:11 | `URI_USER_BY_ID` with `user` set to `u` formats to `/data/users/u`. |
| UriCatalog.ResourcesByFilenameFormat | utils/uriutil.py:27 | `URI_PROJECT_RESOURCES_BY_FILENAME` with project P, resource R and file F formats to `/data/archive/projects/P/resources/R/files/F`. The fixed text stays in order around the three values. |
| UriSpelling.TemplateSpelling | utils/uriutil.py:6-28 | Each of the 21 templates, written as path segments, spells exactly the text of its `URI_*` constant, including the missing leading `/` of `URI_PROJECT_PREARCHIVE_CODE_BY_ID`. |

## Left out

- The INI parsing itself, `__init__`, `exists` and `__read__`: the document is
  given already parsed. ConfigParser's `DEFAULT` section, `%(name)s`
  interpolation and option-name lowercasing are not modelled.
- `load_code_path` and `load_python_file`: they walk directories and import
  Python modules, which has no counterpart in a pure model.
- The one-line getters (`get_admin_email`, `get_cmd_submit`, `get_gateway`,
  `get_api_url` and the others). Each is `get` on a fixed section and option, so
  `DaxSettings.Get` covers them.
- The text of the printed messages and the `printutil` timestamps: a warning is
  modelled by what it names, not by its wording.
- `string.Template` substitution on the returned commands: a Template is kept
  as its source text.
- Python's `int()` grammar: it is an uninterpreted parameter.
- `os.path.expanduser('~')` is a parameter, and `os.path.isfile` is membership
  in the file map (directories and permissions are not modelled).
- UriTemplate.FormatUri: templates outside the `{identifier}` grammar give
  `OutsideGrammar` instead of `str.format`'s result. This covers `{{` escapes,
  positional and empty fields, attribute and index access, conversions and
  format specs, and the ValueError or IndexError these can raise. None of the
  21 catalog templates uses them.
- `get_keys`, `xnat_utils2`, `downloadutils` and `fileutil` are not part of
  this model.
- UriTemplate.FormatUri: each value in `value_dict` is taken as the text
  `str.format` would insert for it, so values are strings. Formatting
  arbitrary objects is not modelled. Neither are exceptions other than
  KeyError that a value can cause, such as UnicodeEncodeError for a non-ASCII
  `unicode` value under Python 2. Those escape `format_uri`, which catches only
  KeyError.
- UriCatalog: each template is written as its list of path segments, and
  `UriSpelling.TemplateSpelling` proves that the segments spell the constant's
  text. `URI_USER_BY_ID` and `URI_PROJECT_RESOURCES_BY_FILENAME` have their
  formatted results stated as concrete text. The other entries are covered by
  `UriCatalog.FormatCatalogEntry`.

## Findings

| source | as written | input that shows it | evidently intended | confidence | as-written member | corrected member |
|---|---|---|---|---|---|---|
| dax/dax_settings.py:139-152 | When the section has every option and `api_url` or `api_key_dax` is set, the function falls off its end and returns None, so it never returns True. | A `[dax_manager]` section with all 24 options present and `api_url` non-empty. | It returns True, as its docstring says. | high, not executed | DaxValidation.IsDaxManagerValid, DaxValidation.DaxManagerValidReturnsNone | DaxValidation.DaxManagerValid |
