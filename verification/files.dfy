/** The filesystem as the settings resolver sees it: which paths are regular
    files, and what each of them contains. */
module Files {
  import Text

  /** A path is a regular file exactly when it is a key of `contents`. */
  datatype FileSystem = FileSystem(contents: map<string, string>) {
    /** `os.path.isfile(path)` */
    predicate IsFile(path: string) {
      path in contents
    }
  }

  /** `os.path.join(a, b)` from Python 2's posixpath, for two components: an
      absolute `b` replaces `a`; otherwise exactly one `/` separates the two,
      unless `a` is empty. */
  function PathJoin(a: string, b: string): (p: string)
    ensures Text.EndsWith(p, b)
    ensures !Text.StartsWith(b, "/") ==> Text.StartsWith(p, a)
    ensures Text.StartsWith(b, "/") ==> p == b
    ensures !Text.StartsWith(b, "/") && a != "" && !Text.EndsWith(a, "/") ==> p == a + "/" + b
    ensures !Text.StartsWith(b, "/") && (a == "" || Text.EndsWith(a, "/")) ==> p == a + b
  {
    if Text.StartsWith(b, "/") then b
    else if a == "" || Text.EndsWith(a, "/") then a + b
    else a + "/" + b
  }
}
