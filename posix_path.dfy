/** os.path.join as Python's posixpath module defines it, for two arguments. */
module PosixPath {

  predicate IsAbsolute(p: string) {
    |p| > 0 && p[0] == '/'
  }

  /** An absolute b replaces a; otherwise b is appended to a, with a '/' between them
      unless a is empty or already ends with '/'. */
  function Join(a: string, b: string): (r: string)
    ensures |b| <= |r| && r[|r| - |b|..] == b
    ensures IsAbsolute(b) ==> r == b
    ensures !IsAbsolute(b) ==> |a| <= |r| && r[..|a|] == a
    ensures !IsAbsolute(b) ==> |r| <= |a| + 1 + |b|
  {
    if IsAbsolute(b) then b
    else if a == [] || a[|a| - 1] == '/' then a + b
    else a + "/" + b
  }

  /** Within one folder, the joined path determines the relative name. */
  lemma JoinInjective(a: string, b1: string, b2: string)
    requires !IsAbsolute(b1) && !IsAbsolute(b2)
    requires Join(a, b1) == Join(a, b2)
    ensures b1 == b2
  {
    var r := Join(a, b1);
    var n := if a == [] || a[|a| - 1] == '/' then |a| else |a| + 1;
    assert b1 == r[n..];
    assert b2 == r[n..];
  }

  /** A folder path ending in '/' (as the datastore browser reports it) is simply concatenated. */
  lemma JoinFolder(folder: string, name: string)
    requires |folder| > 0 && folder[|folder| - 1] == '/' && !IsAbsolute(name)
    ensures Join(folder, name) == folder + name
  {
  }
}
