/** Device paths as the application builds them: `os.path.join` followed by
    `.replace("\\", "/")`, and `os.path.dirname` / `os.path.basename`, all
    with POSIX semantics on `/`-separated strings. */
module Paths {
  import opened Text

  /** `posixpath.join(a, b)` */
  function Join(a: string, b: string): string {
    if StartsWith(b, "/") then b
    else if a == [] || EndsWith(a, "/") then a + b
    else a + "/" + b
  }

  /** `os.path.join(dir, name).replace("\\", "/")`, the device path of an
      entry of `dir`. */
  function DevicePath(dir: string, name: string): string {
    ReplaceChar(Join(dir, name), '\\', '/')
  }

  /** Index of the last `/` of `p`, or -1 (`p.rfind('/')`). */
  function LastSlash(p: string): (i: int)
    ensures -1 <= i < |p|
    ensures i >= 0 ==> p[i] == '/'
    ensures forall j :: i < j < |p| ==> p[j] != '/'
  {
    if |p| == 0 then -1
    else if p[|p| - 1] == '/' then |p| - 1
    else LastSlash(p[..|p| - 1])
  }

  predicate AllSlashes(s: string) {
    forall i :: 0 <= i < |s| ==> s[i] == '/'
  }

  /** `s.rstrip('/')` */
  function RStripSlash(s: string): (r: string)
    ensures |r| <= |s| && r == s[..|r|]
    ensures r == [] || r[|r| - 1] != '/'
    ensures forall j :: |r| <= j < |s| ==> s[j] == '/'
  {
    if |s| > 0 && s[|s| - 1] == '/' then RStripSlash(s[..|s| - 1]) else s
  }

  /** `posixpath.dirname(p)` */
  function Dirname(p: string): string {
    var head := p[..LastSlash(p) + 1];
    if head != [] && !AllSlashes(head) then RStripSlash(head) else head
  }

  /** `posixpath.basename(p)` */
  function Basename(p: string): string {
    p[LastSlash(p) + 1..]
  }

  /** The base name of each path. */
  function BaseNames(paths: seq<string>): (r: seq<string>)
    ensures |r| == |paths| && forall i :: 0 <= i < |paths| ==> r[i] == Basename(paths[i])
  {
    seq(|paths|, i requires 0 <= i < |paths| => Basename(paths[i]))
  }

  predicate NoBackslash(s: string) {
    forall i :: 0 <= i < |s| ==> s[i] != '\\'
  }

  /** A directory path as the browser keeps it: the root, or a path that
      does not end with a slash, and no backslash. */
  predicate CleanDir(d: string) {
    (d == "/" || (|d| > 0 && d[|d| - 1] != '/')) && NoBackslash(d)
  }

  /** A directory entry name: non-empty, without separators of either kind. */
  predicate PlainName(n: string) {
    n != [] && (forall i :: 0 <= i < |n| ==> n[i] != '/') && NoBackslash(n)
  }

  /** The path of an entry of a clean directory is the directory, a slash
      and the name. */
  lemma DevicePathOfEntry(d: string, n: string)
    requires CleanDir(d) && PlainName(n)
    ensures DevicePath(d, n) == (if d == "/" then "/" + n else d + "/" + n)
  {
    var j := Join(d, n);
    assert !StartsWith(n, "/") by { assert n[0] != '/'; }
    assert j == (if d == "/" then "/" + n else d + "/" + n);
    forall i | 0 <= i < |j| ensures j[i] != '\\' {
      if d == "/" {
        if i > 0 { assert j[i] == n[i - 1]; }
      } else if i < |d| {
        assert j[i] == d[i];
      } else if i > |d| {
        assert j[i] == n[i - |d| - 1];
      }
    }
    ReplaceCharAbsent(j, '\\', '/');
  }

  /** The last slash is the one after which no slash follows. */
  lemma LastSlashIs(p: string, k: nat)
    requires k < |p| && p[k] == '/'
    requires forall j :: k < j < |p| ==> p[j] != '/'
    ensures LastSlash(p) == k
  {
  }

  /** One trailing slash after a name that does not end with one is
      stripped back to the name. */
  lemma StripOneSlash(d: string)
    requires |d| > 0 && d[|d| - 1] != '/'
    ensures RStripSlash(d + "/") == d
  {
    assert (d + "/")[..|d|] == d;
  }

  /** Going up from an entry of a clean directory comes back to that
      directory: `dirname` undoes the join the browser makes. */
  lemma {:induction false} DirnameOfDevicePath(d: string, n: string)
    requires CleanDir(d) && PlainName(n)
    ensures Dirname(DevicePath(d, n)) == d
  {
    DevicePathOfEntry(d, n);
    var p := DevicePath(d, n);
    var k := if d == "/" then 0 else |d|;
    forall j | k < j < |p| ensures p[j] != '/' {
      assert p[j] == n[j - k - 1];
    }
    LastSlashIs(p, k);
    if d == "/" {
      assert p[..k + 1] == "/";
    } else {
      var head := p[..k + 1];
      assert head == d + "/";
      assert head[|d| - 1] == d[|d| - 1];
      assert !AllSlashes(head);
      StripOneSlash(d);
    }
  }

  /** Below a root directory (one not ending with a slash), `dirname` stays
      at or below that root. */
  lemma DirnameStaysBelow(root: string, p: string)
    requires |root| > 0 && root[|root| - 1] != '/'
    requires StartsWith(p, root + "/")
    ensures Dirname(p) == root || StartsWith(Dirname(p), root + "/")
  {
    assert p[|root|] == (root + "/")[|root|] == '/';
    var i := LastSlash(p);
    assert i >= |root|;
    var head := p[..i + 1];
    assert head[|root| - 1] == root[|root| - 1];
    assert !AllSlashes(head);
    var r := RStripSlash(head);
    assert |r| >= |root|;
    assert p[..|root| + 1] == root + "/";
    assert head[..|root| + 1] == p[..|root| + 1];
    assert r[..|root|] == head[..|root|] == root;
    if |r| > |root| {
      assert r[..|root| + 1] == head[..|root| + 1];
    }
  }
}
