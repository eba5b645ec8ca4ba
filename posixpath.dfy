/**
 * The three `os.path` functions the file manager calls, with POSIX
 * semantics: `basename`, `dirname`, and `join` of a relative second part.
 */
module PosixPath {
  import opened Wrappers
  import opened Text

  /** `s.rfind(c)`, as an option: the last index holding `c`. */
  function RFind(s: string, c: char): (r: Option<nat>)
    ensures r.Some? ==> r.value < |s| && s[r.value] == c && c !in s[r.value + 1..]
    ensures r.None? ==> c !in s
  {
    if s == [] then None
    else if s[|s| - 1] == c then Some(|s| - 1)
    else
      var r := RFind(s[..|s| - 1], c);
      assert s == s[..|s| - 1] + [s[|s| - 1]];
      r
  }

  /** `os.path.basename(p)`: the text after the last slash. */
  function Basename(p: string): (r: string)
    ensures '/' !in r && EndsWith(p, r)
    ensures '/' in p ==> EndsWith(p, "/" + r)
  {
    match RFind(p, '/')
    case None => p
    case Some(i) =>
      assert p[i..] == "/" + p[i + 1..];
      p[i + 1..]
  }

  /** `os.path.dirname(p)`: the text up to the last slash, without its trailing slashes unless it is all slashes. */
  function Dirname(p: string): (r: string)
    ensures '/' !in p ==> r == ""
    ensures StartsWith(p, r)
  {
    match RFind(p, '/')
    case None => ""
    case Some(i) =>
      var head := p[..i + 1];
      if head != [] && exists k :: 0 <= k < |head| && head[k] != '/' then RStripChar(head, '/') else head
  }

  /** `os.path.join(a, b)` for a `b` that does not start with a slash. */
  function Join(a: string, b: string): (r: string)
    ensures a == [] || EndsWith(a, "/") ==> r == a + b
    ensures a != [] && !EndsWith(a, "/") ==> r == a + "/" + b
  {
    if a == [] || EndsWith(a, "/") then a + b else a + "/" + b
  }

  /** The last `c` of `pre + [c] + post` is the one after `pre` when `post` holds none. */
  lemma {:induction false} RFindAt(pre: string, c: char, post: string)
    requires c !in post
    ensures RFind(pre + [c] + post, c) == Some(|pre|)
    decreases |post|
  {
    var s := pre + [c] + post;
    if post != [] {
      var post' := post[..|post| - 1];
      assert s[..|s| - 1] == pre + [c] + post';
      assert s[|s| - 1] == post[|post| - 1];
      RFindAt(pre, c, post');
    }
  }

  /** The basename of a slash-free name joined onto any directory is the name. */
  lemma {:induction false} BasenameJoin(a: string, b: string)
    requires '/' !in b
    ensures Basename(Join(a, b)) == b
  {
    if a == [] {
    } else if EndsWith(a, "/") {
      var a' := a[..|a| - 1];
      assert a == a' + "/";
      assert Join(a, b) == a' + ['/'] + b;
      RFindAt(a', '/', b);
    } else {
      assert Join(a, b) == a + ['/'] + b;
      RFindAt(a, '/', b);
    }
  }

  /** The basename of a slash-free name after a directory that ends in a slash is the name. */
  lemma {:induction false} BasenameAfterSlash(dir: string, b: string)
    requires '/' !in b && dir != [] && dir[|dir| - 1] == '/'
    ensures Basename(dir + b) == b
  {
    var d := dir[..|dir| - 1];
    assert dir + b == d + ['/'] + b;
    RFindAt(d, '/', b);
  }

  /** Splitting `d + "/" + b` into directory and base name gives `d` and `b` back when `d` has no trailing slash. */
  lemma {:induction false} DirnameBasename(d: string, b: string)
    requires '/' !in b && d != [] && d[|d| - 1] != '/'
    ensures Dirname(d + "/" + b) == d && Basename(d + "/" + b) == b
  {
    var p := d + "/" + b;
    assert p == d + ['/'] + b;
    RFindAt(d, '/', b);
    var head := p[..|d| + 1];
    assert head == d + "/";
    assert head[|d| - 1] != '/';
    assert RStripChar(head, '/') == RStripChar(d, '/');
  }
}
