/**
 * filepath.Ext on a '/'-separated path: the suffix that starts at the last
 * '.' of the final path element, or the empty string when that element has
 * no '.'.
 */
module FilePath {
  import opened ByteStrings

  /** j is a '.' of the final element and no later '.' or '/' follows it. */
  ghost predicate LastDotOfBase(path: string, j: int) {
    && 0 <= j < |path|
    && path[j] == '.'
    && forall k | j < k < |path| :: path[k] != '.' && path[k] != '/'
  }

  /** Every '.' of the path is followed later by a '/'. */
  ghost predicate BaseHasNoDot(path: string) {
    forall j | 0 <= j < |path| && path[j] == '.' ::
      exists k | j < k < |path| :: path[k] == '/'
  }

  /** Reference definition of the extension of a path. */
  ghost predicate IsExtension(path: string, ext: string) {
    || (ext == [] && BaseHasNoDot(path))
    || (exists j | 0 <= j < |path| :: LastDotOfBase(path, j) && ext == path[j..])
  }

  /** A path has at most one extension. */
  lemma ExtensionUnique(path: string, e1: string, e2: string)
    requires IsExtension(path, e1) && IsExtension(path, e2)
    ensures e1 == e2
  {
    if e1 != [] || !BaseHasNoDot(path) {
      var j1 :| 0 <= j1 < |path| && LastDotOfBase(path, j1) && e1 == path[j1..];
      assert !BaseHasNoDot(path) by {
        assert path[j1] == '.';
        assert !exists k | j1 < k < |path| :: path[k] == '/';
      }
      var j2 :| 0 <= j2 < |path| && LastDotOfBase(path, j2) && e2 == path[j2..];
      if j1 < j2 {
        assert path[j2] == '.';
      } else if j2 < j1 {
        assert path[j1] == '.';
      }
    }
  }

  /**
   * The backward scan of filepath.Ext, from index i down to the start of the
   * path: stop with "" at a '/', with the rest of the path at a '.'. A
   * non-empty result starts with a '.' found at or before i.
   */
  function ExtFrom(path: ByteString, i: int): (r: ByteString)
    requires -1 <= i < |path|
    ensures |r| <= |path|
    ensures r != [] ==> r[0] == '.' && |path| - |r| <= i
    decreases i + 1
  {
    if i < 0 || path[i] == '/' then ""
    else if path[i] == '.' then path[i..]
    else ExtFrom(path, i - 1)
  }

  /** The scan yields the extension once everything after i is neither '.' nor '/'. */
  lemma {:induction false} ExtFromIsExtension(path: ByteString, i: int)
    requires -1 <= i < |path|
    requires forall k | i < k < |path| :: path[k] != '.' && path[k] != '/'
    ensures IsExtension(path, ExtFrom(path, i))
    decreases i + 1
  {
    if i < 0 {
    } else if path[i] == '/' {
      forall j | 0 <= j < |path| && path[j] == '.'
        ensures exists k | j < k < |path| :: path[k] == '/'
      {
        assert j < i && path[i] == '/';
      }
    } else if path[i] == '.' {
      assert LastDotOfBase(path, i);
    } else {
      ExtFromIsExtension(path, i - 1);
    }
  }

  /** filepath.Ext(path). */
  function Ext(path: ByteString): (ext: ByteString)
    ensures IsExtension(path, ext)
  {
    ExtFromIsExtension(path, |path| - 1);
    ExtFrom(path, |path| - 1)
  }

  /** The extension starts with '.' or is empty, and is a suffix of the path. */
  lemma ExtShape(path: ByteString)
    ensures Ext(path) == [] || (Ext(path)[0] == '.' && Ext(path) == path[|path| - |Ext(path)|..])
  {
    var e := Ext(path);
    if e != [] {
      var j :| 0 <= j < |path| && LastDotOfBase(path, j) && e == path[j..];
    }
  }

  lemma {:induction false} ExtFromUnderDirectory(dir: ByteString, name: ByteString, i: int)
    requires -1 <= i < |name|
    ensures ExtFrom(dir + "/" + name, |dir| + 1 + i) == ExtFrom(name, i)
    decreases i + 1
  {
    var p := dir + "/" + name;
    assert p[|dir|] == '/';
    if i >= 0 {
      assert p[|dir| + 1 + i] == name[i];
      assert p[|dir| + 1 + i..] == name[i..];
      ExtFromUnderDirectory(dir, name, i - 1);
    }
  }

  /** Only the final element of a path decides its extension. */
  lemma ExtUnderDirectory(dir: ByteString, name: ByteString)
    ensures Ext(dir + "/" + name) == Ext(name)
  {
    ExtFromUnderDirectory(dir, name, |name| - 1);
  }
}
