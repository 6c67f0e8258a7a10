/** The two POSIX path helpers the resolver relies on, `os.path.dirname` and
    two-argument `os.path.join`, with '/' as the only separator. */
module PosixPath {

  predicate AllSlashes(s: string) {
    forall k :: 0 <= k < |s| ==> s[k] == '/'
  }

  predicate IsAbsolute(s: string) {
    |s| > 0 && s[0] == '/'
  }

  /** `s.rfind('/')`: the index of the last separator, or -1. */
  function LastSlash(s: string): (r: int)
    ensures -1 <= r < |s|
    ensures r >= 0 ==> s[r] == '/'
    ensures forall k :: r < k < |s| ==> s[k] != '/'
  {
    if |s| == 0 then -1
    else if s[|s| - 1] == '/' then |s| - 1
    else LastSlash(s[..|s| - 1])
  }

  /** `s.rstrip('/')`. */
  function StripTrailingSlashes(s: string): (r: string)
    ensures r <= s
    ensures AllSlashes(s[|r|..])
    ensures |r| > 0 ==> r[|r| - 1] != '/'
  {
    if |s| > 0 && s[|s| - 1] == '/' then StripTrailingSlashes(s[..|s| - 1]) else s
  }

  /** `os.path.dirname(p)`: everything before the last component, without
      its trailing separators unless it consists of separators only. */
  function Dirname(p: string): (r: string)
    ensures r <= p && |r| <= LastSlash(p) + 1
    ensures AllSlashes(p[|r|..LastSlash(p) + 1])
    ensures '/' !in p[LastSlash(p) + 1..]
    ensures |r| > 0 && !AllSlashes(r) ==> r[|r| - 1] != '/'
    ensures ('/' in p) <==> |r| > 0
    ensures AllSlashes(p[..LastSlash(p) + 1]) ==> r == p[..LastSlash(p) + 1]
  {
    var last := LastSlash(p);
    var head := p[..last + 1];
    assert ('/' in p) <==> last >= 0 by {
      if last >= 0 {
        assert p[last] == '/';
      }
    }
    if |head| > 0 && !AllSlashes(head) then
      var r := StripTrailingSlashes(head);
      assert p[|r|..last + 1] == head[|r|..];
      r
    else head
  }

  /** `os.path.join(a, b)`: an absolute `b` replaces `a`; otherwise `b` is
      appended, with a separator unless `a` is empty or already ends in one. */
  function Join(a: string, b: string): (r: string)
    ensures |b| <= |r| && r[|r| - |b|..] == b
    ensures IsAbsolute(b) ==> r == b
    ensures !IsAbsolute(b) ==> a <= r && |a| + |b| <= |r| <= |a| + |b| + 1 && AllSlashes(r[|a|..|r| - |b|])
    ensures !IsAbsolute(b) && |a| > 0 && a[|a| - 1] != '/' ==> |r| == |a| + 1 + |b|
    ensures !IsAbsolute(b) && (|a| == 0 || a[|a| - 1] == '/') ==> |r| == |a| + |b|
  {
    if IsAbsolute(b) then b
    else if |a| == 0 || a[|a| - 1] == '/' then a + b
    else a + "/" + b
  }

  /** The last separator of `d + "/" + name` is the one just added. */
  lemma {:induction false} LastSlashOfJoined(d: string, name: string)
    requires '/' !in name
    ensures LastSlash(d + "/" + name) == |d|
  {
    if |name| > 0 {
      var s := d + "/" + name;
      assert s[..|s| - 1] == d + "/" + name[..|name| - 1];
      LastSlashOfJoined(d, name[..|name| - 1]);
    } else {
      assert (d + "/" + name)[|d|] == '/';
    }
  }

  /** Joining a directory with a plain file name and taking the dirname of
      the result gives the directory back. */
  lemma {:induction false} DirnameOfJoin(d: string, name: string)
    requires |d| > 0 && d[|d| - 1] != '/'
    requires '/' !in name
    ensures Dirname(Join(d, name)) == d
  {
    var p := Join(d, name);
    assert p == d + "/" + name;
    LastSlashOfJoined(d, name);
    var head := p[..|d| + 1];
    assert head == d + "/";
    assert !AllSlashes(head) by {
      assert head[|d| - 1] != '/';
    }
    assert head[..|head| - 1] == d;
  }
}
