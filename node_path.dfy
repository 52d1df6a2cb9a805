/** Node's POSIX `path.basename` and `path.extname`, which the file
    utilities call. The base name is the text after the last `/` once
    trailing slashes are removed. The extension is the base name's suffix
    from its last `.`, or empty when there is no dot, the dot is the base
    name's first character, or the base name is `..`. */
module NodePath {
  import opened Common
  import opened Text

  /** The position of the last `c` in `s`. */
  function LastIndex(s: string, c: char): (r: Option<nat>)
    ensures r.Some? ==> r.value < |s| && s[r.value] == c && c !in s[r.value + 1..]
    ensures r.None? <==> c !in s
  {
    if s == [] then None
    else if s[|s| - 1] == c then Some(|s| - 1)
    else
      var r := LastIndex(s[..|s| - 1], c);
      assert s == s[..|s| - 1] + [s[|s| - 1]];
      r
  }

  function StripTrailingSlashes(p: string): (r: string)
    ensures |r| <= |p| && r == p[..|r|]
    ensures r == [] || r[|r| - 1] != '/'
    ensures forall i :: |r| <= i < |p| ==> p[i] == '/'
  {
    if p != [] && p[|p| - 1] == '/' then StripTrailingSlashes(p[..|p| - 1]) else p
  }

  /** `path.basename(p)`. */
  function Basename(p: string): (r: string)
    ensures '/' !in r
    ensures r == [] || r[|r| - 1] != '/'
  {
    var q := StripTrailingSlashes(p);
    match LastIndex(q, '/')
    case None => q
    case Some(i) => q[i + 1..]
  }

  /** `path.extname(p)`. */
  function Extname(p: string): (r: string)
    ensures r != [] ==> r[0] == '.' && '.' !in r[1..] && '/' !in r
    ensures r != [] ==> |r| < |Basename(p)| && r == Basename(p)[|Basename(p)| - |r|..]
    ensures '.' !in Basename(p) ==> r == []
  {
    var b := Basename(p);
    match LastIndex(b, '.')
    case None => ""
    case Some(d) => if d == 0 || b == ".." then "" else b[d..]
  }

  /** A stem followed by an extension has that extension, whatever dots
      the stem holds: only the last dot counts. */
  lemma ExtnameOfStemAndExt(stem: string, ext: string)
    requires stem != [] && '/' !in stem && stem + ext != ".."
    requires ext != [] && ext[0] == '.' && '.' !in ext[1..] && '/' !in ext
    ensures Extname(stem + ext) == ext
  {
    var p := stem + ext;
    assert p[|p| - 1] != '/';
    assert StripTrailingSlashes(p) == p;
    assert '/' !in p by {
      forall i | 0 <= i < |p| ensures p[i] != '/' {
        if i >= |stem| { assert p[i] == ext[i - |stem|]; }
      }
    }
    assert Basename(p) == p;
    assert p[|stem|] == '.';
    var d := LastIndex(p, '.');
    assert d == Some(|stem|);
    assert p[|stem|..] == ext;
  }

  /** A dot-file has no extension. */
  lemma DotFileHasNoExtension()
    ensures Extname(".bashrc") == ""
  {
    assert StripTrailingSlashes(".bashrc") == ".bashrc";
    assert LastIndex(".bashrc", '.') == Some(0);
  }

  /** Only the last dot counts. */
  lemma LastDotCounts()
    ensures Extname("a.tar.gz") == ".gz"
  {
    assert StripTrailingSlashes("a.tar.gz") == "a.tar.gz";
    assert LastIndex("a.tar.gz", '/') == None;
    assert LastIndex("a.tar.gz", '.') == Some(5);
    assert "a.tar.gz"[5..] == ".gz";
  }

  /** Lowercasing a slice is slicing the lowercased text. */
  lemma LowerSlice(s: string, i: nat, j: nat)
    requires i <= j <= |s|
    ensures Lower(s[i..j]) == Lower(s)[i..j]
  {
  }

  lemma LowerSuffix(s: string, i: nat)
    requires i <= |s|
    ensures Lower(s[i..]) == Lower(s)[i..]
  {
  }

  /** Lowercasing neither makes nor removes a `.` or a `/`. */
  lemma LowerCharKeepsSeparator(x: char, c: char)
    requires c == '.' || c == '/'
    ensures LowerChar(x) == c <==> x == c
  {
  }

  lemma {:induction false} LastIndexLower(s: string, c: char)
    requires c == '.' || c == '/'
    ensures LastIndex(Lower(s), c) == LastIndex(s, c)
  {
    if s != [] {
      var n := |s| - 1;
      LowerCharKeepsSeparator(s[n], c);
      LowerSlice(s, 0, n);
      LastIndexLower(s[..n], c);
    }
  }

  lemma {:induction false} StripTrailingSlashesLower(p: string)
    ensures StripTrailingSlashes(Lower(p)) == Lower(StripTrailingSlashes(p))
  {
    if p != [] {
      var n := |p| - 1;
      LowerCharKeepsSeparator(p[n], '/');
      LowerSlice(p, 0, n);
      StripTrailingSlashesLower(p[..n]);
    }
  }

  lemma BasenameLower(p: string)
    ensures Basename(Lower(p)) == Lower(Basename(p))
  {
    var q := StripTrailingSlashes(p);
    assert StripTrailingSlashes(Lower(p)) == Lower(q) by { StripTrailingSlashesLower(p); }
    var k := LastIndex(q, '/');
    assert LastIndex(Lower(q), '/') == k by { LastIndexLower(q, '/'); }
    if k.Some? {
      LowerSuffix(q, k.value + 1);
    }
  }

  lemma DotDotLower(b: string)
    ensures Lower(b) == ".." <==> b == ".."
  {
    if |b| == 2 {
      LowerCharKeepsSeparator(b[0], '.');
      LowerCharKeepsSeparator(b[1], '.');
      assert Lower(b) == [LowerChar(b[0]), LowerChar(b[1])];
    }
  }

  /** `path.extname` does not care about case: the extension of the
      lowercased path is the lowercased extension. */
  lemma ExtnameLower(p: string)
    ensures Extname(Lower(p)) == Lower(Extname(p))
  {
    var b := Basename(p);
    var lb := Lower(b);
    BasenameLower(p);
    var k := LastIndex(b, '.');
    LastIndexLower(b, '.');
    DotDotLower(b);
    if k.Some? && k.value != 0 && b != ".." {
      LowerSuffix(b, k.value);
      assert Extname(Lower(p)) == lb[k.value..];
    } else {
      assert Extname(Lower(p)) == "" && Extname(p) == "";
    }
  }
}
