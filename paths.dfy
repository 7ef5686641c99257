/** Go's `path` package (slash-separated paths) and the `strings` helpers the core uses. */
module Paths {

  predicate HasPrefix(s: string, p: string)
  {
    |p| <= |s| && s[..|p|] == p
  }

  predicate HasSuffix(s: string, x: string)
  {
    |x| <= |s| && s[|s| - |x|..] == x
  }

  predicate EndsWithSlash(s: string)
  {
    |s| > 0 && s[|s| - 1] == '/'
  }

  /** A single path element: non-empty and without a separator. */
  predicate Plain(name: string)
  {
    name != "" && '/' !in name
  }

  /** No two consecutive slashes. */
  predicate NoDoubleSlash(s: string)
  {
    forall i :: 0 < i < |s| ==> !(s[i - 1] == '/' && s[i] == '/')
  }

  /** Replaces every run of slashes by one slash. */
  function Collapse(s: string): (r: string)
    ensures |r| <= |s|
    decreases |s|
  {
    if |s| == 0 then s
    else if |s| >= 2 && s[|s| - 1] == '/' && s[|s| - 2] == '/' then Collapse(s[..|s| - 1])
    else Collapse(s[..|s| - 1]) + [s[|s| - 1]]
  }

  /** `path.Clean`, without the elimination of `.` and `..` elements. */
  function Clean(p: string): string
  {
    if p == "" then "."
    else
      var c := Collapse(p);
      if |c| > 1 && EndsWithSlash(c) then c[..|c| - 1] else c
  }

  /** `path.Join(a, b)`: the non-empty arguments joined by a slash, then cleaned. */
  function Join(a: string, b: string): string
  {
    if a == "" && b == "" then ""
    else if a == "" then Clean(b)
    else if b == "" then Clean(a)
    else Clean(a + "/" + b)
  }

  function TrimTrailingSlashes(s: string): (r: string)
    decreases |s|
  {
    if EndsWithSlash(s) then TrimTrailingSlashes(s[..|s| - 1]) else s
  }

  function AfterLastSlash(s: string): string
    decreases |s|
  {
    if s == "" then "" else if EndsWithSlash(s) then "" else AfterLastSlash(s[..|s| - 1]) + [s[|s| - 1]]
  }

  function UpToLastSlash(s: string): string
    decreases |s|
  {
    if s == "" || EndsWithSlash(s) then s else UpToLastSlash(s[..|s| - 1])
  }

  /** `path.Base`: the last element, trailing slashes ignored. */
  function Base(p: string): string
  {
    if p == "" then "."
    else
      var q := TrimTrailingSlashes(p);
      if q == "" then "/" else AfterLastSlash(q)
  }

  /** `path.Dir`: everything up to the last slash, cleaned. */
  function Dir(p: string): string
  {
    Clean(UpToLastSlash(p))
  }

  /** What `Join(dir, name)` puts in front of a plain name. */
  function DirPrefix(dir: string): string
  {
    if dir == "" then "" else Collapse(dir + "/")
  }

  lemma {:induction false} CollapseLast(s: string)
    requires |s| > 0
    ensures |Collapse(s)| > 0 && Collapse(s)[|Collapse(s)| - 1] == s[|s| - 1]
    decreases |s|
  {
    if |s| >= 2 && s[|s| - 1] == '/' && s[|s| - 2] == '/' {
      CollapseLast(s[..|s| - 1]);
    }
  }

  /** Appending a separator-free text commutes with collapsing. */
  lemma {:induction false} CollapseAppend(a: string, x: string)
    requires '/' !in x
    ensures Collapse(a + x) == Collapse(a) + x
    decreases |x|
  {
    if x == "" {
      assert a + x == a;
    } else {
      var y := x[..|x| - 1];
      assert (a + x)[..|a + x| - 1] == a + y;
      assert x[|x| - 1] in x;
      CollapseAppend(a, y);
      assert x == y + [x[|x| - 1]];
    }
  }

  lemma {:induction false} CollapseNoDoubleSlash(s: string)
    ensures NoDoubleSlash(Collapse(s))
    decreases |s|
  {
    if |s| > 0 {
      var init := s[..|s| - 1];
      CollapseNoDoubleSlash(init);
      if !(|s| >= 2 && s[|s| - 1] == '/' && s[|s| - 2] == '/') && |init| > 0 {
        CollapseLast(init);
      }
    }
  }

  lemma {:induction false} CollapseFixed(s: string)
    requires NoDoubleSlash(s)
    ensures Collapse(s) == s
    decreases |s|
  {
    if |s| > 0 {
      var init := s[..|s| - 1];
      var last := s[|s| - 1];
      assert NoDoubleSlash(init) by {
        forall i | 0 < i < |init| ensures !(init[i - 1] == '/' && init[i] == '/') {
          assert init[i - 1] == s[i - 1] && init[i] == s[i];
        }
      }
      CollapseFixed(init);
      if |s| >= 2 {
        var k := |s| - 1;
        assert !(s[k - 1] == '/' && s[k] == '/');
      }
      assert Collapse(s) == Collapse(init) + [last];
      assert s == init + [last];
    }
  }

  /** Collapsing twice is collapsing once. */
  lemma CollapseIdempotent(s: string)
    ensures Collapse(Collapse(s)) == Collapse(s)
  {
    CollapseNoDoubleSlash(s);
    CollapseFixed(Collapse(s));
  }

  lemma DirPrefixShape(dir: string)
    ensures DirPrefix(dir) == "" || EndsWithSlash(DirPrefix(dir))
    ensures DirPrefix(dir) == Collapse(DirPrefix(dir))
  {
    if dir != "" {
      CollapseLast(dir + "/");
      CollapseIdempotent(dir + "/");
    }
  }

  /** Joining a directory and a plain name keeps the name intact at the end. */
  lemma JoinPlain(dir: string, name: string)
    requires Plain(name)
    ensures Join(dir, name) == DirPrefix(dir) + name
    ensures Clean(Join(dir, name)) == Join(dir, name)
  {
    var d := DirPrefix(dir);
    DirPrefixShape(dir);
    if dir == "" {
      CollapseAppend("", name);
      assert "" + name == name;
    } else {
      assert dir + "/" + name == (dir + "/") + name;
      CollapseAppend(dir + "/", name);
    }
    assert name[|name| - 1] in name;
    assert Join(dir, name) == d + name;
    CollapseAppend(d, name);
  }

  lemma {:induction false} AfterLastSlashAppend(d: string, y: string)
    requires d == "" || EndsWithSlash(d)
    requires '/' !in y
    ensures AfterLastSlash(d + y) == y
    decreases |y|
  {
    if y == "" {
      assert d + y == d;
    } else {
      var init := y[..|y| - 1];
      assert (d + y)[..|d + y| - 1] == d + init;
      assert y[|y| - 1] in y;
      AfterLastSlashAppend(d, init);
      assert y == init + [y[|y| - 1]];
    }
  }

  /** The base of `<directory>/<plain name>` is the name. */
  lemma BaseAfterDirectory(d: string, y: string)
    requires d == "" || EndsWithSlash(d)
    requires Plain(y)
    ensures Base(d + y) == y
  {
    assert (d + y)[|d + y| - 1] == y[|y| - 1] && y[|y| - 1] in y;
    AfterLastSlashAppend(d, y);
  }

  /** `path.Base(path.Join(dir, name)) == name` for a plain name, also after an
      extension is appended to both. */
  lemma BaseOfJoin(dir: string, name: string, ext: string)
    requires Plain(name) && '/' !in ext
    ensures Base(Join(dir, name) + ext) == name + ext
  {
    JoinPlain(dir, name);
    DirPrefixShape(dir);
    assert Join(dir, name) + ext == DirPrefix(dir) + (name + ext);
    BaseAfterDirectory(DirPrefix(dir), name + ext);
  }

  /** `unicode.IsSpace`. */
  predicate IsSpace(c: char)
  {
    c == ' ' || c == '\t' || c == '\n' || c == '\r' || c == '\U{000B}' || c == '\U{000C}'
    || c == '\U{0085}' || c == '\U{00A0}' || c == '\U{1680}'
    || ('\U{2000}' <= c <= '\U{200A}') || c == '\U{2028}' || c == '\U{2029}'
    || c == '\U{202F}' || c == '\U{205F}' || c == '\U{3000}'
  }

  predicate Word(w: string)
  {
    w != "" && forall i :: 0 <= i < |w| ==> !IsSpace(w[i])
  }

  /** Length of the run of non-space characters at the start of `s`. */
  function WordLength(s: string): (n: nat)
    requires s != "" && !IsSpace(s[0])
    ensures 1 <= n <= |s| && Word(s[..n]) && (n == |s| || IsSpace(s[n]))
  {
    if |s| == 1 || IsSpace(s[1]) then 1
    else
      var n := 1 + WordLength(s[1..]);
      assert s[..n] == [s[0]] + s[1..][..n - 1];
      n
  }

  /** `strings.Fields`: the maximal runs of non-space characters, in order. */
  function Fields(s: string): (r: seq<string>)
    ensures forall i :: 0 <= i < |r| ==> Word(r[i])
    decreases |s|
  {
    if s == "" then []
    else if IsSpace(s[0]) then Fields(s[1..])
    else
      var n := WordLength(s);
      [s[..n]] + Fields(s[n..])
  }

  /** `strings.Join(words, " ")`. */
  function Unwords(words: seq<string>): string
  {
    if words == [] then ""
    else if |words| == 1 then words[0]
    else words[0] + " " + Unwords(words[1..])
  }

  lemma {:induction false} WordLengthOfWord(w: string, rest: string)
    requires Word(w)
    requires rest == "" || IsSpace(rest[0])
    ensures WordLength(w + rest) == |w|
    decreases |w|
  {
    if |w| > 1 {
      assert (w + rest)[1..] == w[1..] + rest;
      WordLengthOfWord(w[1..], rest);
    }
  }

  /** Splitting words joined by single spaces gives the words back. */
  lemma {:induction false} FieldsUnwords(words: seq<string>)
    requires forall i :: 0 <= i < |words| ==> Word(words[i])
    ensures Fields(Unwords(words)) == words
    decreases |words|
  {
    if words != [] {
      var w := words[0];
      var rest := if |words| == 1 then "" else " " + Unwords(words[1..]);
      assert Unwords(words) == w + rest;
      WordLengthOfWord(w, rest);
      assert (w + rest)[..|w|] == w && (w + rest)[|w|..] == rest;
      if |words| > 1 {
        assert rest[1..] == Unwords(words[1..]);
        FieldsUnwords(words[1..]);
      }
    }
  }
}
