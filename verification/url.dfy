/** The workspace path read off a workspace URL. */
module WorkspaceUrl {
  import opened Wrappers

  /** The segments of s between separators; one more than there are separators. */
  function Split(s: string, sep: char): (parts: seq<string>)
    ensures |parts| >= 1
    decreases |s|
  {
    if s == [] then [""]
    else
      var rest := Split(s[1..], sep);
      if s[0] == sep then [""] + rest else [[s[0]] + rest[0]] + rest[1..]
  }

  function Join(parts: seq<string>, sep: char): string
    requires parts != []
  {
    if |parts| == 1 then parts[0] else parts[0] + [sep] + Join(parts[1..], sep)
  }

  function Count(s: string, c: char): nat {
    if s == [] then 0 else (if s[0] == c then 1 else 0) + Count(s[1..], c)
  }

  /** Split loses nothing: joining the segments gives the string back. */
  lemma {:induction false} JoinSplit(s: string, sep: char)
    ensures Join(Split(s, sep), sep) == s
  {
    if s != [] {
      JoinSplit(s[1..], sep);
      var rest := Split(s[1..], sep);
      assert s == [s[0]] + s[1..];
      if s[0] == sep {
        JoinCons("", rest, sep);
      } else if |rest| > 1 {
        assert [rest[0]] + rest[1..] == rest;
        hide Split;
        JoinCons(rest[0], rest[1..], sep);
        JoinCons([s[0]] + rest[0], rest[1..], sep);
        assert [s[0]] + (rest[0] + [sep] + Join(rest[1..], sep)) == [s[0]] + rest[0] + [sep] + Join(rest[1..], sep);
      }
    }
  }

  lemma JoinCons(part: string, rest: seq<string>, sep: char)
    requires rest != []
    ensures Join([part] + rest, sep) == part + [sep] + Join(rest, sep)
  {
    assert ([part] + rest)[1..] == rest;
  }

  /** No segment holds a separator, and there is one more segment than there are separators. */
  lemma {:induction false} SplitSegments(s: string, sep: char)
    ensures |Split(s, sep)| == Count(s, sep) + 1
    ensures forall i :: 0 <= i < |Split(s, sep)| ==> sep !in Split(s, sep)[i]
  {
    if s != [] {
      SplitSegments(s[1..], sep);
    }
  }

  /** Splitting a concatenation at a separator-free tail. */
  lemma {:induction false} SplitLast(s: string, t: string, sep: char)
    requires sep !in t
    ensures Split(s + [sep] + t, sep) == Split(s, sep) + [t]
    decreases |s|
  {
    if s == [] {
      SplitSingle(t, sep);
      assert (s + [sep] + t)[1..] == t;
    } else {
      SplitLast(s[1..], t, sep);
      assert (s + [sep] + t)[1..] == s[1..] + [sep] + t;
      var rest := Split(s[1..], sep);
      assert (rest + [t])[1..] == rest[1..] + [t];
    }
  }

  lemma {:induction false} SplitSingle(t: string, sep: char)
    requires sep !in t
    ensures Split(t, sep) == [t]
  {
    if t != [] {
      SplitSingle(t[1..], sep);
      assert t == [t[0]] + t[1..];
    }
  }

  /** White space as the Unicode property that Go's TrimSpace drops. */
  predicate IsSpace(c: char) {
    || '\t' <= c <= '\r' || c == ' ' || c == '\U{0085}' || c == '\U{00A0}' || c == '\U{1680}'
    || '\U{2000}' <= c <= '\U{200A}' || c == '\U{2028}' || c == '\U{2029}'
    || c == '\U{202F}' || c == '\U{205F}' || c == '\U{3000}'
  }

  function TrimLeft(s: string): string {
    if s != [] && IsSpace(s[0]) then TrimLeft(s[1..]) else s
  }

  function TrimRight(s: string): string {
    if s != [] && IsSpace(s[|s| - 1]) then TrimRight(s[..|s| - 1]) else s
  }

  function TrimSpace(s: string): string {
    TrimRight(TrimLeft(s))
  }

  predicate Blank(s: string) {
    forall i :: 0 <= i < |s| ==> IsSpace(s[i])
  }

  lemma {:induction false} TrimLeftEmpty(s: string)
    ensures TrimLeft(s) == "" <==> Blank(s)
    ensures TrimLeft(s) != "" ==> !IsSpace(TrimLeft(s)[0])
  {
    if s != [] && IsSpace(s[0]) {
      TrimLeftEmpty(s[1..]);
      assert Blank(s) <==> Blank(s[1..]) by {
        assert forall i :: 0 < i < |s| ==> s[i] == s[1..][i - 1];
      }
    }
  }

  lemma {:induction false} TrimRightEmpty(s: string)
    ensures TrimRight(s) == "" <==> Blank(s)
  {
    if s != [] && IsSpace(s[|s| - 1]) {
      TrimRightEmpty(s[..|s| - 1]);
    }
  }

  lemma TrimSpaceEmpty(s: string)
    ensures TrimSpace(s) == "" <==> Blank(s)
  {
    TrimLeftEmpty(s);
    TrimRightEmpty(TrimLeft(s));
  }

  /** The code points of white space, of which there are 25. */
  lemma SpaceCodePoints(c: char)
    ensures IsSpace(c) <==>
              (c as int) in {0x09, 0x0A, 0x0B, 0x0C, 0x0D, 0x20, 0x85, 0xA0, 0x1680, 0x2000, 0x2001, 0x2002, 0x2003,
                             0x2004, 0x2005, 0x2006, 0x2007, 0x2008, 0x2009, 0x200A, 0x2028, 0x2029, 0x202F, 0x205F,
                             0x3000}
  {
  }

  lemma {:induction false} TrimLeftExactly(s: string) returns (i: nat)
    ensures i <= |s| && TrimLeft(s) == s[i..] && Blank(s[..i]) && (i < |s| ==> !IsSpace(s[i]))
  {
    i := 0;
    if s != [] && IsSpace(s[0]) {
      var j := TrimLeftExactly(s[1..]);
      i := j + 1;
      assert s[1..][j..] == s[i..] && s[..i] == [s[0]] + s[1..][..j];
    }
  }

  lemma {:induction false} TrimRightExactly(s: string) returns (j: nat)
    ensures j <= |s| && TrimRight(s) == s[..j] && Blank(s[j..]) && (j > 0 ==> !IsSpace(s[j - 1]))
  {
    j := |s|;
    if s != [] && IsSpace(s[|s| - 1]) {
      j := TrimRightExactly(s[..|s| - 1]);
      assert s[..|s| - 1][..j] == s[..j] && s[j..] == s[..|s| - 1][j..] + [s[|s| - 1]];
    }
  }

  /** Trimming takes white space off both ends, all there is and nothing else. */
  lemma TrimSpaceExactly(s: string) returns (i: nat, j: nat)
    ensures i <= j <= |s| && TrimSpace(s) == s[i..j] && Blank(s[..i]) && Blank(s[j..])
    ensures i < j ==> !IsSpace(s[i]) && !IsSpace(s[j - 1])
  {
    i := TrimLeftExactly(s);
    var n := TrimRightExactly(s[i..]);
    j := i + n;
    assert s[i..][..n] == s[i..j] && s[i..][n..] == s[j..];
  }

  function LastOf(parts: seq<string>): string
    requires parts != []
  {
    parts[|parts| - 1]
  }

  /** The path of a workspace: the last segment of its URL, which must have two slashes and a
      last segment that is not blank. */
  function WorkspacePath(url: string): Option<string> {
    var parts := Split(url, '/');
    if |parts| < 3 || TrimSpace(LastOf(parts)) == "" then None else Some(LastOf(parts))
  }

  lemma {:induction false} JoinLast(parts: seq<string>, sep: char)
    requires |parts| > 1
    ensures Join(parts, sep) == Join(parts[..|parts| - 1], sep) + [sep] + parts[|parts| - 1]
  {
    if |parts| > 2 {
      JoinLast(parts[1..], sep);
      var init := parts[..|parts| - 1];
      assert init[1..] == parts[1..][..|parts| - 2];
    }
  }

  predicate EndsWithSegment(url: string, p: string) {
    |p| < |url| && url == url[..|url| - |p| - 1] + "/" + p
  }

  lemma LastSegment(url: string)
    requires Count(url, '/') >= 1
    ensures '/' !in LastOf(Split(url, '/')) && EndsWithSegment(url, LastOf(Split(url, '/')))
  {
    JoinSplit(url, '/');
    SplitSegments(url, '/');
    var parts := Split(url, '/');
    var last := parts[|parts| - 1];
    JoinLast(parts, '/');
    var init := Join(parts[..|parts| - 1], '/');
    assert url == init + "/" + last;
    assert url[..|url| - |last| - 1] == init;
  }

  lemma SegmentIsLast(url: string, p: string)
    requires '/' !in p && EndsWithSegment(url, p)
    ensures LastOf(Split(url, '/')) == p
  {
    SplitLast(url[..|url| - |p| - 1], p, '/');
    assert url == url[..|url| - |p| - 1] + ['/'] + p;
  }

  /** Success is exactly two slashes and a last segment that is not blank; the path is then the
      slash-free rest of the URL after its last slash. */
  lemma WorkspacePathExactly(url: string, p: string)
    ensures WorkspacePath(url) == Some(p) <==>
              Count(url, '/') >= 2 && '/' !in p && !Blank(p) && EndsWithSegment(url, p)
  {
    var last := LastOf(Split(url, '/'));
    assert |Split(url, '/')| == Count(url, '/') + 1 by { SplitSegments(url, '/'); }
    TrimSpaceEmpty(last);
    if Count(url, '/') >= 2 {
      assert '/' !in last && EndsWithSegment(url, last) by { LastSegment(url); }
      if '/' !in p && EndsWithSegment(url, p) {
        SegmentIsLast(url, p);
      }
    }
  }

  /** Every non-blank slash-free path comes back from the URL that kcp builds for it. */
  lemma WorkspacePathRoundTrip(base: string, path: string)
    requires '/' !in path && !Blank(path)
    ensures WorkspacePath(base + "/clusters/" + path) == Some(path)
  {
    assert base + "/clusters/" + path == (base + "/clusters") + "/" + path;
    SplitLast(base + "/clusters", path, '/');
    assert base + "/clusters" == base + "/" + "clusters";
    SplitLast(base, "clusters", '/');
    TrimSpaceEmpty(path);
  }

  /** The index of the first separator at or after from, or |s|. */
  method IndexFrom(s: string, sep: char, from: nat) returns (i: nat)
    requires from <= |s|
    ensures from <= i <= |s|
    ensures sep !in s[from..i]
    ensures i < |s| ==> s[i] == sep
  {
    i := from;
    while i < |s| && s[i] != sep
      invariant from <= i <= |s|
      invariant sep !in s[from..i]
    {
      assert s[from..i + 1] == s[from..i] + [s[i]];
      i := i + 1;
    }
  }

  /** The loop that splits: cut at each separator in turn. */
  method SplitLoop(s: string, sep: char) returns (parts: seq<string>)
    ensures parts == Split(s, sep)
  {
    parts := [];
    var start := 0;
    var done := false;
    while !done
      invariant 0 <= start <= |s|
      invariant !done ==> Split(s, sep) == parts + Split(s[start..], sep)
      invariant done ==> Split(s, sep) == parts
      decreases !done, |s| - start
    {
      var i := IndexFrom(s, sep, start);
      var seg := s[start..i];
      if i == |s| {
        assert seg == s[start..];
        SplitSingle(seg, sep);
        parts := parts + [seg];
        done := true;
      } else {
        CutSegment(s, sep, start, i);
        assert parts + ([seg] + Split(s[i + 1..], sep)) == (parts + [seg]) + Split(s[i + 1..], sep);
        parts := parts + [seg];
        start := i + 1;
      }
    }
  }

  lemma {:induction false} SplitFirst(seg: string, t: string, sep: char)
    requires sep !in seg
    ensures Split(seg + [sep] + t, sep) == [seg] + Split(t, sep)
  {
    if seg == [] {
      assert (seg + [sep] + t)[1..] == t;
    } else {
      SplitFirst(seg[1..], t, sep);
      assert (seg + [sep] + t)[1..] == seg[1..] + [sep] + t;
      assert seg == [seg[0]] + seg[1..];
    }
  }

  lemma CutSegment(s: string, sep: char, start: nat, i: nat)
    requires start <= i < |s| && s[i] == sep && sep !in s[start..i]
    ensures Split(s[start..], sep) == [s[start..i]] + Split(s[i + 1..], sep)
  {
    SplitFirst(s[start..i], s[i + 1..], sep);
    assert s[start..] == s[start..i] + [sep] + s[i + 1..];
  }

  /** The three refusals of the source, in its order, then the last segment and the URL. */
  method RetrieveWorkspacePath(url: string) returns (r: Option<(string, string)>)
    ensures r == match WorkspacePath(url) case Some(p) => Some((p, url)) case None => None
  {
    if url == "" {
      return None;
    }
    var split := SplitLoop(url, '/');
    if |split| < 3 {
      return None;
    }
    var lastSegment := split[|split| - 1];
    TrimSpaceEmpty(lastSegment);
    if lastSegment == "" || TrimSpace(lastSegment) == "" {
      return None;
    }
    return Some((lastSegment, url));
  }
}
