/**
 Proton CLI paths. A component is escaped so that a slash or backslash inside a name can
 never be read as a separator; a path is split at its last separator that is not escaped.
 */
module CliPath {
  import opened Common
  import opened Slashes

  // ---- escaping ----

  /** Python's `s.replace(c, to)` for a one-character pattern. */
  function Replace(s: string, c: char, to: string): string {
    if s == "" then "" else (if s[0] == c then to else [s[0]]) + Replace(s[1..], c, to)
  }

  /** The two passes: backslashes first, then slashes. */
  function EscapeComponent(name: string): string {
    Replace(Replace(name, '\\', "\\\\"), '/', "\\/")
  }

  function EscapeChar(c: char): string {
    if c == '\\' then "\\\\" else if c == '/' then "\\/" else [c]
  }

  /** The reference: one pass over the name, each character on its own. */
  function Escape(s: string): string {
    if s == "" then "" else EscapeChar(s[0]) + Escape(s[1..])
  }

  lemma ReplaceConcat(a: string, b: string, c: char, to: string)
    ensures Replace(a + b, c, to) == Replace(a, c, to) + Replace(b, c, to)
  {
    if a == "" {
      assert a + b == b;
    } else {
      assert (a + b)[1..] == a[1..] + b;
      ReplaceConcat(a[1..], b, c, to);
    }
  }

  /** The second pass never touches a backslash the first one wrote. */
  lemma {:induction false} TwoPassesAreOne(name: string)
    ensures EscapeComponent(name) == Escape(name)
  {
    if name != "" {
      var first := if name[0] == '\\' then "\\\\" else [name[0]];
      ReplaceConcat(first, Replace(name[1..], '\\', "\\\\"), '/', "\\/");
      if name[0] == '\\' {
        assert first[1..] == "\\" && first[1..][1..] == "";
      } else {
        assert first[1..] == "";
      }
      assert Replace(first, '/', "\\/") == EscapeChar(name[0]);
      TwoPassesAreOne(name[1..]);
    }
  }

  // ---- splitting ----

  /** The number of backslashes at the end of `s`. */
  function TrailingBackslashes(s: string): nat {
    if s == "" || s[|s| - 1] != '\\' then 0 else 1 + TrailingBackslashes(s[..|s| - 1])
  }

  /** A slash that separates two components: not the first character, and not escaped. */
  predicate Separates(path: string, i: int) {
    0 < i < |path| && path[i] == '/' && TrailingBackslashes(path[..i]) % 2 == 0
  }

  ghost predicate IsLastSeparator(path: string, i: int) {
    Separates(path, i) && forall j :: i < j < |path| ==> !Separates(path, j)
  }

  /** Splits at the last separator; a path without one, or with nothing after it, raises. */
  method SplitParentPath(path: string) returns (r: Option<(string, string)>)
    ensures r.Some? <==> exists i :: IsLastSeparator(path, i) && i + 1 < |path|
    ensures r.Some? ==> exists i :: IsLastSeparator(path, i) && r.value == (path[..i], path[i + 1..])
  {
    var index := |path| - 1;
    while 0 < index
      invariant index < |path|
      invariant forall j :: index < j < |path| ==> !Separates(path, j)
    {
      if path[index] == '/' {
        var precedingBackslashes := 0;
        var cursor := index - 1;
        while 0 <= cursor && path[cursor] == '\\'
          invariant -1 <= cursor < index
          invariant TrailingBackslashes(path[..index])
                 == precedingBackslashes + TrailingBackslashes(path[..cursor + 1])
        {
          assert path[..cursor + 1][..cursor] == path[..cursor];
          precedingBackslashes := precedingBackslashes + 1;
          cursor := cursor - 1;
        }
        if precedingBackslashes % 2 == 0 {
          assert IsLastSeparator(path, index);
          var parent, component := path[..index], path[index + 1..];
          if parent != "" && component != "" {
            return Some((parent, component));
          }
          return None;
        }
      }
      index := index - 1;
    }
    r := None;
  }

  // ---- building ----

  function StripTrailingSlashes(path: string): string {
    if path != "" && path[|path| - 1] == '/' then StripTrailingSlashes(path[..|path| - 1]) else path
  }

  function ChildCliPath(parent: string, name: string, uid: string, duplicate: bool): string {
    StripTrailingSlashes(parent) + "/" + if duplicate then uid else EscapeComponent(name)
  }

  function EscapeAll(parts: seq<string>): (r: seq<string>)
    ensures |r| == |parts| && forall i :: 0 <= i < |parts| ==> r[i] == EscapeComponent(parts[i])
  {
    seq(|parts|, i requires 0 <= i < |parts| => EscapeComponent(parts[i]))
  }

  /** The CLI path of the folder a file lands in; `parts` are the components above the file. */
  function ParentCliPath(destination: string, parts: seq<string>): string {
    if parts == [] then StripTrailingSlashes(destination)
    else StripTrailingSlashes(destination) + "/" + Join(EscapeAll(parts))
  }

  // ---- the round trip ----

  lemma OneMoreBackslash(s: string)
    ensures TrailingBackslashes(s + "\\") == 1 + TrailingBackslashes(s)
  {
    assert (s + "\\")[..|s|] == s;
  }

  lemma CodesEndEven(before: string, c: char)
    requires TrailingBackslashes(before) % 2 == 0
    ensures TrailingBackslashes(before + EscapeChar(c)) % 2 == 0
  {
    if c == '\\' {
      OneMoreBackslash(before);
      OneMoreBackslash(before + "\\");
      assert before + EscapeChar(c) == (before + "\\") + "\\";
    }
  }

  lemma SlashInCode(before: string, c: char, j: nat)
    requires TrailingBackslashes(before) % 2 == 0
    requires |before| <= j < |before + EscapeChar(c)| && (before + EscapeChar(c))[j] == '/'
    ensures TrailingBackslashes((before + EscapeChar(c))[..j]) % 2 == 1
  {
    assert (before + EscapeChar(c))[j] == EscapeChar(c)[j - |before|];
    assert c == '/' && j == |before| + 1;
    assert (before + EscapeChar(c))[..j] == before + "\\";
    OneMoreBackslash(before);
  }

  lemma EscapedSlashesAreOdd(before: string, s: string, j: nat)
    requires TrailingBackslashes(before) % 2 == 0
    requires |before| <= j < |before + Escape(s)| && (before + Escape(s))[j] == '/'
    ensures TrailingBackslashes((before + Escape(s))[..j]) % 2 == 1
    decreases |s|
  {
    var whole := before + Escape(s);
    var code := EscapeChar(s[0]);
    var next := before + code;
    assert whole == next + Escape(s[1..]);
    CodesEndEven(before, s[0]);
    if j < |next| {
      SlashInCode(before, s[0], j);
      assert whole[..j] == next[..j];
    } else {
      EscapedSlashesAreOdd(next, s[1..], j);
    }
  }

  /** What a child path splits back into. */
  ghost predicate SplitsInto(path: string, parent: string, component: string) {
    exists i :: IsLastSeparator(path, i) && path[..i] == parent && path[i + 1..] == component && component != ""
  }

  lemma EscapeKeepsNonempty(s: string)
    ensures s != "" ==> Escape(s) != ""
  {}

  lemma NoSeparatorAfter(parent: string, name: string, j: int)
    requires |parent| < j < |parent + "/" + Escape(name)|
    ensures !Separates(parent + "/" + Escape(name), j)
  {
    var head := parent + "/";
    assert head[|head| - 1] == '/';
    if (head + Escape(name))[j] == '/' {
      EscapedSlashesAreOdd(head, name, j);
    }
  }

  lemma RoundTripHolds(parent: string, name: string, uid: string)
    requires name != ""
    requires parent != "" && parent[|parent| - 1] != '/' && TrailingBackslashes(parent) % 2 == 0
    ensures SplitsInto(ChildCliPath(parent, name, uid, false), parent, EscapeComponent(name))
  {
    TwoPassesAreOne(name);
    EscapeKeepsNonempty(name);
    var path := parent + "/" + Escape(name);
    var i := |parent|;
    assert IsLastSeparator(path, i) by {
      assert path[..i] == parent;
      forall j | i < j < |path| ensures !Separates(path, j) {
        NoSeparatorAfter(parent, name, j);
      }
    }
    assert path[..i] == parent && path[i + 1..] == Escape(name);
  }

  lemma RoundTripNeeds(parent: string, name: string, uid: string)
    requires SplitsInto(ChildCliPath(parent, name, uid, false), parent, EscapeComponent(name))
    ensures parent != "" && parent[|parent| - 1] != '/' && TrailingBackslashes(parent) % 2 == 0
  {
    var component := EscapeComponent(name);
    var path := ChildCliPath(parent, name, uid, false);
    var i :| IsLastSeparator(path, i) && path[..i] == parent && path[i + 1..] == component;
    assert i == |parent| == |StripTrailingSlashes(parent)| by {
      assert |path| == |StripTrailingSlashes(parent)| + 1 + |component|;
      assert |path[..i]| == i && |path[i + 1..]| == |path| - i - 1;
    }
    StripShortens(parent);
  }

  /**
   Splitting a child path gives back the parent and the escaped name exactly when the parent
   is not empty, does not end in a slash (escaped or not) and does not end in an odd run of
   backslashes.
   */
  lemma RoundTrip(parent: string, name: string, uid: string)
    requires name != ""
    ensures SplitsInto(ChildCliPath(parent, name, uid, false), parent, EscapeComponent(name))
       <==> (parent != "" && parent[|parent| - 1] != '/' && TrailingBackslashes(parent) % 2 == 0)
  {
    if SplitsInto(ChildCliPath(parent, name, uid, false), parent, EscapeComponent(name)) {
      RoundTripNeeds(parent, name, uid);
    } else if parent != "" && parent[|parent| - 1] != '/' && TrailingBackslashes(parent) % 2 == 0 {
      RoundTripHolds(parent, name, uid);
    }
  }

  lemma StripShortens(path: string)
    ensures |StripTrailingSlashes(path)| <= |path|
    ensures StripTrailingSlashes(path) == path <==> path == "" || path[|path| - 1] != '/'
    ensures StripTrailingSlashes(path) != path ==> |StripTrailingSlashes(path)| < |path|
  {}

  // ---- injectivity ----

  /** A folder's path below the destination, each component led by its separator. */
  function Led(parts: seq<string>): string {
    if parts == [] then "" else "/" + Escape(parts[0]) + Led(parts[1..])
  }

  lemma JoinIsLed(parts: seq<string>)
    requires parts != []
    ensures "/" + Join(EscapeAll(parts)) == Led(parts)
  {
    TwoPassesAreOne(parts[0]);
    assert EscapeAll(parts)[1..] == EscapeAll(parts[1..]);
    if |parts| > 1 {
      JoinIsLed(parts[1..]);
      assert "/" + Join(EscapeAll(parts)) == "/" + Escape(parts[0]) + ("/" + Join(EscapeAll(parts[1..])));
    }
  }

  lemma FirstOfEscape(s: string, rest: string)
    requires s != ""
    ensures |EscapeChar(s[0])| <= |Escape(s) + rest|
    ensures (Escape(s) + rest)[..|EscapeChar(s[0])|] == EscapeChar(s[0])
    ensures (Escape(s) + rest)[0] != '/'
    ensures (Escape(s) + rest)[|EscapeChar(s[0])|..] == Escape(s[1..]) + rest
  {
    assert Escape(s) + rest == EscapeChar(s[0]) + (Escape(s[1..]) + rest);
  }

  lemma SameFirst(c: char, d: char, whole: string)
    requires |EscapeChar(c)| <= |whole| && whole[..|EscapeChar(c)|] == EscapeChar(c)
    requires |EscapeChar(d)| <= |whole| && whole[..|EscapeChar(d)|] == EscapeChar(d)
    ensures c == d
  {
    assert whole[0] == EscapeChar(c)[0] == EscapeChar(d)[0];
    if |EscapeChar(c)| == 2 && |EscapeChar(d)| == 2 {
      assert whole[1] == EscapeChar(c)[1] == EscapeChar(d)[1];
    }
  }

  /** An escaped name ends where the next separator begins, so it is read in one way only. */
  lemma EscapeIsPrefixFree(s: string, t: string, restS: string, restT: string)
    requires Escape(s) + restS == Escape(t) + restT
    requires restS == "" || restS[0] == '/'
    requires restT == "" || restT[0] == '/'
    ensures s == t && restS == restT
    decreases |s| + |t|
  {
    var whole := Escape(s) + restS;
    if s == "" && t == "" {
      assert whole == restS && Escape(t) + restT == restT;
    } else if s == "" {
      assert whole == restS;
      FirstOfEscape(t, restT);
    } else if t == "" {
      assert whole == restT;
      FirstOfEscape(s, restS);
    } else {
      FirstOfEscape(s, restS);
      FirstOfEscape(t, restT);
      SameFirst(s[0], t[0], whole);
      EscapeIsPrefixFree(s[1..], t[1..], restS, restT);
    }
  }

  lemma FirstOfLed(parts: seq<string>)
    requires parts != []
    ensures Led(parts) != "" && Led(parts)[0] == '/'
    ensures Led(parts)[1..] == Escape(parts[0]) + Led(parts[1..])
  {
    assert Led(parts) == "/" + (Escape(parts[0]) + Led(parts[1..]));
  }

  lemma LedIsInjective(a: seq<string>, b: seq<string>)
    requires Led(a) == Led(b)
    ensures a == b
  {
    if a != [] && b != [] {
      FirstOfLed(a);
      FirstOfLed(b);
      EscapeIsPrefixFree(a[0], b[0], Led(a[1..]), Led(b[1..]));
      LedIsInjective(a[1..], b[1..]);
      assert a == [a[0]] + a[1..] && b == [b[0]] + b[1..];
    }
  }

  /** Two different folders never share a CLI path, whatever characters their names hold. */
  lemma ParentPathsAreInjective(destination: string, a: seq<string>, b: seq<string>)
    requires ParentCliPath(destination, a) == ParentCliPath(destination, b)
    ensures a == b
  {
    var base := StripTrailingSlashes(destination);
    if a != [] {
      JoinIsLed(a);
      assert ParentCliPath(destination, a) == base + Led(a);
    }
    if b != [] {
      JoinIsLed(b);
      assert ParentCliPath(destination, b) == base + Led(b);
    }
    assert (base + Led(a))[|base|..] == Led(a) && (base + Led(b))[|base|..] == Led(b);
    LedIsInjective(a, b);
  }
}
