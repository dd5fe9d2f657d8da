/**
 Paths as text: joining names with slashes, cutting a text at its last slash, stripping leading
 slashes, and normalising. A name may itself hold slashes; once joined, nothing tells them apart.
 */
module Slashes {

  // ---- joining ----

  /** Python's `"/".join(parts)`. */
  function Join(parts: seq<string>): string {
    if parts == [] then "" else if |parts| == 1 then parts[0] else parts[0] + "/" + Join(parts[1..])
  }

  lemma {:induction false} JoinAppends(above: seq<string>, name: string)
    requires above != []
    ensures Join(above + [name]) == Join(above) + "/" + name
  {
    var all := above + [name];
    assert all[1..] == above[1..] + [name];
    if |above| == 1 {
      assert Join(above[1..] + [name]) == name;
    } else {
      JoinAppends(above[1..], name);
      assert above[0] + "/" + (Join(above[1..]) + "/" + name) == (above[0] + "/" + Join(above[1..])) + "/" + name;
    }
  }

  // ---- cutting ----

  /** Python's `s.rpartition("/")`, without the separator. */
  function RPartition(s: string): (string, string) {
    if s == "" then ("", "")
    else if s[|s| - 1] == '/' then (s[..|s| - 1], "")
    else
      var rest := RPartition(s[..|s| - 1]);
      (rest.0, rest.1 + [s[|s| - 1]])
  }

  lemma {:induction false} PartitionShrinks(s: string)
    ensures |RPartition(s).0| <= |s|
    ensures '/' in s ==> |RPartition(s).0| < |s|
  {
    if s != "" && s[|s| - 1] != '/' {
      PartitionShrinks(s[..|s| - 1]);
      assert s == s[..|s| - 1] + [s[|s| - 1]];
    }
  }

  lemma {:induction false} PartitionAtLastSlash(head: string, tail: string)
    requires '/' !in tail
    ensures RPartition(head + "/" + tail) == (head, tail)
    decreases |tail|
  {
    var s := head + "/" + tail;
    if tail == "" {
      assert s[..|s| - 1] == head;
    } else {
      var rest := tail[..|tail| - 1];
      PartitionAtLastSlash(head, rest);
      assert s[..|s| - 1] == head + "/" + rest;
      assert tail == rest + [s[|s| - 1]];
    }
  }

  lemma {:induction false} PartitionParts(s: string)
    requires '/' in s
    ensures s == RPartition(s).0 + "/" + RPartition(s).1 && '/' !in RPartition(s).1
  {
    var init := s[..|s| - 1];
    assert s == init + [s[|s| - 1]];
    if s[|s| - 1] != '/' {
      PartitionParts(init);
    }
  }

  /** `p` is cut from `k` at one of its slashes. */
  predicate IsBelow(k: string, p: string) {
    p + "/" <= k
  }

  lemma BelowIsTransitive(k: string, q: string, p: string)
    requires IsBelow(k, q) && IsBelow(q, p)
    ensures IsBelow(k, p)
  {
    assert k[..|p| + 1] == q[..|p| + 1];
  }

  /** Of what can be cut from a text, cutting at its last slash leaves the longest. */
  lemma CutIsLongest(k: string, p: string)
    requires IsBelow(k, p)
    ensures '/' in k && IsBelow(k, RPartition(k).0) && |p| <= |RPartition(k).0|
    ensures |p| == |RPartition(k).0| <==> p == RPartition(k).0
  {
    assert k[|p|] == '/';
    PartitionParts(k);
    var head, tail := RPartition(k).0, RPartition(k).1;
    assert forall i :: 0 <= i < |tail| ==> k[|head| + 1 + i] == tail[i] && tail[i] != '/';
    assert p == k[..|p|] && head == k[..|head|];
  }

  // ---- stripping ----

  /** Python's `s.lstrip("/")`. */
  function LStrip(s: string): string {
    if s != "" && s[0] == '/' then LStrip(s[1..]) else s
  }

  /** Nothing but slashes. */
  predicate IsBlank(s: string) {
    LStrip(s) == ""
  }

  lemma {:induction false} StripKeepsTheRest(s: string, rest: string)
    requires !IsBlank(s)
    ensures LStrip(s + rest) == LStrip(s) + rest
  {
    if s[0] == '/' {
      StripKeepsTheRest(s[1..], rest);
      assert (s + rest)[1..] == s[1..] + rest;
    }
  }

  /** A path whose first name is not slashes alone is not either. */
  lemma FirstNameKeeps(parts: seq<string>)
    requires parts != [] && !IsBlank(parts[0])
    ensures !IsBlank(Join(parts))
  {
    if |parts| > 1 {
      StripKeepsTheRest(parts[0], "/" + Join(parts[1..]));
      assert Join(parts) == parts[0] + ("/" + Join(parts[1..]));
    }
  }

  // ---- normalising ----

  /** Normalising acts on what lies between slashes. */
  function FoldText(fold: string -> string, s: string): string
    decreases |s|
  {
    if '/' in s then
      PartitionShrinks(s);
      FoldText(fold, RPartition(s).0) + "/" + fold(RPartition(s).1)
    else fold(s)
  }

  lemma {:induction false} FoldJoins(fold: string -> string, a: string, b: string)
    ensures FoldText(fold, a + "/" + b) == FoldText(fold, a) + "/" + FoldText(fold, b)
    decreases |b|
  {
    if '/' in b {
      PartitionShrinks(b);
      PartitionParts(b);
      var head, tail := RPartition(b).0, RPartition(b).1;
      FoldJoins(fold, a, head);
      assert a + "/" + b == (a + "/" + head) + "/" + tail;
      PartitionAtLastSlash(a + "/" + head, tail);
      assert (a + "/" + b)[|a|] == '/';
      assert FoldText(fold, a + "/" + b) == (FoldText(fold, a) + "/" + FoldText(fold, head)) + "/" + fold(tail);
    } else {
      PartitionAtLastSlash(a, b);
      assert (a + "/" + b)[|a|] == '/';
    }
  }

  /** Normalising a name neither empties it nor puts a slash into it. */
  ghost predicate KeepsNames(fold: string -> string) {
    forall s :: '/' !in s ==> '/' !in fold(s) && (fold(s) == "" <==> s == "")
  }

  /** The text that two paths are compared by. */
  function ComparisonKey(fold: string -> string, path: string): string {
    "/" + FoldText(fold, LStrip(path))
  }

  /** A child's key lies below its folder's, unless the folder's path is slashes alone. */
  lemma ChildKey(fold: string -> string, above: seq<string>, name: string)
    requires above != [] && !IsBlank(Join(above))
    ensures ComparisonKey(fold, Join(above + [name]))
      == ComparisonKey(fold, Join(above)) + "/" + FoldText(fold, name)
  {
    var path := Join(above);
    JoinAppends(above, name);
    assert path + "/" + name == path + ("/" + name);
    StripKeepsTheRest(path, "/" + name);
    assert LStrip(path) + ("/" + name) == LStrip(path) + "/" + name;
    FoldJoins(fold, LStrip(path), name);
    assert "/" + (FoldText(fold, LStrip(path)) + "/" + FoldText(fold, name))
      == ("/" + FoldText(fold, LStrip(path))) + "/" + FoldText(fold, name);
  }

  // ---- the paths Dropbox uses ----

  /** Components that are nonempty and without a slash. */
  predicate Plain(p: seq<string>) {
    forall i :: 0 <= i < |p| ==> p[i] != "" && '/' !in p[i]
  }

  /** A path as the tables hold it: a slash before every component, nothing for the root. */
  function Text(p: seq<string>): string {
    if p == [] then "" else Text(p[..|p| - 1]) + "/" + p[|p| - 1]
  }

  /** Each component normalised. */
  function Folded(fold: string -> string, p: seq<string>): (r: seq<string>)
    ensures |r| == |p| && forall i :: 0 <= i < |p| ==> r[i] == fold(p[i])
  {
    seq(|p|, i requires 0 <= i < |p| => fold(p[i]))
  }

  lemma FoldedIsPlain(fold: string -> string, p: seq<string>)
    requires KeepsNames(fold) && Plain(p)
    ensures Plain(Folded(fold, p))
  {}

  lemma {:induction false} TextStarts(p: seq<string>)
    requires p != [] && Plain(p)
    ensures |Text(p)| > 1 && Text(p)[0] == '/' && Text(p)[1] == p[0][0] && Text(p)[1] != '/'
    ensures LStrip(Text(p)) == Text(p)[1..]
  {
    var head, tail := p[..|p| - 1], p[|p| - 1];
    if head != [] {
      TextStarts(head);
    } else {
      assert p[0][0] in p[0];
    }
  }

  lemma {:induction false} FoldOfText(fold: string -> string, p: seq<string>)
    requires p != [] && Plain(p)
    ensures "/" + FoldText(fold, Text(p)[1..]) == Text(Folded(fold, p))
  {
    var head, tail := p[..|p| - 1], p[|p| - 1];
    TextStarts(p);
    assert Folded(fold, p)[..|p| - 1] == Folded(fold, head);
    if head == [] {
      assert Text(p)[1..] == tail && Folded(fold, head) == [];
    } else {
      TextStarts(head);
      FoldOfText(fold, head);
      assert Text(p)[1..] == Text(head)[1..] + "/" + tail;
      FoldJoins(fold, Text(head)[1..], tail);
      assert "/" + (FoldText(fold, Text(head)[1..]) + "/" + fold(tail))
        == ("/" + FoldText(fold, Text(head)[1..])) + "/" + fold(tail);
    }
  }

  /** A display path is compared by its normalised components. */
  lemma KeyOfText(fold: string -> string, p: seq<string>)
    requires p != [] && Plain(p)
    ensures ComparisonKey(fold, Text(p)) == Text(Folded(fold, p))
  {
    TextStarts(p);
    FoldOfText(fold, p);
  }

  /** What can be cut from a path's text is the text of the path's beginning. */
  lemma {:induction false} CutOfText(p: seq<string>, q: string)
    requires Plain(p) && IsBelow(Text(p), q)
    ensures exists n: nat :: n < |p| && q == Text(p[..n])
  {
    var head, tail := p[..|p| - 1], p[|p| - 1];
    PartitionAtLastSlash(Text(head), tail);
    CutIsLongest(Text(p), q);
    if |q| == |Text(head)| {
      assert q == Text(p[..|p| - 1]);
    } else {
      assert Text(p)[..|q| + 1] == Text(head)[..|q| + 1];
      CutOfText(head, q);
      var n: nat :| n < |head| && q == Text(head[..n]);
      assert head[..n] == p[..n];
    }
  }

  /** What can be cut from a display path's key is the key of the path's beginning. */
  lemma CutOfKey(fold: string -> string, p: seq<string>, q: string) returns (n: nat)
    requires KeepsNames(fold) && p != [] && Plain(p) && IsBelow(ComparisonKey(fold, Text(p)), q) && q != ""
    ensures 0 < n < |p| && q == ComparisonKey(fold, Text(p[..n]))
  {
    var folded := Folded(fold, p);
    KeyOfText(fold, p);
    FoldedIsPlain(fold, p);
    CutOfText(folded, q);
    n :| n < |folded| && q == Text(folded[..n]);
    FoldedUpTo(fold, p, n);
    KeyOfText(fold, p[..n]);
  }

  lemma FoldedUpTo(fold: string -> string, p: seq<string>, n: nat)
    requires n <= |p|
    ensures Folded(fold, p)[..n] == Folded(fold, p[..n])
  {}
}
