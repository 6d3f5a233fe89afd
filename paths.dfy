/**
 * File paths as the tool builds them with `URL(fileURLWithPath:)`:
 * `lastPathComponent`, `deletingLastPathComponent()`, `appendingPathComponent(_:)`
 * and `deletingPathExtension()`, over plain '/'-separated text.
 */
module Paths {
  import opened Wrappers
  import opened Strings

  /** `lastPathComponent`: the text after the last '/'. */
  function LastComponent(p: string): string {
    Last(Split(p, "/"))
  }

  /** `deletingLastPathComponent().path`: everything before the last '/', or "/" at the root. */
  function Parent(p: string): string {
    var parts := Split(p, "/");
    if |parts| <= 2 then "/" else Join(parts[..|parts| - 1], "/")
  }

  /** Text without the separator holds no '/'. */
  lemma NoSlash(s: string)
    requires !Contains(s, "/")
    ensures '/' !in s
  {
    if '/' in s {
      var i :| 0 <= i < |s| && s[i] == '/';
      assert StartsWith(s[i..], "/");
    }
  }

  /** `appendingPathComponent(c).path`. */
  function Append(dir: string, c: string): string {
    if EndsWith(dir, "/") then dir + c else dir + "/" + c
  }

  /** Appending a component to an absolute folder keeps the path absolute and without a
      trailing '/'. */
  lemma AppendKeepsForm(dir: string, name: string)
    requires StartsWith(dir, "/") && !EndsWith(dir, "/") && name != [] && '/' !in name
    ensures var p := Append(dir, name);
      StartsWith(p, "/") && !EndsWith(p, "/")
  {
    var p := Append(dir, name);
    assert p == dir + "/" + name;
    assert p[..1] == dir[..1];
    assert p[|p| - 1..] == name[|name| - 1..];
    assert name[|name| - 1] in name;
  }

  /** A standardized absolute path: '/' followed by one or more non-empty components. */
  predicate IsFilePath(p: string) {
    var parts := Split(p, "/");
    StartsWith(p, "/") && |parts| >= 2 && forall k | 1 <= k < |parts| :: parts[k] != []
  }

  /** Index of the last occurrence of `c` in `s`. */
  function LastIndexOf(s: string, c: char): (r: Option<nat>)
    ensures r.Some? ==> r.value < |s| && s[r.value] == c && c !in s[r.value + 1..]
    ensures r.None? ==> c !in s
    decreases |s|
  {
    if s == [] then None
    else if s[|s| - 1] == c then Some(|s| - 1)
    else
      var r := LastIndexOf(s[..|s| - 1], c);
      assert s == s[..|s| - 1] + [s[|s| - 1]];
      r
  }

  /** `deletingPathExtension().lastPathComponent` of a file name: drops the text from its last
      '.', unless that dot starts the name or ends it. */
  function DeletingExtension(name: string): string {
    match LastIndexOf(name, '.')
    case Some(i) => if 0 < i < |name| - 1 then name[..i] else name
    case None => name
  }

  lemma JoinSnoc(parts: seq<string>, x: string, sep: string)
    requires parts != []
    ensures Join(parts + [x], sep) == Join(parts, sep) + sep + x
    decreases |parts|
  {
    if |parts| > 1 {
      assert (parts + [x])[1..] == parts[1..] + [x];
      JoinSnoc(parts[1..], x, sep);
    }
  }

  /** With a one-character separator, splitting around one occurrence splits each side. */
  lemma {:induction false} SplitAround(a: string, b: string, c: char)
    ensures Split(a + [c] + b, [c]) == Split(a, [c]) + Split(b, [c])
    decreases |a|
  {
    var s := a + [c] + b;
    if a == [] {
      assert s[..1] == [c] && s[1..] == b;
    } else {
      assert s[..1] == [a[0]];
      assert s[1..] == a[1..] + [c] + b;
      SplitAround(a[1..], b, c);
      if a[0] == c {
        assert a[1..] == a[|[c]|..];
      } else {
        assert [a[0]] + a[1..] == a;
      }
    }
  }

  /** Appending a name without '/' to a directory: the name is the last component and the
      directory is the parent. */
  lemma {:induction false} AppendComponent(dir: string, name: string)
    requires StartsWith(dir, "/") && !EndsWith(dir, "/") && '/' !in name
    ensures LastComponent(Append(dir, name)) == name
    ensures Parent(Append(dir, name)) == dir
  {
    var parts := Split(dir, "/");
    SplitAround(dir, name, '/');
    SplitWhole(name, "/");
    assert Split(Append(dir, name), "/") == parts + [name];
    assert |parts| >= 2 by {
      assert dir == "/" + dir[1..];
      SplitAfter("", dir[1..], "/");
    }
    assert (parts + [name])[..|parts|] == parts;
    JoinSplit(dir, "/");
  }

  /** A file path is its parent with its last component appended. */
  lemma {:induction false} ParentAppendLast(p: string)
    requires IsFilePath(p)
    ensures Append(Parent(p), LastComponent(p)) == p
  {
    var parts := Split(p, "/");
    assert p == "/" + p[1..];
    SplitAfter("", p[1..], "/");
    assert |parts| >= 2;
    JoinSplit(p, "/");
    if |parts| == 2 {
      assert p == "" + "/" + parts[1];
    } else {
      var init := parts[..|parts| - 1];
      assert init + [Last(parts)] == parts;
      JoinSnoc(init, Last(parts), "/");
      assert !EndsWith(Join(init, "/"), "/") by {
        var x := Last(init);
        JoinEndsWithLast(init, "/");
        SplitPartsFree(p, "/");
        assert x == parts[|parts| - 2];
        assert x != [] && !Contains(x, "/");
        assert !StartsWith(x[|x| - 1..], "/");
      }
    }
  }

  lemma JoinEndsWithLast(parts: seq<string>, sep: string)
    requires parts != []
    ensures EndsWith(Join(parts, sep), Last(parts))
    decreases |parts|
  {
    if |parts| > 1 {
      JoinEndsWithLast(parts[1..], sep);
      assert Last(parts[1..]) == Last(parts);
    }
  }
}
