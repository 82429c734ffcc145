/**
 * The two string operations the scaffolder relies on: strings.Split with a
 * one-character separator, and filepath.Join.
 */
module Strings {
  /** How many times c occurs in s. */
  function Count(s: string, c: char): nat
  {
    if s == [] then 0 else (if s[0] == c then 1 else 0) + Count(s[1..], c)
  }

  /** strings.Split(s, sep): the pieces between separators, empty pieces included. */
  function Split(s: string, sep: char): (parts: seq<string>)
    ensures |parts| == Count(s, sep) + 1
    ensures forall i :: 0 <= i < |parts| ==> sep !in parts[i]
  {
    if s == [] then
      [""]
    else
      var rest := Split(s[1..], sep);
      if s[0] == sep then [""] + rest else [[s[0]] + rest[0]] + rest[1..]
  }

  /** strings.Join(parts, sep): the pieces with sep between neighbours. */
  function JoinWith(parts: seq<string>, sep: char): string
  {
    if parts == [] then ""
    else if |parts| == 1 then parts[0]
    else parts[0] + [sep] + JoinWith(parts[1..], sep)
  }

  /** Splitting loses nothing: joining the pieces back gives the original string. */
  lemma {:induction false} JoinSplit(s: string, sep: char)
    ensures JoinWith(Split(s, sep), sep) == s
  {
    if s != [] {
      JoinSplit(s[1..], sep);
      var rest := Split(s[1..], sep);
      if s[0] == sep {
        assert Split(s, sep) == [""] + rest;
        assert ([""] + rest)[1..] == rest;
      } else {
        var parts := [[s[0]] + rest[0]] + rest[1..];
        assert Split(s, sep) == parts;
        if |rest| == 1 {
          assert JoinWith(parts, sep) == [s[0]] + rest[0];
        } else {
          assert parts[1..] == rest[1..];
          assert JoinWith(parts, sep) == [s[0]] + rest[0] + [sep] + JoinWith(rest[1..], sep);
        }
      }
    }
  }

  /** A string without the separator splits into itself alone. */
  lemma {:induction false} SplitWithoutSeparator(s: string, sep: char)
    requires sep !in s
    ensures Split(s, sep) == [s]
  {
    if s != [] {
      assert s[0] != sep && sep !in s[1..];
      SplitWithoutSeparator(s[1..], sep);
      assert [s[0]] + s[1..] == s;
    }
  }

  /** Two separator-free strings joined by one separator split back into exactly those two. */
  lemma {:induction false} SplitPair(a: string, b: string, sep: char)
    requires sep !in a && sep !in b
    ensures Split(a + [sep] + b, sep) == [a, b]
  {
    var s := a + [sep] + b;
    if a == [] {
      assert s[1..] == b;
      SplitWithoutSeparator(b, sep);
    } else {
      assert s[1..] == a[1..] + [sep] + b;
      assert sep !in a[1..];
      SplitPair(a[1..], b, sep);
      assert [a[0]] + a[1..] == a;
    }
  }

  /** A string splits into exactly two pieces when it holds the separator exactly once; the pieces then rebuild it. */
  lemma SplitInTwo(s: string, sep: char)
    ensures |Split(s, sep)| == 2 <==> Count(s, sep) == 1
    ensures |Split(s, sep)| == 2 ==>
      var parts := Split(s, sep);
      s == parts[0] + [sep] + parts[1] && sep !in parts[0] && sep !in parts[1]
  {
    JoinSplit(s, sep);
    var parts := Split(s, sep);
    if |parts| == 2 {
      assert parts[1..] == [parts[1]];
    }
  }

  /**
   * filepath.Join: the non-empty elements separated by '/', and "" when every
   * element is empty. (The path cleaning filepath.Join also does is not modelled.)
   */
  function Join(elems: seq<string>): string
  {
    if elems == [] then
      ""
    else
      var init, last := Join(elems[..|elems| - 1]), elems[|elems| - 1];
      if last == "" then init else if init == "" then last else init + "/" + last
  }

  /** The joined path is empty exactly when every element is. */
  lemma {:induction false} JoinEmpty(elems: seq<string>)
    ensures Join(elems) == "" <==> forall i :: 0 <= i < |elems| ==> elems[i] == ""
  {
    if elems != [] {
      var init := elems[..|elems| - 1];
      JoinEmpty(init);
      assert forall i :: 0 <= i < |elems| - 1 ==> init[i] == elems[i];
    }
  }

  /** Joining one more element: a separator appears exactly when both sides are non-empty. */
  lemma JoinSnoc(elems: seq<string>, last: string)
    ensures Join(elems + [last]) ==
      if last == "" then Join(elems)
      else if Join(elems) == "" then last
      else Join(elems) + "/" + last
  {
    assert (elems + [last])[..|elems|] == elems;
  }

  /** Two non-empty elements are joined by one separator. */
  lemma JoinTwo(a: string, b: string)
    requires a != "" && b != ""
    ensures Join([a, b]) == a + "/" + b
  {
    JoinSnoc([], a);
    assert [] + [a] == [a];
    JoinSnoc([a], b);
    assert [a] + [b] == [a, b];
  }

  /** The root root/src/pkg is never empty, and is root + "/src/" + pkg when neither is empty. */
  lemma JoinSrc(root: string, pkg: string)
    ensures Join([root, "src", pkg]) != ""
    ensures root != "" && pkg != "" ==> Join([root, "src", pkg]) == root + "/src/" + pkg
  {
    JoinSnoc([], root);
    assert [] + [root] == [root];
    JoinSnoc([root], "src");
    assert [root] + ["src"] == [root, "src"];
    JoinSnoc([root, "src"], pkg);
    assert [root, "src"] + [pkg] == [root, "src", pkg];
    assert root + "/" + "src" + "/" + pkg == root + "/src/" + pkg;
  }

  /** A path under root/src/pkg: a last element is appended with a separator unless it is empty. */
  lemma JoinUnderSrc(root: string, pkg: string, last: string)
    ensures Join([root, "src", pkg]) != ""
    ensures Join([root, "src", pkg, last]) ==
      if last == "" then Join([root, "src", pkg]) else Join([root, "src", pkg]) + "/" + last
  {
    JoinSrc(root, pkg);
    JoinSnoc([root, "src", pkg], last);
    assert [root, "src", pkg] + [last] == [root, "src", pkg, last];
  }
}
