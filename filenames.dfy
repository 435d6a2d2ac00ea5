/** The name under which the server stores an uploaded file: the generated id,
    a dash, and the original name with `replace(/\s+/g, '_')` applied. */
module Filenames {

  /** The characters the regular-expression class `\s` matches (ECMAScript
      WhiteSpace and LineTerminator). */
  const SpaceChars: string :=
    "\t\n\U{000B}\U{000C}\r \U{00A0}\U{1680}"
    + "\U{2000}\U{2001}\U{2002}\U{2003}\U{2004}\U{2005}\U{2006}\U{2007}\U{2008}\U{2009}\U{200A}"
    + "\U{2028}\U{2029}\U{202F}\U{205F}\U{3000}\U{FEFF}"

  /** `\s`: takes in the ASCII blanks, leaves out letters, digits and the
      underscore that replaces a run. */
  predicate IsSpace(ch: char): (b: bool)
    ensures ch == ' ' || '\t' <= ch <= '\r' ==> b
    ensures 'a' <= ch <= 'z' || 'A' <= ch <= 'Z' || '0' <= ch <= '9' || ch == '_' || ch == '-' ==> !b
  {
    ch in SpaceChars
  }

  predicate NoSpace(s: string) {
    forall i :: 0 <= i < |s| ==> !IsSpace(s[i])
  }

  predicate AllSpace(s: string) {
    forall i :: 0 <= i < |s| ==> IsSpace(s[i])
  }

  /** `s` without its leading run of whitespace. */
  function DropSpaces(s: string): (r: string)
    ensures |r| <= |s|
    ensures r == [] || !IsSpace(r[0])
  {
    if s != [] && IsSpace(s[0]) then DropSpaces(s[1..]) else s
  }

  /** Each maximal run of whitespace becomes a single underscore. */
  function Collapse(s: string): (r: string)
    ensures |r| <= |s|
    decreases |s|
  {
    if s == [] then []
    else if IsSpace(s[0]) then "_" + Collapse(DropSpaces(s[1..]))
    else [s[0]] + Collapse(s[1..])
  }

  /** The cleaned name holds no whitespace at all. */
  lemma {:induction false} CollapseHasNoSpace(s: string)
    ensures NoSpace(Collapse(s))
    decreases |s|
  {
    if s != [] {
      if IsSpace(s[0]) {
        CollapseHasNoSpace(DropSpaces(s[1..]));
        assert !IsSpace('_');
      } else {
        CollapseHasNoSpace(s[1..]);
      }
    }
  }

  /** A name without whitespace is kept as it is. */
  lemma {:induction false} CollapseNoSpace(s: string)
    requires NoSpace(s)
    ensures Collapse(s) == s
  {
    if s != [] {
      CollapseNoSpace(s[1..]);
    }
  }

  /** Collapsing twice is collapsing once. */
  lemma CollapseIdempotent(s: string)
    ensures Collapse(Collapse(s)) == Collapse(s)
  {
    CollapseHasNoSpace(s);
    CollapseNoSpace(Collapse(s));
  }

  lemma {:induction false} DropSpacesRun(w: string, b: string)
    requires AllSpace(w)
    requires b == [] || !IsSpace(b[0])
    ensures DropSpaces(w + b) == b
  {
    if w != [] {
      assert (w + b)[1..] == w[1..] + b;
      DropSpacesRun(w[1..], b);
    }
  }

  lemma {:induction false} DropSpacesPrefix(x: string, w: string, b: string)
    requires x != [] && !IsSpace(x[|x| - 1])
    ensures DropSpaces(x + w + b) == DropSpaces(x) + w + b
  {
    if IsSpace(x[0]) {
      SplitHead(x + w, b);
      SplitHead(x, w);
      DropSpacesPrefix(x[1..], w, b);
    }
  }

  /** Unfolding `Collapse` at a leading whitespace character. */
  lemma CollapseAtSpace(s: string)
    requires s != [] && IsSpace(s[0])
    ensures Collapse(s) == "_" + Collapse(DropSpaces(s[1..]))
  {
  }

  /** Unfolding `Collapse` at a leading non-whitespace character. */
  lemma CollapseAtText(s: string)
    requires s != [] && !IsSpace(s[0])
    ensures Collapse(s) == [s[0]] + Collapse(s[1..])
  {
  }

  /** The replacement law: a whitespace run `w` standing between two parts that
      do not touch it with whitespace of their own becomes exactly one `_`, and
      the parts on either side are rewritten independently. */
  lemma {:induction false} CollapseRun(a: string, w: string, b: string)
    requires a == [] || !IsSpace(a[|a| - 1])
    requires w != [] && AllSpace(w)
    requires b == [] || !IsSpace(b[0])
    ensures Collapse(a + w + b) == Collapse(a) + "_" + Collapse(b)
    decreases |a|
  {
    if a == [] {
      CollapseRunAtStart(w, b);
      assert a + w + b == w + b;
    } else if !IsSpace(a[0]) {
      CollapseRunAfterText(a, w, b);
    } else {
      CollapseRunAfterSpace(a, w, b);
    }
  }

  /** The case of `CollapseRun` where `a` is empty. */
  lemma CollapseRunAtStart(w: string, b: string)
    requires w != [] && AllSpace(w)
    requires b == [] || !IsSpace(b[0])
    ensures Collapse(w + b) == "_" + Collapse(b)
  {
    var s := w + b;
    assert s[0] == w[0] && s[1..] == w[1..] + b;
    CollapseAtSpace(s);
    DropSpacesRun(w[1..], b);
  }

  /** The case of `CollapseRun` where `a` starts with a non-whitespace character. */
  lemma {:induction false} CollapseRunAfterText(a: string, w: string, b: string)
    requires a != [] && !IsSpace(a[0]) && !IsSpace(a[|a| - 1])
    requires w != [] && AllSpace(w)
    requires b == [] || !IsSpace(b[0])
    ensures Collapse(a + w + b) == Collapse(a) + "_" + Collapse(b)
    decreases |a|, 0
  {
    var s := a + w + b;
    var x, y := Collapse(a[1..]), Collapse(b);
    assert Collapse(a[1..] + w + b) == x + "_" + y by {
      CollapseRun(a[1..], w, b);
    }
    assert Collapse(s) == [a[0]] + Collapse(a[1..] + w + b) by {
      SplitHead(a + w, b);
      SplitHead(a, w);
      CollapseAtText(s);
    }
    assert Collapse(a) == [a[0]] + x by {
      CollapseAtText(a);
    }
    Regroup([a[0]], x, y);
  }

  /** The head and tail of a concatenation whose left part is not empty. */
  lemma SplitHead(a: string, t: string)
    requires a != []
    ensures (a + t)[0] == a[0] && (a + t)[1..] == a[1..] + t
  {
  }

  /** Moving the parentheses of a concatenation around a single `_`. */
  lemma Regroup(c: string, x: string, y: string)
    ensures c + (x + "_" + y) == (c + x) + "_" + y
  {
  }

  /** Dropping the leading whitespace of a name that ends in a non-whitespace
      character keeps that last character. */
  lemma {:induction false} DropSpacesKeepsLast(x: string)
    requires x != [] && !IsSpace(x[|x| - 1])
    ensures DropSpaces(x) != [] && DropSpaces(x)[|DropSpaces(x)| - 1] == x[|x| - 1]
  {
    if IsSpace(x[0]) {
      DropSpacesKeepsLast(x[1..]);
    }
  }

  /** The case of `CollapseRun` where `a` itself starts with whitespace. */
  lemma {:induction false} CollapseRunAfterSpace(a: string, w: string, b: string)
    requires a != [] && IsSpace(a[0]) && !IsSpace(a[|a| - 1])
    requires w != [] && AllSpace(w)
    requires b == [] || !IsSpace(b[0])
    ensures Collapse(a + w + b) == Collapse(a) + "_" + Collapse(b)
    decreases |a|, 0
  {
    var tail := a[1..];
    var rest := DropSpaces(tail);
    assert Collapse(a) == "_" + Collapse(rest) by {
      CollapseAtSpace(a);
    }
    assert Collapse(a + w + b) == "_" + Collapse(rest + w + b) by {
      SplitHead(a + w, b);
      SplitHead(a, w);
      CollapseAtSpace(a + w + b);
      DropSpacesPrefix(tail, w, b);
    }
    assert Collapse(rest + w + b) == Collapse(rest) + "_" + Collapse(b) by {
      DropSpacesKeepsLast(tail);
      CollapseRun(rest, w, b);
    }
    Regroup("_", Collapse(rest), Collapse(b));
  }

  /** The stored filename: the id, `-`, then the cleaned original name, which
      holds no whitespace. */
  function StoredFilename(fileId: string, originalName: string): (r: string)
    ensures |r| > |fileId| && r[..|fileId| + 1] == fileId + "-"
    ensures r[|fileId| + 1..] == Collapse(originalName)
    ensures NoSpace(r[|fileId| + 1..])
  {
    CollapseHasNoSpace(originalName);
    var r := fileId + "-" + Collapse(originalName);
    assert r[|fileId| + 1..] == Collapse(originalName);
    r
  }
}
