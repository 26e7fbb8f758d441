/**
 * The string operations of JavaScript that the route, menu and tab code
 * relies on: `startsWith`, `split` on a one-character separator, and the
 * path join `${parent}/${path}`.replace(/\/+/g, '/').
 */
module JsText {

  predicate StartsWith(s: string, prefix: string) {
    |prefix| <= |s| && s[..|prefix|] == prefix
  }

  predicate NoDoubleSlash(s: string) {
    forall i :: 0 <= i < |s| - 1 ==> !(s[i] == '/' && s[i + 1] == '/')
  }

  /** The characters of `s` other than '/', in order. */
  function NonSlash(s: string): string {
    if s == [] then [] else (if s[0] == '/' then [] else [s[0]]) + NonSlash(s[1..])
  }

  /** `s.replace(/\/+/g, '/')`: every run of '/' becomes a single '/'. */
  function CollapseSlashes(s: string): (r: string)
    ensures |r| <= |s|
    ensures s != [] ==> r != [] && r[0] == s[0]
  {
    if |s| <= 1 then s
    else if s[0] == '/' && s[1] == '/' then CollapseSlashes(s[1..])
    else [s[0]] + CollapseSlashes(s[1..])
  }

  lemma {:induction false} CollapseNoDoubleSlash(s: string)
    ensures NoDoubleSlash(CollapseSlashes(s))
  {
    if |s| > 1 {
      CollapseNoDoubleSlash(s[1..]);
      var t := CollapseSlashes(s[1..]);
      if !(s[0] == '/' && s[1] == '/') {
        assert t[0] == s[1];
        var r := [s[0]] + t;
        forall i | 0 <= i < |r| - 1 ensures !(r[i] == '/' && r[i + 1] == '/') {
          if i > 0 {
            assert r[i] == t[i - 1] && r[i + 1] == t[i];
          }
        }
      }
    }
  }

  lemma {:induction false} CollapseKeepsNonSlash(s: string)
    ensures NonSlash(CollapseSlashes(s)) == NonSlash(s)
  {
    if |s| > 1 {
      CollapseKeepsNonSlash(s[1..]);
      if s[0] == '/' && s[1] == '/' {
        assert NonSlash(s) == NonSlash(s[1..]);
      } else {
        var t := CollapseSlashes(s[1..]);
        assert ([s[0]] + t)[1..] == t;
      }
    }
  }

  /** A string without "//" is left unchanged, so collapsing is idempotent. */
  lemma {:induction false} CollapseFixesClean(s: string)
    requires NoDoubleSlash(s)
    ensures CollapseSlashes(s) == s
  {
    if |s| > 1 {
      assert !(s[0] == '/' && s[1] == '/');
      CollapseFixesClean(s[1..]);
      assert [s[0]] + s[1..] == s;
    }
  }

  lemma CollapseIdempotent(s: string)
    ensures CollapseSlashes(CollapseSlashes(s)) == CollapseSlashes(s)
  {
    CollapseNoDoubleSlash(s);
    CollapseFixesClean(CollapseSlashes(s));
  }

  /**
   * The full path of a route: an absolute `path` is kept, a relative one is
   * appended to the parent's full path with runs of '/' collapsed.
   */
  function JoinPath(parentPath: string, path: string): (r: string)
    ensures r != ""
    ensures StartsWith(path, "/") ==> r == path
    ensures !StartsWith(path, "/") ==>
              NoDoubleSlash(r) && NonSlash(r) == NonSlash(parentPath) + NonSlash(path)
  {
    if StartsWith(path, "/") then path
    else
      CollapseNoDoubleSlash(parentPath + "/" + path);
      CollapseKeepsNonSlash(parentPath + "/" + path);
      NonSlashConcat(parentPath, "/" + path);
      assert NonSlash("/" + path) == NonSlash(path) by {
        assert ("/" + path)[1..] == path;
      }
      assert parentPath + "/" + path == parentPath + ("/" + path);
      CollapseSlashes(parentPath + "/" + path)
  }

  lemma {:induction false} NonSlashConcat(a: string, b: string)
    ensures NonSlash(a + b) == NonSlash(a) + NonSlash(b)
  {
    if a != [] {
      assert (a + b)[1..] == a[1..] + b;
      NonSlashConcat(a[1..], b);
    } else {
      assert a + b == b;
    }
  }

  /** `parts.join(sep)`. */
  function Join(parts: seq<string>, sep: char): string {
    if |parts| == 0 then ""
    else if |parts| == 1 then parts[0]
    else Join(parts[..|parts| - 1], sep) + [sep] + parts[|parts| - 1]
  }

  /**
   * The parts so far followed by one more character: a separator opens a new
   * empty part, any other character extends the last part; the parts before
   * the last stay as they are.
   */
  function AppendChar(parts: seq<string>, c: char, sep: char): (r: seq<string>)
    requires |parts| >= 1
    ensures |r| >= 1
  {
    if c == sep then parts + [""] else parts[..|parts| - 1] + [parts[|parts| - 1] + [c]]
  }

  /**
   * `s.split(sep)` for a one-character separator: never empty (the empty
   * string splits into one empty part), no part contains `sep`, and joining
   * the parts back gives `s`.
   */
  function Split(s: string, sep: char): (parts: seq<string>)
    ensures |parts| >= 1
  {
    if s == [] then [""] else AppendChar(Split(s[..|s| - 1], sep), s[|s| - 1], sep)
  }

  /** No part of `s.split(sep)` holds the separator. */
  lemma {:induction false} SplitNoSep(s: string, sep: char)
    ensures forall k :: 0 <= k < |Split(s, sep)| ==> sep !in Split(s, sep)[k]
  {
    if s != [] {
      var pre, c := s[..|s| - 1], s[|s| - 1];
      SplitNoSep(pre, sep);
      var pp := Split(pre, sep);
      var r := AppendChar(pp, c, sep);
      assert forall k :: 0 <= k < |r| - 1 ==> r[k] == pp[k];
    }
  }

  /** Appending one character either starts a new part or extends the last one. */
  lemma SplitSnoc(s: string, c: char, sep: char)
    ensures Split(s + [c], sep) == AppendChar(Split(s, sep), c, sep)
  {
    assert (s + [c])[..|s + [c]| - 1] == s;
  }

  lemma {:induction false} SplitJoin(s: string, sep: char)
    ensures Join(Split(s, sep), sep) == s
  {
    if s != [] {
      var pre, last := s[..|s| - 1], s[|s| - 1];
      var init := Split(pre, sep);
      SplitJoin(pre, sep);
      var parts := Split(s, sep);
      assert parts == AppendChar(init, last, sep);
      assert s == pre + [last];
      if last == sep {
        assert parts[..|parts| - 1] == init;
      } else if |init| == 1 {
        assert parts == [init[0] + [last]];
      } else {
        assert parts[..|parts| - 1] == init[..|init| - 1];
        assert Join(init, sep) == Join(init[..|init| - 1], sep) + [sep] + init[|init| - 1];
      }
    }
  }

  /** The text of `s` before the first `sep`, or all of `s` when it has none. */
  function Before(s: string, sep: char): (r: string)
    ensures sep !in r
    ensures |r| <= |s| && r == s[..|r|]
    ensures |r| < |s| ==> s[|r|] == sep
  {
    if s == [] then ""
    else if s[0] == sep then ""
    else [s[0]] + Before(s[1..], sep)
  }

  /** `s.split(sep)[0]` is the text before the first separator. */
  lemma {:induction false} SplitFirst(s: string, sep: char)
    ensures Split(s, sep)[0] == Before(s, sep)
  {
    if s != [] {
      var pre := s[..|s| - 1];
      SplitFirst(pre, sep);
      var init := Split(pre, sep);
      SplitSnoc(pre, s[|s| - 1], sep);
      var r := Split(s, sep);
      assert s == pre + [s[|s| - 1]];
      assert r[0] == if s[|s| - 1] != sep && |init| == 1 then init[0] + [s[|s| - 1]] else init[0];
      if |init| == 1 {
        // `pre` holds no separator, so `Before` runs to its end
        assert sep !in pre by {
          assert init == [pre] by { SplitJoin(pre, sep); }
        }
        BeforeNoSep(pre, sep);
        BeforeSnoc(pre, s[|s| - 1], sep);
        assert s == pre + [s[|s| - 1]];
      } else {
        assert sep in pre by {
          SplitJoin(pre, sep);
          JoinHasSep(init, sep);
        }
        BeforeExtend(pre, s[|s| - 1], sep);
        assert s == pre + [s[|s| - 1]];
      }
    }
  }

  lemma {:induction false} BeforeNoSep(s: string, sep: char)
    requires sep !in s
    ensures Before(s, sep) == s
  {
    if s != [] {
      assert sep !in s[1..];
      BeforeNoSep(s[1..], sep);
    }
  }

  lemma {:induction false} BeforeSnoc(s: string, c: char, sep: char)
    requires sep !in s
    ensures Before(s + [c], sep) == if c == sep then s else s + [c]
  {
    if s == [] {
      assert [c][1..] == [];
    } else {
      assert (s + [c])[1..] == s[1..] + [c];
      assert sep !in s[1..];
      BeforeSnoc(s[1..], c, sep);
    }
  }

  lemma {:induction false} BeforeExtend(s: string, c: char, sep: char)
    requires sep in s
    ensures Before(s + [c], sep) == Before(s, sep)
  {
    if s[0] != sep {
      assert (s + [c])[1..] == s[1..] + [c];
      BeforeExtend(s[1..], c, sep);
    }
  }

  lemma {:induction false} JoinHasSep(parts: seq<string>, sep: char)
    requires |parts| >= 2
    ensures sep in Join(parts, sep)
  {
    var j := Join(parts[..|parts| - 1], sep);
    assert (j + [sep] + parts[|parts| - 1])[|j|] == sep;
  }

  /** A string splits into one part exactly when it has no separator. */
  lemma SplitSingle(s: string, sep: char)
    ensures |Split(s, sep)| == 1 <==> sep !in s
  {
    var parts := Split(s, sep);
    SplitJoin(s, sep);
    if |parts| >= 2 {
      JoinHasSep(parts, sep);
    }
  }

  /** Appending a character after a list of parts that ends in `ys` only touches `ys`. */
  lemma AppendCharConcat(xs: seq<string>, ys: seq<string>, c: char, sep: char)
    requires |ys| >= 1
    ensures AppendChar(xs + ys, c, sep) == xs + AppendChar(ys, c, sep)
  {
    var zs := xs + ys;
    if c == sep {
      assert zs + [""] == xs + (ys + [""]);
    } else {
      assert zs[..|zs| - 1] == xs + ys[..|ys| - 1];
      assert zs[|zs| - 1] == ys[|ys| - 1];
    }
  }

  /** Splitting at a separator placed between two strings splits each side on its own. */
  lemma {:induction false} SplitConcat(a: string, b: string, sep: char)
    ensures Split(a + [sep] + b, sep) == Split(a, sep) + Split(b, sep)
  {
    if b == [] {
      assert a + [sep] + b == a + [sep];
      SplitSnoc(a, sep, sep);
    } else {
      var pre, c := b[..|b| - 1], b[|b| - 1];
      var w := a + [sep] + pre;
      assert a + [sep] + b == w + [c];
      assert b == pre + [c];
      SplitConcat(a, pre, sep);
      SplitSnoc(w, c, sep);
      SplitSnoc(pre, c, sep);
      AppendCharConcat(Split(a, sep), Split(pre, sep), c, sep);
    }
  }

  /** `s.split(sep).pop()` */
  function LastPart(s: string, sep: char): string {
    var parts := Split(s, sep);
    parts[|parts| - 1]
  }

  lemma LastPartSnoc(s: string, c: char, sep: char)
    ensures LastPart(s + [c], sep) == if c == sep then "" else LastPart(s, sep) + [c]
  {
    SplitSnoc(s, c, sep);
  }

  /** The last part holds no separator, nor any character `s` lacks. */
  lemma LastPartAbsent(s: string, sep: char, c: char)
    requires c !in s
    ensures sep !in LastPart(s, sep) && c !in LastPart(s, sep)
  {
    SplitNoSep(s, sep);
    SplitKeepsAbsent(s, sep, c);
  }

  /** The last part of `s.split(sep)` is the text after the last separator, or all of `s` when it has none. */
  lemma {:induction false} SplitLast(s: string, sep: char)
    ensures var l := LastPart(s, sep);
      |l| <= |s| && s[|s| - |l|..] == l && (|l| < |s| ==> s[|s| - |l| - 1] == sep)
  {
    if s != [] {
      var pre, c := s[..|s| - 1], s[|s| - 1];
      var lp := LastPart(pre, sep);
      SplitLast(pre, sep);
      assert s == pre + [c];
      LastPartSnoc(pre, c, sep);
      if c == sep {
        assert LastPart(s, sep) == "";
      } else {
        var l := lp + [c];
        assert LastPart(s, sep) == l;
        assert s[|s| - |l|..] == pre[|pre| - |lp|..] + [c];
        if |l| < |s| {
          assert s[|s| - |l| - 1] == pre[|pre| - |lp| - 1];
        }
      }
    }
  }

  /** A character that `s` does not hold is in none of its parts. */
  lemma {:induction false} SplitKeepsAbsent(s: string, sep: char, c: char)
    requires c !in s
    ensures forall k :: 0 <= k < |Split(s, sep)| ==> c !in Split(s, sep)[k]
  {
    if s != [] {
      var pre := s[..|s| - 1];
      assert s == pre + [s[|s| - 1]];
      assert c !in pre;
      SplitKeepsAbsent(pre, sep, c);
    }
  }
}
