/**
 * Route paths: `clean` (pkg/app/web/handler.go), Go's `strings.Split(path, "/")`
 * and the `{name}` placeholders that `parse` extracts from a route path.
 */
module Paths {
  import opened Wrappers

  /** `strings.Contains(s, "//")`. */
  predicate HasDoubleSlash(s: string) {
    |s| >= 2 && ((s[0] == '/' && s[1] == '/') || HasDoubleSlash(s[1..]))
  }

  /** A string without a separator contains no "//". */
  lemma {:induction false} NoSlashNoPair(s: string)
    requires '/' !in s
    ensures !HasDoubleSlash(s)
    decreases |s|
  {
    if |s| >= 2 {
      assert s[1..][0] == s[1];
      NoSlashNoPair(s[1..]);
    }
  }

  /** Joining two strings without "//" makes one only where a "/" meets a "/". */
  lemma {:induction false} NoPairConcat(x: string, y: string)
    requires !HasDoubleSlash(x) && !HasDoubleSlash(y)
    requires x == [] || y == [] || x[|x| - 1] != '/' || y[0] != '/'
    ensures !HasDoubleSlash(x + y)
    decreases |x|
  {
    if x != [] {
      var xy := x + y;
      assert xy[1..] == x[1..] + y;
      if |x| >= 2 {
        assert xy[0] == x[0] && xy[1] == x[1];
        assert x[1..][|x[1..]| - 1] == x[|x| - 1];
      } else if y != [] {
        assert xy[0] == x[|x| - 1] && xy[1] == y[0];
      }
      NoPairConcat(x[1..], y);
    } else {
      assert x + y == y;
    }
  }

  /** A rooted path of three non-empty separator-free parts is in normal form. */
  lemma RootedNormal3(a: string, b: string, c: string)
    requires '/' !in a && '/' !in b && '/' !in c && a != [] && b != [] && c != []
    ensures Normal("/" + a + "/" + b + "/" + c)
  {
    NoSlashNoPair(a);
    NoSlashNoPair(b);
    NoSlashNoPair(c);
    assert a[0] in a && b[0] in b && c[0] in c;
    assert a[|a| - 1] in a && b[|b| - 1] in b && c[|c| - 1] in c;
    NoPairConcat("/", a);
    NoPairConcat("/" + a, "/");
    NoPairConcat("/" + a + "/", b);
    NoPairConcat("/" + a + "/" + b, "/");
    NoPairConcat("/" + a + "/" + b + "/", c);
  }

  /** A rooted path of two non-empty separator-free parts is in normal form. */
  lemma RootedNormal2(a: string, b: string)
    requires '/' !in a && '/' !in b && a != [] && b != []
    ensures Normal("/" + a + "/" + b)
  {
    NoSlashNoPair(a);
    NoSlashNoPair(b);
    assert a[0] in a && b[0] in b && a[|a| - 1] in a && b[|b| - 1] in b;
    NoPairConcat("/", a);
    NoPairConcat("/" + a, "/");
    NoPairConcat("/" + a + "/", b);
  }

  /** `strings.Replace(s, "//", "/", -1)`: non-overlapping, left to right. */
  function CollapsePairs(s: string): (r: string)
    ensures |r| <= |s|
  {
    if |s| >= 2 && s[0] == '/' && s[1] == '/' then "/" + CollapsePairs(s[2..])
    else if s == [] then []
    else [s[0]] + CollapsePairs(s[1..])
  }

  lemma {:induction false} CollapseWithoutPairs(s: string)
    requires !HasDoubleSlash(s)
    ensures CollapsePairs(s) == s
  {
    if s != [] {
      CollapseWithoutPairs(s[1..]);
    }
  }

  lemma {:induction false} CollapseShrinks(s: string)
    requires HasDoubleSlash(s)
    ensures |CollapsePairs(s)| < |s|
  {
    if !(s[0] == '/' && s[1] == '/') {
      CollapseShrinks(s[1..]);
    }
  }

  /** A string that `clean` leaves alone: no "//", and no trailing "/" once longer than two. */
  predicate Normal(s: string) {
    !HasDoubleSlash(s) && (|s| > 2 ==> s[|s| - 1] != '/')
  }

  /** A pair left after one collapsing pass means the pass made the path shorter. */
  lemma PairRemainsShrinks(s: string)
    ensures HasDoubleSlash(CollapsePairs(s)) ==> |CollapsePairs(s)| < |s|
  {
    if HasDoubleSlash(s) {
      CollapseShrinks(s);
    } else {
      CollapseWithoutPairs(s);
    }
  }

  /**
   * `clean`: collapse "//" pairs, repeat while any remain, then drop one
   * trailing "/" when the result is longer than two characters.
   */
  function Clean(s: string): (r: string)
    decreases |s|, 1
  {
    TrimSlash(Collapsed(s))
  }

  /** The collapsing part of `clean`: one pass, and `clean` again if a pair remains. */
  function Collapsed(s: string): (r: string)
    decreases |s|, 0
  {
    var once := CollapsePairs(s);
    if HasDoubleSlash(once) then PairRemainsShrinks(s); Clean(once) else once
  }

  /** The last step of `clean`: one trailing "/" goes when the length is above two. */
  function TrimSlash(out: string): (r: string) {
    if |out| - 1 > 1 && out[|out| - 1] == '/' then out[..|out| - 1] else out
  }

  lemma {:induction false} PrefixKeepsNoPairs(s: string, n: nat)
    requires !HasDoubleSlash(s) && n <= |s|
    ensures !HasDoubleSlash(s[..n])
  {
    if n >= 2 {
      assert s[..n][1..] == s[1..][..n - 1];
      PrefixKeepsNoPairs(s[1..], n - 1);
    }
  }

  lemma LastPairIsDouble(s: string)
    requires |s| >= 2 && s[|s| - 2] == '/' && s[|s| - 1] == '/'
    ensures HasDoubleSlash(s)
    decreases |s|
  {
    if |s| > 2 {
      LastPairIsDouble(s[1..]);
    }
  }

  /** Dropping the trailing "/" of a pair-free string leaves a string that does not end in "/". */
  lemma TrimmedIsNormal(out: string)
    requires !HasDoubleSlash(out) && |out| > 2 && out[|out| - 1] == '/'
    ensures Normal(out[..|out| - 1])
  {
    PrefixKeepsNoPairs(out, |out| - 1);
    if out[|out| - 2] == '/' {
      LastPairIsDouble(out);
    }
  }

  /** The output of `clean` never contains "//" and never ends in "/" unless it is at most two long. */
  lemma {:induction false} CleanIsNormal(s: string)
    ensures Normal(Clean(s))
    decreases |s|
  {
    var once := CollapsePairs(s);
    if HasDoubleSlash(once) {
      PairRemainsShrinks(s);
      CleanIsNormal(once);
    } else if |once| - 1 > 1 && once[|once| - 1] == '/' {
      TrimmedIsNormal(once);
    }
  }

  /** `clean` changes nothing on a normal path. */
  lemma CleanKeepsNormal(s: string)
    requires Normal(s)
    ensures Clean(s) == s
  {
    CollapseWithoutPairs(s);
  }

  /** A path is a fixpoint of `clean` exactly when it is normal. */
  lemma CleanFixpoints(s: string)
    ensures Clean(s) == s <==> Normal(s)
  {
    CleanIsNormal(s);
    if Normal(s) {
      CleanKeepsNormal(s);
    }
  }

  /** `clean(clean(p)) == clean(p)`. */
  lemma CleanIdempotent(s: string)
    ensures Clean(Clean(s)) == Clean(s)
  {
    CleanIsNormal(s);
    CleanKeepsNormal(Clean(s));
  }

  /** `strings.Split(s, "/")`: the segments between separators, at least one. */
  function Split(s: string): (r: seq<string>)
    ensures |r| >= 1
  {
    if s == [] then [""]
    else if s[0] == '/' then [""] + Split(s[1..])
    else var rest := Split(s[1..]); [[s[0]] + rest[0]] + rest[1..]
  }

  /** A whole segment of the form `{name}` with a non-empty name. */
  predicate IsPlaceholder(seg: string) {
    |seg| >= 3 && seg[0] == '{' && seg[|seg| - 1] == '}'
  }

  function PlaceholderName(seg: string): string
    requires IsPlaceholder(seg)
  {
    seg[1..|seg| - 1]
  }

  /** The placeholder segments among `segs`, in order. */
  function Placeholders(segs: seq<string>): (r: seq<string>)
    ensures forall k :: 0 <= k < |r| ==> IsPlaceholder(r[k])
    ensures |r| <= |segs|
  {
    if segs == [] then []
    else (if IsPlaceholder(segs[0]) then [segs[0]] else []) + Placeholders(segs[1..])
  }

  /** The placeholders of a route path (`replacer.ParseVariables`). */
  function PathPlaceholders(path: string): seq<string> {
    Placeholders(Split(path))
  }

  /** The index of the first segment equal to `x`. */
  function IndexOfSegment(segs: seq<string>, x: string): (r: Option<nat>)
    ensures r.Some? ==> r.value < |segs| && segs[r.value] == x &&
                        forall j :: 0 <= j < r.value ==> segs[j] != x
    ensures r.None? ==> x !in segs
  {
    if segs == [] then None
    else if segs[0] == x then Some(0)
    else match IndexOfSegment(segs[1..], x)
         case None => None
         case Some(j) => Some(j + 1)
  }

  lemma {:induction false} PlaceholdersConcat(a: seq<string>, b: seq<string>)
    ensures Placeholders(a + b) == Placeholders(a) + Placeholders(b)
  {
    if a == [] {
      assert a + b == b;
    } else {
      assert (a + b)[1..] == a[1..] + b;
      PlaceholdersConcat(a[1..], b);
    }
  }

  /** Every placeholder is one of the segments. */
  lemma {:induction false} PlaceholderIsSegment(segs: seq<string>, k: nat)
    requires k < |Placeholders(segs)|
    ensures Placeholders(segs)[k] in segs
  {
    if !IsPlaceholder(segs[0]) {
      PlaceholderIsSegment(segs[1..], k);
    } else if k > 0 {
      PlaceholderIsSegment(segs[1..], k - 1);
    }
  }

  lemma {:induction false} SplitSlash(s: string)
    ensures Split(s + "/") == Split(s) + [""]
  {
    if s == [] {
      assert s + "/" == "/";
    } else {
      assert (s + "/")[1..] == s[1..] + "/";
      SplitSlash(s[1..]);
    }
  }

  /** Collapsing "//" pairs leaves the first segment and the later placeholders unchanged. */
  lemma {:induction false} CollapseKeepsPlaceholders(s: string)
    ensures Split(CollapsePairs(s))[0] == Split(s)[0]
    ensures Placeholders(Split(CollapsePairs(s))[1..]) == Placeholders(Split(s)[1..])
  {
    if |s| >= 2 && s[0] == '/' && s[1] == '/' {
      var t := s[2..];
      CollapseKeepsPlaceholders(t);
      assert s[1..][1..] == t;
      assert Split(s) == ["", ""] + Split(t);
      assert ("/" + CollapsePairs(t))[1..] == CollapsePairs(t);
      assert Split(CollapsePairs(s)) == [""] + Split(CollapsePairs(t));
      assert Split(s)[1..] == [""] + Split(t);
      assert Split(t) == [Split(t)[0]] + Split(t)[1..];
      assert Split(CollapsePairs(t)) == [Split(CollapsePairs(t))[0]] + Split(CollapsePairs(t))[1..];
      PlaceholdersConcat([Split(t)[0]], Split(t)[1..]);
      PlaceholdersConcat([Split(t)[0]], Split(CollapsePairs(t))[1..]);
      assert Placeholders([""] + Split(t)) == Placeholders(Split(t)) by {
        PlaceholdersConcat([""], Split(t));
      }
    } else if s != [] {
      var t := s[1..];
      CollapseKeepsPlaceholders(t);
      assert ([s[0]] + CollapsePairs(t))[1..] == CollapsePairs(t);
      if s[0] == '/' {
        assert Split(s) == [""] + Split(t);
        assert Split(CollapsePairs(s)) == [""] + Split(CollapsePairs(t));
        assert Split(t) == [Split(t)[0]] + Split(t)[1..];
        assert Split(CollapsePairs(t)) == [Split(CollapsePairs(t))[0]] + Split(CollapsePairs(t))[1..];
        PlaceholdersConcat([Split(t)[0]], Split(t)[1..]);
        PlaceholdersConcat([Split(t)[0]], Split(CollapsePairs(t))[1..]);
      }
    }
  }

  lemma SameHeadSamePlaceholders(a: seq<string>, b: seq<string>)
    requires |a| >= 1 && |b| >= 1 && a[0] == b[0]
    requires Placeholders(a[1..]) == Placeholders(b[1..])
    ensures Placeholders(a) == Placeholders(b)
  {
  }

  /** Dropping a trailing "/" removes only an empty last segment. */
  lemma TrimKeepsPlaceholders(out: string)
    requires |out| >= 1 && out[|out| - 1] == '/'
    ensures PathPlaceholders(out[..|out| - 1]) == PathPlaceholders(out)
  {
    var trimmed := out[..|out| - 1];
    assert trimmed + "/" == out;
    SplitSlash(trimmed);
    PlaceholdersConcat(Split(trimmed), [""]);
  }

  /** Joining "/" and a clean rooted path, as a prefix "/" does, is cleaned back to that path. */
  lemma CleanDoubleRoot(x: string)
    requires Normal(x) && |x| >= 1 && x[0] == '/'
    ensures Clean("/" + x) == x
  {
    var y := x[1..];
    assert !HasDoubleSlash(y);
    CollapseWithoutPairs(y);
    assert ("/" + x)[2..] == y;
    assert CollapsePairs("/" + x) == "/" + y;
    assert "/" + y == x;
  }

  /** `clean` keeps the placeholders of a path, in order. */
  lemma {:induction false} CleanKeepsPlaceholders(s: string)
    ensures PathPlaceholders(Clean(s)) == PathPlaceholders(s)
    decreases |s|
  {
    var once := CollapsePairs(s);
    CollapseKeepsPlaceholders(s);
    SameHeadSamePlaceholders(Split(once), Split(s));
    var out := Collapsed(s);
    assert PathPlaceholders(out) == PathPlaceholders(s) by {
      if HasDoubleSlash(once) {
        PairRemainsShrinks(s);
        CleanKeepsPlaceholders(once);
        assert out == Clean(once);
      } else {
        assert out == once;
      }
    }
    assert Clean(s) == TrimSlash(out);
    if |out| - 1 > 1 && out[|out| - 1] == '/' {
      TrimKeepsPlaceholders(out);
    }
  }


  /** Splitting at a separator splits the two sides independently. */
  lemma {:induction false} SplitJoin(a: string, b: string)
    ensures Split(a + "/" + b) == Split(a) + Split(b)
  {
    if a == [] {
      assert a + "/" + b == "/" + b;
      assert ("/" + b)[1..] == b;
    } else {
      assert (a + "/" + b)[1..] == a[1..] + "/" + b;
      SplitJoin(a[1..], b);
    }
  }

  /** A string without a separator is a single segment. */
  lemma {:induction false} SplitSingle(a: string)
    requires '/' !in a
    ensures Split(a) == [a]
  {
    if a != [] {
      assert a == [a[0]] + a[1..];
      SplitSingle(a[1..]);
    }
  }

  /** A rooted path of three separator-free parts splits into "" and the parts. */
  lemma SplitRooted3(a: string, b: string, c: string)
    requires '/' !in a && '/' !in b && '/' !in c
    ensures Split("/" + a + "/" + b + "/" + c) == ["", a, b, c]
  {
    SplitSingle(a);
    SplitSingle(b);
    SplitSingle(c);
    SplitJoin("/" + a + "/" + b, c);
    SplitJoin("/" + a, b);
    SplitJoin("", a);
    assert "" + "/" + a == "/" + a;
    assert Split("") == [""];
  }

}
