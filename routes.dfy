/**
 * Route derivation of pkg/app/web/dispatcher.go as pure functions: the verb
 * filter over `httpMethods`, the two sub-path forms of a method name and the
 * path prefix of a controller.
 */
module Routes {
  import opened Wrappers
  import opened Text
  import opened Paths

  /** `httpMethods`: the verbs net/http names, in the dispatcher's order. */
  const HttpMethods: seq<string> :=
    ["GET", "HEAD", "POST", "PUT", "PATCH", "DELETE", "CONNECT", "OPTIONS", "TRACE"]

  const PathSep: string := "/"

  /** The verb a method name announces: its first camel word, upper-cased. */
  function VerbOf(tokens: seq<string>): string
    requires |tokens| >= 1
  {
    ToUpper(tokens[0])
  }

  /** `str.InSlice(httpMethod, httpMethods)`. */
  predicate IsHttpMethod(v: string) {
    v in HttpMethods
  }

  /** One "By" parameter `t` becomes `/t/{t}`, with `t` lower-cased. */
  function ParamPath(t: string): string {
    PathSep + ToLower(t) + PathSep + Braced(t)
  }

  /** The By-form sub-path: the `/t/{t}` pieces of the words after "By", in order. */
  function ByPath(params: seq<string>): (r: string)
    decreases |params|
  {
    if params == [] then "" else ByPath(params[..|params| - 1]) + ParamPath(params[|params| - 1])
  }

  /** The method name uses the By form: more than two words and "By" second. */
  predicate IsByForm(tokens: seq<string>) {
    |tokens| > 2 && tokens[1] == "By"
  }

  /** The sub-path a method is registered under (`apiContextMapping`). */
  function SubPath(name: string, tokens: seq<string>): string
    requires |tokens| >= 1
  {
    if IsByForm(tokens) then ByPath(tokens[2..])
    else PathSep + LowerFirst(ReplaceFirst(name, tokens[0], ""))
  }

  /** The controller name part of the default prefix: the type name without its last word. */
  function ControllerName(typeName: string, words: seq<string>): string {
    if |words| >= 2 then LowerFirst(ReplaceFirst(typeName, words[|words| - 1], "")) else ""
  }

  /** The party prefix of a controller whose `ContextMapping` field holds `mapping`. */
  function Prefix(typeName: string, words: seq<string>, mapping: string): string {
    if mapping == "" then PathSep + ControllerName(typeName, words) else mapping
  }

  /** The path handed to `parse`: prefix and sub-path, cleaned there. */
  function RoutePath(prefix: string, name: string, tokens: seq<string>): string
    requires |tokens| >= 1
  {
    Clean(prefix + SubPath(name, tokens))
  }

  /** The placeholder segment `{t}` that the By form puts after `/t`. */
  function Braced(t: string): string {
    "{" + ToLower(t) + "}"
  }

  /** The segments of a By-form sub-path after its leading empty one: `t`, `{t}` for each word. */
  function ParamSegments(params: seq<string>): seq<string>
    decreases |params|
  {
    if params == [] then []
    else ParamSegments(params[..|params| - 1]) + [ToLower(params[|params| - 1]), Braced(params[|params| - 1])]
  }

  function BracedAll(params: seq<string>): (r: seq<string>)
    ensures |r| == |params|
    ensures forall k :: 0 <= k < |params| ==> r[k] == Braced(params[k])
    decreases |params|
  {
    if params == [] then [] else BracedAll(params[..|params| - 1]) + [Braced(params[|params| - 1])]
  }

  predicate AllWords(ws: seq<string>) {
    forall k :: 0 <= k < |ws| ==> IsWord(ws[k])
  }

  lemma LowerWordHasNoSeparator(t: string)
    requires IsWord(t)
    ensures '/' !in ToLower(t) && '/' !in Braced(t)
    ensures IsWord(ToLower(t)) && !IsPlaceholder(ToLower(t))
    ensures IsPlaceholder(Braced(t)) && PlaceholderName(Braced(t)) == ToLower(t)
  {
    var l := ToLower(t);
    assert forall i :: 0 <= i < |l| ==> IdentChar(l[i]);
  }

  lemma SplitPair(a: string, l: string, b: string)
    requires '/' !in l && '/' !in b
    ensures Split(a + ("/" + l + "/" + b)) == Split(a) + [l, b]
  {
    assert a + ("/" + l + "/" + b) == a + "/" + l + "/" + b;
    SplitJoin(a + "/" + l, b);
    SplitJoin(a, l);
    SplitSingle(l);
    SplitSingle(b);
  }

  /** The segments of the By-form sub-path. */
  lemma {:induction false} SplitByPath(params: seq<string>)
    requires AllWords(params)
    ensures Split(ByPath(params)) == [""] + ParamSegments(params)
    decreases |params|
  {
    if params != [] {
      var init, t := params[..|params| - 1], params[|params| - 1];
      assert AllWords(init);
      SplitByPath(init);
      LowerWordHasNoSeparator(t);
      assert ByPath(params) == ByPath(init) + ("/" + ToLower(t) + "/" + Braced(t));
      SplitPair(ByPath(init), ToLower(t), Braced(t));
    }
  }

  lemma {:induction false} ParamSegmentPlaceholders(params: seq<string>)
    requires AllWords(params)
    ensures Placeholders(ParamSegments(params)) == BracedAll(params)
    decreases |params|
  {
    if params != [] {
      var init, t := params[..|params| - 1], params[|params| - 1];
      ParamSegmentPlaceholders(init);
      LowerWordHasNoSeparator(t);
      PlaceholdersConcat(ParamSegments(init), [ToLower(t), Braced(t)]);
      assert Placeholders([ToLower(t), Braced(t)]) == [Braced(t)] by {
        assert [ToLower(t), Braced(t)][1..] == [Braced(t)];
        assert [Braced(t)][1..] == [];
      }
    }
  }

  /** The By form declares one `{t}` placeholder per word after "By", in order. */
  lemma ByPathPlaceholders(params: seq<string>)
    requires AllWords(params)
    ensures PathPlaceholders(ByPath(params)) == BracedAll(params)
  {
    SplitByPath(params);
    ParamSegmentPlaceholders(params);
    PlaceholdersConcat([""], ParamSegments(params));
  }

  /** A non-empty By-form sub-path starts with the separator. */
  lemma {:induction false} ByPathStartsWithSeparator(params: seq<string>)
    requires params != []
    ensures |ByPath(params)| >= 1 && ByPath(params)[0] == '/'
    decreases |params|
  {
    if |params| > 1 {
      ByPathStartsWithSeparator(params[..|params| - 1]);
    }
  }

  /** The literal form: "/" and the rest of the name after the verb word, first letter lowered. */
  lemma LiteralSubPath(name: string, tokens: seq<string>)
    requires SplitsInto(name, tokens) && !IsByForm(tokens)
    ensures SubPath(name, tokens) == PathSep + LowerFirst(name[|tokens[0]|..])
    ensures name[|tokens[0]|..] == Concat(tokens[1..])
  {
    FirstWordIsPrefix(name, tokens);
    RemovePrefix(name, tokens[0]);
    assert Concat(tokens) == tokens[0] + Concat(tokens[1..]);
  }

  lemma {:induction false} ConcatOfWords(ws: seq<string>)
    requires AllWords(ws)
    ensures forall i :: 0 <= i < |Concat(ws)| ==> IdentChar(Concat(ws)[i])
  {
    if ws != [] {
      ConcatOfWords(ws[1..]);
    }
  }

  /** A literal piece of identifier characters after "/" holds no placeholder. */
  lemma LiteralHasNoPlaceholder(rest: string)
    requires forall i :: 0 <= i < |rest| ==> IdentChar(rest[i])
    ensures PathPlaceholders(PathSep + LowerFirst(rest)) == []
  {
    var l := LowerFirst(rest);
    assert forall i :: 0 <= i < |l| ==> IdentChar(l[i]) by {
      forall i | 0 <= i < |l| ensures IdentChar(l[i]) {
        if i > 0 { assert l[i] == rest[i]; }
      }
    }
    assert '/' !in l;
    SplitJoin("", l);
    assert "" + "/" + l == PathSep + l;
    SplitSingle(l);
    assert Placeholders([l]) == [] by {
      if l != [] { assert l[0] != '{'; }
      assert [l][1..] == [];
    }
    PlaceholdersConcat([""], [l]);
  }

  /** The placeholders of `prefix + "/" + c` are those of the prefix, then those of `"/" + c`. */
  lemma JoinPlaceholders(prefix: string, c: string)
    ensures PathPlaceholders(prefix + "/" + c) == PathPlaceholders(prefix) + PathPlaceholders("/" + c)
  {
    SplitJoin(prefix, c);
    SplitJoin("", c);
    assert "" + "/" + c == "/" + c;
    PlaceholdersConcat(Split(prefix), Split(c));
    PlaceholdersConcat([""], Split(c));
  }

  lemma ByRoutePlaceholders(prefix: string, name: string, tokens: seq<string>)
    requires SplitsInto(name, tokens) && IsByForm(tokens)
    ensures PathPlaceholders(prefix + SubPath(name, tokens)) == PathPlaceholders(prefix) + BracedAll(tokens[2..])
  {
    var ps := tokens[2..];
    assert AllWords(ps);
    var sub := ByPath(ps);
    ByPathStartsWithSeparator(ps);
    var c := sub[1..];
    assert sub == "/" + c;
    assert prefix + sub == prefix + "/" + c;
    JoinPlaceholders(prefix, c);
    ByPathPlaceholders(ps);
  }

  lemma LiteralRoutePlaceholders(prefix: string, name: string, tokens: seq<string>)
    requires SplitsInto(name, tokens) && !IsByForm(tokens)
    ensures PathPlaceholders(prefix + SubPath(name, tokens)) == PathPlaceholders(prefix)
  {
    LiteralSubPath(name, tokens);
    ConcatOfWords(tokens[1..]);
    var rest := name[|tokens[0]|..];
    LiteralHasNoPlaceholder(rest);
    var l := LowerFirst(rest);
    JoinPlaceholders(prefix, l);
    assert prefix + (PathSep + l) == prefix + "/" + l;
  }

  /**
   * The placeholders of a route path: those of the prefix, then one `{t}` per
   * word after "By" for the By form, and none for the literal form.
   */
  lemma RoutePlaceholders(prefix: string, name: string, tokens: seq<string>)
    requires SplitsInto(name, tokens)
    ensures PathPlaceholders(RoutePath(prefix, name, tokens)) ==
            PathPlaceholders(prefix) + (if IsByForm(tokens) then BracedAll(tokens[2..]) else [])
  {
    CleanKeepsPlaceholders(prefix + SubPath(name, tokens));
    if IsByForm(tokens) {
      ByRoutePlaceholders(prefix, name, tokens);
    } else {
      LiteralRoutePlaceholders(prefix, name, tokens);
    }
  }

  /** No verb of `httpMethods` starts with 'A' or 'B'. */
  lemma VerbInitials(v: string)
    requires IsHttpMethod(v)
    ensures |v| >= 1 && v[0] != 'A' && v[0] != 'B'
  {
  }

  /** `Before` and `After` never name a verb, however the name is split into words. */
  lemma HookIsNoVerb(name: string, tokens: seq<string>)
    requires SplitsInto(name, tokens)
    requires name == "Before" || name == "After"
    ensures !IsHttpMethod(VerbOf(tokens))
  {
    FirstWordIsPrefix(name, tokens);
    assert IsWord(tokens[0]);
    assert tokens[0][0] == name[..|tokens[0]|][0] == name[0];
    var v := VerbOf(tokens);
    assert v[0] == UpperChar(name[0]);
    if IsHttpMethod(v) {
      VerbInitials(v);
    }
  }

  /**
   * When the last word of a type name occurs only at its end, the default
   * prefix is "/" and the earlier words, first letter lowered ("loginController" gives "/login").
   */
  lemma DefaultPrefixStripsLastWord(typeName: string, words: seq<string>)
    requires SplitsInto(typeName, words) && |words| >= 2
    requires OnlyAtEnd(typeName, words[|words| - 1])
    ensures Prefix(typeName, words, "") == PathSep + LowerFirst(Concat(words[..|words| - 1]))
  {
    var init, last := Concat(words[..|words| - 1]), words[|words| - 1];
    ConcatSnoc(words);
    assert typeName == init + last;
    assert typeName[|typeName| - |last|..] == last && typeName[..|typeName| - |last|] == init;
    RemoveSuffix(typeName, last);
  }

  /** `p` occurs in `s` nowhere before the position where it would end `s`. */
  predicate OnlyAtEnd(s: string, p: string) {
    forall j :: 0 <= j < |s| - |p| ==> !OccursAt(s, p, j)
  }

  lemma {:induction false} ConcatSnoc(ws: seq<string>)
    requires ws != []
    ensures Concat(ws) == Concat(ws[..|ws| - 1]) + ws[|ws| - 1]
  {
    if |ws| > 1 {
      ConcatSnoc(ws[1..]);
      assert ws[1..][..|ws| - 2] == ws[..|ws| - 1][1..];
    }
  }

  /** Controller type names made of identifier characters yield a prefix without placeholders. */
  lemma DefaultPrefixHasNoPlaceholder(typeName: string, words: seq<string>)
    requires forall i :: 0 <= i < |typeName| ==> IdentChar(typeName[i])
    ensures PathPlaceholders(Prefix(typeName, words, "")) == []
  {
    var name := if |words| >= 2 then ReplaceFirst(typeName, words[|words| - 1], "") else "";
    if |words| >= 2 {
      RemoveKeepsChars(typeName, words[|words| - 1]);
    }
    assert forall i :: 0 <= i < |name| ==> IdentChar(name[i]);
    LiteralHasNoPlaceholder(name);
  }

  /** The By form of one word is a clean rooted path. */
  lemma ParamPathNormal(t: string)
    requires IsWord(t)
    ensures Normal(ParamPath(t)) && ParamPath(t)[0] == '/'
  {
    LowerWordHasNoSeparator(t);
    RootedNormal2(ToLower(t), Braced(t));
  }

  /** `GetById` is `GET` with sub-path "/id/{id}". */
  lemma GetByIdSubPath()
    ensures VerbOf(["Get", "By", "Id"]) == "GET"
    ensures SubPath("GetById", ["Get", "By", "Id"]) == "/id/{id}"
  {
    assert ToLower("Id") == "id";
    assert ["Get", "By", "Id"][2..] == ["Id"];
    assert ByPath(["Id"]) == "" + ParamPath("Id");
  }

  /** Under the prefix "/", `GetById` is parsed on "/id/{id}". */
  lemma GetByIdRoute()
    ensures VerbOf(["Get", "By", "Id"]) == "GET"
    ensures SubPath("GetById", ["Get", "By", "Id"]) == "/id/{id}"
    ensures RoutePath("/", "GetById", ["Get", "By", "Id"]) == "/id/{id}"
  {
    GetByIdSubPath();
    assert IsWord("Id");
    ParamPathNormal("Id");
    CleanDoubleRoot("/id/{id}");
  }


  /** `loginController` maps to "/login". */
  lemma LoginControllerPrefix()
    ensures Prefix("loginController", ["login", "Controller"], "") == "/login"
  {
    var s := "loginController";
    assert OccursAt(s, "Controller", 5);
    forall j | 0 <= j < 5 ensures !OccursAt(s, "Controller", j) {
      assert s[j..j + 10][0] == s[j] != 'C';
    }
    IndexOfIs(s, "Controller", 5);
    assert ReplaceFirst(s, "Controller", "") == "login";
    assert ControllerName(s, ["login", "Controller"]) == "login";
  }

  /** Its `Post` is `POST /login`: the trailing "/" of "/login" + "/" is cleaned away. */
  lemma LoginPostRoute()
    ensures VerbOf(["Post"]) == "POST"
    ensures RoutePath("/login", "Post", ["Post"]) == "/login"
  {
    RemovePrefix("Post", "Post");
    assert SubPath("Post", ["Post"]) == "/";
    assert "/login" + "/" == "/login/";
    assert !HasDoubleSlash("/login/");
    CollapseWithoutPairs("/login/");
  }

  /** A type named `Controller` has the prefix "/" and its `Get` is `GET /`. */
  lemma RootControllerRoute()
    ensures Prefix("Controller", ["Controller"], "") == "/"
    ensures RoutePath("/", "Get", ["Get"]) == "/"
  {
    RemovePrefix("Get", "Get");
    assert SubPath("Get", ["Get"]) == "/";
    assert "/" + "/" == "//";
    assert CollapsePairs("//") == "/";
  }

  /** `GetBy` has only two words, so it takes the literal form "/by". */
  lemma GetByIsLiteral()
    ensures SubPath("GetBy", ["Get", "By"]) == "/by"
  {
    RemovePrefix("GetBy", "Get");
  }

  /** A non-empty `ContextMapping` is used as it is. */
  lemma ExplicitMappingWins(typeName: string, words: seq<string>, mapping: string)
    requires mapping != ""
    ensures Prefix(typeName, words, mapping) == mapping
  {
  }

  /** When the type name starts with its last word, the default prefix drops that leading copy. */
  lemma LeadingLastWordPrefix(typeName: string, words: seq<string>, stem: string)
    requires |words| >= 2
    requires |words[|words| - 1]| <= |typeName| && typeName[..|words[|words| - 1]|] == words[|words| - 1]
    requires stem == typeName[|words[|words| - 1]|..]
    ensures Prefix(typeName, words, "") == "/" + LowerFirst(stem)
  {
    RemovePrefix(typeName, words[|words| - 1]);
  }

  /**
   * The default prefix removes the FIRST occurrence of the last word, which is
   * not the trailing one when that word also starts the name.
   */
  lemma FirstOccurrenceOfLastWord()
    ensures Prefix("FooBarFoo", ["Foo", "Bar", "Foo"], "") == "/barFoo"
  {
    var w := ["Foo", "Bar", "Foo"];
    assert w[|w| - 1] == "Foo" && "FooBarFoo"[..3] == "Foo" && "FooBarFoo"[3..] == "BarFoo";
    LeadingLastWordPrefix("FooBarFoo", w, "BarFoo");
    assert LowerChar('B') == 'b';
    assert LowerFirst("BarFoo") == "barFoo";
  }
}
