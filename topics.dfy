/**
 * Topic resolution (data_handler.go:35-55, 90-94): the ten topic templates
 * and `getTopic`, which expands a template by two `strings.ReplaceAll`
 * passes, first the product placeholder and then the device name.
 */
module Topics {

  /** The literal product placeholder written into every template. */
  const ProductPlaceholder: string := "5S34OM4Rc6"
  const NamePlaceholder: string := "{device-name}"

  /** `ProductID` (client_config.go:23) is the empty string in this repository. */
  const ProductId: string := ""

  /** The ten topic templates, five published by the device and five it subscribes to. */
  datatype Channel =
    | PropertyPost | EventPost | PropertySetReply | PropertyGetReply | PackPost
    | PropertyPostReply | EventPostReply | PackPostReply | PropertySet | PropertyGet

  predicate IsSubscribed(c: Channel) {
    c.PropertyPostReply? || c.EventPostReply? || c.PackPostReply? || c.PropertySet? || c.PropertyGet?
  }

  function Suffix(c: Channel): string {
    match c
    case PropertyPost => "thing/property/post"
    case EventPost => "thing/event/post"
    case PropertySetReply => "thing/property/set_reply"
    case PropertyGetReply => "thing/property/get_reply"
    case PackPost => "thing/pack/post"
    case PropertyPostReply => "thing/property/post/reply"
    case EventPostReply => "thing/event/post/reply"
    case PackPostReply => "thing/pack/post/reply"
    case PropertySet => "thing/property/set"
    case PropertyGet => "thing/property/get"
  }

  /** Two topic levels joined by '/'. */
  function Slash(a: string, b: string): string {
    a + "/" + b
  }

  /** `$sys/5S34OM4Rc6/{device-name}/thing/...` */
  function Template(c: Channel): string {
    Slash("$sys", Slash(ProductPlaceholder, Slash(NamePlaceholder, Suffix(c))))
  }

  /**
   * Every template is `$sys/5S34OM4Rc6/{device-name}/` followed by its
   * channel's suffix, as in the constants of data_handler.go:41-54.
   */
  lemma TemplateSpelledOut(c: Channel)
    ensures Template(c) == "$sys/5S34OM4Rc6/{device-name}/" + Suffix(c)
  {
    var x := Suffix(c);
    assert Slash(NamePlaceholder, x) == "{device-name}/" + x by {
      assert NamePlaceholder + "/" == "{device-name}/";
    }
    assert Slash(ProductPlaceholder, "{device-name}/" + x) == "5S34OM4Rc6/{device-name}/" + x by {
      assert ProductPlaceholder + "/" + "{device-name}/" == "5S34OM4Rc6/{device-name}/";
    }
    assert Slash("$sys", "5S34OM4Rc6/{device-name}/" + x) == "$sys/5S34OM4Rc6/{device-name}/" + x by {
      assert "$sys" + "/" + "5S34OM4Rc6/{device-name}/" == "$sys/5S34OM4Rc6/{device-name}/";
    }
  }

  /** The topic a template resolves to: `$sys/<product>/<device>/thing/...`. */
  function TopicPath(productId: string, deviceName: string, c: Channel): string {
    Slash("$sys", Slash(productId, Slash(deviceName, Suffix(c))))
  }

  predicate StartsWith(s: string, p: string) {
    |p| <= |s| && s[..|p|] == p
  }

  /** `p` occurs somewhere in `s`. */
  predicate Contains(s: string, p: string)
    decreases |s|
  {
    StartsWith(s, p) || (s != [] && Contains(s[1..], p))
  }

  /**
   * `strings.ReplaceAll(s, pat, rep)` for a non-empty pattern `pat`: scans left to
   * right and replaces non-overlapping occurrences; the replacement text is
   * not scanned again.
   */
  function ReplaceAll(s: string, pat: string, rep: string): string
    requires pat != []
    decreases |s|
  {
    if |s| < |pat| then s
    else if s[..|pat|] == pat then rep + ReplaceAll(s[|pat|..], pat, rep)
    else [s[0]] + ReplaceAll(s[1..], pat, rep)
  }

  /** Template expansion for an arbitrary product id. */
  function Resolve(productId: string, deviceName: string, template: string): string {
    ReplaceAll(ReplaceAll(template, ProductPlaceholder, productId), NamePlaceholder, deviceName)
  }

  /** `getTopic` (data_handler.go:91-94). */
  function GetTopic(deviceName: string, template: string): string {
    Resolve(ProductId, deviceName, template)
  }

  // ------------------------------------------------------------------
  // Facts about ReplaceAll
  // ------------------------------------------------------------------

  /** A string in which `pat` does not occur comes out of ReplaceAll unchanged. */
  lemma {:induction false} ReplaceAllAbsent(s: string, pat: string, rep: string)
    requires pat != [] && !Contains(s, pat)
    ensures ReplaceAll(s, pat, rep) == s
  {
    if |s| >= |pat| {
      ReplaceAllAbsent(s[1..], pat, rep);
      assert [s[0]] + s[1..] == s;
    }
  }

  /** ReplaceAll of a string that begins with `pat`. */
  lemma ReplaceAllAtStart(pat: string, rest: string, rep: string)
    requires pat != []
    ensures ReplaceAll(pat + rest, pat, rep) == rep + ReplaceAll(rest, pat, rep)
  {
    var s := pat + rest;
    assert s[..|pat|] == pat;
    assert s[|pat|..] == rest;
  }

  /**
   * No occurrence of `pat` starts inside a piece free of `pat` that is
   * followed by a separator `pat` does not contain.
   */
  lemma NoMatchBeforeSeparator(a: string, sep: char, b: string, pat: string)
    requires !Contains(a, pat) && sep !in pat
    ensures !StartsWith(a + [sep] + b, pat)
  {
    var s := a + [sep] + b;
    if |pat| <= |a| {
      assert !StartsWith(a, pat);
      assert s[..|pat|] == a[..|pat|];
    } else if |pat| <= |s| {
      assert s[..|pat|][|a|] == sep;
    }
  }

  /** A piece free of `pat`, followed by such a separator, is copied through untouched. */
  lemma {:induction false} ReplaceAllPastSeparator(a: string, sep: char, b: string, pat: string, rep: string)
    requires pat != [] && !Contains(a, pat) && sep !in pat
    ensures ReplaceAll(a + [sep] + b, pat, rep) == a + [sep] + ReplaceAll(b, pat, rep)
  {
    var s := a + [sep] + b;
    NoMatchBeforeSeparator(a, sep, b, pat);
    if |s| < |pat| {
      ReplaceAllShort(b, pat, rep);
    } else {
      ReplaceAllNoMatchHere(s, pat, rep);
      if a == [] {
        assert s[1..] == b;
      } else {
        assert s[1..] == a[1..] + [sep] + b;
        ReplaceAllPastSeparator(a[1..], sep, b, pat, rep);
        assert [s[0]] + a[1..] == a;
      }
    }
  }

  /** Where no occurrence starts, the first character is copied. */
  lemma ReplaceAllNoMatchHere(s: string, pat: string, rep: string)
    requires pat != [] && |s| >= |pat| && !StartsWith(s, pat)
    ensures ReplaceAll(s, pat, rep) == [s[0]] + ReplaceAll(s[1..], pat, rep)
  {
  }

  lemma ReplaceAllShort(s: string, pat: string, rep: string)
    requires pat != [] && |s| < |pat|
    ensures ReplaceAll(s, pat, rep) == s
  {
  }

  lemma {:induction false} FirstCharAbsent(s: string, p: string)
    requires p != [] && p[0] !in s
    ensures !Contains(s, p)
  {
    if s != [] {
      assert s[1..] == s[1..] && p[0] !in s[1..];
      FirstCharAbsent(s[1..], p);
    }
  }

  /** Joining two pieces free of `p` with a separator `p` lacks creates no occurrence of `p`. */
  lemma {:induction false} ContainsAcrossSeparator(a: string, sep: char, b: string, p: string)
    requires !Contains(a, p) && !Contains(b, p) && sep !in p
    ensures !Contains(a + [sep] + b, p)
  {
    var s := a + [sep] + b;
    NoMatchBeforeSeparator(a, sep, b, p);
    if a == [] {
      assert s[1..] == b;
    } else {
      ContainsAcrossSeparator(a[1..], sep, b, p);
      assert s[1..] == a[1..] + [sep] + b;
    }
  }

  // ------------------------------------------------------------------
  // Facts about the templates
  // ------------------------------------------------------------------

  lemma PlaceholderChars()
    ensures ProductPlaceholder[0] == '5' && NamePlaceholder[0] == '{'
    ensures '/' !in ProductPlaceholder && '/' !in NamePlaceholder
  {
  }

  /** No suffix holds the first character of either placeholder. */
  lemma SuffixChars(c: Channel)
    ensures '5' !in Suffix(c) && '{' !in Suffix(c)
  {
    match c {
      case PropertyPost =>
      case EventPost =>
      case PropertySetReply =>
      case PropertyGetReply =>
      case PackPost =>
      case PropertyPostReply =>
      case EventPostReply =>
      case PackPostReply =>
      case PropertySet =>
      case PropertyGet =>
    }
  }

  lemma SuffixFree(c: Channel)
    ensures !Contains(Suffix(c), ProductPlaceholder) && !Contains(Suffix(c), NamePlaceholder)
    ensures '/' !in ProductPlaceholder && '/' !in NamePlaceholder
  {
    SuffixChars(c);
    PlaceholderChars();
    var s := Suffix(c);
    FirstCharAbsent(s, ProductPlaceholder);
    FirstCharAbsent(s, NamePlaceholder);
  }

  /** Replacing inside `a/b` where `a` is free of `pat`: only `b` changes. */
  lemma SlashPast(a: string, pat: string, rep: string, b: string)
    requires pat != [] && '/' !in pat && !Contains(a, pat)
    ensures ReplaceAll(Slash(a, b), pat, rep) == Slash(a, ReplaceAll(b, pat, rep))
  {
    ReplaceAllPastSeparator(a, '/', b, pat, rep);
  }

  /** Replacing inside `pat/b`: the leading occurrence becomes `rep`. */
  lemma SlashAtStart(pat: string, rep: string, b: string)
    requires pat != [] && '/' !in pat
    ensures ReplaceAll(Slash(pat, b), pat, rep) == Slash(rep, ReplaceAll(b, pat, rep))
  {
    assert Slash(pat, b) == pat + ("/" + b);
    ReplaceAllAtStart(pat, "/" + b, rep);
    assert !Contains([], pat);
    ReplaceAllPastSeparator([], '/', b, pat, rep);
    assert [] + ['/'] + b == "/" + b;
    assert rep + ("/" + ReplaceAll(b, pat, rep)) == Slash(rep, ReplaceAll(b, pat, rep));
  }

  /** The first pass puts the product id in place of its placeholder and touches nothing else. */
  lemma ProductPass(productId: string, suffix: string)
    requires '5' !in suffix
    ensures ReplaceAll(Slash("$sys", Slash(ProductPlaceholder, Slash(NamePlaceholder, suffix))), ProductPlaceholder, productId)
         == Slash("$sys", Slash(productId, Slash(NamePlaceholder, suffix)))
  {
    FirstCharAbsent("$sys", ProductPlaceholder);
    FirstCharAbsent(NamePlaceholder, ProductPlaceholder);
    FirstCharAbsent(suffix, ProductPlaceholder);
    PlaceholderChars();
    SecondLevelPass("$sys", ProductPlaceholder, productId, NamePlaceholder, suffix);
  }

  /** Replacing in `x/pat/mid/suffix` where only the second level holds `pat`. */
  lemma SecondLevelPass(x: string, pat: string, rep: string, mid: string, suffix: string)
    requires pat != [] && '/' !in pat
    requires !Contains(x, pat) && !Contains(mid, pat) && !Contains(suffix, pat)
    ensures ReplaceAll(Slash(x, Slash(pat, Slash(mid, suffix))), pat, rep) == Slash(x, Slash(rep, Slash(mid, suffix)))
  {
    SlashPast(x, pat, rep, Slash(pat, Slash(mid, suffix)));
    SlashAtStart(pat, rep, Slash(mid, suffix));
    SlashPast(mid, pat, rep, suffix);
    ReplaceAllAbsent(suffix, pat, rep);
  }

  /** The second pass puts the device name in place of its placeholder. */
  lemma NamePass(productId: string, deviceName: string, suffix: string)
    requires '{' !in suffix && !Contains(productId, NamePlaceholder)
    ensures ReplaceAll(Slash("$sys", Slash(productId, Slash(NamePlaceholder, suffix))), NamePlaceholder, deviceName)
         == Slash("$sys", Slash(productId, Slash(deviceName, suffix)))
  {
    var N := NamePlaceholder;
    PlaceholderChars();
    FirstCharAbsent("$sys", N);
    FirstCharAbsent(suffix, N);
    SlashPast("$sys", N, deviceName, Slash(productId, Slash(N, suffix)));
    SlashPast(productId, N, deviceName, Slash(N, suffix));
    SlashAtStart(N, deviceName, suffix);
    ReplaceAllAbsent(suffix, N, deviceName);
  }

  /**
   * Resolving a canonical template substitutes both placeholders and keeps
   * the fixed `thing/...` suffix, provided the product id does not itself
   * contain `{device-name}` (the device name may contain anything: it is
   * inserted by the last pass and never scanned).
   */
  lemma ResolveTemplate(productId: string, deviceName: string, c: Channel)
    requires !Contains(productId, NamePlaceholder)
    ensures Resolve(productId, deviceName, Template(c)) == TopicPath(productId, deviceName, c)
  {
    SuffixChars(c);
    ProductPass(productId, Suffix(c));
    NamePass(productId, deviceName, Suffix(c));
  }

  /** The same, for the repository's own `getTopic` with its empty product id. */
  lemma GetTopicTemplate(deviceName: string, c: Channel)
    ensures GetTopic(deviceName, Template(c)) == TopicPath("", deviceName, c)
  {
    assert !Contains(ProductId, NamePlaceholder);
    ResolveTemplate(ProductId, deviceName, c);
  }

  /** When neither identifier holds a placeholder, none is left in the topic. */
  lemma ResolveLeavesNoPlaceholder(productId: string, deviceName: string, c: Channel, p: string)
    requires p == ProductPlaceholder || p == NamePlaceholder
    requires !Contains(productId, ProductPlaceholder) && !Contains(productId, NamePlaceholder)
    requires !Contains(deviceName, ProductPlaceholder) && !Contains(deviceName, NamePlaceholder)
    ensures !Contains(Resolve(productId, deviceName, Template(c)), p)
  {
    ResolveTemplate(productId, deviceName, c);
    SuffixChars(c);
    PlaceholderChars();
    FirstCharAbsent("$sys", p);
    FirstCharAbsent(Suffix(c), p);
    ContainsAcrossSeparator(deviceName, '/', Suffix(c), p);
    ContainsAcrossSeparator(productId, '/', Slash(deviceName, Suffix(c)), p);
    ContainsAcrossSeparator("$sys", '/', Slash(productId, Slash(deviceName, Suffix(c))), p);
  }

  lemma SuffixInjective(c1: Channel, c2: Channel)
    requires Suffix(c1) == Suffix(c2)
    ensures c1 == c2
  {
  }

  /** The text after the first `|a| + 1` characters of `a/b` is `b`. */
  lemma SlashCancel(a: string, b1: string, b2: string)
    requires Slash(a, b1) == Slash(a, b2)
    ensures b1 == b2
  {
    assert b1 == Slash(a, b1)[|a| + 1..];
    assert b2 == Slash(a, b2)[|a| + 1..];
  }

  /**
   * Different templates resolve to different topics for the same device:
   * in particular the five subscribed topics are pairwise distinct.
   */
  lemma ResolveDistinct(productId: string, deviceName: string, c1: Channel, c2: Channel)
    requires !Contains(productId, NamePlaceholder)
    requires c1 != c2
    ensures Resolve(productId, deviceName, Template(c1)) != Resolve(productId, deviceName, Template(c2))
  {
    ResolveTemplate(productId, deviceName, c1);
    ResolveTemplate(productId, deviceName, c2);
    if TopicPath(productId, deviceName, c1) == TopicPath(productId, deviceName, c2) {
      SlashCancel("$sys", Slash(productId, Slash(deviceName, Suffix(c1))), Slash(productId, Slash(deviceName, Suffix(c2))));
      SlashCancel(productId, Slash(deviceName, Suffix(c1)), Slash(deviceName, Suffix(c2)));
      SlashCancel(deviceName, Suffix(c1), Suffix(c2));
      SuffixInjective(c1, c2);
    }
  }

  lemma GetTopicDistinct(deviceName: string, c1: Channel, c2: Channel)
    requires c1 != c2
    ensures GetTopic(deviceName, Template(c1)) != GetTopic(deviceName, Template(c2))
  {
    assert !Contains(ProductId, NamePlaceholder);
    ResolveDistinct(ProductId, deviceName, c1, c2);
  }
}
