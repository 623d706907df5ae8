/**
 * The Content-Security-Policy header the gateway sets on every response
 * (src/server/index.ts:41-77).
 *
 * The two policies are kept as lists of directives, each a name and its
 * source list; the header value is their serialisation, directives joined
 * by "; " and the words of a directive by single spaces, which spells out
 * exactly the eight strings of each branch of the source. The parser is
 * the one of section 2.2.1 of W3C Content Security Policy Level 3 ("parse
 * a serialized CSP"), so that what a browser reads out of the header can be
 * stated: the `frame-ancestors` directive (section 6.4.2 of the same
 * specification) and `frame-src` name the Shopify admin origins and
 * nothing else, in both modes.
 */
module Csp {
  import opened Wrappers
  import opened Strings
  import opened Config

  datatype Directive = Directive(name: string, sources: seq<string>)

  type Policy = seq<Directive>

  datatype Mode = Development | Production

  /** The only origins allowed to frame the app, and the only ones it may frame. */
  const AdminOrigins: seq<string> := ["https://admin.shopify.com", "https://*.myshopify.com"]

  /** The policy served when the public host is an ngrok tunnel or NODE_ENV is "development". */
  const DevelopmentPolicy: Policy := [
    Directive("default-src", ["'self'", "https:"]),
    Directive("img-src", ["'self'", "data:", "https:"]),
    Directive("style-src", ["'self'", "'unsafe-inline'", "https:"]),
    Directive("script-src", ["'self'", "'unsafe-inline'", "'unsafe-eval'", "https:"]),
    Directive("font-src", ["'self'", "data:", "https://assets.ngrok.com", "https://cdn.ngrok.com", "https:"]),
    Directive("connect-src", ["'self'", "https:", "wss:"]),
    Directive("frame-ancestors", AdminOrigins),
    Directive("frame-src", AdminOrigins)
  ]

  /** The stricter policy served otherwise: no inline or eval'd script, no ngrok font hosts. */
  const ProductionPolicy: Policy := [
    Directive("default-src", ["'self'", "https:"]),
    Directive("img-src", ["'self'", "data:", "https:"]),
    Directive("style-src", ["'self'", "'unsafe-inline'", "https:"]),
    Directive("script-src", ["'self'", "https:"]),
    Directive("font-src", ["'self'", "data:", "https:"]),
    Directive("connect-src", ["'self'", "https:", "wss:"]),
    Directive("frame-ancestors", AdminOrigins),
    Directive("frame-src", AdminOrigins)
  ]

  function ModeFor(env: Env): Mode {
    if IsDevelopmentLike(env) then Development else Production
  }

  function PolicyFor(mode: Mode): Policy {
    match mode
    case Development => DevelopmentPolicy
    case Production => ProductionPolicy
  }

  // ---------------------------------------------------------------------
  // Serialisation
  // ---------------------------------------------------------------------

  /** A directive as text: its name and sources separated by single spaces. */
  function SerializeDirective(d: Directive): string {
    Join([d.name] + d.sources, " ")
  }

  function SerializeDirectives(p: Policy): seq<string> {
    seq(|p|, k requires 0 <= k < |p| => SerializeDirective(p[k]))
  }

  /** The header value: the directives' texts joined by "; ". */
  function SerializePolicy(p: Policy): string {
    Join(SerializeDirectives(p), "; ")
  }

  /** The value of the Content-Security-Policy header the first middleware sets. */
  function HeaderValue(env: Env): string {
    SerializePolicy(PolicyFor(ModeFor(env)))
  }

  // ---------------------------------------------------------------------
  // Parsing (section 2.2.1 of CSP Level 3)
  // ---------------------------------------------------------------------

  predicate HasDirective(p: Policy, name: string) {
    exists k :: 0 <= k < |p| && p[k].name == name
  }

  /**
   * Processes the `;`-separated tokens in order: each is stripped of ASCII
   * whitespace and skipped when empty or not ASCII; its first word, lower-
   * cased, is the directive name and the remaining words are its value; a
   * directive whose name was already seen is ignored.
   */
  function ParseTokens(tokens: seq<string>, acc: Policy): Policy
    decreases |tokens|
  {
    if tokens == [] then acc
    else
      var t := StripAsciiWhitespace(tokens[0]);
      if t == [] || !IsAsciiString(t) then ParseTokens(tokens[1..], acc)
      else
        var words := SplitOnAsciiWhitespace(t);
        assert words != [] by { assert !IsAsciiWhitespace(t[0]); }
        var name := AsciiLower(words[0]);
        if HasDirective(acc, name) then ParseTokens(tokens[1..], acc)
        else ParseTokens(tokens[1..], acc + [Directive(name, words[1..])])
  }

  /** What a user agent reads out of a serialised policy. */
  function ParsePolicy(s: string): Policy {
    ParseTokens(StrictSplit(s, ';'), [])
  }

  /** The value of the first directive called `name`, if any. */
  function DirectiveValue(p: Policy, name: string): Option<seq<string>>
    decreases |p|
  {
    if p == [] then None
    else if p[0].name == name then Some(p[0].sources)
    else DirectiveValue(p[1..], name)
  }

  // ---------------------------------------------------------------------
  // Well-formed policies round-trip through the header
  // ---------------------------------------------------------------------

  /** A non-empty word of printable ASCII characters other than `;`. */
  predicate IsPolicyWord(s: string) {
    |s| > 0 && forall k :: 0 <= k < |s| ==> '!' <= s[k] <= '~' && s[k] != ';'
  }

  /** A directive name as section 2.2 of CSP Level 3 writes it, in lower case: letters and dashes. */
  predicate IsDirectiveName(s: string) {
    |s| > 0 && forall k :: 0 <= k < |s| ==> 'a' <= s[k] <= 'z' || s[k] == '-'
  }

  lemma DirectiveNameIsWord(s: string)
    requires IsDirectiveName(s)
    ensures IsPolicyWord(s) && HasNoAsciiUpper(s)
  {
  }

  predicate WellFormedDirective(d: Directive) {
    && IsDirectiveName(d.name)
    && forall k :: 0 <= k < |d.sources| ==> IsPolicyWord(d.sources[k])
  }

  predicate WellFormedPolicy(p: Policy) {
    && (forall k :: 0 <= k < |p| ==> WellFormedDirective(p[k]))
    && (forall i, j :: 0 <= i < j < |p| ==> p[i].name != p[j].name)
  }

  /** `texts` joined by "; " is `texts` with a space before all but the first, joined by ";". */
  function SpaceEach(texts: seq<string>): seq<string> {
    seq(|texts|, k requires 0 <= k < |texts| => " " + texts[k])
  }

  lemma {:induction false} JoinSemicolonSpace(pre: string, texts: seq<string>)
    requires |texts| >= 1
    ensures pre + Join(texts, "; ") == Join([pre + texts[0]] + SpaceEach(texts[1..]), ";")
    decreases |texts|
  {
    if |texts| > 1 {
      var rest := texts[1..];
      JoinSemicolonSpace(" ", rest);
      assert [" " + rest[0]] + SpaceEach(rest[1..]) == SpaceEach(rest);
      var tokens := [pre + texts[0]] + SpaceEach(rest);
      assert tokens[1..] == SpaceEach(rest);
      assert pre + Join(texts, "; ") == (pre + texts[0]) + ";" + (" " + Join(rest, "; "));
    } else {
      assert [pre + texts[0]] + SpaceEach(texts[1..]) == [pre + texts[0]];
    }
  }

  /** The text of a well-formed directive: ASCII, without `;`, with non-whitespace ends, and its words. */
  lemma DirectiveText(d: Directive)
    requires WellFormedDirective(d)
    ensures var t := SerializeDirective(d);
            && |t| > 0 && !IsAsciiWhitespace(t[0]) && !IsAsciiWhitespace(t[|t| - 1])
            && IsAsciiString(t) && ';' !in t
            && SplitOnAsciiWhitespace(t) == [d.name] + d.sources
  {
    var words := [d.name] + d.sources;
    var t := Join(words, " ");
    DirectiveNameIsWord(d.name);
    assert forall k :: 0 <= k < |words| ==> IsPolicyWord(words[k]);
    SplitJoinWords(words);
    JoinEnds(words);
    forall k | 0 <= k < |t| ensures t[k] != ';' && t[k] as int < 128 {
      JoinChars(words, " ", t[k]);
    }
  }

  /** A join of policy words begins and ends with a character of a word. */
  lemma {:induction false} JoinEnds(words: seq<string>)
    requires |words| >= 1
    requires forall k :: 0 <= k < |words| ==> IsPolicyWord(words[k])
    ensures var t := Join(words, " ");
            |t| > 0 && !IsAsciiWhitespace(t[0]) && !IsAsciiWhitespace(t[|t| - 1])
    decreases |words|
  {
    if |words| > 1 {
      JoinEnds(words[1..]);
      assert Join(words, " ") == words[0] + " " + Join(words[1..], " ");
    }
  }

  /** One step of the parser over the text of a well-formed directive whose name is new. */
  lemma ParseTokenStep(tokens: seq<string>, acc: Policy, d: Directive)
    requires tokens != [] && StripAsciiWhitespace(tokens[0]) == SerializeDirective(d)
    requires WellFormedDirective(d) && !HasDirective(acc, d.name)
    ensures ParseTokens(tokens, acc) == ParseTokens(tokens[1..], acc + [d])
  {
    DirectiveText(d);
    DirectiveNameIsWord(d.name);
    assert AsciiLower(d.name) == d.name;
  }

  /** No directive of `acc` shares its name with a directive of `p`. */
  predicate NamesDisjoint(acc: Policy, p: Policy) {
    forall i, j :: 0 <= i < |acc| && 0 <= j < |p| ==> acc[i].name != p[j].name
  }

  lemma NamesDisjointStep(acc: Policy, p: Policy)
    requires |p| > 0 && NamesDisjoint(acc, p) && WellFormedPolicy(p)
    ensures !HasDirective(acc, p[0].name)
    ensures NamesDisjoint(acc + [p[0]], p[1..]) && WellFormedPolicy(p[1..])
  {
    var acc' := acc + [p[0]];
    forall i, j | 0 <= i < |acc'| && 0 <= j < |p[1..]| ensures acc'[i].name != p[1..][j].name {
      assert p[1..][j] == p[j + 1];
      if i == |acc| { assert acc'[i] == p[0]; } else { assert acc'[i] == acc[i]; }
    }
  }

  lemma AppendHead<T>(a: seq<T>, p: seq<T>)
    requires |p| > 0
    ensures a + [p[0]] + p[1..] == a + p
  {
    assert [p[0]] + p[1..] == p;
  }

  lemma {:induction false} ParseTokensSerialized(tokens: seq<string>, acc: Policy, p: Policy)
    requires |tokens| == |p|
    requires forall k :: 0 <= k < |p| ==> StripAsciiWhitespace(tokens[k]) == SerializeDirective(p[k])
    requires WellFormedPolicy(p) && NamesDisjoint(acc, p)
    ensures ParseTokens(tokens, acc) == acc + p
    decreases |tokens|
  {
    if tokens != [] {
      NamesDisjointStep(acc, p);
      ParseTokenStep(tokens, acc, p[0]);
      ParseTokensSerialized(tokens[1..], acc + [p[0]], p[1..]);
      AppendHead(acc, p);
    } else {
      assert acc + p == acc;
    }
  }

  /** Text without semicolons or outer whitespace, after at most one space, strips back to itself. */
  lemma PaddedText(pad: string, t: string)
    requires pad == "" || pad == " "
    requires |t| > 0 && !IsAsciiWhitespace(t[0]) && !IsAsciiWhitespace(t[|t| - 1]) && ';' !in t
    ensures ';' !in pad + t
    ensures StripAsciiWhitespace(pad + t) == t
  {
    assert forall k :: 0 <= k < |pad| ==> IsAsciiWhitespace(pad[k]);
    TrimPadded(pad, t, "", IsAsciiWhitespace);
    assert pad + t + "" == pad + t;
  }

  /** A directive's text after at most one space is a token the parser strips back to that text. */
  lemma PaddedDirective(pad: string, d: Directive)
    requires pad == "" || pad == " "
    requires WellFormedDirective(d)
    ensures ';' !in pad + SerializeDirective(d)
    ensures StripAsciiWhitespace(pad + SerializeDirective(d)) == SerializeDirective(d)
  {
    DirectiveText(d);
    PaddedText(pad, SerializeDirective(d));
  }

  /** A well-formed policy is read back from its header exactly as it was written. */
  lemma ParseSerializeRoundTrip(p: Policy)
    requires WellFormedPolicy(p)
    ensures ParsePolicy(SerializePolicy(p)) == p
  {
    var texts := SerializeDirectives(p);
    if p == [] {
      assert SerializePolicy(p) == "";
      assert StrictSplit("", ';') == [""];
    } else {
      var tokens := [texts[0]] + SpaceEach(texts[1..]);
      JoinSemicolonSpace("", texts);
      assert "" + Join(texts, "; ") == Join(texts, "; ");
      assert "" + texts[0] == texts[0];
      forall k | 0 <= k < |p|
        ensures ';' !in tokens[k] && StripAsciiWhitespace(tokens[k]) == SerializeDirective(p[k])
      {
        if k == 0 {
          PaddedDirective("", p[0]);
          assert tokens[0] == "" + texts[0];
        } else {
          assert tokens[k] == " " + texts[k];
          PaddedDirective(" ", p[k]);
        }
      }
      StrictSplitJoin(tokens, ';');
      ParseTokensSerialized(tokens, [], p);
      assert [] + p == p;
    }
  }

  /** In a policy with distinct names, the value of a directive is its own source list. */
  lemma {:induction false} DirectiveValueAt(p: Policy, k: nat)
    requires k < |p|
    requires forall i, j :: 0 <= i < j < |p| ==> p[i].name != p[j].name
    ensures DirectiveValue(p, p[k].name) == Some(p[k].sources)
    decreases k
  {
    if k > 0 {
      DirectiveValueAt(p[1..], k - 1);
    }
  }

  // ---------------------------------------------------------------------
  // The two policies
  // ---------------------------------------------------------------------

  lemma SourceWords()
    ensures IsPolicyWord("'self'") && IsPolicyWord("https:") && IsPolicyWord("data:") && IsPolicyWord("wss:")
    ensures IsPolicyWord("'unsafe-inline'") && IsPolicyWord("'unsafe-eval'")
  {
  }

  lemma NgrokHostWords()
    ensures IsPolicyWord("https://assets.ngrok.com") && IsPolicyWord("https://cdn.ngrok.com")
  {
  }

  lemma AdminHostWords()
    ensures IsPolicyWord("https://admin.shopify.com") && IsPolicyWord("https://*.myshopify.com")
  {
  }

  lemma NamesAreDirectiveNames()
    ensures IsDirectiveName("default-src") && IsDirectiveName("img-src") && IsDirectiveName("style-src")
    ensures IsDirectiveName("script-src") && IsDirectiveName("font-src") && IsDirectiveName("connect-src")
    ensures IsDirectiveName("frame-ancestors") && IsDirectiveName("frame-src")
  {
  }

  /** The directive names both policies use, in order. */
  const DirectiveNames: seq<string> :=
    ["default-src", "img-src", "style-src", "script-src", "font-src", "connect-src", "frame-ancestors", "frame-src"]

  lemma DirectiveNamesDistinct()
    ensures forall i, j :: 0 <= i < j < |DirectiveNames| ==> DirectiveNames[i] != DirectiveNames[j]
  {
    forall i, j | 0 <= i < j < |DirectiveNames|
      ensures DirectiveNames[i] != DirectiveNames[j]
    {
      var a, b := DirectiveNames[i], DirectiveNames[j];
      if |a| == |b| {
        assert a[0] != b[0];
      }
    }
  }

  lemma NamesOf(mode: Mode)
    ensures |PolicyFor(mode)| == |DirectiveNames|
    ensures forall k :: 0 <= k < |DirectiveNames| ==> PolicyFor(mode)[k].name == DirectiveNames[k]
  {
  }

  /** The directives the two policies share are well formed. */
  lemma SharedDirectivesWellFormed(mode: Mode)
    ensures forall k :: 0 <= k < |PolicyFor(mode)| && k != 3 && k != 4 ==> WellFormedDirective(PolicyFor(mode)[k])
  {
    SourceWords();
    AdminHostWords();
    NamesAreDirectiveNames();
    var p := PolicyFor(mode);
    assert WellFormedDirective(p[0]) && WellFormedDirective(p[1]) && WellFormedDirective(p[2]);
    assert WellFormedDirective(p[5]) && WellFormedDirective(p[6]) && WellFormedDirective(p[7]);
  }

  /** `script-src` and `font-src`, the directives in which the policies differ, are well formed. */
  lemma ScriptAndFontWellFormed(mode: Mode)
    ensures |PolicyFor(mode)| == 8
    ensures WellFormedDirective(PolicyFor(mode)[3]) && WellFormedDirective(PolicyFor(mode)[4])
  {
    SourceWords();
    NgrokHostWords();
    NamesAreDirectiveNames();
  }

  lemma DirectivesWellFormed(mode: Mode)
    ensures forall k :: 0 <= k < |PolicyFor(mode)| ==> WellFormedDirective(PolicyFor(mode)[k])
  {
    SharedDirectivesWellFormed(mode);
    ScriptAndFontWellFormed(mode);
  }

  /** Both policies are well formed, so each is read back from its header unchanged. */
  lemma PoliciesWellFormed(mode: Mode)
    ensures WellFormedPolicy(PolicyFor(mode))
  {
    DirectivesWellFormed(mode);
    NamesOf(mode);
    DirectiveNamesDistinct();
  }

  /** What a user agent reads out of the header is the policy of the selected mode. */
  lemma ParsedHeader(env: Env)
    ensures ParsePolicy(HeaderValue(env)) == PolicyFor(ModeFor(env))
  {
    PoliciesWellFormed(ModeFor(env));
    ParseSerializeRoundTrip(PolicyFor(ModeFor(env)));
  }

  /**
   * The security invariant: whatever the environment, the header's
   * `frame-ancestors` and `frame-src` directives list exactly the Shopify
   * admin origins.
   */
  lemma FramingOnlyByShopifyAdmin(env: Env)
    ensures DirectiveValue(ParsePolicy(HeaderValue(env)), "frame-ancestors") == Some(AdminOrigins)
    ensures DirectiveValue(ParsePolicy(HeaderValue(env)), "frame-src") == Some(AdminOrigins)
    ensures AdminOrigins == ["https://admin.shopify.com", "https://*.myshopify.com"]
  {
    var p := PolicyFor(ModeFor(env));
    ParsedHeader(env);
    PoliciesWellFormed(ModeFor(env));
    DirectiveValueAt(p, 6);
    DirectiveValueAt(p, 7);
  }

  /**
   * `script-src` allows inline and eval'd script, and `font-src` the ngrok
   * font hosts, exactly when the environment is development-like.
   */
  lemma UnsafeSourcesOnlyInDevelopment(env: Env)
    ensures var script := DirectiveValue(ParsePolicy(HeaderValue(env)), "script-src");
            && script.Some?
            && ("'unsafe-inline'" in script.value <==> IsDevelopmentLike(env))
            && ("'unsafe-eval'" in script.value <==> IsDevelopmentLike(env))
    ensures var font := DirectiveValue(ParsePolicy(HeaderValue(env)), "font-src");
            && font.Some?
            && ("https://assets.ngrok.com" in font.value <==> IsDevelopmentLike(env))
            && ("https://cdn.ngrok.com" in font.value <==> IsDevelopmentLike(env))
  {
    var p := PolicyFor(ModeFor(env));
    ParsedHeader(env);
    PoliciesWellFormed(ModeFor(env));
    DirectiveValueAt(p, 3);
    DirectiveValueAt(p, 4);
    ScriptAndFontSources(ModeFor(env));
  }

  /** The sources that set the two modes apart, read off each policy. */
  lemma ScriptAndFontSources(mode: Mode)
    ensures |PolicyFor(mode)| == 8
    ensures PolicyFor(mode)[3].name == "script-src" && PolicyFor(mode)[4].name == "font-src"
    ensures "'unsafe-inline'" in PolicyFor(mode)[3].sources <==> mode == Development
    ensures "'unsafe-eval'" in PolicyFor(mode)[3].sources <==> mode == Development
    ensures "https://assets.ngrok.com" in PolicyFor(mode)[4].sources <==> mode == Development
    ensures "https://cdn.ngrok.com" in PolicyFor(mode)[4].sources <==> mode == Development
  {
  }

  /** The two modes differ only in `script-src` and `font-src`. */
  lemma PoliciesDifferOnlyInScriptAndFont()
    ensures |DevelopmentPolicy| == |ProductionPolicy|
    ensures forall k :: 0 <= k < |DevelopmentPolicy| ==>
              DevelopmentPolicy[k].name == ProductionPolicy[k].name
              && (DevelopmentPolicy[k].sources == ProductionPolicy[k].sources
                  <==> DevelopmentPolicy[k].name !in ["script-src", "font-src"])
  {
  }

  /** The header carries the development policy exactly when the environment is development-like. */
  lemma DevelopmentHeaderIff(env: Env)
    ensures HeaderValue(env) == SerializePolicy(DevelopmentPolicy) <==> IsDevelopmentLike(env)
  {
    if HeaderValue(env) == SerializePolicy(DevelopmentPolicy) && !IsDevelopmentLike(env) {
      PoliciesWellFormed(Development);
      PoliciesWellFormed(Production);
      ParseSerializeRoundTrip(DevelopmentPolicy);
      ParseSerializeRoundTrip(ProductionPolicy);
    }
  }
}
