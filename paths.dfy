/** The path builder `_buildPath`: a configurable template in which the language
    placeholder is mandatory and the namespace placeholder optional. */
module Paths {
  import opened Core
  import opened Text

  const LngToken: string := "{{lng}}"
  const NsToken: string := "{{ns}}"

  /** The template used when none is configured. */
  const DefaultTemplate: string := "{{lng}}/{{ns}}.json"

  /** `_buildPath(language, namespace)` for the template currently configured.
      The template is checked on every call, so a template changed after
      construction is caught by the next resolution. Language placeholders are
      substituted first, so a language that itself spells the namespace
      placeholder has it substituted too. */
  function BuildPath(template: string, language: string, namespace: string): (r: Result<string, Error>)
    ensures r.Failure? <==> !exists i :: OccursAt(template, LngToken, i)
    ensures r.Failure? ==> r.error == ConfigError(ConfigMessage)
  {
    ContainsIff(template, LngToken);
    if !Contains(template, LngToken) then Failure(ConfigError(ConfigMessage))
    else Success(ReplaceAll(ReplaceAll(template, LngToken, language), NsToken, namespace))
  }

  /** The namespace placeholder, followed by text without braces, is untouched
      by the language substitution. */
  lemma NsTokenSurvives(c: string, language: string)
    requires '{' !in c
    ensures ReplaceAll(NsToken + c, LngToken, language) == NsToken + c
  {
    var s := NsToken + c;
    assert s[2] == 'n' && s[1] == '{';
    assert !StartsWith(s, LngToken) by {
      if |LngToken| <= |s| { assert s[..|LngToken|][2] != LngToken[2]; }
    }
    assert s[1..][1] == 'n';
    assert !StartsWith(s[1..], LngToken) by {
      if |LngToken| <= |s[1..]| { assert s[1..][..|LngToken|][1] != LngToken[1]; }
    }
    assert s[2..] == "ns}}" + c;
    ReplaceAllFree(s[2..], LngToken, language);
    assert s[1..][1..] == s[2..];
    assert [s[0]] + ([s[1]] + s[2..]) == s;
  }

  /** The language pass of a template `a{{lng}}b{{ns}}c` with brace-free parts. */
  lemma LanguagePass(a: string, b: string, c: string, language: string)
    requires '{' !in a && '{' !in b && '{' !in c
    ensures ReplaceAll(a + LngToken + b + NsToken + c, LngToken, language) == (a + language + b) + (NsToken + c)
  {
    var t := a + LngToken + b + NsToken + c;
    assert t == a + (LngToken + (b + (NsToken + c)));
    calc {
      ReplaceAll(t, LngToken, language);
      { ReplaceAllPrefix(a, LngToken + (b + (NsToken + c)), LngToken, language); }
      a + ReplaceAll(LngToken + (b + (NsToken + c)), LngToken, language);
      { ReplaceAllLeading(b + (NsToken + c), LngToken, language); }
      a + (language + ReplaceAll(b + (NsToken + c), LngToken, language));
      { ReplaceAllPrefix(b, NsToken + c, LngToken, language); }
      a + (language + (b + ReplaceAll(NsToken + c, LngToken, language)));
      { NsTokenSurvives(c, language); }
      a + (language + (b + (NsToken + c)));
      (a + language + b) + (NsToken + c);
    }
  }

  /** The namespace pass over the result of the language pass. */
  lemma NamespacePass(prefix: string, c: string, namespace: string)
    requires '{' !in prefix && '{' !in c
    ensures ReplaceAll(prefix + (NsToken + c), NsToken, namespace) == prefix + namespace + c
  {
    calc {
      ReplaceAll(prefix + (NsToken + c), NsToken, namespace);
      { ReplaceAllPrefix(prefix, NsToken + c, NsToken, namespace); }
      prefix + ReplaceAll(NsToken + c, NsToken, namespace);
      { ReplaceAllLeading(c, NsToken, namespace); }
      prefix + (namespace + ReplaceAll(c, NsToken, namespace));
      { ReplaceAllFree(c, NsToken, namespace); }
      prefix + (namespace + c);
    }
  }

  /** For a template of the shape `a{{lng}}b{{ns}}c` whose literal parts and
      language contain no brace, the path is the template with the language and
      the namespace put in place of their placeholders. */
  lemma BuildPathShape(a: string, b: string, c: string, language: string, namespace: string)
    requires '{' !in a && '{' !in b && '{' !in c && '{' !in language
    ensures BuildPath(a + LngToken + b + NsToken + c, language, namespace)
         == Success(a + language + b + namespace + c)
  {
    var t := a + LngToken + b + NsToken + c;
    assert t[|a|..|a| + |LngToken|] == LngToken;
    assert OccursAt(t, LngToken, |a|);
    ContainsIff(t, LngToken);
    LanguagePass(a, b, c, language);
    NamespacePass(a + language + b, c, namespace);
  }

  /** With the default template a language without braces resolves to
      `<language>/<namespace>.json`. */
  lemma BuildPathDefault(language: string, namespace: string)
    requires '{' !in language
    ensures BuildPath(DefaultTemplate, language, namespace) == Success(language + "/" + namespace + ".json")
  {
    assert DefaultTemplate == "" + LngToken + "/" + NsToken + ".json";
    BuildPathShape("", "/", ".json", language, namespace);
    assert "" + language + "/" + namespace + ".json" == language + "/" + namespace + ".json";
  }

  /** With the default template, distinct (language, namespace) pairs get distinct
      paths as long as languages contain neither a slash nor a brace. */
  lemma {:induction false} BuildPathDefaultInjective(l1: string, n1: string, l2: string, n2: string)
    requires '/' !in l1 && '/' !in l2 && '{' !in l1 && '{' !in l2
    requires BuildPath(DefaultTemplate, l1, n1) == BuildPath(DefaultTemplate, l2, n2)
    ensures l1 == l2 && n1 == n2
  {
    BuildPathDefault(l1, n1);
    BuildPathDefault(l2, n2);
    assert l1 + "/" + n1 + ".json" == l1 + "/" + (n1 + ".json");
    assert l2 + "/" + n2 + ".json" == l2 + "/" + (n2 + ".json");
    SlashSeparated(l1, n1 + ".json", l2, n2 + ".json");
    assert n1 == (n1 + ".json")[..|n1|];
    assert n2 == (n2 + ".json")[..|n2|];
  }

  /** `l + "/" + t` determines `l` and `t` when `l` has no slash. */
  lemma SlashSeparated(l1: string, t1: string, l2: string, t2: string)
    requires '/' !in l1 && '/' !in l2
    requires l1 + "/" + t1 == l2 + "/" + t2
    ensures l1 == l2 && t1 == t2
  {
    var p := l1 + "/" + t1;
    assert p == l1 + ("/" + t1) && p == l2 + ("/" + t2);
    SegmentBeforeSlash(l1, t1);
    SegmentBeforeSlash(l2, t2);
    assert t1 == p[|l1| + 1..];
    assert t2 == p[|l2| + 1..];
  }

  /** The text of `s` before its first slash. */
  function BeforeSlash(s: string): string {
    if s == [] || s[0] == '/' then [] else [s[0]] + BeforeSlash(s[1..])
  }

  lemma {:induction false} SegmentBeforeSlash(l: string, rest: string)
    requires '/' !in l
    ensures BeforeSlash(l + ("/" + rest)) == l
  {
    if l != [] {
      assert (l + ("/" + rest))[1..] == l[1..] + ("/" + rest);
      SegmentBeforeSlash(l[1..], rest);
      assert [l[0]] + l[1..] == l;
    }
  }

  /** Without the slash restriction the default template is not injective:
      two different requests share one path, hence one store entry and one
      cache entry. */
  lemma BuildPathCollision()
    ensures BuildPath(DefaultTemplate, "a/b", "c") == BuildPath(DefaultTemplate, "a", "b/c")
    ensures BuildPath(DefaultTemplate, "a", "b/c").Success?
  {
    BuildPathDefault("a/b", "c");
    BuildPathDefault("a", "b/c");
    assert "a/b" + "/" + "c" + ".json" == "a" + "/" + "b/c" + ".json";
  }

  /** Language placeholders are substituted before namespace placeholders, so a
      language spelling `{{ns}}` ends up holding the namespace. */
  lemma BuildPathLanguageFirst(namespace: string)
    requires '{' !in namespace
    ensures BuildPath(DefaultTemplate, NsToken, namespace)
         == Success(namespace + "/" + namespace + ".json")
  {
    var tail := "/" + (NsToken + ".json");
    var t := DefaultTemplate;
    assert t == LngToken + tail;
    assert OccursAt(t, LngToken, 0);
    ContainsIff(t, LngToken);
    var first := ReplaceAll(t, LngToken, NsToken);
    calc {
      first;
      { ReplaceAllLeading(tail, LngToken, NsToken); }
      NsToken + ReplaceAll(tail, LngToken, NsToken);
      { ReplaceAllPrefix("/", NsToken + ".json", LngToken, NsToken); }
      NsToken + ("/" + ReplaceAll(NsToken + ".json", LngToken, NsToken));
      { NsTokenSurvives(".json", NsToken); }
      NsToken + tail;
    }
    var rest := NsToken + ".json";
    calc {
      ReplaceAll(first, NsToken, namespace);
      { ReplaceAllLeading(tail, NsToken, namespace); }
      namespace + ReplaceAll(tail, NsToken, namespace);
      { ReplaceAllPrefix("/", rest, NsToken, namespace); }
      namespace + ("/" + ReplaceAll(rest, NsToken, namespace));
      { ReplaceAllLeading(".json", NsToken, namespace); }
      namespace + ("/" + (namespace + ReplaceAll(".json", NsToken, namespace)));
      { ReplaceAllFree(".json", NsToken, namespace); }
      namespace + ("/" + (namespace + ".json"));
      namespace + "/" + namespace + ".json";
    }
  }
}
