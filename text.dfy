/** `translate` of helpers.py: a stored text whose `{key}` placeholders are
    replaced one at a time, in order, by the given values. */
module Text {
  import opened Wrappers

  /** The loaded selector translations, keyed by option name. */
  type Translations = map<string, string>

  /** `pat` occurs in `s` starting at index `i`. */
  predicate OccursAt(pat: string, s: string, i: int) {
    0 <= i && i + |pat| <= |s| && s[i..i + |pat|] == pat
  }

  /** Python's `s.replace(pat, rep)`: scan from the left, replace each
      occurrence and continue after it. */
  function Replace(s: string, pat: string, rep: string): (r: string)
    requires |pat| > 0
    decreases |s|
  {
    if |s| < |pat| then s
    else if s[..|pat|] == pat then rep + Replace(s[|pat|..], pat, rep)
    else [s[0]] + Replace(s[1..], pat, rep)
  }

  /** A text in which the pattern never occurs is left as it is. */
  lemma {:induction false} ReplaceAbsent(s: string, pat: string, rep: string)
    requires |pat| > 0
    requires forall i :: !OccursAt(pat, s, i)
    ensures Replace(s, pat, rep) == s
    decreases |s|
  {
    if |s| >= |pat| {
      assert !OccursAt(pat, s, 0);
      forall i ensures !OccursAt(pat, s[1..], i) {
        if OccursAt(pat, s[1..], i) {
          assert s[1..][i..i + |pat|] == s[i + 1..i + 1 + |pat|];
          assert OccursAt(pat, s, i + 1);
        }
      }
      ReplaceAbsent(s[1..], pat, rep);
    }
  }

  /** The placeholder `{key}`. */
  function Placeholder(key: string): (p: string)
    ensures |p| == |key| + 2 && p[0] == '{'
  {
    "{" + key + "}"
  }

  /** A text without `{` contains no placeholder. */
  lemma NoBraceNoPlaceholder(s: string, key: string, i: int)
    requires '{' !in s
    ensures !OccursAt(Placeholder(key), s, i)
  {
  }

  /** Replacing the placeholder in `a + {key} + b`, where `a` holds no `{`,
      puts the value exactly where the placeholder stood. */
  lemma {:induction false} ReplaceFirstPlaceholder(a: string, key: string, b: string, val: string)
    requires '{' !in a
    ensures Replace(a + Placeholder(key) + b, Placeholder(key), val) == a + val + Replace(b, Placeholder(key), val)
    decreases |a|
  {
    var p := Placeholder(key);
    var s := a + p + b;
    if a == [] {
      assert s == p + b && s[..|p|] == p && s[|p|..] == b;
    } else {
      assert s[0] == a[0] != '{';
      assert s[..|p|] != p by { assert s[..|p|][0] == s[0]; }
      assert s[1..] == a[1..] + p + b;
      ReplaceFirstPlaceholder(a[1..], key, b, val);
      assert a == [a[0]] + a[1..];
    }
  }

  /** The placeholder values, in the order the source's dict gives them. */
  type Placeholders = seq<(string, string)>

  /** The text after the first `|phs|` replacements. */
  function Substitute(s: string, phs: Placeholders): string
    decreases |phs|
  {
    if phs == [] then s
    else
      var last := phs[|phs| - 1];
      Replace(Substitute(s, phs[..|phs| - 1]), Placeholder(last.0), last.1)
  }

  /** A stored text without any `{` comes back unchanged whatever the
      placeholders. */
  lemma {:induction false} SubstituteNoBrace(s: string, phs: Placeholders)
    requires '{' !in s
    ensures Substitute(s, phs) == s
    decreases |phs|
  {
    if phs != [] {
      var last := phs[|phs| - 1];
      SubstituteNoBrace(s, phs[..|phs| - 1]);
      forall i ensures !OccursAt(Placeholder(last.0), s, i) {
        NoBraceNoPlaceholder(s, last.0, i);
      }
      ReplaceAbsent(s, Placeholder(last.0), last.1);
    }
  }

  /** `translate`: KeyError when the key has no translation; the stored text
      itself when there are no placeholders; otherwise the text with each
      placeholder substituted in turn. */
  method Translate(translations: Translations, key: string, phs: Placeholders) returns (r: Result<string>)
    ensures r.Err? <==> key !in translations
    ensures r.Ok? ==> r.value == Substitute(translations[key], phs)
    ensures r.Ok? && phs == [] ==> r.value == translations[key]
  {
    if key !in translations {
      return Err("KeyError");
    }
    var trans := translations[key];
    if phs == [] {
      return Ok(trans);
    }
    for i := 0 to |phs|
      invariant trans == Substitute(translations[key], phs[..i])
    {
      assert phs[..i + 1][..i] == phs[..i];
      trans := Replace(trans, Placeholder(phs[i].0), phs[i].1);
    }
    assert phs[..|phs|] == phs;
    return Ok(trans);
  }

  /** The value of `translate` as a function, for callers that are functions. */
  function Translated(translations: Translations, key: string, phs: Placeholders): (r: Result<string>)
    ensures r.Err? <==> key !in translations
  {
    if key !in translations then Err("KeyError") else Ok(Substitute(translations[key], phs))
  }

  /** A single placeholder after a brace-free prefix is replaced by its value. */
  lemma TranslateOnePlaceholder(translations: Translations, key: string, a: string, name: string, b: string, val: string)
    requires key in translations && translations[key] == a + Placeholder(name) + b
    requires '{' !in a && '{' !in b
    ensures Translated(translations, key, [(name, val)]) == Ok(a + val + b)
  {
    var phs := [(name, val)];
    var s := translations[key];
    assert phs[..|phs| - 1] == [];
    assert Substitute(s, phs) == Replace(s, Placeholder(name), val);
    ReplaceFirstPlaceholder(a, name, b, val);
    forall i ensures !OccursAt(Placeholder(name), b, i) {
      NoBraceNoPlaceholder(b, name, i);
    }
    ReplaceAbsent(b, Placeholder(name), val);
  }
}
