/** `isVendorQuery` of the chat handler: deliberately naive keyword
    spotting that decides between vendor mode and model mode. */
module Intent {
  import opened Wrappers
  import opened JsText

  const VendorKeywords: seq<string> := [
    "vendor", "vendors", "caterer", "caterers", "venue", "venues", "wedding",
    "photographer", "photographers", "makeup", "decorator", "decor", "dj", "banquet"
  ]

  const CityKeywords: seq<string> := ["mumbai", "bombay"]

  /** Both lists, in the order the source tries them. */
  const Keywords: seq<string> := VendorKeywords + CityKeywords

  /** `keys.some((k) => t.includes(k))` */
  function SomeIncluded(t: string, keys: seq<string>): (r: bool)
    ensures r <==> exists i :: 0 <= i < |keys| && Contains(t, keys[i])
  {
    if keys == [] then false
    else Contains(t, keys[0]) || SomeIncluded(t, keys[1..])
  }

  /** `a.some(p) || b.some(p)` is `(a + b).some(p)`. */
  lemma SomeIncludedAppend(t: string, a: seq<string>, b: seq<string>)
    ensures SomeIncluded(t, a + b) <==> SomeIncluded(t, a) || SomeIncluded(t, b)
  {
    if SomeIncluded(t, a) {
      var i :| 0 <= i < |a| && Contains(t, a[i]);
      assert (a + b)[i] == a[i];
    }
    if SomeIncluded(t, b) {
      var i :| 0 <= i < |b| && Contains(t, b[i]);
      assert (a + b)[|a| + i] == b[i];
    }
    if SomeIncluded(t, a + b) {
      var i :| 0 <= i < |a + b| && Contains(t, (a + b)[i]);
      if i >= |a| {
        assert (a + b)[i] == b[i - |a|];
      }
    }
  }

  /** The lower-cased text contains one of the keywords. */
  function MentionsKeyword(t: string): (r: bool)
    ensures r <==> exists i :: 0 <= i < |Keywords| && Contains(t, Keywords[i])
  {
    SomeIncludedAppend(t, VendorKeywords, CityKeywords);
    SomeIncluded(t, VendorKeywords) || SomeIncluded(t, CityKeywords)
  }

  /** True exactly when the text is present and non-empty and its lower-cased
      form contains a category or a city keyword as a plain substring. */
  function IsVendorQuery(text: Option<string>): (r: bool)
    ensures text.None? || text.value == "" ==> !r
    ensures text.Some? && text.value != "" ==>
      (r <==> exists i :: 0 <= i < |Keywords| && Contains(ToLower(text.value), Keywords[i]))
  {
    if text.None? || text.value == "" then false
    else MentionsKeyword(ToLower(text.value))
  }

  /** The plural keywords and "decorator" add nothing: each contains a
      shorter keyword. This is the smallest list with the same verdicts. */
  const CoreKeywords: seq<string> := [
    "vendor", "caterer", "venue", "wedding", "photographer", "makeup", "decor",
    "dj", "banquet", "mumbai", "bombay"
  ]

  /** Keyword `i` is core keyword `j` followed by `suffix`. */
  lemma CoreOf(i: nat) returns (j: nat, suffix: string)
    requires i < |Keywords|
    ensures j < |CoreKeywords| && Keywords[i] == CoreKeywords[j] + suffix
  {
    if i < 8 {
      j, suffix := CoreOfFront(i);
    } else {
      j, suffix := CoreOfBack(i);
    }
  }

  lemma CoreOfFront(i: nat) returns (j: nat, suffix: string)
    requires i < 8
    ensures j < |CoreKeywords| && Keywords[i] == CoreKeywords[j] + suffix
  {
    if i == 0 {
      j, suffix := 0, "";
      assert Keywords[i] == CoreKeywords[j] + suffix;
    } else if i == 1 {
      j, suffix := 0, "s";
      assert Keywords[i] == CoreKeywords[j] + suffix;
    } else if i == 2 {
      j, suffix := 1, "";
      assert Keywords[i] == CoreKeywords[j] + suffix;
    } else if i == 3 {
      j, suffix := 1, "s";
      assert Keywords[i] == CoreKeywords[j] + suffix;
    } else if i == 4 {
      j, suffix := 2, "";
      assert Keywords[i] == CoreKeywords[j] + suffix;
    } else if i == 5 {
      j, suffix := 2, "s";
      assert Keywords[i] == CoreKeywords[j] + suffix;
    } else if i == 6 {
      j, suffix := 3, "";
      assert Keywords[i] == CoreKeywords[j] + suffix;
    } else {
      j, suffix := 4, "";
      assert Keywords[i] == CoreKeywords[j] + suffix;
    }
  }

  lemma CoreOfBack(i: nat) returns (j: nat, suffix: string)
    requires 8 <= i < |Keywords|
    ensures j < |CoreKeywords| && Keywords[i] == CoreKeywords[j] + suffix
  {
    if i == 8 {
      j, suffix := 4, "s";
      assert Keywords[i] == CoreKeywords[j] + suffix;
    } else if i == 9 {
      j, suffix := 5, "";
      assert Keywords[i] == CoreKeywords[j] + suffix;
    } else if i == 10 {
      j, suffix := 6, "ator";
      assert Keywords[i] == CoreKeywords[j] + suffix;
    } else if i == 11 {
      j, suffix := 6, "";
      assert Keywords[i] == CoreKeywords[j] + suffix;
    } else if i == 12 {
      j, suffix := 7, "";
      assert Keywords[i] == CoreKeywords[j] + suffix;
    } else if i == 13 {
      j, suffix := 8, "";
      assert Keywords[i] == CoreKeywords[j] + suffix;
    } else if i == 14 {
      j, suffix := 9, "";
      assert Keywords[i] == CoreKeywords[j] + suffix;
    } else {
      j, suffix := 10, "";
      assert Keywords[i] == CoreKeywords[j] + suffix;
    }
  }

  /** Core keyword `j` is keyword `i`. */
  lemma KeywordOf(j: nat) returns (i: nat)
    requires j < |CoreKeywords|
    ensures i < |Keywords| && Keywords[i] == CoreKeywords[j]
  {
    if j == 0 {
      i := 0;
      assert Keywords[i] == CoreKeywords[j];
    } else if j == 1 {
      i := 2;
      assert Keywords[i] == CoreKeywords[j];
    } else if j == 2 {
      i := 4;
      assert Keywords[i] == CoreKeywords[j];
    } else if j == 3 {
      i := 6;
      assert Keywords[i] == CoreKeywords[j];
    } else if j == 4 {
      i := 7;
      assert Keywords[i] == CoreKeywords[j];
    } else if j == 5 {
      i := 9;
      assert Keywords[i] == CoreKeywords[j];
    } else if j == 6 {
      i := 11;
      assert Keywords[i] == CoreKeywords[j];
    } else if j == 7 {
      i := 12;
      assert Keywords[i] == CoreKeywords[j];
    } else if j == 8 {
      i := 13;
      assert Keywords[i] == CoreKeywords[j];
    } else if j == 9 {
      i := 14;
      assert Keywords[i] == CoreKeywords[j];
    } else {
      i := 15;
      assert Keywords[i] == CoreKeywords[j];
    }
  }

  lemma {:induction false} CoreKeywordsSuffice(text: string)
    requires text != ""
    ensures IsVendorQuery(Some(text)) <==> SomeIncluded(ToLower(text), CoreKeywords)
  {
    var t := ToLower(text);
    if IsVendorQuery(Some(text)) {
      var i :| 0 <= i < |Keywords| && Contains(t, Keywords[i]);
      var j, suffix := CoreOf(i);
      ContainsPrefixOfPattern(t, CoreKeywords[j], suffix);
    } else {
      forall j | 0 <= j < |CoreKeywords|
        ensures !Contains(t, CoreKeywords[j])
      {
        var i := KeywordOf(j);
      }
    }
  }

  lemma {:induction false} ToLowerAppend(a: string, b: string)
    ensures ToLower(a + b) == ToLower(a) + ToLower(b)
  {
    var l, r := ToLower(a + b), ToLower(a) + ToLower(b);
    forall i | 0 <= i < |a + b|
      ensures l[i] == r[i]
    {
      if i < |a| {
        assert (a + b)[i] == a[i];
      } else {
        assert (a + b)[i] == b[i - |a|];
      }
    }
  }

  /** A keyword written in any casing, anywhere in the text, makes it a
      vendor query. */
  lemma KeywordInAnyCase(before: string, word: string, after: string, i: nat)
    requires i < |Keywords| && ToLower(word) == Keywords[i]
    requires word != ""
    ensures IsVendorQuery(Some(before + word + after))
  {
    var text := before + word + after;
    ToLowerAppend(before + word, after);
    ToLowerAppend(before, word);
    assert ToLower(text) == ToLower(before) + Keywords[i] + ToLower(after);
    ContainsInfix(ToLower(before), Keywords[i], ToLower(after));
    assert Contains(ToLower(text), Keywords[i]);
    assert MentionsKeyword(ToLower(text));
  }

  /** "djembe" is treated as a vendor query: there are no word boundaries. */
  lemma NoWordBoundaries()
    ensures IsVendorQuery(Some("djembe"))
  {
    assert Keywords[12] == "dj";
    assert ToLower("dj") == "dj";
    assert "djembe" == "" + "dj" + "embe";
    KeywordInAnyCase("", "dj", "embe", 12);
  }

  /** Upper-case keywords count, and so do the city names. */
  lemma MixedCaseKeyword()
    ensures IsVendorQuery(Some("Need a DJ in Bombay"))
  {
    assert Keywords[12] == "dj";
    assert ToLower("DJ") == "dj";
    assert "Need a DJ in Bombay" == "Need a " + "DJ" + " in Bombay";
    KeywordInAnyCase("Need a ", "DJ", " in Bombay", 12);
  }
}
