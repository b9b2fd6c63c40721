/**
 * Name derivation of `create_feature_structure`: from the raw feature name the
 * script derives the class form (`str.title()` with the underscores removed),
 * the file form (`str.lower()`) and the base path `lib/features/<name>`.
 *
 * Case mapping is modelled for ASCII letters only; every other character is
 * treated as uncased and passes through `Lower` and `Title` unchanged.
 */
module Names {

  predicate IsUpper(c: char) { 'A' <= c <= 'Z' }

  predicate IsLower(c: char) { 'a' <= c <= 'z' }

  /** A character that has case (an ASCII letter). */
  predicate IsCased(c: char) { IsUpper(c) || IsLower(c) }

  function ToLower(c: char): (r: char)
    ensures !IsUpper(r)
    ensures IsCased(r) <==> IsCased(c)
    ensures !IsCased(c) ==> r == c
    ensures IsLower(c) ==> r == c
  {
    if IsUpper(c) then (c as int + 32) as char else c
  }

  function ToUpper(c: char): (r: char)
    ensures !IsLower(r)
    ensures IsCased(r) <==> IsCased(c)
    ensures !IsCased(c) ==> r == c
    ensures IsUpper(c) ==> r == c
  {
    if IsLower(c) then (c as int - 32) as char else c
  }

  /** `str.lower()`: every letter lowercased, everything else kept. */
  function Lower(s: string): (r: string)
    ensures |r| == |s|
    ensures forall i :: 0 <= i < |s| ==> r[i] == ToLower(s[i])
  {
    if s == [] then [] else [ToLower(s[0])] + Lower(s[1..])
  }

  /**
   * The per-character loop of `str.title()`: a cased character is lowercased
   * when the character before it was cased and title-cased (for ASCII:
   * uppercased) otherwise; `previousIsCased` is that flag on entry.
   */
  function TitleFrom(s: string, previousIsCased: bool): (r: string)
    ensures |r| == |s|
  {
    if s == [] then []
    else
      [if previousIsCased then ToLower(s[0]) else ToUpper(s[0])]
      + TitleFrom(s[1..], IsCased(s[0]))
  }

  /** `str.title()` */
  function Title(s: string): string
  {
    TitleFrom(s, false)
  }

  /**
   * What `str.title()` promises, position by position: a letter is uppercased
   * when it is first or follows a non-letter, and lowercased otherwise.
   */
  function TitledAt(s: string, i: nat): char
    requires i < |s|
  {
    if i > 0 && IsCased(s[i - 1]) then ToLower(s[i]) else ToUpper(s[i])
  }

  /** `str.replace('_', '')` */
  function RemoveUnderscores(s: string): (r: string)
    ensures '_' !in r
    ensures |r| <= |s|
  {
    if s == [] then []
    else (if s[0] == '_' then [] else [s[0]]) + RemoveUnderscores(s[1..])
  }

  /** `feature_class`: the class form of the feature name. */
  function ClassForm(featureName: string): (r: string)
    ensures '_' !in r
    ensures |r| <= |featureName|
  {
    RemoveUnderscores(Title(featureName))
  }

  /** `feature_name_snake_case`: the file form of the feature name. */
  function FileForm(featureName: string): (r: string)
    ensures |r| == |featureName|
    ensures forall i :: 0 <= i < |r| ==> !IsUpper(r[i])
  {
    Lower(featureName)
  }

  /** `base_path`: built from the raw feature name, not from its file form. */
  function BasePath(featureName: string): (r: string)
    ensures |r| == |featureName| + 13
    ensures r[..13] == "lib/features/" && r[13..] == featureName
  {
    "lib/features/" + featureName
  }

  /** Lowercasing keeps every `/` where it was and adds none. */
  lemma SlashKept(featureName: string)
    ensures '/' in FileForm(featureName) <==> '/' in featureName
  {
    var r := FileForm(featureName);
    forall i | 0 <= i < |r| ensures r[i] == '/' <==> featureName[i] == '/' {
      assert r[i] == ToLower(featureName[i]);
    }
    if '/' in r {
      var i :| 0 <= i < |r| && r[i] == '/';
      assert featureName[i] == '/';
    }
    if '/' in featureName {
      var i :| 0 <= i < |featureName| && featureName[i] == '/';
      assert r[i] == '/';
    }
  }

  lemma {:induction false} TitleFromAt(s: string, previousIsCased: bool, i: nat)
    requires i < |s|
    ensures TitleFrom(s, previousIsCased)[i] ==
              if i == 0 then (if previousIsCased then ToLower(s[0]) else ToUpper(s[0]))
              else TitledAt(s, i)
  {
    if i > 0 {
      TitleFromAt(s[1..], IsCased(s[0]), i - 1);
    }
  }

  /** `Title` keeps the length and maps every position as `TitledAt` says. */
  lemma TitleSpec(s: string)
    ensures |Title(s)| == |s|
    ensures forall i :: 0 <= i < |s| ==> Title(s)[i] == TitledAt(s, i)
  {
    forall i | 0 <= i < |s|
      ensures Title(s)[i] == TitledAt(s, i)
    {
      TitleFromAt(s, false, i);
    }
  }

  lemma {:induction false} RemoveUnderscoresAppend(a: string, b: string)
    ensures RemoveUnderscores(a + b) == RemoveUnderscores(a) + RemoveUnderscores(b)
  {
    if a != [] {
      assert (a + b)[1..] == a[1..] + b;
      RemoveUnderscoresAppend(a[1..], b);
    } else {
      assert a + b == b;
    }
  }

  /** A name without underscores passes through `RemoveUnderscores` unchanged. */
  lemma {:induction false} RemoveUnderscoresNoop(s: string)
    requires '_' !in s
    ensures RemoveUnderscores(s) == s
  {
    if s != [] {
      assert s[0] in s;
      assert forall c :: c in s[1..] ==> c in s;
      RemoveUnderscoresNoop(s[1..]);
    }
  }

  /**
   * The class form is the title-cased name, position by position as `TitledAt`
   * says, with every underscore dropped.
   */
  lemma ClassFormSpec(featureName: string)
    ensures ClassForm(featureName) ==
              RemoveUnderscores(seq(|featureName|, i requires 0 <= i < |featureName| => TitledAt(featureName, i)))
  {
    TitleSpec(featureName);
    assert Title(featureName) ==
             seq(|featureName|, i requires 0 <= i < |featureName| => TitledAt(featureName, i));
  }

  lemma {:induction false} LowerTitleFrom(s: string, previousIsCased: bool)
    ensures Lower(TitleFrom(s, previousIsCased)) == Lower(s)
  {
    if s != [] {
      LowerTitleFrom(s[1..], IsCased(s[0]));
    }
  }

  lemma {:induction false} LowerRemoveUnderscores(s: string)
    ensures Lower(RemoveUnderscores(s)) == RemoveUnderscores(Lower(s))
  {
    if s != [] {
      LowerRemoveUnderscores(s[1..]);
      var head := if s[0] == '_' then [] else [s[0]];
      assert RemoveUnderscores(s) == head + RemoveUnderscores(s[1..]);
      LowerAppend(head, RemoveUnderscores(s[1..]));
      assert Lower(s)[1..] == Lower(s[1..]);
    }
  }

  lemma {:induction false} LowerAppend(a: string, b: string)
    ensures Lower(a + b) == Lower(a) + Lower(b)
  {
    var l, r := Lower(a + b), Lower(a) + Lower(b);
    assert |l| == |r|;
    forall i | 0 <= i < |l| ensures l[i] == r[i] {
      if i < |a| {
        assert (a + b)[i] == a[i];
      } else {
        assert (a + b)[i] == b[i - |a|];
      }
    }
  }

  /**
   * The two derived forms name the same thing: lowercasing the class form gives
   * the file form without its underscores.
   */
  lemma ClassFormMatchesFileForm(featureName: string)
    ensures Lower(ClassForm(featureName)) == RemoveUnderscores(FileForm(featureName))
  {
    LowerRemoveUnderscores(Title(featureName));
    LowerTitleFrom(featureName, false);
  }

  /** Dropping the underscore between two underscore-free words joins them. */
  lemma RemoveUnderscoresJoin(s: string, a: string, b: string)
    requires '_' !in a && '_' !in b && s == a + ['_'] + b
    ensures RemoveUnderscores(s) == a + b
  {
    assert s == a + (['_'] + b);
    RemoveUnderscoresAppend(a, ['_'] + b);
    RemoveUnderscoresNoop(a);
    assert (['_'] + b)[1..] == b;
    assert RemoveUnderscores(['_'] + b) == RemoveUnderscores(b);
    RemoveUnderscoresNoop(b);
  }

  /** A name without uppercase letters is its own file form. */
  lemma LowerNoop(s: string)
    requires forall i :: 0 <= i < |s| ==> !IsUpper(s[i])
    ensures Lower(s) == s
  {
  }

  /** `sample_item` gives the class form `SampleItem` and the file form `sample_item`. */
  lemma SampleItemForms(featureName: string)
    requires featureName == "sample_item"
    ensures ClassForm(featureName) == "SampleItem"
    ensures FileForm(featureName) == "sample_item"
  {
    TitleSpec(featureName);
    var t := Title(featureName);
    forall i | 0 <= i < |t| ensures t[i] == "Sample_Item"[i] {
      if 0 < i {
        assert IsCased(featureName[i - 1]) <==> i != 7;
      }
    }
    assert t == "Sample" + ['_'] + "Item";
    RemoveUnderscoresJoin(t, "Sample", "Item");
    LowerNoop(featureName);
  }

  /** `investment` gives the class form `Investment` and the file form `investment`. */
  lemma InvestmentForms(featureName: string)
    requires featureName == "investment"
    ensures ClassForm(featureName) == "Investment"
    ensures FileForm(featureName) == "investment"
  {
    TitleSpec(featureName);
    var t := Title(featureName);
    forall i | 1 <= i < |t| ensures t[i] == "Investment"[i] {
      assert IsCased(featureName[i - 1]);
    }
    RemoveUnderscoresNoop(t);
    LowerNoop(featureName);
  }
}
