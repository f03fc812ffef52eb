/**
 * The fixed category list and the two text conversions between a category's display
 * name and its URL segment.
 */
module Categories {
  import opened JsText
  import opened Seqs

  /** The six categories the navigation bar, the home page and the editor list. */
  const Names: seq<string> := ["Mobiles", "Electronics", "Fashion", "Home Appliances", "Gaming", "Accessories"]

  /** Lower-casing a character never produces or removes a space or a hyphen. */
  lemma LowerKeeps(c: char)
    ensures LowerChar(c) == ' ' <==> c == ' '
    ensures LowerChar(c) == '-' <==> c == '-'
  {
  }

  /**
   * `c.toLowerCase().replace(' ', '-')`: the name lower-cased, with its first space, and only
   * that one, turned into a hyphen.
   */
  function Slug(c: string): (r: string)
    ensures |r| == |c|
    ensures forall k :: 0 <= k < |c| ==> r[k] == if k == IndexOf(c, ' ') then '-' else LowerChar(c[k])
  {
    var lower := ToLower(c);
    assert IndexOf(lower, ' ') == IndexOf(c, ' ') by {
      forall k | 0 <= k < |c| { LowerKeeps(c[k]); }
      var i, j := IndexOf(lower, ' '), IndexOf(c, ' ');
      if i >= 0 && j >= 0 {
        assert !(i < j) && !(j < i);
      }
    }
    ReplaceFirst(lower, ' ', '-')
  }

  /** The link target of a category in the navigation bar. */
  function CategoryPath(c: string): string {
    "/category/" + Slug(c)
  }

  /** `\w` in a JavaScript regular expression without the `u` flag. */
  predicate IsWordChar(c: char) {
    ('A' <= c <= 'Z') || ('a' <= c <= 'z') || ('0' <= c <= '9') || c == '_'
  }

  /** `\b\w` matches at position `k`: a word character with no word character before it. */
  predicate StartsWord(s: string, k: int)
    requires 0 <= k < |s|
  {
    IsWordChar(s[k]) && (k == 0 || !IsWordChar(s[k - 1]))
  }

  /**
   * `s.replace(/\b\w/g, l => l.toUpperCase())`: the first character of every word upper-cased.
   * The contract describes the mapping; `DisplayNameOfSlug`, `PathDetermines` and
   * `NamesRoundTrip` state what it achieves.
   */
  function CapitalizeWords(s: string): (r: string)
    ensures |r| == |s|
    ensures forall k :: 0 <= k < |s| ==> r[k] == if StartsWord(s, k) then UpperChar(s[k]) else s[k]
  {
    seq(|s|, k requires 0 <= k < |s| => if StartsWord(s, k) then UpperChar(s[k]) else s[k])
  }

  /**
   * The category page's title for a URL segment:
   * `category.replace('-', ' ').replace(/\b\w/g, l => l.toUpperCase())`.
   */
  function DisplayName(segment: string): string {
    CapitalizeWords(ReplaceFirst(segment, '-', ' '))
  }

  /**
   * The names the round trip recovers: ASCII only (where JavaScript's case mapping and this
   * model's agree), no hyphen, every word starts with a character that is not a lower-case
   * letter, and no other character is an upper-case letter.
   */
  predicate IsTitleCase(c: string) {
    forall k :: 0 <= k < |c| ==>
      c[k] < '\U{80}' && c[k] != '-' &&
      if StartsWord(c, k) then !('a' <= c[k] <= 'z') else !('A' <= c[k] <= 'Z')
  }

  /** For a name without a hyphen, undoing the hyphen of its slug gives the lower-cased name. */
  lemma {:induction false} UnhyphenSlug(c: string)
    requires forall k :: 0 <= k < |c| ==> c[k] != '-'
    ensures ReplaceFirst(Slug(c), '-', ' ') == ToLower(c)
  {
    var s := Slug(c);
    var i := IndexOf(c, ' ');
    forall k | 0 <= k < |c| { LowerKeeps(c[k]); }
    var j := IndexOf(s, '-');
    if i >= 0 {
      assert s[i] == '-';
      assert j == i by { assert !(j < i); assert !(i < j); }
    } else {
      assert j == -1;
    }
    var r := ReplaceFirst(s, '-', ' ');
    forall k | 0 <= k < |c| ensures r[k] == ToLower(c)[k] {
      if k == i { assert c[k] == ' '; }
    }
  }

  /** Word starts are the same before and after lower-casing. */
  lemma LowerKeepsWords(c: string, k: int)
    requires 0 <= k < |c|
    ensures StartsWord(ToLower(c), k) == StartsWord(c, k)
  {
  }

  /**
   * Round trip: the category page's title for the navigation bar's segment of a title-case
   * name is that name.
   */
  lemma {:induction false} DisplayNameOfSlug(c: string)
    requires IsTitleCase(c)
    ensures DisplayName(Slug(c)) == c
  {
    UnhyphenSlug(c);
    var lower := ToLower(c);
    var r := CapitalizeWords(lower);
    forall k | 0 <= k < |c| ensures r[k] == c[k] {
      LowerKeepsWords(c, k);
    }
  }

  // Each of the six fixed names is title case.

  lemma MobilesIsTitleCase()
    ensures IsTitleCase("Mobiles")
  {
  }

  lemma ElectronicsIsTitleCase()
    ensures IsTitleCase("Electronics")
  {
  }

  lemma FashionIsTitleCase()
    ensures IsTitleCase("Fashion")
  {
  }

  lemma HomeAppliancesIsTitleCase()
    ensures IsTitleCase("Home Appliances")
  {
  }

  lemma GamingIsTitleCase()
    ensures IsTitleCase("Gaming")
  {
  }

  lemma AccessoriesIsTitleCase()
    ensures IsTitleCase("Accessories")
  {
  }

  /** Every fixed category name is title case without a hyphen. */
  lemma NamesAreTitleCase()
    ensures forall k :: 0 <= k < |Names| ==> IsTitleCase(Names[k])
  {
    MobilesIsTitleCase();
    ElectronicsIsTitleCase();
    FashionIsTitleCase();
    HomeAppliancesIsTitleCase();
    GamingIsTitleCase();
    AccessoriesIsTitleCase();
  }

  /**
   * For each of the six categories, the category page titles the navigation bar's segment
   * with the category's own name.
   */
  lemma NamesRoundTrip()
    ensures forall k :: 0 <= k < |Names| ==> DisplayName(Slug(Names[k])) == Names[k]
  {
    NamesAreTitleCase();
    forall k | 0 <= k < |Names| ensures DisplayName(Slug(Names[k])) == Names[k] {
      DisplayNameOfSlug(Names[k]);
    }
  }

  /** The six names are different from each other. */
  lemma NamesDistinct()
    ensures NoDup(Names)
  {
    forall i, j | 0 <= i < j < |Names| ensures Names[i] != Names[j] {
      assert Names[i][0] != Names[j][0] || |Names[i]| != |Names[j]|;
    }
  }

  /** Two title-case names with the same path are the same name. */
  lemma {:induction false} PathDetermines(a: string, b: string)
    requires IsTitleCase(a) && IsTitleCase(b)
    requires CategoryPath(a) == CategoryPath(b)
    ensures a == b
  {
    var pre := "/category/";
    assert Slug(a) == CategoryPath(a)[|pre|..];
    assert Slug(b) == CategoryPath(b)[|pre|..];
    DisplayNameOfSlug(a);
    DisplayNameOfSlug(b);
  }

  /** The six category links lead to six different paths. */
  lemma PathsDistinct()
    ensures forall i, j :: 0 <= i < j < |Names| ==> CategoryPath(Names[i]) != CategoryPath(Names[j])
  {
    NamesAreTitleCase();
    NamesDistinct();
    forall i, j | 0 <= i < j < |Names| ensures CategoryPath(Names[i]) != CategoryPath(Names[j]) {
      if CategoryPath(Names[i]) == CategoryPath(Names[j]) {
        PathDetermines(Names[i], Names[j]);
      }
    }
  }
}
