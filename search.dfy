/**
 * The search box's lookup on Enter: the typed text, lowercased and trimmed,
 * is tried as a Hipparcos catalog number ("hip" followed by an integer, or
 * an integer alone), then as an exact key of the star map, then against
 * every star's lowercased name, the first star whose name contains it
 * winning.
 */
module StarSearch {
  import opened JavaText
  import opened Bodies
  import DataLoader

  /** The query the typed text stands for. */
  function Query(input: string): (q: string)
    ensures IsLowerCase(q)
    ensures q == [] || (!IsBlank(q[0]) && !IsBlank(q[|q| - 1]))
  {
    LowerCaseIsLowerFixpoint(input);
    TrimKeepsLowerCase(Lower(input));
    Trim(Lower(input))
  }

  /** The catalog number a query names: "hip" followed by an integer, or an integer alone. */
  function HipNumber(query: string): Option<int>
  {
    if StartsWith(query, "hip") && |query| > 3 then ParseInt(query[3..])
    else if IsNumeric(query) then ParseInt(query)
    else None
  }

  /** The position of the first star, in iteration order, whose lowercased name contains the query. */
  function FirstContaining(vs: seq<Star>, query: string): (r: Option<nat>)
    ensures r.Some? ==> r.value < |vs| && Contains(Lower(vs[r.value].Name()), query)
    ensures r.Some? ==> forall i :: 0 <= i < r.value ==> !Contains(Lower(vs[i].Name()), query)
    ensures r.None? ==> forall i :: 0 <= i < |vs| ==> !Contains(Lower(vs[i].Name()), query)
  {
    if vs == [] then None
    else if Contains(Lower(vs[0].Name()), query) then Some(0)
    else
      match FirstContaining(vs[1..], query)
      case None => None
      case Some(i) => Some(i + 1)
  }

  /** The first star, in iteration order, whose lowercased name contains the query. */
  function NameMatch(vs: seq<Star>, query: string): Option<Star>
  {
    match FirstContaining(vs, query)
    case Some(i) => Some(vs[i])
    case None => None
  }

  /** The star found for the typed text, `vs` being the map's values in iteration order. */
  function Search(stars: map<string, Star>, vs: seq<Star>, input: string): Option<Star>
  {
    var query := Query(input);
    var hip := HipNumber(query);
    if hip.Some? && DataLoader.HipKey(hip.value) in stars then Some(stars[DataLoader.HipKey(hip.value)])
    else if query in stars then Some(stars[query])
    else NameMatch(vs, query)
  }

  /** Letter case in the typed text does not matter. */
  lemma QueryIgnoresCase(input: string)
    ensures Query(Lower(input)) == Query(input)
    ensures Query(Upper(input)) == Query(input)
  {
    assert Lower(Lower(input)) == Lower(input);
    assert Lower(Upper(input)) == Lower(input);
  }

  /** Blanks around the typed text do not matter. */
  lemma QueryIgnoresPadding(input: string, c: char)
    requires IsBlank(c)
    ensures Query([c] + input) == Query(input)
    ensures Query(input + [c]) == Query(input)
  {
    assert Lower([c] + input) == [LowerChar(c)] + Lower(input);
    assert Lower(input + [c]) == Lower(input) + [LowerChar(c)];
    TrimSkipsLeadingBlank(LowerChar(c), Lower(input));
    TrimSkipsTrailingBlank(Lower(input), LowerChar(c));
  }

  /** So the search finds the same star whatever the case of the text and whatever blanks surround it. */
  lemma SearchIgnoresCaseAndPadding(stars: map<string, Star>, vs: seq<Star>, input: string, c: char)
    requires IsBlank(c)
    ensures Search(stars, vs, Upper(input)) == Search(stars, vs, input)
    ensures Search(stars, vs, Lower(input)) == Search(stars, vs, input)
    ensures Search(stars, vs, [c] + input + [c]) == Search(stars, vs, input)
  {
    QueryIgnoresCase(input);
    QueryIgnoresPadding([c] + input, c);
    QueryIgnoresPadding(input, c);
  }

  /** Text of signs and digits, ending in a digit. */
  predicate NumberText(s: string)
  {
    s != [] && '0' <= s[|s| - 1] <= '9' && forall i :: 0 <= i < |s| ==> s[i] == '-' || '0' <= s[i] <= '9'
  }

  /** `Integer.toString` writes a sign and digits only. */
  lemma IntToStringIsNumberText(n: int)
    ensures NumberText(IntToString(n))
  {
    var digits := NatToString(if n < 0 then -n else n);
    assert AllDigits(digits);
    assert IntToString(n) == if n < 0 then "-" + digits else digits;
  }

  /** Text without upper-case letters or blanks at its ends is a query as it stands. */
  lemma PlainTextIsItsOwnQuery(s: string)
    requires forall i :: 0 <= i < |s| ==> LowerChar(s[i]) == s[i]
    requires s == [] || (!IsBlank(s[0]) && !IsBlank(s[|s| - 1]))
    ensures Query(s) == s
  {
    assert Lower(s) == s;
    TrimUnchanged(s);
  }

  /** Number text has no upper-case letter and no blank at its ends, with or without "hip" in front. */
  lemma NumberTextIsPlain(s: string)
    requires NumberText(s)
    ensures forall i :: 0 <= i < |s| ==> LowerChar(s[i]) == s[i]
    ensures !IsBlank(s[0]) && !IsBlank(s[|s| - 1])
  {
  }

  lemma HipNumberTextIsPlain(s: string)
    requires NumberText(s)
    ensures var t := "hip" + s; forall i :: 0 <= i < |t| ==> LowerChar(t[i]) == t[i]
    ensures var t := "hip" + s; !IsBlank(t[0]) && !IsBlank(t[|t| - 1])
  {
    var t := "hip" + s;
    forall i | 0 <= i < |t|
      ensures LowerChar(t[i]) == t[i]
    {
      if i >= 3 {
        assert t[i] == s[i - 3];
      }
    }
    assert t[|t| - 1] == s[|s| - 1];
  }

  /** Number text is a query as it stands. */
  lemma NumberTextIsItsOwnQuery(s: string)
    requires NumberText(s)
    ensures Query(s) == s
  {
    NumberTextIsPlain(s);
    PlainTextIsItsOwnQuery(s);
  }

  /** So is number text after "hip". */
  lemma HipNumberTextIsItsOwnQuery(s: string)
    requires NumberText(s)
    ensures Query("hip" + s) == "hip" + s
  {
    var t := "hip" + s;
    HipNumberTextIsPlain(s);
    PlainTextIsItsOwnQuery(t);
  }

  /** "hip<n>" and "<n>" both name catalog number n. */
  lemma NumberIsRead(n: int)
    requires INT_MIN <= n <= INT_MAX
    ensures HipNumber("hip" + IntToString(n)) == Some(n)
    ensures HipNumber(IntToString(n)) == Some(n)
  {
    IntToStringParses(n);
    var s := IntToString(n);
    IntToStringIsNumberText(n);
    HipNumberAfterHip(s);
    NumberTextHasNoHip(s);
  }

  /** Text after "hip" is read as the catalog number. */
  lemma HipNumberAfterHip(s: string)
    requires s != []
    ensures HipNumber("hip" + s) == ParseInt(s)
  {
    assert ("hip" + s)[3..] == s;
    assert ("hip" + s)[..3] == "hip";
  }

  /** Number text is read as a whole. */
  lemma NumberTextHasNoHip(s: string)
    requires NumberText(s)
    ensures !StartsWith(s, "hip")
  {
    assert s[0] == '-' || '0' <= s[0] <= '9';
  }

  /**
   * A star filed under its catalog key "hip<n>" is found by "hip<n>" and by
   * "<n>" alone.
   */
  lemma CatalogNumberFindsStar(stars: map<string, Star>, vs: seq<Star>, n: int)
    requires INT_MIN <= n <= INT_MAX && DataLoader.HipKey(n) in stars
    ensures Search(stars, vs, "hip" + IntToString(n)) == Some(stars[DataLoader.HipKey(n)])
    ensures Search(stars, vs, IntToString(n)) == Some(stars[DataLoader.HipKey(n)])
  {
    var s := IntToString(n);
    NumberIsRead(n);
    IntToStringIsNumberText(n);
    NumberTextIsItsOwnQuery(s);
    HipNumberTextIsItsOwnQuery(s);
    FoundByNumber(stars, vs, "hip" + s, n);
    FoundByNumber(stars, vs, s, n);
  }

  /** A query naming a filed catalog number finds that star. */
  lemma FoundByNumber(stars: map<string, Star>, vs: seq<Star>, input: string, n: int)
    requires Query(input) == input && HipNumber(input) == Some(n) && DataLoader.HipKey(n) in stars
    ensures Search(stars, vs, input) == Some(stars[DataLoader.HipKey(n)])
  {
  }

  /** Leading zeros and a plus sign are read by `Integer.parseInt`, so "hip007" and "hip+7" both name catalog number 7. */
  lemma LeadingZerosNameTheSameStar()
    ensures HipNumber("hip007") == Some(7)
    ensures HipNumber("hip+7") == Some(7)
    ensures HipNumber("hip") == None
  {
    assert "hip007"[3..] == "007";
    assert "hip+7"[3..] == "+7";
    assert DigitsValue("007") == 7 by {
      assert "007"[..2] == "00" && "00"[..1] == "0";
    }
    assert "+7"[1..] == "7";
    assert !IsNumeric("hip");
  }

  /**
   * With `vs` the values of the map in an iteration order: a search that
   * succeeds yields a star of the map, and a search fails exactly when the
   * query names no filed catalog number, is no key, and is contained in no
   * star's lowercased name.
   */
  lemma SearchFindsMapStar(stars: map<string, Star>, order: seq<string>, vs: seq<Star>, input: string)
    requires |vs| == |order|
    requires forall i :: 0 <= i < |order| ==> order[i] in stars && vs[i] == stars[order[i]]
    requires forall k :: k in stars ==> k in order
    ensures Search(stars, vs, input).Some? ==> exists k :: k in stars && stars[k] == Search(stars, vs, input).value
    ensures Search(stars, vs, input).None? <==>
              var q := Query(input);
              (HipNumber(q).None? || DataLoader.HipKey(HipNumber(q).value) !in stars) &&
              q !in stars &&
              forall k :: k in stars ==> !Contains(Lower(stars[k].Name()), q)
  {
    var q := Query(input);
    var r := Search(stars, vs, input);
    if r.Some? && !(HipNumber(q).Some? && DataLoader.HipKey(HipNumber(q).value) in stars) && q !in stars {
      var i := FirstContaining(vs, q).value;
      assert stars[order[i]] == r.value;
    }
    if r.None? {
      forall k | k in stars
        ensures !Contains(Lower(stars[k].Name()), q)
      {
        var i :| 0 <= i < |order| && order[i] == k;
        assert vs[i] == stars[k];
      }
    }
  }
}
