/**
 The link paths of `src/components/layout/Footer.tsx`: every name becomes
 `/` followed by its lower-cased text with each run of whitespace replaced by
 one `-` (`toLowerCase().replace(/\s+/g, '-')`), except that the quick link
 `Home` goes to `/`. Text is ASCII.
 */
module Footer {
  import opened Ascii

  predicate NoSpace(s: string) {
    forall i :: 0 <= i < |s| ==> !IsSpace(s[i])
  }

  predicate NoUpper(s: string) {
    forall i :: 0 <= i < |s| ==> !IsUpper(s[i])
  }

  /** `s` without its leading run of whitespace. */
  function DropSpaces(s: string): (r: string)
    ensures |r| <= |s|
    ensures r == [] || !IsSpace(r[0])
  {
    if s != [] && IsSpace(s[0]) then DropSpaces(s[1..]) else s
  }

  /** The slug: lower-case letters, one `-` for each maximal whitespace run. */
  function Slug(s: string): (r: string)
    ensures r == [] <==> s == []
    decreases |s|
  {
    if s == [] then [] else SlugHead(s) + Slug(SlugRest(s))
  }

  /** What the first character of non-empty `s` contributes: `-` for a whitespace run, else the letter in lower case. */
  function SlugHead(s: string): string
    requires s != []
  {
    if IsSpace(s[0]) then "-" else [ToLower(s[0])]
  }

  /** What remains after the first character, or after the whole leading whitespace run. */
  function SlugRest(s: string): (r: string)
    requires s != []
    ensures |r| < |s|
  {
    if IsSpace(s[0]) then DropSpaces(s[1..]) else s[1..]
  }

  /** The path of a link in the Account and legal lists. */
  function LinkPath(name: string): (p: string)
    ensures |p| >= 1 && p[0] == '/' && p[1..] == Slug(name)
  {
    "/" + Slug(name)
  }

  /** The path of a quick link: `Home` is the root, the rest are slugged. */
  function QuickLinkPath(name: string): (p: string)
    ensures name == "Home" ==> p == "/"
    ensures name != "Home" ==> p == LinkPath(name)
  {
    "/" + (if name == "Home" then "" else Slug(name))
  }

  /** A slug has no whitespace, no upper-case letter, and is never longer than its source. */
  lemma {:induction false} SlugShape(s: string)
    ensures NoSpace(Slug(s)) && NoUpper(Slug(s)) && |Slug(s)| <= |s|
    decreases |s|
  {
    if s != [] {
      if IsSpace(s[0]) {
        SlugShape(DropSpaces(s[1..]));
      } else {
        SlugShape(s[1..]);
      }
    }
  }

  /** Every slugged path is `/` followed by text with no whitespace and no upper-case letter. */
  lemma LinkPathShape(name: string)
    ensures NoSpace(LinkPath(name)[1..]) && NoUpper(LinkPath(name)[1..])
    ensures NoSpace(QuickLinkPath(name)[1..]) && NoUpper(QuickLinkPath(name)[1..])
  {
    SlugShape(name);
  }

  /** Without whitespace the slug is the lower-cased text. */
  lemma {:induction false} SlugOfNoSpace(s: string)
    requires NoSpace(s)
    ensures Slug(s) == Lower(s)
    decreases |s|
  {
    if s != [] {
      assert NoSpace(s[1..]);
      SlugOfNoSpace(s[1..]);
    }
  }

  /** Lower-casing text that has no upper-case letters changes nothing. */
  lemma LowerOfNoUpper(s: string)
    requires NoUpper(s)
    ensures Lower(s) == s
  {
  }

  /** Slugging a slug gives it back. */
  lemma SlugIdempotent(s: string)
    ensures Slug(Slug(s)) == Slug(s)
  {
    var t := Slug(s);
    SlugShape(s);
    SlugOfNoSpace(t);
    LowerOfNoUpper(t);
  }

  /** A prefix that ends in a non-space character is slugged on its own. */
  lemma {:induction false} SlugAppend(a: string, b: string)
    requires a == [] || !IsSpace(a[|a| - 1])
    ensures Slug(a + b) == Slug(a) + Slug(b)
    decreases |a|
  {
    if a == [] {
      assert a + b == b;
    } else if IsSpace(a[0]) {
      SlugAppendRun(a, b);
    } else {
      assert (a + b)[1..] == a[1..] + b;
      SlugAppend(a[1..], b);
    }
  }

  /** The case of `SlugAppend` where `a` opens with whitespace. */
  lemma {:induction false} SlugAppendRun(a: string, b: string)
    requires a != [] && IsSpace(a[0]) && !IsSpace(a[|a| - 1])
    ensures Slug(a + b) == Slug(a) + Slug(b)
    decreases |a|, 0
  {
    var a1 := DropSpaces(a[1..]);
    assert (a + b)[1..] == a[1..] + b;
    DropSpacesAppend(a[1..], b);
    SpaceLead(a + b);
    SpaceLead(a);
    SlugAppend(a1, b);
    Assoc("-", Slug(a1), Slug(b));
  }

  /** Text opening with whitespace: one `-`, then the slug of what follows the run. */
  lemma SpaceLead(s: string)
    requires s != [] && IsSpace(s[0])
    ensures Slug(s) == "-" + Slug(DropSpaces(s[1..]))
  {
  }

  /** Dropping the leading run of `a + b` happens inside `a` when `a` ends in a non-space. */
  lemma {:induction false} DropSpacesAppend(a: string, b: string)
    requires a != [] && !IsSpace(a[|a| - 1])
    ensures DropSpaces(a + b) == DropSpaces(a) + b
    ensures DropSpaces(a) != [] && DropSpaces(a)[|DropSpaces(a)| - 1] == a[|a| - 1]
    decreases |a|
  {
    if IsSpace(a[0]) {
      assert |a| >= 2;
      assert (a + b)[1..] == a[1..] + b;
      DropSpacesAppend(a[1..], b);
    }
  }

  /** A whitespace run followed by a non-space (or nothing) becomes exactly one `-`. */
  lemma {:induction false} SlugOfRun(w: string, b: string)
    requires w != [] && forall i :: 0 <= i < |w| ==> IsSpace(w[i])
    requires b == [] || !IsSpace(b[0])
    ensures Slug(w + b) == "-" + Slug(b)
  {
    DropRun(w[1..], b);
    assert (w + b)[1..] == w[1..] + b;
  }

  lemma {:induction false} DropRun(w: string, b: string)
    requires forall i :: 0 <= i < |w| ==> IsSpace(w[i])
    requires b == [] || !IsSpace(b[0])
    ensures DropSpaces(w + b) == b
    decreases |w|
  {
    if w == [] {
      assert w + b == b;
    } else {
      assert (w + b)[1..] == w[1..] + b;
      DropRun(w[1..], b);
    }
  }

  /** Two words separated by one space. */
  lemma TwoWords(x: string, y: string)
    requires x != [] && !IsSpace(x[|x| - 1]) && y != [] && !IsSpace(y[0])
    ensures Slug(x + " " + y) == Slug(x) + "-" + Slug(y)
  {
    Assoc(x, " ", y);
    SlugAppend(x, " " + y);
    SlugOfRun(" ", y);
    Assoc(Slug(x), "-", Slug(y));
  }

  lemma Assoc(a: string, b: string, c: string)
    ensures a + (b + c) == a + b + c
  {
  }
}

/** The footer's own labels and the paths they link to. */
module FooterExamples {
  import opened Ascii
  import opened Footer

  /** A word: text with no whitespace, checked character by character. */
  predicate Plain(s: string) {
    s == [] || (!IsSpace(s[0]) && Plain(s[1..]))
  }

  lemma {:induction false} PlainNoSpace(s: string)
    requires Plain(s)
    ensures NoSpace(s)
  {
    if s != [] {
      PlainNoSpace(s[1..]);
    }
  }

  lemma Word(x: string, lower: string)
    requires Plain(x) && Lower(x) == lower
    ensures Slug(x) == lower
  {
    PlainNoSpace(x);
    SlugOfNoSpace(x);
  }

  lemma HowSlug() ensures Slug("How") == "how" { Word("How", "how"); }
  lemma ItSlug() ensures Slug("It") == "it" { Word("It", "it"); }
  lemma WorksSlug() ensures Slug("Works") == "works" { Word("Works", "works"); }
  lemma ListSlug() ensures Slug("List") == "list" { Word("List", "list"); }
  lemma AnSlug() ensures Slug("an") == "an" { Word("an", "an"); }
  lemma ItemSlug() ensures Slug("Item") == "item" { Word("Item", "item"); }
  lemma MySlug() ensures Slug("My") == "my" { Word("My", "my"); }
  lemma ListingsSlug() ensures Slug("Listings") == "listings" { Word("Listings", "listings"); }
  lemma TermsSlug() ensures Slug("Terms") == "terms" { Word("Terms", "terms"); }
  lemma OfSlug() ensures Slug("of") == "of" { Word("of", "of"); }
  lemma ServiceSlug() ensures Slug("Service") == "service" { Word("Service", "service"); }

  /** Three words separated by single spaces. */
  lemma ThreeWords(a: string, b: string, c: string)
    requires a != [] && !IsSpace(a[|a| - 1])
    requires b != [] && !IsSpace(b[0]) && !IsSpace(b[|b| - 1])
    requires c != [] && !IsSpace(c[0])
    ensures Slug(a + " " + (b + " " + c)) == Slug(a) + "-" + (Slug(b) + "-" + Slug(c))
  {
    SpacedEnds(b, c);
    TwoWords(a, b + " " + c);
    TwoWords(b, c);
  }

  /** Joining with a space keeps the outer characters. */
  lemma SpacedEnds(x: string, y: string)
    requires x != [] && y != []
    ensures var s := x + " " + y; s != [] && s[0] == x[0] && s[|s| - 1] == y[|y| - 1]
  {
  }

  /** The quick link `Home` is the root. */
  lemma HomeExample()
    ensures QuickLinkPath("Home") == "/"
  {
  }

  lemma HowItWorksText()
    ensures "How It Works" == "How" + " " + ("It" + " " + "Works")
    ensures "/how-it-works" == "/" + ("how" + "-" + ("it" + "-" + "works"))
  {
  }

  lemma HowItWorksExample()
    ensures QuickLinkPath("How It Works") == "/how-it-works"
  {
    HowSlug(); ItSlug(); WorksSlug();
    ThreeWords("How", "It", "Works");
    HowItWorksText();
  }

  lemma ListAnItemText()
    ensures "List an Item" == "List" + " " + ("an" + " " + "Item")
    ensures "/list-an-item" == "/" + ("list" + "-" + ("an" + "-" + "item"))
  {
  }

  lemma ListAnItemExample()
    ensures QuickLinkPath("List an Item") == "/list-an-item"
  {
    ListSlug(); AnSlug(); ItemSlug();
    ThreeWords("List", "an", "Item");
    ListAnItemText();
  }

  lemma MyListingsText()
    ensures "My Listings" == "My" + " " + "Listings"
    ensures "/my-listings" == "/" + ("my" + "-" + "listings")
  {
  }

  lemma MyListingsExample()
    ensures LinkPath("My Listings") == "/my-listings"
  {
    MySlug(); ListingsSlug();
    TwoWords("My", "Listings");
    MyListingsText();
  }

  lemma TermsOfServiceText()
    ensures "Terms of Service" == "Terms" + " " + ("of" + " " + "Service")
    ensures "/terms-of-service" == "/" + ("terms" + "-" + ("of" + "-" + "service"))
  {
  }

  lemma TermsOfServiceExample()
    ensures LinkPath("Terms of Service") == "/terms-of-service"
  {
    TermsSlug(); OfSlug(); ServiceSlug();
    ThreeWords("Terms", "of", "Service");
    TermsOfServiceText();
  }
}
