/** The emoji tag shown beside the top label of a classification: five
    ordered keyword groups tested by substring containment, the first group
    that matches wins, and a robot face when none does. */
module Emojis {
  import opened Strings

  const DogFace := "🐶"
  const CatFace := "🐱"
  const Automobile := "🚗"
  const HotBeverage := "☕"
  const Hamburger := "🍔"
  /** The tag assigned first and kept when no group matches. */
  const RobotFace := "🤖"

  const DogKeywords: seq<string> := ["dog", "retriever", "terrier"]
  const CatKeywords: seq<string> := ["cat", "tabby"]
  const VehicleKeywords: seq<string> := ["car", "vehicle"]
  const BeverageKeywords: seq<string> := ["coffee", "cup"]
  const FoodKeywords: seq<string> := ["food", "burger", "pizza"]

  /** The twelve keywords of all groups, in the order they are tested. */
  const AllKeywords: seq<string> := DogKeywords + CatKeywords + VehicleKeywords + BeverageKeywords + FoodKeywords

  /** Some keyword of the group occurs in the label. */
  predicate MentionsAny(className: string, keywords: seq<string>)
  {
    exists i :: 0 <= i < |keywords| && Contains(className, keywords[i])
  }

  /** The decision chain: a default, then one if/elif chain over the groups. */
  function Emoji(className: string): string
  {
    if Contains(className, "dog") || Contains(className, "retriever") || Contains(className, "terrier") then DogFace
    else if Contains(className, "cat") || Contains(className, "tabby") then CatFace
    else if Contains(className, "car") || Contains(className, "vehicle") then Automobile
    else if Contains(className, "coffee") || Contains(className, "cup") then HotBeverage
    else if Contains(className, "food") || Contains(className, "burger") || Contains(className, "pizza") then Hamburger
    else RobotFace
  }

  // ---------------------------------------------------------------------
  // The same decision as an ordered rule table

  datatype Rule = Rule(keywords: seq<string>, glyph: string)

  const Rules: seq<Rule> := [
    Rule(DogKeywords, DogFace),
    Rule(CatKeywords, CatFace),
    Rule(VehicleKeywords, Automobile),
    Rule(BeverageKeywords, HotBeverage),
    Rule(FoodKeywords, Hamburger)
  ]

  /** The glyph of the first rule whose keywords the label mentions, or the
      default when no rule applies. */
  function FirstMatch(className: string, rules: seq<Rule>, default: string): string
  {
    if rules == [] then default
    else if MentionsAny(className, rules[0].keywords) then rules[0].glyph
    else FirstMatch(className, rules[1..], default)
  }

  /** The first applicable rule decides, whatever later rules would say. */
  lemma {:induction false} FirstMatchPicksFirst(className: string, rules: seq<Rule>, default: string, i: nat)
    requires i < |rules| && MentionsAny(className, rules[i].keywords)
    requires forall j :: 0 <= j < i ==> !MentionsAny(className, rules[j].keywords)
    ensures FirstMatch(className, rules, default) == rules[i].glyph
  {
    if i > 0 {
      FirstMatchPicksFirst(className, rules[1..], default, i - 1);
    }
  }

  /** With no applicable rule the default is returned. */
  lemma {:induction false} FirstMatchDefault(className: string, rules: seq<Rule>, default: string)
    requires forall j :: 0 <= j < |rules| ==> !MentionsAny(className, rules[j].keywords)
    ensures FirstMatch(className, rules, default) == default
  {
    if rules != [] {
      FirstMatchDefault(className, rules[1..], default);
    }
  }

  lemma MentionsPair(className: string, a: string, b: string)
    ensures MentionsAny(className, [a, b]) <==> Contains(className, a) || Contains(className, b)
  {
    var ks := [a, b];
    if Contains(className, a) {
      assert Contains(className, ks[0]);
    } else if Contains(className, b) {
      assert Contains(className, ks[1]);
    }
  }

  lemma MentionsTriple(className: string, a: string, b: string, c: string)
    ensures MentionsAny(className, [a, b, c])
        <==> Contains(className, a) || Contains(className, b) || Contains(className, c)
  {
    var ks := [a, b, c];
    if Contains(className, a) {
      assert Contains(className, ks[0]);
    } else if Contains(className, b) {
      assert Contains(className, ks[1]);
    } else if Contains(className, c) {
      assert Contains(className, ks[2]);
    }
  }

  /** A label mentions a concatenation of groups when it mentions one of them. */
  lemma MentionsConcat(className: string, a: seq<string>, b: seq<string>)
    ensures MentionsAny(className, a + b) <==> MentionsAny(className, a) || MentionsAny(className, b)
  {
    var ab := a + b;
    if MentionsAny(className, a) {
      var i :| 0 <= i < |a| && Contains(className, a[i]);
      assert ab[i] == a[i];
    }
    if MentionsAny(className, ab) {
      var i :| 0 <= i < |ab| && Contains(className, ab[i]);
      if i >= |a| {
        assert ab[i] == b[i - |a|];
      }
    }
    if MentionsAny(className, b) {
      var i :| 0 <= i < |b| && Contains(className, b[i]);
      assert ab[|a| + i] == b[i];
    }
  }

  /** Each group's `or` of containment tests is `MentionsAny` of its keywords. */
  lemma GroupsAreKeywordTests(className: string)
    ensures MentionsAny(className, DogKeywords)
        <==> Contains(className, "dog") || Contains(className, "retriever") || Contains(className, "terrier")
    ensures MentionsAny(className, CatKeywords) <==> Contains(className, "cat") || Contains(className, "tabby")
    ensures MentionsAny(className, VehicleKeywords) <==> Contains(className, "car") || Contains(className, "vehicle")
    ensures MentionsAny(className, BeverageKeywords) <==> Contains(className, "coffee") || Contains(className, "cup")
    ensures MentionsAny(className, FoodKeywords)
        <==> Contains(className, "food") || Contains(className, "burger") || Contains(className, "pizza")
  {
    MentionsTriple(className, "dog", "retriever", "terrier");
    MentionsPair(className, "cat", "tabby");
    MentionsPair(className, "car", "vehicle");
    MentionsPair(className, "coffee", "cup");
    MentionsTriple(className, "food", "burger", "pizza");
  }

  /** The if/elif chain and the ordered rule table choose the same tag. */
  lemma EmojiIsFirstMatchingRule(className: string)
    ensures Emoji(className) == FirstMatch(className, Rules, RobotFace)
  {
    GroupsAreKeywordTests(className);
    if MentionsAny(className, DogKeywords) {
      FirstMatchPicksFirst(className, Rules, RobotFace, 0);
    } else if MentionsAny(className, CatKeywords) {
      FirstMatchPicksFirst(className, Rules, RobotFace, 1);
    } else if MentionsAny(className, VehicleKeywords) {
      FirstMatchPicksFirst(className, Rules, RobotFace, 2);
    } else if MentionsAny(className, BeverageKeywords) {
      FirstMatchPicksFirst(className, Rules, RobotFace, 3);
    } else if MentionsAny(className, FoodKeywords) {
      FirstMatchPicksFirst(className, Rules, RobotFace, 4);
    } else {
      FirstMatchDefault(className, Rules, RobotFace);
    }
  }

  // ---------------------------------------------------------------------
  // Priority of the groups and the default

  /** A dog keyword yields the dog face whatever else the label mentions, and
      nothing else yields it. */
  lemma DogGroupWins(className: string)
    ensures Emoji(className) == DogFace <==> MentionsAny(className, DogKeywords)
  {
    GroupsAreKeywordTests(className);
  }

  /** The cat face is chosen exactly when a cat keyword and no dog keyword
      occurs. */
  lemma CatGroupSecond(className: string)
    ensures Emoji(className) == CatFace
        <==> !MentionsAny(className, DogKeywords) && MentionsAny(className, CatKeywords)
  {
    GroupsAreKeywordTests(className);
  }

  /** The automobile is chosen exactly when a vehicle keyword and no dog or cat
      keyword occurs. */
  lemma VehicleGroupThird(className: string)
    ensures Emoji(className) == Automobile
        <==> (!MentionsAny(className, DogKeywords) && !MentionsAny(className, CatKeywords)
              && MentionsAny(className, VehicleKeywords))
  {
    GroupsAreKeywordTests(className);
  }

  /** The hot beverage is chosen exactly when a beverage keyword and no earlier
      group's keyword occurs; in particular it beats the food group. */
  lemma BeverageGroupFourth(className: string)
    ensures Emoji(className) == HotBeverage
        <==> (!MentionsAny(className, DogKeywords) && !MentionsAny(className, CatKeywords)
              && !MentionsAny(className, VehicleKeywords) && MentionsAny(className, BeverageKeywords))
  {
    GroupsAreKeywordTests(className);
  }

  /** The hamburger is chosen exactly when a food keyword and no keyword of the
      four earlier groups occurs. */
  lemma FoodGroupLast(className: string)
    ensures Emoji(className) == Hamburger
        <==> (!MentionsAny(className, DogKeywords) && !MentionsAny(className, CatKeywords)
              && !MentionsAny(className, VehicleKeywords) && !MentionsAny(className, BeverageKeywords)
              && MentionsAny(className, FoodKeywords))
  {
    GroupsAreKeywordTests(className);
  }

  /** The robot face stays exactly when none of the twelve keywords occurs. */
  lemma DefaultWhenNoKeyword(className: string)
    ensures Emoji(className) == RobotFace <==> !MentionsAny(className, AllKeywords)
  {
    GroupsAreKeywordTests(className);
    var dc := DogKeywords + CatKeywords;
    var dcv := dc + VehicleKeywords;
    var dcvb := dcv + BeverageKeywords;
    MentionsConcat(className, DogKeywords, CatKeywords);
    MentionsConcat(className, dc, VehicleKeywords);
    MentionsConcat(className, dcv, BeverageKeywords);
    MentionsConcat(className, dcvb, FoodKeywords);
  }

  /** The tag is always one of the six glyphs. */
  lemma EmojiIsOneOfSix(className: string)
    ensures Emoji(className) in {DogFace, CatFace, Automobile, HotBeverage, Hamburger, RobotFace}
  {
  }

  // ---------------------------------------------------------------------
  // Ruling keywords out of a concrete label

  /** No keyword of a group occurs in the label when the label splits at `cut`
      into a head whose characters lie in `head` and a tail whose characters
      lie in `tail`, and each keyword holds a character `missing[i]` absent
      from the tail and, unless the keyword's first character is absent from
      the head, absent from the head too. */
  lemma NoKeywordOfGroup(className: string, keywords: seq<string>, cut: nat,
                         head: set<char>, tail: set<char>, missing: string)
    requires cut <= |className|
    requires forall j :: 0 <= j < cut ==> className[j] in head
    requires forall j :: cut <= j < |className| ==> className[j] in tail
    requires |missing| == |keywords|
    requires forall i :: 0 <= i < |keywords| ==>
      missing[i] in keywords[i] && missing[i] !in tail && (keywords[i][0] !in head || missing[i] !in head)
    ensures !MentionsAny(className, keywords)
  {
    var p, q := className[..cut], className[cut..];
    assert p + q == className;
    forall i | 0 <= i < |keywords|
      ensures !Contains(className, keywords[i])
    {
      var k, c := keywords[i], missing[i];
      forall j | 0 <= j < |q|
        ensures q[j] != c
      {
        assert q[j] == className[cut + j];
      }
      AbsentChar(q, k, c);
      if k[0] !in head {
        forall j | 0 <= j < |p|
          ensures p[j] != k[0]
        {
          assert p[j] == className[j];
        }
        SkipPrefix(p, q, k);
      } else {
        AbsentChar(className, k, c);
      }
    }
  }

  // Worked examples. "golden retriever", "Egyptian cat", "sports car",
  // "espresso" and "space shuttle" are labels of the classifier's vocabulary;
  // "dog food", "pizza cup" and "Dog" are made-up labels that exercise the
  // group order and case-sensitive matching. Each example takes the label as
  // a parameter fixed by its requires.

  lemma GoldenRetrieverIsDog(s: string)
    requires s == "golden retriever"
    ensures Emoji(s) == DogFace
  {
    ContainsAfter("golden ", "retriever", "");
    assert "golden " + "retriever" + "" == s;
    GroupsAreKeywordTests(s);
    DogGroupWins(s);
  }

  /** A label holding both a dog and a food keyword gets the dog face. */
  lemma DogBeatsFood(s: string)
    requires s == "dog food"
    ensures MentionsAny(s, FoodKeywords) && Emoji(s) == DogFace
  {
    ContainsAfter("", "dog", " food");
    assert "" + "dog" + " food" == s;
    ContainsAfter("dog ", "food", "");
    assert "dog " + "food" + "" == s;
    GroupsAreKeywordTests(s);
    DogGroupWins(s);
  }

  /** A label holding both a beverage and a food keyword, and no keyword of
      the first three groups, gets the hot beverage. */
  lemma CupBeatsPizza(s: string)
    requires s == "pizza cup"
    ensures MentionsAny(s, FoodKeywords) && Emoji(s) == HotBeverage
  {
    ContainsAfter("pizza ", "cup", "");
    assert "pizza " + "cup" + "" == s;
    ContainsAfter("", "pizza", " cup");
    assert "" + "pizza" + " cup" == s;
    var chars := {'p', 'i', 'z', 'a', ' ', 'c', 'u'};
    NoKeywordOfGroup(s, DogKeywords, 0, {}, chars, "drr");
    NoKeywordOfGroup(s, CatKeywords, 0, {}, chars, "tb");
    NoKeywordOfGroup(s, VehicleKeywords, 0, {}, chars, "rv");
    GroupsAreKeywordTests(s);
    BeverageGroupFourth(s);
  }

  lemma EgyptianCatIsCat(s: string)
    requires s == "Egyptian cat"
    ensures Emoji(s) == CatFace
  {
    ContainsAfter("Egyptian ", "cat", "");
    assert "Egyptian " + "cat" + "" == s;
    NoKeywordOfGroup(s, DogKeywords, 0, {}, {'E', 'g', 'y', 'p', 't', 'i', 'a', 'n', ' ', 'c'}, "drr");
    GroupsAreKeywordTests(s);
    CatGroupSecond(s);
  }

  lemma SportsCarIsAutomobile(s: string)
    requires s == "sports car"
    ensures Emoji(s) == Automobile
  {
    ContainsAfter("sports ", "car", "");
    assert "sports " + "car" + "" == s;
    var head, tail := {'s', 'p', 'o', 'r', 't', ' '}, {'c', 'a', 'r'};
    NoKeywordOfGroup(s, DogKeywords, 7, head, tail, "dii");
    NoKeywordOfGroup(s, CatKeywords, 7, head, tail, "tb");
    GroupsAreKeywordTests(s);
    VehicleGroupThird(s);
  }

  /** Matching is exact: "espresso" mentions neither "coffee" nor "cup". */
  lemma EspressoIsDefault(s: string)
    requires s == "espresso"
    ensures Emoji(s) == RobotFace
  {
    NoKeywordOfGroup(s, AllKeywords, 0, {}, {'e', 's', 'p', 'r', 'o'}, "diicbccccfbz");
    DefaultWhenNoKeyword(s);
  }

  lemma SpaceShuttleIsDefault(s: string)
    requires s == "space shuttle"
    ensures Emoji(s) == RobotFace
  {
    NoKeywordOfGroup(s, AllKeywords, 3, {'s', 'p', 'a'}, {'c', 'e', ' ', 's', 'h', 'u', 't', 'l'}, "drrabavopfbi");
    DefaultWhenNoKeyword(s);
  }

  /** Matching is case-sensitive: a capitalised keyword is not found. */
  lemma CapitalisedDogIsDefault(s: string)
    requires s == "Dog"
    ensures Emoji(s) == RobotFace
  {
    NoKeywordOfGroup(s, AllKeywords, 0, {}, {'D', 'o', 'g'}, "dttcbcvccfbp");
    DefaultWhenNoKeyword(s);
  }
}
