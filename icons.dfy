// The categorizer of static/script.js (getIcon): a description is lower-cased
// and tested against an ordered list of keyword rules; the first rule with a
// keyword occurring in it gives the icon, and "fa-wallet" is the fallback.

module Icons {

  const Fallback: string := "fa-wallet"

  /** Lower-casing of one character (ASCII letters only). */
  function LowerChar(c: char): char
  {
    if 'A' <= c <= 'Z' then (c as int + 32) as char else c
  }

  function Lower(s: string): string
  {
    seq(|s|, i requires 0 <= i < |s| => LowerChar(s[i]))
  }

  /** Lower-casing twice is lower-casing once. */
  lemma LowerIdempotent(s: string)
    ensures Lower(Lower(s)) == Lower(s)
  {
  }

  /** The keyword k occurs in s starting at position i. */
  ghost predicate OccursAt(s: string, k: string, i: int)
  {
    0 <= i && i + |k| <= |s| && s[i..i + |k|] == k
  }

  /** JavaScript's String.prototype.includes: k occurs somewhere in s. */
  function Includes(s: string, k: string): (r: bool)
    ensures r <==> exists i :: OccursAt(s, k, i)
    decreases |s|
  {
    if |s| < |k| then
      false
    else if s[..|k|] == k then
      assert OccursAt(s, k, 0);
      true
    else
      var r := Includes(s[1..], k);
      assert forall i :: OccursAt(s[1..], k, i) ==> OccursAt(s, k, i + 1) by {
        forall i | OccursAt(s[1..], k, i) ensures OccursAt(s, k, i + 1) {
          assert s[1..][i..i + |k|] == s[i + 1..i + 1 + |k|];
        }
      }
      assert forall i :: OccursAt(s, k, i) ==> OccursAt(s[1..], k, i - 1) by {
        forall i | OccursAt(s, k, i) ensures OccursAt(s[1..], k, i - 1) {
          assert i != 0;
          assert s[1..][i - 1..i - 1 + |k|] == s[i..i + |k|];
        }
      }
      r
  }

  /** Some keyword of the list occurs in s. */
  function AnyIncluded(s: string, keywords: seq<string>): bool
  {
    if keywords == [] then false
    else Includes(s, keywords[0]) || AnyIncluded(s, keywords[1..])
  }

  /** getIcon, written as the cascade of tests the script has. */
  function GetIcon(desc: string): string
  {
    var d := Lower(desc);
    if Includes(d, "uber") || Includes(d, "taxi") || Includes(d, "bus") || Includes(d, "fuel") then "fa-car"
    else if Includes(d, "food") || Includes(d, "burger") || Includes(d, "pizza") || Includes(d, "dinner") then "fa-utensils"
    else if Includes(d, "shop") || Includes(d, "buy") || Includes(d, "clothes") then "fa-shopping-bag"
    else if Includes(d, "movie") || Includes(d, "game") || Includes(d, "netflix") then "fa-gamepad"
    else if Includes(d, "salary") || Includes(d, "income") then "fa-money-bill-wave"
    else if Includes(d, "home") || Includes(d, "rent") then "fa-home"
    else Fallback
  }

  /** The same rules as an ordered table: keywords and the icon they select. */
  datatype Rule = Rule(keywords: seq<string>, icon: string)

  const Rules: seq<Rule> := [
    Rule(["uber", "taxi", "bus", "fuel"], "fa-car"),
    Rule(["food", "burger", "pizza", "dinner"], "fa-utensils"),
    Rule(["shop", "buy", "clothes"], "fa-shopping-bag"),
    Rule(["movie", "game", "netflix"], "fa-gamepad"),
    Rule(["salary", "income"], "fa-money-bill-wave"),
    Rule(["home", "rent"], "fa-home")
  ]

  predicate Matches(rule: Rule, s: string)
  {
    AnyIncluded(s, rule.keywords)
  }

  /** Reference semantics of an ordered rule table: try the rules in order. */
  function FirstMatch(rules: seq<Rule>, s: string): string
  {
    if rules == [] then Fallback
    else if Matches(rules[0], s) then rules[0].icon
    else FirstMatch(rules[1..], s)
  }

  /** For a table whose icons all differ from the fallback, FirstMatch returns
      the fallback exactly when no rule matches. */
  lemma {:induction false} FallbackIffNoMatch(rules: seq<Rule>, s: string)
    requires forall k :: 0 <= k < |rules| ==> rules[k].icon != Fallback
    ensures FirstMatch(rules, s) == Fallback <==> forall k :: 0 <= k < |rules| ==> !Matches(rules[k], s)
  {
    if rules != [] {
      var tail := rules[1..];
      assert forall k :: 0 <= k < |tail| ==> tail[k] == rules[k + 1];
      FallbackIffNoMatch(tail, s);
      if !Matches(rules[0], s) {
        assert (forall k :: 0 <= k < |rules| ==> !Matches(rules[k], s))
           <==> (forall k :: 0 <= k < |tail| ==> !Matches(tail[k], s));
      }
    }
  }

  /** FirstMatch returns the icon of the first matching rule. */
  lemma {:induction false} FirstMatchIsFirst(rules: seq<Rule>, s: string, k: nat)
    requires k < |rules| && Matches(rules[k], s)
    requires forall j :: 0 <= j < k ==> !Matches(rules[j], s)
    ensures FirstMatch(rules, s) == rules[k].icon
  {
    if k > 0 {
      assert !Matches(rules[0], s);
      var tail := rules[1..];
      assert forall j :: 0 <= j < |tail| ==> tail[j] == rules[j + 1];
      FirstMatchIsFirst(tail, s, k - 1);
    }
  }

  /** The cascade and the table agree on every description: getIcon returns the
      icon of the first rule, in the order car, utensils, shopping bag, gamepad,
      money bill, home, one of whose keywords occurs in the lower-cased
      description, and "fa-wallet" when there is none. */
  lemma GetIconIsFirstMatch(desc: string)
    ensures GetIcon(desc) == FirstMatch(Rules, Lower(desc))
  {
    var d := Lower(desc);
    assert Rules[0..] == Rules;
    CarRule(d);
    FoodRule(d);
    ShopRule(d);
    GameRule(d);
    MoneyRule(d);
    HomeRule(d);
    assert Rules[6..] == [];
  }

  lemma CarRule(d: string)
    ensures FirstMatch(Rules[0..], d)
         == if Includes(d, "uber") || Includes(d, "taxi") || Includes(d, "bus") || Includes(d, "fuel") then "fa-car"
            else FirstMatch(Rules[1..], d)
  {
    FirstMatchStep(0, d);
    AnyOfFour(d, "uber", "taxi", "bus", "fuel");
  }

  lemma FoodRule(d: string)
    ensures FirstMatch(Rules[1..], d)
         == if Includes(d, "food") || Includes(d, "burger") || Includes(d, "pizza") || Includes(d, "dinner") then "fa-utensils"
            else FirstMatch(Rules[2..], d)
  {
    FirstMatchStep(1, d);
    AnyOfFour(d, "food", "burger", "pizza", "dinner");
  }

  lemma ShopRule(d: string)
    ensures FirstMatch(Rules[2..], d)
         == if Includes(d, "shop") || Includes(d, "buy") || Includes(d, "clothes") then "fa-shopping-bag"
            else FirstMatch(Rules[3..], d)
  {
    FirstMatchStep(2, d);
    AnyOfThree(d, "shop", "buy", "clothes");
  }

  lemma GameRule(d: string)
    ensures FirstMatch(Rules[3..], d)
         == if Includes(d, "movie") || Includes(d, "game") || Includes(d, "netflix") then "fa-gamepad"
            else FirstMatch(Rules[4..], d)
  {
    FirstMatchStep(3, d);
    AnyOfThree(d, "movie", "game", "netflix");
  }

  lemma MoneyRule(d: string)
    ensures FirstMatch(Rules[4..], d)
         == if Includes(d, "salary") || Includes(d, "income") then "fa-money-bill-wave"
            else FirstMatch(Rules[5..], d)
  {
    FirstMatchStep(4, d);
    AnyOfTwo(d, "salary", "income");
  }

  lemma HomeRule(d: string)
    ensures FirstMatch(Rules[5..], d)
         == if Includes(d, "home") || Includes(d, "rent") then "fa-home"
            else FirstMatch(Rules[6..], d)
  {
    FirstMatchStep(5, d);
    AnyOfTwo(d, "home", "rent");
  }

  lemma FirstMatchStep(k: nat, d: string)
    requires k < |Rules|
    ensures FirstMatch(Rules[k..], d) == if Matches(Rules[k], d) then Rules[k].icon else FirstMatch(Rules[k + 1..], d)
  {
    assert Rules[k..][0] == Rules[k];
    assert Rules[k..][1..] == Rules[k + 1..];
  }

  lemma AnyOfTwo(d: string, a: string, b: string)
    ensures AnyIncluded(d, [a, b]) <==> Includes(d, a) || Includes(d, b)
  {
    assert [a, b][1..] == [b];
    assert [b][1..] == [];
    assert AnyIncluded(d, [b]) == Includes(d, b);
  }

  lemma AnyOfThree(d: string, a: string, b: string, c: string)
    ensures AnyIncluded(d, [a, b, c]) <==> Includes(d, a) || Includes(d, b) || Includes(d, c)
  {
    assert [a, b, c][1..] == [b, c];
    AnyOfTwo(d, b, c);
  }

  lemma AnyOfFour(d: string, a: string, b: string, c: string, e: string)
    ensures AnyIncluded(d, [a, b, c, e]) <==> Includes(d, a) || Includes(d, b) || Includes(d, c) || Includes(d, e)
  {
    assert [a, b, c, e][1..] == [b, c, e];
    AnyOfThree(d, b, c, e);
  }

  /** getIcon returns the icon of the first rule, in table order, one of whose
      keywords occurs in the lower-cased description. */
  lemma GetIconPicksFirstRule(desc: string, k: nat)
    requires k < |Rules| && Matches(Rules[k], Lower(desc))
    requires forall j :: 0 <= j < k ==> !Matches(Rules[j], Lower(desc))
    ensures GetIcon(desc) == Rules[k].icon
  {
    GetIconIsFirstMatch(desc);
    FirstMatchIsFirst(Rules, Lower(desc), k);
  }

  /** getIcon returns "fa-wallet" exactly when no keyword of any rule occurs in
      the lower-cased description. */
  lemma GetIconFallback(desc: string)
    ensures GetIcon(desc) == Fallback <==> forall k :: 0 <= k < |Rules| ==> !Matches(Rules[k], Lower(desc))
  {
    GetIconIsFirstMatch(desc);
    FallbackIffNoMatch(Rules, Lower(desc));
  }

  /** getIcon ignores case: any two descriptions equal up to case get the same icon. */
  lemma GetIconIgnoresCase(a: string, b: string)
    requires Lower(a) == Lower(b)
    ensures GetIcon(a) == GetIcon(b)
  {
  }

  /** In particular a description and its lower-cased form get the same icon. */
  lemma GetIconOfLowered(desc: string)
    ensures GetIcon(Lower(desc)) == GetIcon(desc)
  {
    LowerIdempotent(desc);
  }

  /** Earlier rules shadow later ones: a description mentioning both "uber" and
      "pizza" (in any case) is a ride, not food. */
  lemma EarlierRuleShadows(desc: string)
    requires Includes(Lower(desc), "uber") && Includes(Lower(desc), "pizza")
    ensures GetIcon(desc) == "fa-car"
  {
  }

  /** A concrete instance: "Uber to Pizza Hut" gets the car icon. */
  lemma UberPizzaIsCar()
    ensures GetIcon("Uber to Pizza Hut") == "fa-car"
  {
    var d := Lower("Uber to Pizza Hut");
    assert d[0..4] == "uber";
    assert OccursAt(d, "uber", 0);
  }
}
