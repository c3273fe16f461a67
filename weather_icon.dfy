/**
 * `obtenerEmojiClima`: an ordered, case-insensitive substring classifier from a weather
 * condition to an emoji, with a default.
 */
module WeatherIcon {

  /** Lower-casing of one character: ASCII capitals become small letters, all else is kept. */
  function LowerChar(c: char): (d: char)
    ensures 'A' <= c <= 'Z' ==> d as int == c as int + 32
    ensures !('A' <= c <= 'Z') ==> d == c
    ensures !('A' <= d <= 'Z')
  {
    if 'A' <= c <= 'Z' then (c as int + 32) as char else c
  }

  /** `toLowerCase`, character by character. */
  function Lower(s: string): (r: string)
    ensures |r| == |s|
    ensures forall i :: 0 <= i < |s| ==> r[i] == LowerChar(s[i])
  {
    if s == [] then [] else [LowerChar(s[0])] + Lower(s[1..])
  }

  /** Lower-casing twice is lower-casing once. */
  lemma LowerIdempotent(s: string)
    ensures Lower(Lower(s)) == Lower(s)
  {
    assert forall i :: 0 <= i < |s| ==> Lower(Lower(s))[i] == Lower(s)[i];
  }

  /** `k` occurs in `s` starting at position `i`. */
  predicate OccursAt(s: string, k: string, i: nat)
  {
    i + |k| <= |s| && s[i..i + |k|] == k
  }

  /** `includes`: whether `k` occurs somewhere in `s`, scanning from the left. */
  function Contains(s: string, k: string): (b: bool)
    ensures b <==> exists i: nat :: OccursAt(s, k, i)
    decreases |s|
  {
    if |k| > |s| then false
    else if s[..|k|] == k then assert OccursAt(s, k, 0); true
    else ShiftOccurrence(s, k); Contains(s[1..], k)
  }

  /** When `k` is not a prefix of `s`, its occurrences in `s` are those in `s` without its head. */
  lemma ShiftOccurrence(s: string, k: string)
    requires |k| <= |s| && s[..|k|] != k
    ensures (exists i: nat :: OccursAt(s, k, i)) <==> exists i: nat :: OccursAt(s[1..], k, i)
  {
    if exists i: nat :: OccursAt(s[1..], k, i) {
      var i: nat :| OccursAt(s[1..], k, i);
      assert s[i + 1..i + 1 + |k|] == s[1..][i..i + |k|];
      assert OccursAt(s, k, i + 1);
    }
    if exists i: nat :: OccursAt(s, k, i) {
      var i: nat :| OccursAt(s, k, i);
      assert i != 0;
      assert s[1..][i - 1..i - 1 + |k|] == s[i..i + |k|];
      assert OccursAt(s[1..], k, i - 1);
    }
  }

  /** The seven icons, in the order the rules are tried, with the default last. */
  datatype Icon = Rain | Cloud | Sun | Snow | Thunder | Fog | Default

  /** The Spanish and the English keyword of each rule. */
  function Keywords(icon: Icon): (ks: (string, string))
    requires icon != Default
  {
    match icon
    case Rain => ("lluvia", "rain")
    case Cloud => ("nube", "cloud")
    case Sun => ("sol", "clear")
    case Snow => ("nieve", "snow")
    case Thunder => ("tormenta", "thunder")
    case Fog => ("niebla", "fog")
  }

  /** The order in which the rules are tried. */
  const RuleOrder: seq<Icon> := [Rain, Cloud, Sun, Snow, Thunder, Fog]

  /** The rule for `icon` fires on the already lower-cased condition `lower`. */
  predicate RuleFires(lower: string, icon: Icon)
    requires icon != Default
  {
    Contains(lower, Keywords(icon).0) || Contains(lower, Keywords(icon).1)
  }

  /** The classifier's decision: the first rule, in order, whose keyword occurs. */
  function Classify(condition: string): (r: Icon)
    ensures r != Default ==> RuleFires(Lower(condition), r)
    ensures r == Rain <==> RuleFires(Lower(condition), Rain)
  {
    var c := Lower(condition);
    if Contains(c, "lluvia") || Contains(c, "rain") then Rain
    else if Contains(c, "nube") || Contains(c, "cloud") then Cloud
    else if Contains(c, "sol") || Contains(c, "clear") then Sun
    else if Contains(c, "nieve") || Contains(c, "snow") then Snow
    else if Contains(c, "tormenta") || Contains(c, "thunder") then Thunder
    else if Contains(c, "niebla") || Contains(c, "fog") then Fog
    else Default
  }

  /**
   * First match wins: the condition gets the icon of rule `j` exactly when that rule fires and
   * no earlier rule does.
   */
  lemma ClassifyIsFirstMatch(condition: string, j: nat)
    requires j < |RuleOrder|
    ensures Classify(condition) == RuleOrder[j] <==>
      RuleFires(Lower(condition), RuleOrder[j]) &&
      forall i :: 0 <= i < j ==> !RuleFires(Lower(condition), RuleOrder[i])
  {
    var c := Lower(condition);
    assert RuleOrder[0] == Rain && RuleOrder[1] == Cloud && RuleOrder[2] == Sun;
    assert RuleOrder[3] == Snow && RuleOrder[4] == Thunder && RuleOrder[5] == Fog;
  }

  /** The default is chosen exactly when no rule fires. */
  lemma ClassifyDefault(condition: string)
    ensures Classify(condition) == Default <==>
      forall i :: 0 <= i < |RuleOrder| ==> !RuleFires(Lower(condition), RuleOrder[i])
  {
    assert RuleOrder[0] == Rain && RuleOrder[1] == Cloud && RuleOrder[2] == Sun;
    assert RuleOrder[3] == Snow && RuleOrder[4] == Thunder && RuleOrder[5] == Fog;
  }

  /** Case does not matter: a condition and its lower-cased form get the same icon. */
  lemma ClassifyIgnoresCase(condition: string)
    ensures Classify(Lower(condition)) == Classify(condition)
  {
    LowerIdempotent(condition);
  }

  /**
   * A keyword that occurs anywhere in the lower-cased condition makes its rule fire; whether the
   * rule's icon is chosen then depends on the earlier rules (`ClassifyIsFirstMatch`).
   */
  lemma KeywordFires(condition: string, icon: Icon, i: nat)
    requires icon != Default
    requires OccursAt(Lower(condition), Keywords(icon).0, i) || OccursAt(Lower(condition), Keywords(icon).1, i)
    ensures RuleFires(Lower(condition), icon)
  {
  }

  /** The emoji the screen shows for each icon. */
  function Glyph(icon: Icon): (g: string)
    ensures |g| == 2 && g[1] == '\U{FE0F}'
  {
    match icon
    case Rain => "\U{1F327}\U{FE0F}"
    case Cloud => "\U{2601}\U{FE0F}"
    case Sun => "\U{2600}\U{FE0F}"
    case Snow => "\U{2744}\U{FE0F}"
    case Thunder => "\U{26C8}\U{FE0F}"
    case Fog => "\U{1F32B}\U{FE0F}"
    case Default => "\U{1F324}\U{FE0F}"
  }

  /** Different icons show different emoji. */
  lemma GlyphInjective(a: Icon, b: Icon)
    ensures Glyph(a) == Glyph(b) <==> a == b
  {
    if a != b {
      assert Glyph(a)[0] != Glyph(b)[0];
    }
  }

  /**
   * `obtenerEmojiClima`: the emoji of rule j exactly when rule j is the first rule that fires,
   * and the default emoji exactly when none fires.
   */
  function ConditionEmoji(condition: string): (g: string)
    ensures forall j :: 0 <= j < |RuleOrder| ==>
      (g == Glyph(RuleOrder[j]) <==>
        RuleFires(Lower(condition), RuleOrder[j]) &&
        forall i :: 0 <= i < j ==> !RuleFires(Lower(condition), RuleOrder[i]))
    ensures g == Glyph(Default) <==>
      forall i :: 0 <= i < |RuleOrder| ==> !RuleFires(Lower(condition), RuleOrder[i])
  {
    var icon := Classify(condition);
    forall j | 0 <= j < |RuleOrder|
      ensures Glyph(icon) == Glyph(RuleOrder[j]) <==>
        RuleFires(Lower(condition), RuleOrder[j]) &&
        forall i :: 0 <= i < j ==> !RuleFires(Lower(condition), RuleOrder[i])
    {
      ClassifyIsFirstMatch(condition, j);
      GlyphInjective(icon, RuleOrder[j]);
    }
    ClassifyDefault(condition);
    GlyphInjective(icon, Default);
    Glyph(icon)
  }

  /** "Lluvia y nubes" matches both the rain and the cloud rule; rain comes first. */
  lemma RainBeforeCloud(s: string)
    requires s == "Lluvia y nubes"
    ensures Classify(s) == Rain
  {
    var c := Lower(s);
    assert c[0] == LowerChar(s[0]) == 'l';
    assert c[1] == s[1] && c[2] == s[2] && c[3] == s[3] && c[4] == s[4] && c[5] == s[5];
    assert c[..6] == "lluvia";
    assert Contains(c, "lluvia");
  }
}
