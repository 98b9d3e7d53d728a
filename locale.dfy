/**
 * Locale choice and the localized message table of the userscript
 * (the `Messages` object of the constructor and `getLocale`).
 */
module Locale {

  datatype Lang = En | Ru

  /** The "player not found" message of each locale. */
  function PlayerNotFound(l: Lang): string
  {
    match l
    case En => "Player not found on Faceit"
    case Ru => "Игрок не найден на Faceit"
  }

  /** The "request API error" message of each locale. */
  function RequestApiError(l: Lang): string
  {
    match l
    case En => "Error executing Faceit API request"
    case Ru => "Ошибка выполнения запроса к API"
  }

  /** `toLowerCase` on one character, for the ASCII letters. */
  function LowerChar(c: char): (r: char)
    ensures 'A' <= c <= 'Z' ==> 'a' <= r <= 'z' && r as int == c as int + 32
    ensures !('A' <= c <= 'Z') ==> r == c
  {
    if 'A' <= c <= 'Z' then (c as int - 'A' as int + 'a' as int) as char else c
  }

  /** `toLowerCase` on a string: the same length, each character lowered, no ASCII capital left. */
  function ToLower(s: string): (r: string)
    ensures |r| == |s|
    ensures forall i :: 0 <= i < |s| ==> r[i] == LowerChar(s[i])
    ensures forall i :: 0 <= i < |r| ==> !('A' <= r[i] <= 'Z')
  {
    seq(|s|, i requires 0 <= i < |s| => LowerChar(s[i]))
  }

  /** `p` occurs in `s` starting at index `i`. */
  ghost predicate OccursAt(s: string, p: string, i: int)
  {
    0 <= i && i + |p| <= |s| && s[i..i + |p|] == p
  }

  /** An occurrence in the tail of `s` is an occurrence in `s` one index further on, and back. */
  lemma ShiftOccurs(s: string, p: string)
    requires |s| > 0
    ensures (exists i :: OccursAt(s[1..], p, i)) <==> (exists i :: 1 <= i && OccursAt(s, p, i))
  {
    if exists i :: OccursAt(s[1..], p, i) {
      var i :| OccursAt(s[1..], p, i);
      assert s[1..][i..i + |p|] == s[i + 1..i + 1 + |p|];
      assert OccursAt(s, p, i + 1);
    }
    if exists i :: 1 <= i && OccursAt(s, p, i) {
      var i :| 1 <= i && OccursAt(s, p, i);
      assert s[1..][i - 1..i - 1 + |p|] == s[i..i + |p|];
      assert OccursAt(s[1..], p, i - 1);
    }
  }

  /** `s.includes(p)`, scanning from the left: true exactly when `p` occurs at some index of `s`. */
  function Includes(s: string, p: string): (r: bool)
    ensures r <==> exists i :: OccursAt(s, p, i)
    decreases |s|
  {
    if |p| > |s| then false
    else if s[..|p|] == p then assert OccursAt(s, p, 0); true
    else ShiftOccurs(s, p); Includes(s[1..], p)
  }

  /** The lowered tag has "ru" at index i. */
  ghost predicate RuAt(language: string, i: int)
  {
    0 <= i && i + 1 < |language| && LowerChar(language[i]) == 'r' && LowerChar(language[i + 1]) == 'u'
  }

  /** The lowered tag contains "ru" exactly when the tag has an ASCII-case-insensitive "ru" somewhere. */
  lemma LoweredIncludesRu(language: string)
    ensures Includes(ToLower(language), "ru") <==> exists i :: RuAt(language, i)
  {
    var low := ToLower(language);
    if exists i :: OccursAt(low, "ru", i) {
      var i :| OccursAt(low, "ru", i);
      assert low[i..i + 2][0] == low[i] && low[i..i + 2][1] == low[i + 1];
      assert RuAt(language, i);
    }
    if exists i :: RuAt(language, i) {
      var i :| RuAt(language, i);
      assert low[i..i + 2] == "ru";
      assert OccursAt(low, "ru", i);
    }
  }

  /**
   * `getLocale`: "ru" when the lowered language tag contains "ru", else "en".
   * The locale is Russian exactly when, ignoring ASCII case, the tag holds
   * an 'r' immediately followed by a 'u' somewhere; otherwise it is English.
   */
  function GetLocale(language: string): (r: Lang)
    ensures r == Ru <==> exists i :: RuAt(language, i)
    ensures r == En <==> !exists i :: RuAt(language, i)
  {
    LoweredIncludesRu(language);
    if Includes(ToLower(language), "ru") then Ru else En
  }

  /** Lowering twice is lowering once. */
  lemma ToLowerIdempotent(s: string)
    ensures ToLower(ToLower(s)) == ToLower(s)
  {
  }

  /** The choice ignores case: lowering the tag first does not change the locale. */
  lemma GetLocaleCaseInsensitive(language: string)
    ensures GetLocale(ToLower(language)) == GetLocale(language)
  {
    var low := ToLower(language);
    if exists i :: RuAt(language, i) {
      var i :| RuAt(language, i);
      assert RuAt(low, i);
    }
    if exists i :: RuAt(low, i) {
      var i :| RuAt(low, i);
      assert RuAt(language, i);
    }
  }

  /** Typical browser tags. */
  lemma GetLocaleExamples()
    ensures GetLocale("ru-RU") == Ru
    ensures GetLocale("RU") == Ru
    ensures GetLocale("en-US") == En
    ensures GetLocale("") == En
  {
    assert RuAt("ru-RU", 0);
    assert RuAt("RU", 0);
  }

  /**
   * The two messages the error display compares are always distinct:
   * a request error can never be mistaken for "player not found".
   */
  lemma MessagesDistinct(l: Lang, cause: string)
    ensures RequestApiError(l) + ": " + cause != PlayerNotFound(l)
    ensures RequestApiError(l) != PlayerNotFound(l)
  {
  }
}
