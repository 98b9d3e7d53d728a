/**
 * The string decisions of the presentation layer: which text the error
 * block shows (`handleErrors`) and the skill-level icon URL
 * (`getSkillLevelIconPath`). Building and inserting the elements is not modelled.
 */
module Presentation {
  import opened Js
  import opened Locale

  /** The fixed prefix of every error other than "player not found". */
  const ErrorPrefix: string := "Ошибка: "

  /** Where the level icons live. */
  const IconBasePath: string := "https://raw.githubusercontent.com/raizano/FACEIT-Statistics/master/icons/"

  /** What follows the level in an icon file name. */
  const IconSuffix: string := "-level.svg"

  /**
   * The text of the error block for an error with the given message:
   * the localized "player not found" verbatim, anything else behind the prefix.
   */
  function ErrorText(l: Lang, message: string): (r: string)
    ensures message == PlayerNotFound(l) ==> r == message
    ensures message != PlayerNotFound(l) ==> r == ErrorPrefix + message
  {
    if message == PlayerNotFound(l) then PlayerNotFound(l) else ErrorPrefix + message
  }

  /** The prefixed form never reads as a "player not found" message, in either locale. */
  lemma PrefixedIsNotNotFound(message: string)
    ensures ErrorPrefix + message != PlayerNotFound(En)
    ensures ErrorPrefix + message != PlayerNotFound(Ru)
  {
    var w := ErrorPrefix + message;
    assert w[0] == ErrorPrefix[0];
  }

  /** The block shows exactly the "player not found" text iff the message was exactly that text. */
  lemma ErrorTextNotFoundIff(l: Lang, message: string)
    ensures ErrorText(l, message) == PlayerNotFound(l) <==> message == PlayerNotFound(l)
  {
    PrefixedIsNotNotFound(message);
  }

  /** The message can be read back from the shown text: distinct messages show distinctly. */
  lemma ErrorTextInjective(l: Lang, m1: string, m2: string)
    requires ErrorText(l, m1) == ErrorText(l, m2)
    ensures m1 == m2
  {
    PrefixedIsNotNotFound(m1);
    PrefixedIsNotNotFound(m2);
    if m1 != PlayerNotFound(l) && m2 != PlayerNotFound(l) {
      assert m1 == (ErrorPrefix + m1)[|ErrorPrefix|..];
      assert m2 == (ErrorPrefix + m2)[|ErrorPrefix|..];
    }
  }

  /** A template-literal result is truthy iff non-empty, so `s || null` is None only for "". */
  function OrNull(s: string): Option<string>
  {
    if s != "" then Some(s) else None
  }

  /** `getSkillLevelIconPath(level)`: the base path, the level's text, "-level.svg"; `|| null` included. */
  function SkillLevelIconPath(level: Value): (r: Option<string>)
    ensures r.Some?
    ensures |r.value| == |IconBasePath| + |Show(level)| + |IconSuffix|
    ensures r.value[..|IconBasePath|] == IconBasePath
    ensures r.value[|r.value| - |IconSuffix|..] == IconSuffix
  {
    OrNull(IconBasePath + Show(level) + IconSuffix)
  }

  /** The level's text, read back from an icon path. */
  function IconLevelText(path: string): (r: string)
    requires |path| >= |IconBasePath| + |IconSuffix|
    ensures |r| == |path| - |IconBasePath| - |IconSuffix|
  {
    path[|IconBasePath|..|path| - |IconSuffix|]
  }

  /** The icon path always carries the level's text, which can be read back. */
  lemma IconPathRoundTrip(level: Value)
    ensures IconLevelText(SkillLevelIconPath(level).value) == Show(level)
  {
  }

  /** Example: level 10 gives the icon file "10-level.svg". */
  lemma IconPathExample()
    ensures SkillLevelIconPath(Scalar("10")).value ==
      "https://raw.githubusercontent.com/raizano/FACEIT-Statistics/master/icons/10-level.svg"
  {
  }
}
