/**
  What a quiz answer button hands to `checkAnswer`, as script.js is written.
  `generateQuiz` renders each option as a button whose double-quoted
  `data-translation` attribute is the entry's translation, interpolated
  without escaping (script.js:194-196), and `checkAnswer` reads the payload
  back with jQuery's `.data('translation')` (script.js:204), then compares it
  with `===` to the stored `correctOption` (script.js:207).

  Two things stand between the translation and the comparison:
  - the HTML parser ends a double-quoted attribute value at the first `"`;
  - jQuery's `.data()` turns the attribute strings "true", "false", "null"
    and numerals into a boolean, null or a number.
  Either way the value compared is no longer the translation, so the button
  that carries the correct translation can be scored wrong. The class in
  module Learning compares the translation itself, as intended.
 */
module QuizButtons {

  /** The JavaScript value `.data(key)` yields for a `data-*` attribute. */
  datatype DataValue = Text(text: string) | Boolean(b: bool) | Null | Number(value: nat)

  predicate IsDigit(c: char)
  {
    '0' <= c <= '9'
  }

  /**
    A decimal numeral that JavaScript turns into a number and prints back
    unchanged (`data === +data + ""`): no leading zero, and short enough to
    be an exact integer.
   */
  predicate IsPlainNumeral(s: string)
  {
    1 <= |s| <= 15 && (forall i :: 0 <= i < |s| ==> IsDigit(s[i])) && (s[0] == '0' ==> |s| == 1)
  }

  function NumeralValue(s: string): (n: nat)
    requires forall i :: 0 <= i < |s| ==> IsDigit(s[i])
  {
    if s == [] then 0
    else
      assert IsDigit(s[|s| - 1]);
      NumeralValue(s[..|s| - 1]) * 10 + (s[|s| - 1] as int - '0' as int)
  }

  /** jQuery's conversion of a `data-*` attribute string (the conversions of other shapes are not modelled). */
  function ReadData(attribute: string): (v: DataValue)
    ensures v.Text? <==> attribute != "true" && attribute != "false" && attribute != "null" && !IsPlainNumeral(attribute)
    ensures v.Text? ==> v.text == attribute
  {
    if attribute == "true" then Boolean(true)
    else if attribute == "false" then Boolean(false)
    else if attribute == "null" then Null
    else if IsPlainNumeral(attribute) then Number(NumeralValue(attribute))
    else Text(attribute)
  }

  /** The value of `data-translation="…"` after the HTML parser: the text up to the first `"`. */
  function AttributeValue(translation: string): (a: string)
    ensures a <= translation
    ensures '"' !in a
    ensures |a| < |translation| ==> translation[|a|] == '"'
    ensures '"' !in translation ==> a == translation
  {
    if translation == [] || translation[0] == '"' then []
    else [translation[0]] + AttributeValue(translation[1..])
  }

  /**
    The test of script.js:207 as written, for the button rendered from
    `buttonTranslation`: it scores correct exactly when the attribute text
    survives jQuery's conversion as a string and equals `correctOption`; so
    for a translation without quotes or convertible shapes it is the
    intended string equality.
   */
  predicate MatchesAsWritten(buttonTranslation: string, correctOption: string): (matches: bool)
    ensures matches <==>
      ReadData(AttributeValue(buttonTranslation)).Text? && AttributeValue(buttonTranslation) == correctOption
    ensures '"' !in buttonTranslation && ReadData(buttonTranslation).Text? ==>
      (matches <==> buttonTranslation == correctOption)
  {
    ReadData(AttributeValue(buttonTranslation)) == Text(correctOption)
  }

  /** Finding: the correct button for a translation "true" (or "7") is scored wrong. */
  lemma ConvertedTranslationRejected()
    ensures !MatchesAsWritten("true", "true")
    ensures !MatchesAsWritten("7", "7")
  {
    assert IsPlainNumeral("7");
  }

  /**
    Finding: the correct button for a translation containing `"` is scored
    wrong, and a wrong button whose translation extends the correct one past
    a `"` is scored correct.
   */
  lemma QuotedTranslationMisjudged()
    ensures !MatchesAsWritten("say \"hi\"", "say \"hi\"")
    ensures MatchesAsWritten("say \"hi\"", "say ")
  {
    assert AttributeValue("say \"hi\"") == "say ";
    assert !IsPlainNumeral("say ");
  }
}
