# Vocabulary trainer: state logic in Dafny

This project models the state logic of the `LanguageLearning` class of a
single-page vocabulary trainer (`script.js`). The class keeps three things:

- a vocabulary store, mapping each target-language code to its list of word
  pairs `{original, translation, dateAdded, practiced}`;
- the progress counters `quizzesTaken` and `correctAnswers`;
- the current quiz round: four candidate words and the correct translation.

The modelled operations are these:

- `translateText` turns text into a translation, from the service or a
  placeholder, and stores the pair.
- `addToVocabulary` appends a pair unless its original is already stored.
- `generateQuiz` shuffles the language's list in place and opens a round of
  four options.
- `checkAnswer` scores one answer per round.
- `updateProgress` computes the progress-bar width.

Modules:

- `Vocabulary` (`vocabulary.dfy`): entries, the store, the effect of
  `addToVocabulary` as a function on stores, and the uniqueness of originals,
  including its preservation when the quiz reorders a list. `Words` is the
  `this.vocabulary[lang] || []` lookup of script.js:176 and 222: a language
  without a list reads as the empty list.
- `Progress` (`progress.dfy`): the counters and the progress percentage, in
  exact real arithmetic.
- `Learning` (`language_learning.dfy`): the class `LanguageLearning`, whose
  methods update its fields in place. Each method is proved against the
  functions above, and preserves the object invariant `Valid()`. `Valid()`
  says three things: originals are unique per language; an open round's four
  options include the correct translation; correct answers never exceed
  quizzes taken.
- `QuizButtons` (`quiz_buttons.dfy`): what an answer button really hands to
  `checkAnswer` as the code is written (see Findings).

The environment is replaced by parameters:

- The selected target language, which the code reads from a drop-down, is
  passed in.
- The translation service's result is a `TranslationOutcome`: success with a
  text, or an error.
- The timestamp is an opaque `dateAdded` string.
- The constructor takes the parsed contents of the two storage keys, `None`
  for a missing one.
- The random shuffle is a nondeterministic choice of any permutation. The
  random question pick is a nondeterministic choice among the four options.
- An `answered` flag stands for the option buttons' click handlers. It is
  true before the first round and after an answer, once the handlers are
  removed.

Two details of the code that the model keeps:

- The service-failure placeholder is `"[" + upper(lang) + " tilidagi tarjimasi] " + text`
  (script.js:129), not a bare bracketed language code.
- Only absent or empty text is refused: the code tests whether the text is
  falsy (script.js:96), so whitespace-only text is translated and stored.

## Model

| member | source | states |
|---|---|---|
| Vocabulary.HasOriginal | script.js:140 | the `some` scan finds an original exactly when some position of the list holds it |
| Vocabulary.Added | script.js:135-151 | adding appends exactly `{original, translation, dateAdded, practiced: 0}` at the end of the language's list iff no entry there has that original, otherwise leaves the store unchanged; the language is present afterwards and every other language's list is untouched |
| Vocabulary.AddedTwice | script.js:140-150 | adding the same original to a language a second time leaves the store unchanged, whatever the new translation and timestamp |
| Vocabulary.AddedKeepsUnique | script.js:136-147 | adding keeps originals unique in every language's list |
| Vocabulary.PermutationKeepsUnique | script.js:186 | reordering a list (same multiset of entries) keeps its originals unique |
| Vocabulary.ReorderedKeepsUnique | script.js:176-186 | replacing one language's list by a permutation of it keeps the whole store unique |
| Progress.Percentage | script.js:229-234 | the progress width always lies in [0, 100] and is 0 when the language has no words |
| Progress.PercentageBelowCap | script.js:229-231 | with words present, the width is exactly quizzesTaken*100/totalWords below 100, and 100 once quizzesTaken reaches totalWords |
| Progress.PercentageMonotone | script.js:229-231 | taking more quizzes never lowers the width |
| Progress.PercentageAntitone | script.js:222-231 | from one word up, more words in the language never raise the width |
| Learning.UpperChar | script.js:129 | ASCII upper-casing maps a-z to A-Z and leaves other characters alone; no lower-case letter remains |
| Learning.Upper | script.js:129 | upper-casing keeps the length and upper-cases every character |
| Learning.DemoTranslation | script.js:128-129 | the placeholder opens with `[`, then the upper-cased language code, then exactly the infix ` tilidagi tarjimasi] `, and ends with the original text |
| Learning.DemoTranslationInjective | script.js:129 | different texts failing for one language get different placeholders |
| Learning.HelloPlaceholder | script.js:129 | the placeholder for "hello" into "fr" is exactly `[FR tilidagi tarjimasi] hello` |
| Learning.HelloWhileServiceDown | script.js:128-151 | from an empty store, "hello" to "fr" with the service down stores exactly `{hello, "[FR tilidagi tarjimasi] hello"}`; repeating it adds nothing |
| Learning.LanguageLearning.constructor | script.js:3-11 | starts from the stored vocabulary and progress, or an empty store and zero counters; no round is open; the invariant holds when the stored data satisfies it |
| Learning.LanguageLearning.AddToVocabulary | script.js:135-151 | the store becomes `Added(old store, …)`; counters and quiz state are unchanged; the invariant is kept |
| Learning.LanguageLearning.ShowDemoTranslation | script.js:128-132 | shows the placeholder and stores it as the text's translation; nothing else changes |
| Learning.LanguageLearning.TranslateText | script.js:95-120 | absent or empty text changes nothing and shows nothing; otherwise it shows the service's text on success or, on a service error, the placeholder `DemoTranslation(lang, text)`, and stores that pair via `Added`; counters never change |
| Learning.LanguageLearning.GenerateQuiz | script.js:175-200 | with fewer than 4 words nothing changes; otherwise quizzesTaken rises by exactly 1, only that language's list changes and becomes a permutation of itself, the options are its first 4 (distinct originals when the store's originals were unique), the correct option is the translation of one of them, and the round opens; counters never decrease |
| Learning.LanguageLearning.CheckAnswer | script.js:203-218 | in an open round, correctAnswers rises by exactly 1 iff the selected translation equals the correct one, and the round closes; a second click does nothing; quizzesTaken, vocabulary and round are unchanged |
| Learning.LanguageLearning.UpdateProgress | script.js:221-234 | reports the language's word count, quizzesTaken and the width, which lies in [0, 100], is 0 with no words and 100 once quizzes reach words |
| QuizButtons.ReadData | script.js:204 | jQuery's data read keeps an attribute string as text exactly when it is not "true", "false", "null" or a plain numeral |
| QuizButtons.AttributeValue | script.js:194-196 | the unescaped attribute is the translation up to, not including, its first double quote, and all of it when it has none |
| QuizButtons.MatchesAsWritten | script.js:203-207 | as written, a button scores correct iff its attribute text survives the data read as text and equals the correct option; for plain translations that is string equality |
| QuizButtons.ConvertedTranslationRejected | script.js:204-207 | as written, the correct button for translation "true" or "7" is scored wrong |
| QuizButtons.QuotedTranslationMisjudged | script.js:194-207 | as written, the correct button for a translation containing `"` is scored wrong, and a wrong one can be scored correct |

## Findings

| source | as written | input that shows it | evidently intended | confidence | as-written member | corrected member |
|---|---|---|---|---|---|---|
| script.js:204-207 | the answer is read back with jQuery's `.data('translation')`, which converts "true", "false", "null" and numerals to non-strings, then compared with `===` to the stored string | the correct translation is "true" (or "7"): clicking its button shows "wrong answer" and no correct answer is counted | the button's translation string is compared with the correct one | high for the four conversions modelled (documented jQuery behaviour); not executed | QuizButtons.ConvertedTranslationRejected | Learning.LanguageLearning.CheckAnswer |
| script.js:194-207 | the translation is interpolated unescaped into a double-quoted `data-translation` attribute, so the attribute ends at the first `"` | the correct translation is `say "hi"`: its button carries `say `, which is scored wrong; a wrong option `say "hi"` with correct option `say ` is scored correct | the button carries the whole translation | high; not executed | QuizButtons.QuotedTranslationMisjudged | Learning.LanguageLearning.CheckAnswer |

The class's `CheckAnswer` compares the selected translation string itself, as
intended. The `QuizButtons` module keeps the as-written path beside it.

## Left out

- Rendering is not modelled: building the vocabulary list, the quiz question and buttons, result texts, CSS classes, tab switching, and swapping the two language selectors. It is presentation only.
- The theme toggle, the system dark-mode preference and the `theme` storage key are not modelled. They are browser state outside the vocabulary logic.
- Text-to-speech (`pronounceText`) is not modelled. It is a browser API with no effect on the state.
- The HTTP request to the translation service is not modelled. Its outcome is a parameter, and the source language only travels in that request. Overlapping requests racing each other are not modelled either, since that is a concurrency concern.
- A successful response without a `translatedText` field is not modelled: the outcome always carries a string.
- Exceptions thrown by the success path are not modelled. For example, a storage write that fails would fall into the placeholder branch.
- Writes to `localStorage` are not modelled. Each one snapshots the whole vocabulary or the counters as JSON, and the model keeps the state in the object. Reading storage at start-up is the constructor's parameters.
- The shuffle's distribution is not modelled. The comparator-based sort with `Math.random` is any permutation here, and its bias cannot be stated in a verifier. The random question pick is likewise any of the four.
- Learning.UpperChar: upper-cases ASCII letters only, not the full Unicode `toUpperCase`; language codes are ASCII.
- Progress.Percentage: computes exact real arithmetic, not IEEE doubles, and does not model the CSS width string built from it.
- QuizButtons.ReadData: models only jQuery's conversions of "true", "false", "null" and plain non-negative integer numerals of at most 15 digits. Other numerals and JSON-shaped strings, which jQuery also converts, are treated as text here.
- QuizButtons.AttributeValue: models only the truncation at a double quote, not the decoding of HTML character references in the attribute.
- The `practiced` counter is never incremented by the code, so it stays 0 in every stored entry and has no operation of its own.
