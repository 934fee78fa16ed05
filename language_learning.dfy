/**
  The state logic of the `LanguageLearning` class of script.js: the
  vocabulary store, the progress counters and the current quiz round, and
  the operations that change them. The DOM, the translation service, the
  clock, `Math.random` and `localStorage` are outside the model: the selected
  languages, the service's outcome and the timestamp are parameters, and the
  shuffle and the random pick are nondeterministic choices.
 */
module Learning {

  import opened Vocabulary
  import opened Progress

  datatype Option<T> = None | Some(value: T)

  /** How the request to the translation service ended (script.js:105-119). */
  datatype TranslationOutcome = Translated(translatedText: string) | ServiceError

  /** What a click on a quiz option did: nothing (the round is over), or scored it. */
  datatype AnswerResult = Ignored | Correct | Wrong

  /** `toUpperCase` on one character, ASCII letters only. */
  function UpperChar(c: char): (u: char)
    ensures !('a' <= u <= 'z')
    ensures 'a' <= c <= 'z' ==> 'A' <= u <= 'Z' && u as int - 'A' as int == c as int - 'a' as int
    ensures !('a' <= c <= 'z') ==> u == c
  {
    if 'a' <= c <= 'z' then (c as int - 'a' as int + 'A' as int) as char else c
  }

  /** `toUpperCase` on a language code, character by character. */
  function Upper(s: string): (r: string)
    ensures |r| == |s|
    ensures forall i :: 0 <= i < |s| ==> r[i] == UpperChar(s[i])
  {
    if s == [] then [] else [UpperChar(s[0])] + Upper(s[1..])
  }

  /** The fixed part of the placeholder that follows the language code (script.js:129). */
  const DemoInfix: string := " tilidagi tarjimasi] "

  /**
    The placeholder stored when the service fails (script.js:129): the
    upper-cased target language in brackets with the infix, then the text.
   */
  function DemoTranslation(targetLang: string, text: string): (r: string)
    ensures |r| == |targetLang| + |DemoInfix| + 1 + |text|
    ensures r[0] == '['
    ensures forall i :: 0 <= i < |targetLang| ==> r[i + 1] == UpperChar(targetLang[i])
    ensures r[|targetLang| + 1..|targetLang| + 1 + |DemoInfix|] == DemoInfix
    ensures r[|r| - |text|..] == text
  {
    "[" + Upper(targetLang) + DemoInfix + text
  }

  /** Two texts failing for the same language get different placeholders. */
  lemma DemoTranslationInjective(targetLang: string, text1: string, text2: string)
    requires DemoTranslation(targetLang, text1) == DemoTranslation(targetLang, text2)
    ensures text1 == text2
  {
    var r := DemoTranslation(targetLang, text1);
    assert |text1| == |text2|;
    assert text1 == r[|r| - |text1|..] == text2;
  }

  class LanguageLearning {
    /** `this.vocabulary`: language code to its entries. */
    var vocabulary: Store
    /** `this.userProgress`. */
    var userProgress: UserProgress
    /** The four candidates of the current round. */
    var quizWords: seq<Entry>
    /** The translation of the word the current round asks for. */
    var correctOption: string
    /**
      True when no option button accepts a click: before the first round,
      and after an answer, once the handlers are removed (script.js:217).
     */
    var answered: bool

    /**
      Originals are unique per language; in an open round the four options
      include the correct translation; and a correct answer needs a round,
      so correct answers never exceed quizzes taken.
     */
    ghost predicate Valid()
      reads this
    {
      && StoreUnique(vocabulary)
      && userProgress.correctAnswers + (if answered then 0 else 1) <= userProgress.quizzesTaken
      && (!answered ==> |quizWords| == 4 && exists k :: 0 <= k < 4 && quizWords[k].translation == correctOption)
    }

    /** Neither counter went down. */
    twostate predicate CountersMonotone()
      reads this
    {
      && old(userProgress.quizzesTaken) <= userProgress.quizzesTaken
      && old(userProgress.correctAnswers) <= userProgress.correctAnswers
    }

    /**
      The constructor (script.js:3-19) with what `localStorage` held for
      `vocabulary` and `progress` passed in, `None` for a missing key.
     */
    constructor (storedVocabulary: Option<Store>, storedProgress: Option<UserProgress>)
      ensures vocabulary == (if storedVocabulary.Some? then storedVocabulary.value else map[])
      ensures userProgress == (if storedProgress.Some? then storedProgress.value else UserProgress(0, 0))
      ensures quizWords == [] && correctOption == "" && answered
      ensures (storedVocabulary.Some? ==> StoreUnique(storedVocabulary.value)) &&
              (storedProgress.Some? ==> storedProgress.value.correctAnswers <= storedProgress.value.quizzesTaken)
              ==> Valid()
    {
      vocabulary := if storedVocabulary.Some? then storedVocabulary.value else map[];
      userProgress := if storedProgress.Some? then storedProgress.value else UserProgress(0, 0);
      quizWords := [];
      correctOption := "";
      answered := true;
    }

    /** `addToVocabulary` (script.js:135-151): store the pair unless its original is already there. */
    method AddToVocabulary(original: string, translation: string, language: string, dateAdded: string)
      modifies this
      ensures vocabulary == Added(old(vocabulary), language, original, translation, dateAdded)
      ensures userProgress == old(userProgress) && quizWords == old(quizWords)
      ensures correctOption == old(correctOption) && answered == old(answered)
      ensures old(Valid()) ==> Valid()
    {
      ghost var before := vocabulary;
      if language !in vocabulary {
        vocabulary := vocabulary[language := []];
      }
      var isExist := HasOriginal(vocabulary[language], original);
      if !isExist {
        vocabulary := vocabulary[language := vocabulary[language] + [Entry(original, translation, dateAdded, 0)]];
      }
      if StoreUnique(before) {
        AddedKeepsUnique(before, language, original, translation, dateAdded);
      }
    }

    /**
      `showDemoTranslation` (script.js:128-132): show the placeholder for
      `text` and store it as the text's translation.
     */
    method ShowDemoTranslation(text: string, targetLang: string, dateAdded: string) returns (shown: string)
      modifies this
      ensures shown == DemoTranslation(targetLang, text)
      ensures vocabulary == Added(old(vocabulary), targetLang, text, shown, dateAdded)
      ensures userProgress == old(userProgress) && quizWords == old(quizWords)
      ensures correctOption == old(correctOption) && answered == old(answered)
      ensures old(Valid()) ==> Valid()
    {
      shown := DemoTranslation(targetLang, text);
      AddToVocabulary(text, shown, targetLang, dateAdded);
    }

    /**
      `translateText` (script.js:95-120). Absent or empty text is refused
      (`None` is returned and nothing changes); any other text, blanks
      included, is translated, shown and stored. `outcome` is how the
      service request ended.
     */
    method TranslateText(text: Option<string>, targetLang: string, outcome: TranslationOutcome, dateAdded: string)
      returns (shown: Option<string>)
      modifies this
      ensures (text == None || text == Some("")) <==> shown == None
      ensures shown == None ==> unchanged(this)
      ensures shown.Some? ==>
        && (outcome.Translated? ==> shown.value == outcome.translatedText)
        && (outcome.ServiceError? ==> shown.value == DemoTranslation(targetLang, text.value))
        && vocabulary == Added(old(vocabulary), targetLang, text.value, shown.value, dateAdded)
      ensures userProgress == old(userProgress) && quizWords == old(quizWords)
      ensures correctOption == old(correctOption) && answered == old(answered)
      ensures old(Valid()) ==> Valid()
    {
      if text == None || text == Some("") {
        return None;
      }
      match outcome {
        case Translated(translatedText) =>
          AddToVocabulary(text.value, translatedText, targetLang, dateAdded);
          shown := Some(translatedText);
        case ServiceError =>
          var demo := ShowDemoTranslation(text.value, targetLang, dateAdded);
          shown := Some(demo);
      }
    }

    /**
      `generateQuiz` (script.js:175-200) for target language `lang`. With
      fewer than four words nothing changes and no round starts. Otherwise
      one more quiz is counted, the language's stored list is reordered in
      place (the shuffle is any permutation), its first four entries become
      the options, one of them is picked as the question, and the round is
      open for one answer.
     */
    method GenerateQuiz(lang: string) returns (started: bool)
      modifies this
      ensures started <==> |Words(old(vocabulary), lang)| >= 4
      ensures !started ==> unchanged(this)
      ensures started ==>
        && userProgress == old(userProgress).(quizzesTaken := old(userProgress.quizzesTaken) + 1)
        && lang in vocabulary
        && vocabulary == old(vocabulary)[lang := vocabulary[lang]]
        && multiset(vocabulary[lang]) == multiset(Words(old(vocabulary), lang))
        && |vocabulary[lang]| == |Words(old(vocabulary), lang)|
        && quizWords == vocabulary[lang][..4]
        && (exists k :: 0 <= k < 4 && correctOption == quizWords[k].translation)
        && !answered
      ensures started && old(Valid()) ==> UniqueOriginals(quizWords)
      // a summary of the clauses above: neither counter goes down
      ensures CountersMonotone()
      ensures old(Valid()) ==> Valid()
    {
      var words := Words(vocabulary, lang);
      if |words| < 4 {
        return false;
      }
      userProgress := userProgress.(quizzesTaken := userProgress.quizzesTaken + 1);
      var shuffled :| multiset(shuffled) == multiset(words);
      assert |shuffled| == |multiset(shuffled)| == |words|;
      if old(Valid()) {
        ReorderedKeepsUnique(vocabulary, lang, shuffled);
      }
      vocabulary := vocabulary[lang := shuffled];
      quizWords := shuffled[..4];
      var pick :| 0 <= pick < |quizWords|;
      correctOption := quizWords[pick].translation;
      answered := false;
      started := true;
    }

    /**
      `checkAnswer` (script.js:203-218) for a click on the option showing
      `selected`. In an open round, the answer is correct exactly when
      `selected` is the correct translation, one correct answer is counted
      then, and the round closes; once closed, clicks do nothing.
     */
    method CheckAnswer(selected: string) returns (result: AnswerResult)
      modifies this
      ensures old(answered) ==> result == Ignored && unchanged(this)
      ensures !old(answered) ==>
        && (result == Correct <==> selected == old(correctOption))
        && result != Ignored
        && answered
        && userProgress.correctAnswers == old(userProgress.correctAnswers) + (if result == Correct then 1 else 0)
      ensures userProgress.quizzesTaken == old(userProgress.quizzesTaken)
      ensures vocabulary == old(vocabulary) && quizWords == old(quizWords) && correctOption == old(correctOption)
      // a summary of the clauses above: neither counter goes down
      ensures CountersMonotone()
      ensures old(Valid()) ==> Valid()
    {
      if answered {
        return Ignored;
      }
      if selected == correctOption {
        userProgress := userProgress.(correctAnswers := userProgress.correctAnswers + 1);
        result := Correct;
      } else {
        result := Wrong;
      }
      answered := true;
    }

    /**
      The figures `updateProgress` (script.js:221-237) displays for target
      language `lang`: its word count, the quizzes taken, and the progress
      bar width in percent.
     */
    method UpdateProgress(lang: string) returns (totalWords: nat, quizzesTaken: nat, width: real)
      ensures totalWords == |Words(vocabulary, lang)| && quizzesTaken == userProgress.quizzesTaken
      ensures width == Percentage(quizzesTaken, totalWords)
      ensures 0.0 <= width <= 100.0
      ensures totalWords == 0 ==> width == 0.0
      ensures 0 < totalWords <= quizzesTaken ==> width == 100.0
    {
      var words := Words(vocabulary, lang);
      totalWords := |words|;
      quizzesTaken := userProgress.quizzesTaken;
      width := Percentage(quizzesTaken, totalWords);
      if totalWords > 0 {
        PercentageBelowCap(quizzesTaken, totalWords);
      }
    }
  }

  /** The placeholder for "hello" translated into "fr". */
  lemma HelloPlaceholder()
    ensures DemoTranslation("fr", "hello") == "[FR tilidagi tarjimasi] hello"
  {
    assert Upper("fr") == "FR";
  }

  /**
    From an empty store, "hello" is translated into "fr" while the service is
    down: the placeholder is stored as its only entry, and translating
    "hello" again adds nothing.
   */
  lemma HelloWhileServiceDown(firstDate: string, secondDate: string)
    ensures var once := Added(map[], "fr", "hello", DemoTranslation("fr", "hello"), firstDate);
      && once == map["fr" := [Entry("hello", "[FR tilidagi tarjimasi] hello", firstDate, 0)]]
      && Added(once, "fr", "hello", DemoTranslation("fr", "hello"), secondDate) == once
  {
    HelloPlaceholder();
    var placeholder := DemoTranslation("fr", "hello");
    var entry := Entry("hello", placeholder, firstDate, 0);
    var empty: Store := map[];
    assert Words(empty, "fr") == [];
    assert !HasOriginal([], "hello");
    assert [] + [entry] == [entry];
    AddedTwice(empty, "fr", "hello", placeholder, firstDate, placeholder, secondDate);
  }
}
