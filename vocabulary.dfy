/**
  The vocabulary store of the language-learning page: for every target-language
  code, the word pairs translated into it, in the order they were added.
  `addToVocabulary` (script.js:135-151) only ever appends an entry whose
  `original` is not yet present, so `original` is unique within each
  language's list; `generateQuiz` later reorders a list in place, which keeps
  that uniqueness because it only permutes the list.
 */
module Vocabulary {

  /** One stored word pair (script.js:142-147). The ISO timestamp is kept as an opaque string. */
  datatype Entry = Entry(original: string, translation: string, dateAdded: string, practiced: nat)

  /** `this.vocabulary`: target-language code to its entries. */
  type Store = map<string, seq<Entry>>

  /** `this.vocabulary[lang] || []` (script.js:176, 222): a language's list, empty when it has none. */
  function Words(store: Store, lang: string): seq<Entry>
  {
    if lang in store then store[lang] else []
  }

  /**
    `words.some(word => word.original === original)` (script.js:140),
    scanning from the front: true exactly when some position holds `original`.
   */
  function HasOriginal(words: seq<Entry>, original: string): (found: bool)
    ensures found <==> exists i :: 0 <= i < |words| && words[i].original == original
  {
    if |words| == 0 then false
    else if words[0].original == original then true
    else
      var rest := HasOriginal(words[1..], original);
      assert forall i :: 0 <= i < |words| - 1 ==> words[1..][i] == words[i + 1];
      rest
  }

  /** No two entries of one language share their `original` text (case-sensitive). */
  ghost predicate UniqueOriginals(words: seq<Entry>)
  {
    forall i, j :: 0 <= i < j < |words| ==> words[i].original != words[j].original
  }

  /** Every language's list has unique originals. */
  ghost predicate StoreUnique(store: Store)
  {
    forall lang :: lang in store ==> UniqueOriginals(store[lang])
  }

  /**
    The store after `addToVocabulary(original, translation, language)`
    (script.js:135-151): a language without a list gets an empty one, then
    the entry `{original, translation, dateAdded, practiced: 0}` is appended
    unless an entry with the same `original` is already there. So exactly
    one fresh entry lands at the end of the language's list if and only if
    no entry there has that original; otherwise the whole store is as it
    was; no other language's list is touched.
   */
  function Added(store: Store, lang: string, original: string, translation: string, dateAdded: string): (r: Store)
    ensures lang in r && r.Keys == store.Keys + {lang}
    ensures forall l :: l in store && l != lang ==> r[l] == store[l]
    ensures (exists i :: 0 <= i < |Words(store, lang)| && Words(store, lang)[i].original == original) ==> r == store
    ensures (forall i :: 0 <= i < |Words(store, lang)| ==> Words(store, lang)[i].original != original) ==>
      r[lang] == Words(store, lang) + [Entry(original, translation, dateAdded, 0)]
  {
    var words := Words(store, lang);
    if HasOriginal(words, original) then store
    else store[lang := words + [Entry(original, translation, dateAdded, 0)]]
  }

  /** Adding the same original to a language a second time changes nothing, whatever its translation. */
  lemma AddedTwice(store: Store, lang: string, original: string, t1: string, d1: string, t2: string, d2: string)
    ensures var once := Added(store, lang, original, t1, d1);
      Added(once, lang, original, t2, d2) == once
  {
    var once := Added(store, lang, original, t1, d1);
    var words := Words(once, lang);
    if !HasOriginal(Words(store, lang), original) {
      assert words[|words| - 1].original == original;
    }
  }

  /** Adding an entry keeps every language's originals unique. */
  lemma AddedKeepsUnique(store: Store, lang: string, original: string, translation: string, dateAdded: string)
    requires StoreUnique(store)
    ensures StoreUnique(Added(store, lang, original, translation, dateAdded))
  {
    var words := Words(store, lang);
    if !HasOriginal(words, original) {
      var longer := words + [Entry(original, translation, dateAdded, 0)];
      forall i, j | 0 <= i < j < |longer| ensures longer[i].original != longer[j].original {
        if j == |words| {
          assert longer[i] == words[i];
        } else {
          assert longer[i] == words[i] && longer[j] == words[j];
        }
      }
    }
  }

  /** The set of originals present in a list. */
  function OriginalSet(words: seq<Entry>): (originals: set<string>)
  {
    set e | e in words :: e.original
  }

  /** A list has at most as many distinct originals as entries, and exactly as many iff they are unique. */
  lemma {:induction false} OriginalSetCount(words: seq<Entry>)
    ensures |OriginalSet(words)| <= |words|
    ensures UniqueOriginals(words) <==> |OriginalSet(words)| == |words|
  {
    if words != [] {
      var init, last := words[..|words| - 1], words[|words| - 1];
      OriginalSetCount(init);
      assert words == init + [last];
      assert OriginalSet(words) == OriginalSet(init) + {last.original};
      if last.original in OriginalSet(init) {
        var e :| e in init && e.original == last.original;
        var i :| 0 <= i < |init| && init[i] == e;
        assert words[i].original == words[|words| - 1].original;
      } else if UniqueOriginals(init) {
        forall i, j | 0 <= i < j < |words| ensures words[i].original != words[j].original {
          if j == |words| - 1 {
            assert words[i] in init;
          } else {
            assert words[i] == init[i] && words[j] == init[j];
          }
        }
      } else {
        var i, j :| 0 <= i < j < |init| && init[i].original == init[j].original;
        assert words[i] == init[i] && words[j] == init[j];
      }
    }
  }

  /** Reordering a list (same multiset of entries) keeps its originals unique. */
  lemma PermutationKeepsUnique(a: seq<Entry>, b: seq<Entry>)
    requires multiset(a) == multiset(b)
    requires UniqueOriginals(a)
    ensures UniqueOriginals(b)
  {
    OriginalSetCount(a);
    OriginalSetCount(b);
    assert |a| == |multiset(a)| == |multiset(b)| == |b|;
    forall e ensures e in a <==> e in b {
      assert e in a <==> e in multiset(a);
      assert e in b <==> e in multiset(b);
    }
    assert OriginalSet(a) == OriginalSet(b);
  }

  /** Replacing one language's list by a reordering of it keeps the whole store's originals unique. */
  lemma ReorderedKeepsUnique(store: Store, lang: string, reordered: seq<Entry>)
    requires StoreUnique(store)
    requires multiset(reordered) == multiset(Words(store, lang))
    ensures StoreUnique(store[lang := reordered])
  {
    PermutationKeepsUnique(Words(store, lang), reordered);
  }
}
