/**
 * The local deny-list of words that resource names may not contain
 * (app/src/stores/prohibitedWordStore.ts). The list is a field the actions
 * reassign; `saved` is the list as last written to the browser's storage
 * under the key "prohibitedWords".
 */
module ProhibitedWords {
  import opened Wrappers
  import opened Js
  import opened Text

  const DefaultProhibitedWords: seq<string> := ["badword1", "badword2", "badword3"]

  /** `word.trim().toLowerCase()`. */
  function Normalize(word: string): (r: string)
    ensures IsTrimmed(r) && IsLowerCase(r)
  {
    TrimIsTrimmed(word);
    LowerKeepsTrimmed(Trim(word));
    LowerIsLowerCase(Trim(word));
    ToLower(Trim(word))
  }

  /** Normalising a normalised word changes nothing. */
  lemma NormalizeIdempotent(word: string)
    ensures Normalize(Normalize(word)) == Normalize(word)
  {
    var n := Normalize(word);
    TrimmedIsFixed(n);
    LowerOfLowerCase(n);
  }

  ghost predicate Distinct(words: seq<string>) {
    forall i, j :: 0 <= i < j < |words| ==> words[i] != words[j]
  }

  /** The shape `addProhibitedWord` keeps: distinct, non-empty, trimmed, lower-case entries. */
  ghost predicate WellFormed(words: seq<string>) {
    && Distinct(words)
    && (forall w :: w in words ==> w != "" && IsTrimmed(w) && IsLowerCase(w))
  }

  /** `isProhibited`: some entry occurs in the lower-cased text; empty text is never prohibited. */
  predicate Prohibited(words: seq<string>, text: string): (r: bool)
    ensures r ==> text != "" && |words| > 0
    ensures text != "" && "" in words ==> r
  {
    assert OccursAt(ToLower(text), "", 0);
    text != "" && exists w | w in words :: Contains(ToLower(text), w)
  }

  /** The list after `addProhibitedWord(word)`. */
  function Added(words: seq<string>, word: string): (r: seq<string>)
    ensures |words| <= |r| <= |words| + 1 && r[..|words|] == words
    ensures forall x :: x in r <==> x in words || (x == Normalize(word) && x != "")
  {
    if word == "" then words
    else
      var lowerWord := Normalize(word);
      if lowerWord != "" && lowerWord !in words then words + [lowerWord] else words
  }

  /** The list after `removeProhibitedWord(word)`. */
  function Removed(words: seq<string>, word: string): (r: seq<string>)
    ensures forall x :: x in r <==> x in words && (word == "" || x != Normalize(word))
  {
    if word == "" then words
    else
      var lowerWord := Normalize(word);
      Filter(words, (w: string) => w != lowerWord)
  }

  /** Adding appends exactly when the normalised word is non-empty and new. */
  lemma AddedAppendsIff(words: seq<string>, word: string)
    ensures Added(words, word) == words + [Normalize(word)] <==> Normalize(word) != "" && Normalize(word) !in words
    ensures Added(words, word) != words + [Normalize(word)] ==> Added(words, word) == words
  {
    if Added(words, word) == words + [Normalize(word)] {
      assert (words + [Normalize(word)])[|words|] == Normalize(word);
      assert |Added(words, word)| == |words| + 1;
    }
  }

  /** Adding the same word twice is adding it once. */
  lemma AddIdempotent(words: seq<string>, word: string)
    ensures Added(Added(words, word), word) == Added(words, word)
  {
  }

  /** Adding keeps the entries distinct, non-empty, trimmed and lower-case. */
  lemma AddPreservesWellFormed(words: seq<string>, word: string)
    requires WellFormed(words)
    ensures WellFormed(Added(words, word))
  {
    var r := Added(words, word);
    if r != words {
      assert r == words + [Normalize(word)];
      forall i, j | 0 <= i < j < |r| ensures r[i] != r[j] {
        if j == |words| {
          assert r[i] in words;
        }
      }
    }
  }

  /** Removing keeps the list well formed: it only drops entries. */
  lemma RemovePreservesWellFormed(words: seq<string>, word: string)
    requires WellFormed(words)
    ensures WellFormed(Removed(words, word))
  {
    if word != "" {
      FilterKeepsDistinct(words, (w: string) => w != Normalize(word));
    }
  }

  /** Filtering a list of distinct entries leaves distinct entries. */
  lemma {:induction false} FilterKeepsDistinct(words: seq<string>, keep: string -> bool)
    requires Distinct(words)
    ensures Distinct(Filter(words, keep))
  {
    if words != [] {
      var rest := Filter(words[1..], keep);
      FilterKeepsDistinct(words[1..], keep);
      if keep(words[0]) {
        var r := Filter(words, keep);
        assert r == [words[0]] + rest;
        assert words[0] !in words[1..];
        forall i, j | 0 <= i < j < |r| ensures r[i] != r[j] {
          if i == 0 {
            assert r[j] == rest[j - 1];
            assert r[j] in rest;
          } else {
            assert r[i] == rest[i - 1] && r[j] == rest[j - 1];
          }
        }
      }
    }
  }

  /** Removing keeps the surviving entries in their order: it acts on each part of a list separately. */
  lemma RemoveKeepsOrder(front: seq<string>, back: seq<string>, word: string)
    ensures Removed(front + back, word) == Removed(front, word) + Removed(back, word)
  {
    if word != "" {
      FilterAppend(front, back, (w: string) => w != Normalize(word));
    }
  }

  /** Removing a word whose normal form is not listed leaves the list as it was. */
  lemma RemoveAbsent(words: seq<string>, word: string)
    requires Normalize(word) !in words
    ensures Removed(words, word) == words
  {
    if word != "" {
      FilterAll(words, (w: string) => w != Normalize(word));
    }
  }

  /** Empty text is never prohibited, whatever the list holds. */
  lemma EmptyTextAllowed(words: seq<string>)
    ensures !Prohibited(words, "")
  {
  }

  /** After adding a word and removing a word with the same normal form, that form is absent. */
  lemma AddThenRemove(words: seq<string>, added: string, removed: string)
    requires removed != "" && Normalize(added) == Normalize(removed)
    ensures Normalize(added) !in Removed(Added(words, added), removed)
  {
  }

  /** After adding a word, every text whose lower-cased form contains it is prohibited. */
  lemma AddThenProhibited(words: seq<string>, word: string, text: string)
    requires Normalize(word) != ""
    requires Contains(ToLower(text), Normalize(word))
    ensures Prohibited(Added(words, word), text)
  {
    assert Normalize(word) in Added(words, word);
  }

  /** In any case: a text containing some upper/lower-case variant of the added word is prohibited. */
  lemma AddThenProhibitedAnyCase(words: seq<string>, word: string, text: string, variant: string)
    requires Normalize(word) != ""
    requires Contains(text, variant) && ToLower(variant) == Normalize(word)
    ensures Prohibited(Added(words, word), text)
  {
    ContainsLower(text, variant);
    AddThenProhibited(words, word, text);
  }

  /** Entries are not lower-cased when checked: one holding an upper-case letter never matches. */
  lemma UpperCaseEntryNeverMatches(text: string, entry: string, k: int)
    requires 0 <= k < |entry| && IsUpper(entry[k])
    ensures !Contains(ToLower(text), entry)
  {
  }

  /** The seed list has the shape `addProhibitedWord` maintains. */
  lemma DefaultWellFormed()
    ensures WellFormed(DefaultProhibitedWords)
  {
    assert DefaultProhibitedWords[0] == "badword1";
  }

  /** What `initializeWords` finds under the storage key. */
  datatype StoredWords =
    | Absent              // missing, or an empty string
    | Unreadable          // `JSON.parse` throws
    | Parsed(words: seq<string>)

  class ProhibitedWordStore {
    var prohibitedWords: seq<string>
    /** Never reassigned after creation. */
    const defaultWords: seq<string> := DefaultProhibitedWords
    ghost var saved: Option<seq<string>>

    /** The persisted copy equals the in-memory list. */
    ghost predicate Synced()
      reads this
    {
      saved == Some(prohibitedWords)
    }

    constructor (ghost stored: Option<seq<string>>)
      ensures prohibitedWords == [] && saved == stored
    {
      prohibitedWords := [];
      saved := stored;
    }

    /** `initializeWords`: the stored list, else the seed list (which is then written back). */
    method InitializeWords(stored: StoredWords)
      modifies this
      ensures stored.Parsed? ==> prohibitedWords == stored.words && saved == old(saved)
      ensures !stored.Parsed? ==> prohibitedWords == DefaultProhibitedWords && Synced()
    {
      match stored
      case Parsed(words) =>
        prohibitedWords := words;
      case _ =>
        prohibitedWords := DefaultProhibitedWords;
        SaveWords();
    }

    /** `_saveWords`. */
    method SaveWords()
      modifies this`saved
      ensures Synced()
    {
      saved := Some(prohibitedWords);
    }

    method AddProhibitedWord(word: string)
      modifies this
      ensures prohibitedWords == Added(old(prohibitedWords), word)
      ensures prohibitedWords != old(prohibitedWords) ==> Synced()
      ensures prohibitedWords == old(prohibitedWords) ==> saved == old(saved)
    {
      if word == "" {
        return;
      }
      var lowerWord := Normalize(word);
      if lowerWord != "" && lowerWord !in prohibitedWords {
        prohibitedWords := prohibitedWords + [lowerWord];
        SaveWords();
      } else {
        assert Added(prohibitedWords, word) == prohibitedWords;
      }
    }

    method RemoveProhibitedWord(word: string)
      modifies this
      ensures prohibitedWords == Removed(old(prohibitedWords), word)
      ensures word != "" ==> Synced()
      ensures word == "" ==> saved == old(saved)
    {
      if word == "" {
        return;
      }
      var lowerWord := Normalize(word);
      prohibitedWords := Filter(prohibitedWords, (w: string) => w != lowerWord);
      SaveWords();
    }

    /** `isProhibited(text)` against the list held now. */
    predicate IsProhibited(text: string): (r: bool)
      reads this
      ensures text == "" ==> !r
      ensures text != "" ==> (r <==> exists w | w in prohibitedWords :: Contains(ToLower(text), w))
    {
      Prohibited(prohibitedWords, text)
    }

    method ResetToDefault()
      modifies this
      ensures prohibitedWords == DefaultProhibitedWords && Synced()
    {
      prohibitedWords := defaultWords;
      SaveWords();
    }
  }
}
