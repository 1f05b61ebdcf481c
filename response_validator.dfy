/**
 * `ResponseValidator.clean`: for each disallowed phrase, in list order, when the
 * text contains it in any letter case, every exact occurrence is replaced by the
 * marker `[content removed]`. The test ignores case; the replacement does not.
 */
module ResponseValidator {
  import opened PyString

  const Disallowed: seq<string> := ["suicide", "violence", "hate speech"]
  const Removed: string := "[content removed]"

  /** One round of the loop, for phrase `word`. */
  function CleanStep(text: string, word: string): string
    requires word != []
  {
    if Occurs(Lower(text), Lower(word)) then Replace(text, word, Removed) else text
  }

  /** The rounds for `words`, in order. */
  function CleanWith(text: string, words: seq<string>): string
    requires forall i :: 0 <= i < |words| ==> words[i] != []
    decreases |words|
  {
    if words == [] then text else CleanWith(CleanStep(text, words[0]), words[1..])
  }

  /** What `clean(text)` returns: the empty text as it is, otherwise the three rounds. */
  function CleanSpec(text: string): string {
    if text == [] then text else CleanWith(text, Disallowed)
  }

  /**
   * A phrase the marker cannot bring back: the marker lacks one of its characters,
   * and the marker's first and last characters are not in it.
   */
  predicate Removable(u: string) {
    u != [] && '[' !in u && ']' !in u && exists k :: 0 <= k < |u| && u[k] !in Removed
  }

  lemma RemovableNotInMarker(u: string)
    ensures Removable(u) ==> !Occurs(Removed, u)
  {
    if Removable(u) {
      var k :| 0 <= k < |u| && u[k] !in Removed;
      MissingCharNoOccurrence(Removed, u, u[k]);
    }
  }

  lemma DisallowedRemovable()
    ensures forall i :: 0 <= i < |Disallowed| ==> Removable(Disallowed[i])
  {
    assert "suicide"[0] !in Removed;
    assert "violence"[1] !in Removed;
    assert "hate speech"[0] !in Removed;
  }

  /** After the round for `word`, `word` no longer occurs, and a phrase absent before is still absent. */
  lemma StepRemoves(text: string, word: string, u: string)
    requires Removable(word) && Removable(u)
    ensures !Occurs(CleanStep(text, word), word)
    ensures !Occurs(text, u) ==> !Occurs(CleanStep(text, word), u)
  {
    RemovableNotInMarker(word);
    RemovableNotInMarker(u);
    if Occurs(Lower(text), Lower(word)) {
      ReplaceAvoids(text, word, Removed, word);
      if !Occurs(text, u) {
        ReplaceAvoids(text, word, Removed, u);
      }
    } else if Occurs(text, word) {
      LowerKeepsOccurrence(text, word);
    }
  }

  /** After the rounds for `words`, none of `words` occurs, and none of `gone` that was absent before. */
  lemma {:induction false} CleanWithRemoves(text: string, words: seq<string>, gone: seq<string>)
    requires forall i :: 0 <= i < |words| ==> words[i] != [] && Removable(words[i])
    requires forall i :: 0 <= i < |gone| ==> Removable(gone[i]) && !Occurs(text, gone[i])
    ensures forall i :: 0 <= i < |words| ==> !Occurs(CleanWith(text, words), words[i])
    ensures forall i :: 0 <= i < |gone| ==> !Occurs(CleanWith(text, words), gone[i])
    decreases |words|
  {
    if words != [] {
      var next := CleanStep(text, words[0]);
      forall i | 0 <= i < |gone| ensures !Occurs(next, gone[i]) {
        StepRemoves(text, words[0], gone[i]);
      }
      StepRemoves(text, words[0], words[0]);
      var gone' := gone + [words[0]];
      CleanWithRemoves(next, words[1..], gone');
      forall i | 0 <= i < |words| ensures !Occurs(CleanWith(text, words), words[i]) {
        if i == 0 {
          assert gone'[|gone|] == words[0];
        } else {
          assert words[1..][i - 1] == words[i];
        }
      }
      forall i | 0 <= i < |gone| ensures !Occurs(CleanWith(text, words), gone[i]) {
        assert gone'[i] == gone[i];
      }
    }
  }

  /** No exact lower-case occurrence of a disallowed phrase survives `clean`. */
  lemma NothingDisallowedRemains(text: string)
    ensures forall i :: 0 <= i < |Disallowed| ==> !Occurs(CleanSpec(text), Disallowed[i])
  {
    DisallowedRemovable();
    if text != [] {
      CleanWithRemoves(text, Disallowed, []);
    } else {
      forall i | 0 <= i < |Disallowed| ensures !Occurs(text, Disallowed[i]) {
      }
    }
  }

  /** Rounds for phrases that do not occur exactly leave the text as it is, whatever the case-insensitive test says. */
  lemma {:induction false} CleanWithKeeps(text: string, words: seq<string>)
    requires forall i :: 0 <= i < |words| ==> words[i] != []
    ensures (forall i :: 0 <= i < |words| ==> !Occurs(text, words[i])) ==> CleanWith(text, words) == text
    decreases |words|
  {
    if words != [] && forall i :: 0 <= i < |words| ==> !Occurs(text, words[i]) {
      ReplaceAbsent(text, words[0], Removed);
      assert CleanStep(text, words[0]) == text;
      assert forall i :: 0 <= i < |words[1..]| ==> words[1..][i] == words[i + 1];
      CleanWithKeeps(text, words[1..]);
    }
  }

  /**
   * `clean` changes a text only when it holds a disallowed phrase in exactly its
   * lower-case spelling; in particular the empty text and a text free of the
   * phrases in every letter case come back unchanged.
   */
  lemma UnchangedWithoutExactPhrase(text: string)
    ensures (forall i :: 0 <= i < |Disallowed| ==> !Occurs(text, Disallowed[i])) ==> CleanSpec(text) == text
    ensures text == [] ==> CleanSpec(text) == text
  {
    if text != [] {
      CleanWithKeeps(text, Disallowed);
    }
  }

  lemma LowerCapitalised()
    ensures Lower("Violence") == "violence"
  {
  }

  /** The case-insensitive test fires on `Violence`, yet nothing is replaced. */
  lemma {:induction false} CapitalisedPhraseKept(text: string)
    requires text == "Violence"
    ensures Occurs(Lower(text), Disallowed[1])
    ensures CleanSpec(text) == text
  {
    LowerCapitalised();
    assert StartsWith(Lower(text), Disallowed[1]);
    forall i | 0 <= i < |Disallowed| ensures !Occurs(text, Disallowed[i]) {
      var c := if i == 1 then 'v' else Disallowed[i][0];
      MissingCharNoOccurrence(text, Disallowed[i], c);
    }
    UnchangedWithoutExactPhrase(text);
  }

  /** `clean(text)`: the empty text comes back as it is; otherwise the loop over the disallowed phrases. */
  method Clean(text: string) returns (r: string)
    ensures r == CleanSpec(text)
  {
    if text == [] {
      return text;
    }
    r := CleanRounds(text, Disallowed);
  }

  /** The loop of `clean`, over any list of non-empty phrases, in order. */
  method CleanRounds(text: string, words: seq<string>) returns (r: string)
    requires forall i :: 0 <= i < |words| ==> words[i] != []
    ensures r == CleanWith(text, words)
  {
    r := text;
    for i := 0 to |words|
      invariant CleanWith(r, words[i..]) == CleanWith(text, words)
    {
      var word := words[i];
      assert words[i..][1..] == words[i + 1..];
      if Occurs(Lower(r), Lower(word)) {
        r := Replace(r, word, Removed);
      }
    }
  }
}
