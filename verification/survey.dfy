/**
 * Vocabulary shared by both revisions of the questionnaire bot: the optional
 * value, the question record of the catalog, and the "other" sentinel option.
 */
module Survey {

  datatype Option<T> = None | Some(value: T)

  /** A text without a line break, such as a question's prompt text. */
  type Line = s: string | '\n' !in s witness ""

  /**
   * A catalog entry. A question either takes free text (the source's
   * `"type": "input"` / `"multi_input"` records without `"options"`) or comes
   * with a reply keyboard of option labels (records with an `"options"` list).
   * Only the presence of the option list is consulted by the handlers; the
   * `"type"` tag itself is never read.
   */
  datatype Question =
    | FreeText(text: Line)
    | Choice(text: Line, options: seq<string>)

  /** The sentinel option label that asks the user for a clarification. */
  const Other := "Другое"

  /** The prompt texts of the catalog questions before position n. */
  function TextsBefore(qs: seq<Question>, n: nat): (r: set<string>)
    requires n <= |qs|
    ensures forall k :: 0 <= k < n ==> qs[k].text in r
    ensures forall t :: t in r ==> exists k :: 0 <= k < n && qs[k].text == t
  {
    set k | 0 <= k < n :: qs[k].text
  }

  /** No two catalog questions share a prompt text. */
  predicate DistinctTexts(qs: seq<Question>)
  {
    forall i, j :: 0 <= i < j < |qs| ==> qs[i].text != qs[j].text
  }

  /**
   * With distinct prompt texts, the first n questions contribute exactly n
   * different texts, and the next text is a new one.
   */
  lemma {:induction false} TextsBeforeCount(qs: seq<Question>, n: nat)
    requires n <= |qs| && DistinctTexts(qs)
    ensures |TextsBefore(qs, n)| == n
    ensures n < |qs| ==> qs[n].text !in TextsBefore(qs, n)
  {
    if n > 0 {
      TextsBeforeCount(qs, n - 1);
      assert TextsBefore(qs, n) == TextsBefore(qs, n - 1) + {qs[n - 1].text};
    }
  }
}
