/** The demonstration summarizer of client/pages/TextMaker.tsx: the text is
    cut at every ". ", blank pieces are dropped, and the first third of the
    remaining sentences (rounded up, at most three) are joined back with
    ". " and closed with a final ".". */
module TextMaker {
  import opened Text

  const SentenceBreak := ". "

  /** `.filter(s => s.trim().length > 0)` */
  function DropBlank(pieces: seq<string>): (r: seq<string>)
    ensures |r| <= |pieces|
    ensures forall k :: 0 <= k < |r| ==> !IsBlank(r[k])
    ensures IsSubsequence(r, pieces)
    ensures forall w :: multiset(r)[w] == if IsBlank(w) then 0 else multiset(pieces)[w]
  {
    if pieces == [] then []
    else
      var rest := DropBlank(pieces[1..]);
      assert pieces == [pieces[0]] + pieces[1..];
      if IsBlank(pieces[0]) then rest else [pieces[0]] + rest
  }

  /** The sentences the text holds. */
  function Sentences(text: string): seq<string> {
    DropBlank(SplitOn(text, SentenceBreak))
  }

  /** `Math.min(3, Math.ceil(n / 3))` */
  function SummaryLength(n: nat): (k: nat)
    ensures k <= 3 && k <= n
    ensures n >= 1 ==> k >= 1
    ensures k < 3 ==> 3 * k >= n
    ensures n >= 1 ==> 3 * (k - 1) < n
  {
    var ceiling := (n + 2) / 3;
    if ceiling < 3 then ceiling else 3
  }

  /** The sentences kept for the summary. */
  function ChosenSentences(text: string): (r: seq<string>)
    ensures |r| == SummaryLength(|Sentences(text)|) && |r| <= |Sentences(text)|
    ensures r == Sentences(text)[..|r|]
  {
    var sentences := Sentences(text);
    sentences[..SummaryLength(|sentences|)]
  }

  /** handleSummarize: no summary at all for blank text; otherwise the
      chosen sentences joined and closed with a full stop. */
  function Summarize(text: string): (r: Option<string>)
    ensures r.None? <==> IsBlank(text)
    ensures r.Some? ==> r.value == Join(ChosenSentences(text), SentenceBreak) + "."
  {
    if IsBlank(text) then None else Some(Join(ChosenSentences(text), SentenceBreak) + ".")
  }

  /** Every summary ends in a full stop. */
  lemma SummaryEndsWithFullStop(text: string)
    requires !IsBlank(text)
    ensures var s := Summarize(text).value; |s| >= 1 && s[|s| - 1] == '.'
  {
  }

  /** As soon as one piece is not blank, at least one sentence is kept. */
  lemma {:induction false} SomeSentenceKept(text: string)
    requires exists k :: 0 <= k < |SplitOn(text, SentenceBreak)| && !IsBlank(SplitOn(text, SentenceBreak)[k])
    ensures |ChosenSentences(text)| >= 1
  {
    var pieces := SplitOn(text, SentenceBreak);
    var k :| 0 <= k < |pieces| && !IsBlank(pieces[k]);
    assert pieces[k] in Sentences(text);
  }

  /** A text made only of a sentence break is not blank, yet holds no
      sentence: its summary is a lone full stop. */
  lemma {:induction false} OnlyABreak()
    ensures Summarize(". ") == Some(".")
  {
    assert !IsWhitespace(". "[0]);
    assert !IsBlank(". ");
    assert SentenceBreak <= ". ";
    assert ". "[2..] == "";
    assert SplitOn(". ", SentenceBreak) == ["", ""];
    assert DropBlank(["", ""]) == [];
    assert Sentences(". ") == [];
    assert ChosenSentences(". ") == [];
    assert Join(ChosenSentences(". "), SentenceBreak) + "." == ".";
  }

  /** A single sentence, not cut anywhere, is summarized as itself with a
      closing full stop. */
  lemma {:induction false} SingleSentence(text: string)
    requires !IsBlank(text)
    requires !Contains(text, SentenceBreak)
    ensures Summarize(text) == Some(text + ".")
  {
    SplitWithoutOccurrence(text, SentenceBreak);
    assert DropBlank([text]) == [text];
    assert ChosenSentences(text) == [text];
  }

  class TextMakerPage {
    var text: string
    var summary: string
    var isProcessing: bool

    constructor ()
      ensures text == "" && summary == "" && !isProcessing
    {
      text := "";
      summary := "";
      isProcessing := false;
    }

    method ChangeText(value: string)
      modifies this
      ensures text == value && summary == old(summary) && isProcessing == old(isProcessing)
    {
      text := value;
    }

    /** The summarize button: blank text changes nothing. */
    method HandleSummarize()
      modifies this
      ensures text == old(text)
      ensures IsBlank(text) ==> summary == old(summary) && isProcessing == old(isProcessing)
      ensures !IsBlank(text) ==> Some(summary) == Summarize(text) && !isProcessing
    {
      if IsBlank(text) {
        return;
      }
      isProcessing := true;
      var sentences := Sentences(text);
      var chosen := sentences[..SummaryLength(|sentences|)];
      summary := Join(chosen, SentenceBreak) + ".";
      isProcessing := false;
    }
  }
}
