/** Keyword-based action-item extraction of the NLP pipeline: the text is
    split on '.', a fragment is kept (stripped) when its lower-cased,
    stripped form contains one of eight keywords, and the first five kept
    fragments are returned, in order and with repetitions. */
module NlpPipeline {
  import opened Strings

  const MaxItems := 5

  const ActionKeywords: seq<string> := ["will", "should", "must", "need to", "have to", "action:", "todo:", "task:"]

  /** `any(keyword in s for keyword in action_keywords)`. */
  predicate HasKeyword(s: string) {
    exists k :: 0 <= k < |ActionKeywords| && Contains(s, ActionKeywords[k])
  }

  /** Whether a fragment is an action item. */
  predicate IsActionSentence(sentence: string) {
    HasKeyword(Strip(Lower(sentence)))
  }

  /** The kept fragments, stripped, in input order. */
  function Selected(sentences: seq<string>): seq<string> {
    if |sentences| == 0 then []
    else
      var last := sentences[|sentences| - 1];
      Selected(sentences[..|sentences| - 1]) + (if IsActionSentence(last) then [Strip(last)] else [])
  }

  /** `extract_action_items` of the NLP pipeline. */
  method ExtractActionItems(text: string) returns (items: seq<string>)
    ensures items == Take(Selected(Split(text, '.')), MaxItems)
  {
    var sentences := Split(text, '.');
    var actionItems: seq<string> := [];
    for i := 0 to |sentences|
      invariant actionItems == Selected(sentences[..i])
    {
      assert sentences[..i + 1][..i] == sentences[..i];
      var sentenceLower := Strip(Lower(sentences[i]));
      var found := false;
      for k := 0 to |ActionKeywords|
        invariant found <==> exists j :: 0 <= j < k && Contains(sentenceLower, ActionKeywords[j])
      {
        if Contains(sentenceLower, ActionKeywords[k]) {
          found := true;
        }
      }
      if found {
        actionItems := actionItems + [Strip(sentences[i])];
      }
    }
    assert sentences[..|sentences|] == sentences;
    items := Take(actionItems, MaxItems);
  }

  /** Every kept item is a stripped fragment of the text that is an action
      sentence, and the fragments are kept in order. */
  lemma {:induction false} SelectedFromSentences(sentences: seq<string>)
    ensures |Selected(sentences)| <= |sentences|
    ensures forall x :: x in Selected(sentences) ==>
      exists s :: s in sentences && IsActionSentence(s) && x == Strip(s)
    decreases |sentences|
  {
    if |sentences| > 0 {
      var init := sentences[..|sentences| - 1];
      SelectedFromSentences(init);
      forall x | x in Selected(init)
        ensures exists s :: s in sentences && IsActionSentence(s) && x == Strip(s)
      {
        var s :| s in init && IsActionSentence(s) && x == Strip(s);
        assert s in sentences;
      }
    }
  }

  /** Selection works fragment by fragment: the items of two runs of
      fragments are the items of the first followed by those of the second,
      so order is kept and nothing is merged or removed. */
  lemma {:induction false} SelectedAppend(a: seq<string>, b: seq<string>)
    ensures Selected(a + b) == Selected(a) + Selected(b)
    decreases |b|
  {
    if |b| == 0 {
      assert a + b == a;
    } else {
      var init := b[..|b| - 1];
      SelectedAppend(a, init);
      assert (a + b)[..|a + b| - 1] == a + init;
    }
  }

  /** A repeated action sentence gives a repeated item. */
  lemma RepeatsKept(s: string)
    requires IsActionSentence(s)
    ensures Selected([s, s]) == [Strip(s), Strip(s)]
  {
    SelectedAppend([s], [s]);
    assert [s] + [s] == [s, s];
    assert [s][..0] == [];
  }

  /** A fragment of the split is a substring of the text. */
  lemma {:induction false} JoinHasParts(parts: seq<string>, sep: string, k: nat)
    requires k < |parts|
    ensures exists p :: OccursAt(Join(parts, sep), parts[k], p)
    decreases |parts|
  {
    var j := Join(parts, sep);
    if |parts| == 1 {
      assert OccursAt(j, parts[k], 0);
    } else {
      var init := parts[..|parts| - 1];
      var last := parts[|parts| - 1];
      assert j == Join(init, sep) + sep + last;
      if k < |parts| - 1 {
        JoinHasParts(init, sep, k);
        var p :| OccursAt(Join(init, sep), init[k], p);
        assert j[p..p + |parts[k]|] == Join(init, sep)[p..p + |parts[k]|];
        assert OccursAt(j, parts[k], p);
      } else {
        assert OccursAt(j, parts[k], |j| - |last|);
      }
    }
  }

  /** A fragment of the split of `text` occurs in `text`. */
  lemma SplitPartOccurs(text: string, s: string)
    requires s in Split(text, '.')
    ensures exists p :: OccursAt(text, s, p)
  {
    var parts := Split(text, '.');
    var k :| 0 <= k < |parts| && parts[k] == s;
    JoinSplit(text, '.');
    JoinHasParts(parts, ['.'], k);
  }

  /** Whatever `mid` contains, a string in which `mid` occurs contains too. */
  lemma ContainsThrough(s: string, mid: string, p: int, w: string)
    requires OccursAt(s, mid, p) && Contains(mid, w)
    ensures Contains(s, w)
  {
    ContainsIffOccurs(mid, w);
    var r :| OccursAt(mid, w, r);
    OccursWithin(s, mid, w, p, r);
    ContainsIffOccurs(s, w);
  }

  /** The lower-cased, stripped form of a substring occurs in the
      lower-cased string. */
  lemma LowerStripOccurs(text: string, s: string, p: int)
    requires OccursAt(text, s, p)
    ensures OccursAt(Lower(text), Strip(Lower(s)), p + (|Lower(s)| - |StripLeft(Lower(s))|))
  {
    LowerSlice(text, p, p + |s|);
    assert OccursAt(Lower(text), Lower(s), p);
    StripOccurs(Lower(s));
    OccursWithin(Lower(text), Lower(s), Strip(Lower(s)), p, |Lower(s)| - |StripLeft(Lower(s))|);
  }

  /** A keyword in a fragment is a keyword in the text. */
  lemma ActionSentenceInText(text: string, s: string)
    requires s in Split(text, '.') && IsActionSentence(s)
    ensures HasKeyword(Lower(text))
  {
    SplitPartOccurs(text, s);
    var p :| OccursAt(text, s, p);
    LowerStripOccurs(text, s, p);
    var w :| 0 <= w < |ActionKeywords| && Contains(Strip(Lower(s)), ActionKeywords[w]);
    ContainsThrough(Lower(text), Strip(Lower(s)), p + (|Lower(s)| - |StripLeft(Lower(s))|), ActionKeywords[w]);
  }

  /** Text whose lower-cased form contains none of the keywords yields no
      action item. */
  lemma NoKeywordNoItems(text: string)
    requires !HasKeyword(Lower(text))
    ensures Take(Selected(Split(text, '.')), MaxItems) == []
  {
    var sentences := Split(text, '.');
    SelectedFromSentences(sentences);
    if |Selected(sentences)| > 0 {
      var x := Selected(sentences)[0];
      assert x in Selected(sentences);
      var s :| s in sentences && IsActionSentence(s) && x == Strip(s);
      ActionSentenceInText(text, s);
    }
  }
}
