/** Rule-based action-item extraction of the NLP module: every sentence is
    matched against five patterns, the second group of each match is kept
    when its stripped length is between 10 and 200 (exclusive), the kept
    items are capitalized, duplicates that differ only in case are removed
    keeping the first, and at most five are returned.  The regular-expression
    engine is a parameter: `findall(pattern, sentence)` gives the two groups
    of each match, in match order. */
module NlpModule {
  import opened Strings

  /** `re.findall` for a two-group pattern. */
  type Matcher = (string, string) -> seq<(string, string)>

  const MaxItems := 5
  const MinLength := 10
  const MaxLength := 200

  /** The five case-insensitive patterns, tried in this order. */
  const ActionPatterns: seq<string> := [
    "(?i)(we will|I will|will)\\s+(.+?)(?:\\.|$)",
    "(?i)(need to|needs to)\\s+(.+?)(?:\\.|$)",
    "(?i)(should|must)\\s+(.+?)(?:\\.|$)",
    "(?i)(action item[s]?:|todo:|task:)\\s*(.+?)(?:\\.|$)",
    "(?i)(follow up on|follow-up on)\\s+(.+?)(?:\\.|$)"
  ]

  /** The item a match's action group gives, if it passes the length filter. */
  function Keep(group: string): seq<string> {
    var action := Strip(group);
    if MinLength < |action| < MaxLength then [Capitalize(action)] else []
  }

  /** The items of a list of matches, in match order. */
  function MatchItems(ms: seq<(string, string)>): seq<string> {
    if |ms| == 0 then [] else MatchItems(ms[..|ms| - 1]) + Keep(ms[|ms| - 1].1)
  }

  /** The items of one sentence, pattern by pattern. */
  function PatternItems(patterns: seq<string>, sentence: string, findall: Matcher): seq<string> {
    if |patterns| == 0 then []
    else PatternItems(patterns[..|patterns| - 1], sentence, findall) + MatchItems(findall(patterns[|patterns| - 1], sentence))
  }

  /** The items of all sentences, sentence by sentence. */
  function Candidates(sentences: seq<string>, findall: Matcher): seq<string> {
    if |sentences| == 0 then []
    else Candidates(sentences[..|sentences| - 1], findall) + PatternItems(ActionPatterns, sentences[|sentences| - 1], findall)
  }

  /** The lower-cased forms of a list. */
  function Seen(xs: seq<string>): set<string> {
    set x | x in xs :: Lower(x)
  }

  /** Keep an item unless an earlier one has the same lower-case form. */
  function Dedup(xs: seq<string>): seq<string> {
    if |xs| == 0 then []
    else
      var init := xs[..|xs| - 1];
      Dedup(init) + (if Lower(xs[|xs| - 1]) in Seen(init) then [] else [xs[|xs| - 1]])
  }

  /** What `extract_action_items` keeps: a well-formed item. */
  predicate WellFormedItem(c: string) {
    MinLength < |c| < MaxLength && Capitalize(c) == c && Strip(c) == c
  }

  lemma KeepWellFormed(group: string)
    ensures forall c :: c in Keep(group) ==> WellFormedItem(c)
  {
    var action := Strip(group);
    if MinLength < |action| < MaxLength {
      StripIdempotent(group);
      CapitalizeIdempotent(action);
      CapitalizeStripped(action);
    }
  }

  lemma {:induction false} MatchItemsWellFormed(ms: seq<(string, string)>)
    ensures forall c :: c in MatchItems(ms) ==> WellFormedItem(c)
    decreases |ms|
  {
    if |ms| > 0 {
      MatchItemsWellFormed(ms[..|ms| - 1]);
      KeepWellFormed(ms[|ms| - 1].1);
    }
  }

  lemma {:induction false} PatternItemsWellFormed(patterns: seq<string>, sentence: string, findall: Matcher)
    ensures forall c :: c in PatternItems(patterns, sentence, findall) ==> WellFormedItem(c)
    decreases |patterns|
  {
    if |patterns| > 0 {
      PatternItemsWellFormed(patterns[..|patterns| - 1], sentence, findall);
      MatchItemsWellFormed(findall(patterns[|patterns| - 1], sentence));
    }
  }

  /** Every candidate is stripped, capitalized and strictly between 10 and
      200 characters long, whatever the matcher returns. */
  lemma {:induction false} CandidatesWellFormed(sentences: seq<string>, findall: Matcher)
    ensures forall c :: c in Candidates(sentences, findall) ==> WellFormedItem(c)
    decreases |sentences|
  {
    if |sentences| > 0 {
      CandidatesWellFormed(sentences[..|sentences| - 1], findall);
      PatternItemsWellFormed(ActionPatterns, sentences[|sentences| - 1], findall);
    }
  }

  lemma SeenAppend(a: seq<string>, b: seq<string>)
    ensures Seen(a + b) == Seen(a) + Seen(b)
  {
    assert forall x :: x in a + b <==> x in a || x in b;
  }

  /** Deduplication loses no lower-case form and adds no item. */
  lemma {:induction false} SeenDedup(xs: seq<string>)
    ensures Seen(Dedup(xs)) == Seen(xs)
    ensures forall y :: y in Dedup(xs) ==> y in xs
    decreases |xs|
  {
    if |xs| > 0 {
      var init := xs[..|xs| - 1];
      var last := xs[|xs| - 1];
      SeenDedup(init);
      assert xs == init + [last];
      SeenAppend(init, [last]);
      SeenAppend(Dedup(init), if Lower(last) in Seen(init) then [] else [last]);
    }
  }

  /** No two kept items are equal ignoring case. */
  lemma {:induction false} DedupDistinct(xs: seq<string>)
    ensures forall i, j :: 0 <= i < j < |Dedup(xs)| ==> Lower(Dedup(xs)[i]) != Lower(Dedup(xs)[j])
    decreases |xs|
  {
    if |xs| > 0 {
      var init := xs[..|xs| - 1];
      DedupDistinct(init);
      SeenDedup(init);
      var d := Dedup(init);
      if Lower(xs[|xs| - 1]) !in Seen(init) {
        forall i | 0 <= i < |d|
          ensures Lower(d[i]) != Lower(xs[|xs| - 1])
        {
          assert Lower(d[i]) in Seen(d);
        }
      }
    }
  }

  /** The first occurrence wins: an item whose lower-case form has not
      appeared before is kept. */
  lemma {:induction false} DedupKeepsFirst(xs: seq<string>, i: nat)
    requires i < |xs| && Lower(xs[i]) !in Seen(xs[..i])
    ensures xs[i] in Dedup(xs)
    decreases |xs|
  {
    var init := xs[..|xs| - 1];
    if i < |xs| - 1 {
      assert init[..i] == xs[..i];
      DedupKeepsFirst(init, i);
    } else {
      assert init == xs[..i];
    }
  }

  /** A later item with an earlier lower-case twin is dropped: every kept item
      is the first of its lower-case form. */
  lemma {:induction false} DedupOnlyFirsts(xs: seq<string>)
    ensures forall y :: y in Dedup(xs) ==> exists i :: 0 <= i < |xs| && xs[i] == y && Lower(y) !in Seen(xs[..i])
    decreases |xs|
  {
    if |xs| > 0 {
      var init := xs[..|xs| - 1];
      DedupOnlyFirsts(init);
      forall y | y in Dedup(xs)
        ensures exists i :: 0 <= i < |xs| && xs[i] == y && Lower(y) !in Seen(xs[..i])
      {
        if y in Dedup(init) {
          var i :| 0 <= i < |init| && init[i] == y && Lower(y) !in Seen(init[..i]);
          assert init[..i] == xs[..i];
        } else {
          assert xs[..|xs| - 1] == init;
        }
      }
    }
  }

  /** One more item: its lower-case form is seen, and it is kept unless it
      was seen before. */
  lemma DedupSnoc(xs: seq<string>, i: nat)
    requires i < |xs|
    ensures Dedup(xs[..i + 1]) == Dedup(xs[..i]) + (if Lower(xs[i]) in Seen(xs[..i]) then [] else [xs[i]])
    ensures Seen(xs[..i + 1]) == Seen(xs[..i]) + {Lower(xs[i])}
  {
    assert xs[..i + 1][..i] == xs[..i];
    assert xs[..i + 1] == xs[..i] + [xs[i]];
    SeenAppend(xs[..i], [xs[i]]);
    assert Seen([xs[i]]) == {Lower(xs[i])};
  }

  /** The innermost loop of `extract_action_items`: the matches of one
      pattern. */
  method KeepMatches(matches: seq<(string, string)>) returns (items: seq<string>)
    ensures items == MatchItems(matches)
  {
    items := [];
    for m := 0 to |matches|
      invariant items == MatchItems(matches[..m])
    {
      assert matches[..m + 1][..m] == matches[..m];
      var action := Strip(matches[m].1);
      if MinLength < |action| < MaxLength {
        items := items + [Capitalize(action)];
      }
    }
    assert matches[..|matches|] == matches;
  }

  /** The middle loop of `extract_action_items`: the patterns, tried on one
      sentence. */
  method SentenceItems(sentence: string, findall: Matcher) returns (items: seq<string>)
    ensures items == PatternItems(ActionPatterns, sentence, findall)
  {
    items := [];
    for p := 0 to |ActionPatterns|
      invariant items == PatternItems(ActionPatterns[..p], sentence, findall)
    {
      assert ActionPatterns[..p + 1][..p] == ActionPatterns[..p];
      var kept := KeepMatches(findall(ActionPatterns[p], sentence));
      items := items + kept;
    }
    assert ActionPatterns[..|ActionPatterns|] == ActionPatterns;
  }

  /** The outer loop of `extract_action_items`: the sentences. */
  method CollectCandidates(sentences: seq<string>, findall: Matcher) returns (actionItems: seq<string>)
    ensures actionItems == Candidates(sentences, findall)
  {
    actionItems := [];
    for i := 0 to |sentences|
      invariant actionItems == Candidates(sentences[..i], findall)
    {
      assert sentences[..i + 1][..i] == sentences[..i];
      var kept := SentenceItems(sentences[i], findall);
      actionItems := actionItems + kept;
    }
    assert sentences[..|sentences|] == sentences;
  }

  /** The `seen` loop of `extract_action_items`. */
  method RemoveDuplicates(actionItems: seq<string>) returns (uniqueItems: seq<string>)
    ensures uniqueItems == Dedup(actionItems)
  {
    var seen: set<string> := {};
    uniqueItems := [];
    for k := 0 to |actionItems|
      invariant uniqueItems == Dedup(actionItems[..k])
      invariant seen == Seen(actionItems[..k])
    {
      DedupSnoc(actionItems, k);
      if Lower(actionItems[k]) !in seen {
        seen := seen + {Lower(actionItems[k])};
        uniqueItems := uniqueItems + [actionItems[k]];
      }
    }
    assert actionItems[..|actionItems|] == actionItems;
  }

  /** `extract_action_items` of the NLP module. */
  method ExtractActionItems(text: string, findall: Matcher) returns (items: seq<string>)
    ensures items == Take(Dedup(Candidates(Split(text, '.'), findall)), MaxItems)
    ensures |items| <= MaxItems
    ensures forall c :: c in items ==> WellFormedItem(c)
    ensures forall i, j :: 0 <= i < j < |items| ==> Lower(items[i]) != Lower(items[j])
  {
    var sentences := Split(text, '.');
    var actionItems := CollectCandidates(sentences, findall);
    var uniqueItems := RemoveDuplicates(actionItems);
    items := Take(uniqueItems, MaxItems);
    CandidatesWellFormed(sentences, findall);
    SeenDedup(actionItems);
    DedupDistinct(actionItems);
  }
}
