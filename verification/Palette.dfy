/** Action ranking and the search order of the command palette. */
module Palette {
  import opened Text
  import opened Ordering

  // ---------------------------------------------------------------- substrings and subsequences

  predicate Contains(text: string, query: string) {
    query <= text || (text != "" && Contains(text[1..], query))
  }

  ghost predicate IsSubstring(text: string, query: string) {
    exists i: nat :: OccursAt(text, query, i)
  }

  predicate OccursAt(text: string, query: string, i: nat) {
    i + |query| <= |text| && text[i..i + |query|] == query
  }

  lemma OccursFirst(text: string, query: string)
    ensures OccursAt(text, query, 0) <==> query <= text
  {
    if query <= text {
      assert text[0..|query|] == query;
    }
  }

  lemma OccursLater(text: string, query: string, i: nat)
    requires text != ""
    ensures OccursAt(text, query, i + 1) <==> OccursAt(text[1..], query, i)
  {
    if i + 1 + |query| <= |text| {
      assert text[1..][i..i + |query|] == text[i + 1..i + 1 + |query|];
    }
  }

  lemma {:induction false} ContainsIffSubstring(text: string, query: string)
    ensures Contains(text, query) <==> IsSubstring(text, query)
  {
    hide OccursAt;
    OccursFirst(text, query);
    if query <= text {
    } else if text == "" {
      NothingOccurs(query);
    } else {
      ContainsIffSubstring(text[1..], query);
      if Contains(text, query) {
        var i: nat :| OccursAt(text[1..], query, i);
        OccursLater(text, query, i);
      }
      if IsSubstring(text, query) {
        var i: nat :| OccursAt(text, query, i);
        OccursLater(text, query, i - 1);
      }
    }
  }

  lemma NothingOccurs(query: string)
    requires query != ""
    ensures forall i: nat :: !OccursAt("", query, i)
  {
  }

  predicate IsSubsequence(query: string, text: string) {
    || query == ""
    || (text != "" && if text[0] == query[0] then IsSubsequence(query[1..], text[1..])
                      else IsSubsequence(query, text[1..]))
  }

  /** The query's characters stand at these positions of the text, in order. */
  predicate Embeds(query: string, text: string, positions: seq<nat>) {
    && |positions| == |query|
    && (forall i :: 0 <= i < |positions| ==> positions[i] < |text| && text[positions[i]] == query[i])
    && (forall i, j :: 0 <= i < j < |positions| ==> positions[i] < positions[j])
  }

  // ---------------------------------------------------------------- the greedy match

  function FirstIndex(text: string, c: char, from: nat): (r: Option<nat>)
    ensures r.Some? ==> from <= r.value < |text| && text[r.value] == c
    ensures forall k :: from <= k < (if r.Some? then r.value else |text|) ==> text[k] != c
    decreases |text| - from
  {
    if from >= |text| then None else if text[from] == c then Some(from) else FirstIndex(text, c, from + 1)
  }

  /** Each character of the query at its first position after the one before. */
  function Greedy(query: string, text: string, from: nat): (r: Option<seq<nat>>)
    ensures r.Some? ==> |r.value| == |query|
  {
    if query == "" then Some([])
    else
      match FirstIndex(text, query[0], from)
      case None => None
      case Some(i) =>
        match Greedy(query[1..], text, i + 1)
        case None => None
        case Some(rest) => Some([i] + rest)
  }

  lemma {:induction false} GreedyEmbeds(query: string, text: string, from: nat)
    requires Greedy(query, text, from).Some?
    ensures Embeds(query, text, Greedy(query, text, from).value)
    ensures forall i :: 0 <= i < |query| ==> from <= Greedy(query, text, from).value[i]
  {
    if query != "" {
      GreedyEmbeds(query[1..], text, FirstIndex(text, query[0], from).value + 1);
    }
  }

  /** Whenever the query can be found at all, the greedy match finds it, and nowhere later. */
  lemma {:induction false} GreedyIsEarliest(query: string, text: string, from: nat, positions: seq<nat>)
    requires Embeds(query, text, positions) && forall i :: 0 <= i < |positions| ==> from <= positions[i]
    ensures Greedy(query, text, from).Some?
    ensures forall i :: 0 <= i < |query| ==> Greedy(query, text, from).value[i] <= positions[i]
  {
    if query != "" {
      var first := FirstIndex(text, query[0], from);
      assert text[positions[0]] == query[0];
      GreedyIsEarliest(query[1..], text, first.value + 1, positions[1..]);
    }
  }

  function Later(positions: seq<nat>): (r: seq<nat>)
    ensures |r| == |positions| && forall i :: 0 <= i < |r| ==> r[i] == positions[i] + 1
  {
    seq(|positions|, i requires 0 <= i < |positions| => positions[i] + 1)
  }

  lemma EmbedsLater(query: string, text: string, positions: seq<nat>)
    requires text != "" && Embeds(query, text[1..], positions)
    ensures Embeds(query, text, Later(positions))
  {
    hide Later;
  }

  lemma EmbedsFirst(query: string, text: string, positions: seq<nat>)
    requires query != "" && text != "" && text[0] == query[0] && Embeds(query[1..], text, positions)
    requires forall i :: 0 <= i < |positions| ==> positions[i] > 0
    ensures Embeds(query, text, [0] + positions)
  {
  }

  lemma {:induction false} SubsequenceEmbeds(query: string, text: string) returns (positions: seq<nat>)
    requires IsSubsequence(query, text)
    ensures Embeds(query, text, positions)
  {
    hide Embeds;
    if query == "" {
      positions := [];
      NothingEmbeds(text);
    } else if text[0] == query[0] {
      var rest := SubsequenceEmbeds(query[1..], text[1..]);
      EmbedsLater(query[1..], text, rest);
      EmbedsFirst(query, text, Later(rest));
      positions := [0] + Later(rest);
    } else {
      var rest := SubsequenceEmbeds(query, text[1..]);
      EmbedsLater(query, text, rest);
      positions := Later(rest);
    }
  }

  lemma NothingEmbeds(text: string)
    ensures Embeds("", text, [])
  {
  }

  lemma {:induction false} EmbeddedIsSubsequence(query: string, text: string, positions: seq<nat>)
    requires Embeds(query, text, positions)
    ensures IsSubsequence(query, text)
    decreases |text|
  {
    if query != "" {
      assert positions[0] < |text|;
      if text[0] == query[0] {
        var rest := seq(|positions| - 1, i requires 0 <= i < |positions| - 1 => positions[i + 1] - 1);
        EmbeddedIsSubsequence(query[1..], text[1..], rest);
      } else {
        assert positions[0] > 0;
        var rest := seq(|positions|, i requires 0 <= i < |positions| =>
                          if positions[i] > 0 then positions[i] - 1 else 0);
        EmbeddedIsSubsequence(query, text[1..], rest);
      }
    }
  }

  // ---------------------------------------------------------------- scores

  function GapPenalty(positions: seq<nat>): nat {
    if |positions| <= 1 then 0
    else
      var last, before := positions[|positions| - 1], positions[|positions| - 2];
      GapPenalty(positions[..|positions| - 1]) + Min(if last >= before + 1 then last - (before + 1) else 0, 12)
  }

  function FuzzyScore(query: string, text: string): Option<int> {
    if query == "" then None
    else
      match Greedy(query, text, 0)
      case None => None
      case Some(positions) =>
        var score := 620 + Min(|query|, 12) * 8 - GapPenalty(positions);
        Some(if score >= 500 then score else 500)
  }

  method FuzzySubsequenceScore(query: string, text: string) returns (score: Option<int>)
    ensures score == FuzzyScore(query, text)
  {
    hide Greedy, GapPenalty;
    if query == "" {
      return None;
    }
    var matched := 0;
    var previousIndex := 0;
    var gapPenalty := 0;
    ghost var positions: seq<nat> := [];
    GreedyResumes(query, text);
    NoPenalty();
    for index := 0 to |text|
      invariant matched < |query| && |positions| == matched
      invariant matched > 0 ==> previousIndex == positions[matched - 1] && previousIndex < index
      invariant gapPenalty == GapPenalty(positions)
      invariant Greedy(query, text, 0) == Resumed(positions, Greedy(query[matched..], text, index))
    {
      GreedyAt(query[matched..], text, index);
      if text[index] != query[matched] {
        continue;
      }
      if matched > 0 {
        var gap := if index >= previousIndex + 1 then index - (previousIndex + 1) else 0;
        gapPenalty := gapPenalty + Min(gap, 12);
      }
      PenaltyGrows(positions, index);
      positions := positions + [index];
      assert positions[..matched] == positions[..|positions| - 1];
      matched := matched + 1;
      previousIndex := index;
      assert query[matched - 1..][1..] == query[matched..];
      ResumedTwice(positions, index, Greedy(query[matched..], text, index + 1));
      if matched == |query| {
        assert query[matched..] == "";
        GreedyOfNothing(text, index + 1);
        assert positions + [] == positions;
        var found := 620 + Min(|query|, 12) * 8 - gapPenalty;
        return Some(if found >= 500 then found else 500);
      }
    }
    GreedyPastEnd(query[matched..], text);
    score := None;
  }

  lemma NoPenalty()
    ensures GapPenalty([]) == 0
  {
  }

  lemma PenaltyGrows(positions: seq<nat>, index: nat)
    ensures GapPenalty(positions + [index]) ==
            if positions == [] then 0
            else
              var before := positions[|positions| - 1];
              GapPenalty(positions) + Min(if index >= before + 1 then index - (before + 1) else 0, 12)
  {
    assert (positions + [index])[..|positions|] == positions;
  }

  function Resumed(done: seq<nat>, rest: Option<seq<nat>>): Option<seq<nat>> {
    if rest.Some? then Some(done + rest.value) else None
  }

  lemma GreedyResumes(query: string, text: string)
    ensures Greedy(query, text, 0) == Resumed([], Greedy(query[0..], text, 0))
  {
    assert query[0..] == query;
    if Greedy(query, text, 0).Some? {
      assert [] + Greedy(query, text, 0).value == Greedy(query, text, 0).value;
    }
  }

  lemma GreedyAt(query: string, text: string, index: nat)
    requires query != "" && index < |text|
    ensures Greedy(query, text, index) ==
            if text[index] == query[0] then Resumed([index], Greedy(query[1..], text, index + 1))
            else Greedy(query, text, index + 1)
  {
  }

  lemma ResumedTwice(positions: seq<nat>, index: nat, rest: Option<seq<nat>>)
    requires positions != [] && positions[|positions| - 1] == index
    ensures Resumed(positions[..|positions| - 1], Resumed([index], rest)) == Resumed(positions, rest)
  {
    if rest.Some? {
      assert positions[..|positions| - 1] + ([index] + rest.value) == positions + rest.value;
    }
  }

  lemma GreedyOfNothing(text: string, from: nat)
    ensures Greedy("", text, from) == Some([])
  {
  }

  lemma GreedyPastEnd(query: string, text: string)
    requires query != ""
    ensures Greedy(query, text, |text|) == None
  {
  }

  /** A fuzzy score is given exactly to subsequences, and lies between 500 and 716. */
  lemma FuzzyIffSubsequence(query: string, text: string)
    ensures FuzzyScore(query, text).Some? <==> query != "" && IsSubsequence(query, text)
    ensures FuzzyScore(query, text).Some? ==> 500 <= FuzzyScore(query, text).value <= 716
  {
    hide Greedy, IsSubsequence, GapPenalty;
    if Greedy(query, text, 0).Some? {
      GreedyEmbeds(query, text, 0);
      EmbeddedIsSubsequence(query, text, Greedy(query, text, 0).value);
    }
    if IsSubsequence(query, text) {
      var positions := SubsequenceEmbeds(query, text);
      GreedyIsEarliest(query, text, 0, positions);
    }
  }

  predicate IsAsciiAlphanumeric(c: char) {
    'a' <= c <= 'z' || 'A' <= c <= 'Z' || '0' <= c <= '9'
  }

  /** The pieces between characters that are not alphanumeric. */
  function Words(text: string): (words: seq<string>)
    ensures words != []
  {
    if text == "" then [""]
    else
      var rest := Words(text[1..]);
      if IsAsciiAlphanumeric(text[0]) then [[text[0]] + rest[0]] + rest[1..] else [""] + rest
  }

  predicate StartsAWord(query: string, text: string) {
    exists i :: 0 <= i < |Words(text)| && Words(text)[i] != "" && query <= Words(text)[i]
  }

  lemma {:induction false} WordsAreSubstrings(text: string, i: nat)
    requires i < |Words(text)|
    ensures i == 0 ==> Words(text)[0] <= text
    ensures Contains(text, Words(text)[i])
  {
    if text != "" {
      if IsAsciiAlphanumeric(text[0]) {
        WordsAreSubstrings(text[1..], 0);
        WordsAreSubstrings(text[1..], i);
      } else if i > 0 {
        WordsAreSubstrings(text[1..], i - 1);
      }
    }
  }

  lemma {:induction false} PrefixContained(text: string, word: string, query: string)
    requires Contains(text, word) && query <= word
    ensures Contains(text, query)
  {
    if !(word <= text) {
      PrefixContained(text[1..], word, query);
    }
  }

  function TextMatchScore(query: string, text: string): Option<int> {
    if query == "" || text == "" then None
    else if text == query then Some(1000)
    else if query <= text then Some(900)
    else if StartsAWord(query, text) then Some(820)
    else if Contains(text, query) then Some(760)
    else FuzzyScore(query, text)
  }

  lemma {:induction false} SubstringIsSubsequence(query: string, text: string)
    requires Contains(text, query)
    ensures IsSubsequence(query, text)
  {
    if query == "" {
    } else if query <= text {
      assert text[1..][..|query| - 1] == query[1..];
      SubstringIsSubsequence(query[1..], text[1..]);
    } else if text[0] == query[0] {
      SubstringIsSubsequence(query, text[1..]);
      TailIsSubsequence(query, text[1..]);
    } else {
      SubstringIsSubsequence(query, text[1..]);
    }
  }

  lemma {:induction false} TailIsSubsequence(query: string, text: string)
    requires query != "" && IsSubsequence(query, text)
    ensures IsSubsequence(query[1..], text)
  {
    if query[1..] != "" {
      if text[0] == query[0] {
        if text[0] == query[1] {
          TailIsSubsequence(query[1..], text[1..]);
        }
      } else {
        TailIsSubsequence(query, text[1..]);
        if text[0] == query[1] {
          TailIsSubsequence(query[1..], text[1..]);
        }
      }
    }
  }

  /** Scores of one text: at least 760 exactly for substrings, at most 716 for everything else, and
      none at all unless the query is a subsequence. */
  lemma TextScoreBands(query: string, text: string)
    ensures var score := TextMatchScore(query, text);
            && (score.Some? <==> query != "" && text != "" && IsSubsequence(query, text))
            && (score.Some? ==> 500 <= score.value <= 1000)
            && (score.Some? ==> (score.value >= 760 <==> IsSubstring(text, query)))
            && (score.Some? && score.value < 760 ==> score.value <= 716)
  {
    hide FuzzyScore, IsSubsequence, Contains, IsSubstring, Words;
    FuzzyIffSubsequence(query, text);
    ContainsIffSubstring(text, query);
    if query <= text {
      assert OccursAt(text, query, 0);
      PrefixIsSubstring(text, query);
    }
    if StartsAWord(query, text) {
      var i :| 0 <= i < |Words(text)| && Words(text)[i] != "" && query <= Words(text)[i];
      WordsAreSubstrings(text, i);
      PrefixContained(text, Words(text)[i], query);
    }
    if Contains(text, query) {
      SubstringIsSubsequence(query, text);
    }
  }

  lemma PrefixIsSubstring(text: string, query: string)
    requires query <= text
    ensures IsSubstring(text, query)
  {
    assert OccursAt(text, query, 0);
  }

  function Better(a: Option<int>, b: Option<int>): Option<int> {
    if a.None? then b else if b.None? then a else Some(if a.value >= b.value then a.value else b.value)
  }

  function Raised(a: Option<int>, bonus: int): Option<int> {
    if a.Some? then Some(a.value + bonus) else None
  }

  function BestAlias(query: string, aliases: seq<string>): Option<int> {
    if aliases == [] then None else Better(TextMatchScore(query, aliases[0]), BestAlias(query, aliases[1..]))
  }

  function PaletteMatchScore(query: string, title: string, description: string, aliases: seq<string>): Option<int> {
    Better(Better(Raised(TextMatchScore(query, title), 30), TextMatchScore(query, description)),
           Raised(BestAlias(query, aliases), 15))
  }

  lemma {:induction false} AliasScoreBands(query: string, aliases: seq<string>)
    ensures var score := BestAlias(query, aliases);
            && (score.Some? ==> 500 <= score.value <= 1000)
            && (score.Some? && score.value >= 760 <==>
                  query != "" && exists i :: 0 <= i < |aliases| && aliases[i] != "" && IsSubstring(aliases[i], query))
            && (score.Some? && score.value < 760 ==> score.value <= 716)
            && (score.Some? <==>
                  query != "" && exists i :: 0 <= i < |aliases| && aliases[i] != "" && IsSubsequence(query, aliases[i]))
  {
    hide TextMatchScore, IsSubsequence, IsSubstring;
    if aliases != [] {
      TextScoreBands(query, aliases[0]);
      AliasScoreBands(query, aliases[1..]);
      assert forall i :: 0 <= i < |aliases| ==> aliases[i] == if i == 0 then aliases[0] else aliases[1..][i - 1];
      if query != "" && aliases[0] != "" && IsSubstring(aliases[0], query) {
        SubstringScores(query, aliases[0]);
      }
    }
  }

  lemma SubstringScores(query: string, text: string)
    requires query != "" && text != "" && IsSubstring(text, query)
    ensures TextMatchScore(query, text).Some? && TextMatchScore(query, text).value >= 760
  {
    hide FuzzyScore;
    ContainsIffSubstring(text, query);
    SubstringIsSubsequence(query, text);
    TextScoreBands(query, text);
  }

  /** An action scores at least 760 exactly when the query is a substring of its title, description or
      an alias; a match that is merely fuzzy scores at most 746. */
  lemma SubstringsOutrankFuzzy(query: string, title: string, description: string, aliases: seq<string>)
    requires query != ""
    ensures var score := PaletteMatchScore(query, title, description, aliases);
            && (score.Some? && score.value >= 760 <==>
                  || (title != "" && IsSubstring(title, query))
                  || (description != "" && IsSubstring(description, query))
                  || exists i :: 0 <= i < |aliases| && aliases[i] != "" && IsSubstring(aliases[i], query))
            && (score.Some? && score.value < 760 ==> 500 <= score.value <= 746)
            && (score.Some? ==> score.value <= 1030)
  {
    hide TextMatchScore, BestAlias, IsSubstring, IsSubsequence;
    TextScoreBands(query, title);
    TextScoreBands(query, description);
    AliasScoreBands(query, aliases);
    if title != "" && IsSubstring(title, query) {
      SubstringScores(query, title);
    }
    if description != "" && IsSubstring(description, query) {
      SubstringScores(query, description);
    }
  }

  // ---------------------------------------------------------------- the rank of an action

  datatype ActionId =
    | PreviewTable | JumpToRelatedTable | PreviousPage | NextPage | DescribeTable | ShowIndexes
    | ShowCreateTable | CountEstimate | RunHealthDiagnostics | RunCurrentQuery | ApplyLimit200
    | ExplainQuery | BuildFilterSortQuery | InsertSelectSnippet | InsertJoinSnippet
    | CancelRunningQuery | ExportCsv | ExportJson | ExportCsvGzip | ExportJsonGzip
    | ExportJsonLines | ExportJsonLinesGzip | SaveBookmark | OpenBookmark | CopyCell | CopyRow
    | SearchResults | FocusQueryEditor

  datatype View = ConnectionWizard | SchemaExplorer | Results | QueryEditor | CommandPalette

  datatype Context = Context(
    view: View,
    database: bool,
    table: bool,
    column: bool,
    queryText: bool,
    limitSuggested: bool,
    explainSuggested: bool,
    queryRunning: bool,
    hasResults: bool,
    hasRelatedTables: bool,
    hasSavedBookmarks: bool,
    paginationEnabled: bool,
    canPageNext: bool,
    canPagePrevious: bool)

  function BaseScore(id: ActionId, c: Context): (score: int)
    ensures 0 <= score <= 1000
  {
    match id
    case CancelRunningQuery => if c.queryRunning then 1000 else 0
    case ApplyLimit200 => if c.limitSuggested then 950 else 0
    case ExplainQuery => if c.explainSuggested then 910 else 0
    case BuildFilterSortQuery => if c.table && c.database && c.column then 880 else 0
    case InsertSelectSnippet => if c.view.QueryEditor? then 820 else 0
    case InsertJoinSnippet => if c.view.QueryEditor? then 780 else 0
    case PreviewTable => if c.view.SchemaExplorer? && c.table then 900 else 0
    case JumpToRelatedTable => if c.view.SchemaExplorer? && c.table && c.hasRelatedTables then 870 else 0
    case PreviousPage => if c.paginationEnabled && c.canPagePrevious && c.view.Results? then 840 else 0
    case NextPage => if c.paginationEnabled && c.canPageNext && c.view.Results? then 860 else 0
    case DescribeTable => if c.view.SchemaExplorer? && c.table then 820 else 0
    case ShowIndexes => if c.view.SchemaExplorer? && c.table then 790 else 0
    case ShowCreateTable => if c.view.SchemaExplorer? && c.table then 760 else 0
    case CountEstimate => if c.table && c.database then 700 else 0
    case RunHealthDiagnostics => if !c.queryRunning then 565 else 0
    case RunCurrentQuery => if c.queryText then 850 else 0
    case ExportCsv => if c.hasResults then 640 else 0
    case ExportJson => if c.hasResults then 638 else 0
    case ExportCsvGzip => if c.hasResults then 636 else 0
    case ExportJsonGzip => if c.hasResults then 634 else 0
    case ExportJsonLines => if c.hasResults then 632 else 0
    case ExportJsonLinesGzip => if c.hasResults then 630 else 0
    case SaveBookmark => if c.table || c.queryText then 620 else 0
    case OpenBookmark => if c.hasSavedBookmarks then 610 else 0
    case CopyCell => if c.hasResults then 600 else 0
    case CopyRow => if c.hasResults then 600 else 0
    case SearchResults => if c.hasResults then 580 else 0
    case FocusQueryEditor => if !c.view.QueryEditor? then 500 else 0
  }

  const MAX_RECENCY_BOOST: nat := 25

  datatype Usage = Usage(tick: u64, recency: map<ActionId, u64>)

  function Used(u: Usage, id: ActionId): Usage {
    var tick := if u.tick < U64_MAX then u.tick + 1 else u.tick;
    Usage(tick, u.recency[id := tick])
  }

  function RecencyBoost(u: Usage, id: ActionId): (boost: int)
    ensures 0 <= boost <= MAX_RECENCY_BOOST
  {
    if id !in u.recency then 0
    else
      var age := if u.tick >= u.recency[id] then u.tick - u.recency[id] else 0;
      if age <= MAX_RECENCY_BOOST then MAX_RECENCY_BOOST - age else 0
  }

  function AfterUses(uses: seq<ActionId>): Usage {
    if uses == [] then Usage(0, map[]) else Used(AfterUses(uses[..|uses| - 1]), uses[|uses| - 1])
  }

  /** How many uses came after the last use of the action. */
  function UsesSince(uses: seq<ActionId>, id: ActionId): nat
    requires id in uses
  {
    if uses[|uses| - 1] == id then 0 else 1 + UsesSince(uses[..|uses| - 1], id)
  }

  lemma {:induction false} UsesAreCounted(uses: seq<ActionId>, id: ActionId)
    requires |uses| <= U64_MAX
    ensures AfterUses(uses).tick == |uses| && (id in AfterUses(uses).recency <==> id in uses)
    ensures id in uses ==> AfterUses(uses).recency[id] + UsesSince(uses, id) == |uses|
  {
    if uses != [] {
      var front, last := uses[..|uses| - 1], uses[|uses| - 1];
      UsesAreCounted(front, id);
      assert uses == front + [last];
      assert AfterUses(uses) == Used(AfterUses(front), last);
    }
  }

  /** The boost is what its age in uses leaves of the maximum, and nothing for an action never used. */
  lemma BoostIsRecency(uses: seq<ActionId>, id: ActionId)
    requires |uses| <= U64_MAX
    ensures RecencyBoost(AfterUses(uses), id) ==
            if id in uses && UsesSince(uses, id) < MAX_RECENCY_BOOST then MAX_RECENCY_BOOST - UsesSince(uses, id) else 0
  {
    hide AfterUses, UsesSince;
    UsesAreCounted(uses, id);
  }

  datatype Action = Action(id: ActionId, title: string, description: string, aliases: seq<string>)

  datatype Ranked = Ranked(action: Action, score: int)

  /** Higher scores first, equal ones by title. */
  predicate RankLeq(l: Ranked, r: Ranked) {
    l.score > r.score || (l.score == r.score && Leq(l.action.title, r.action.title))
  }

  lemma RankOrderIsTotal()
    ensures IsTotalOrder(RankLeq)
  {
    hide Leq;
    forall x: Ranked, y: Ranked
      ensures RankLeq(x, y) || RankLeq(y, x)
    {
      LeqTotal(x.action.title, y.action.title);
    }
    forall x, y, z | RankLeq(x, y) && RankLeq(y, z)
      ensures RankLeq(x, z)
    {
      if x.score == y.score == z.score {
        LeqTransitive(x.action.title, y.action.title, z.action.title);
      }
    }
  }

  function AllRanked(registry: seq<Action>, enabled: ActionId -> bool, context: Context, usage: Usage): seq<Ranked> {
    if registry == [] then []
    else
      var front, last := AllRanked(registry[..|registry| - 1], enabled, context, usage), registry[|registry| - 1];
      var score := BaseScore(last.id, context) + RecencyBoost(usage, last.id);
      if enabled(last.id) then front + [Ranked(last, score)] else front
  }

  lemma {:induction false} RanksAreBounded(registry: seq<Action>, enabled: ActionId -> bool, context: Context,
      usage: Usage)
    ensures forall r :: r in AllRanked(registry, enabled, context, usage) ==>
              0 <= r.score <= 1025 && r.action in registry
  {
    hide BaseScore, RecencyBoost;
    if registry != [] {
      RanksAreBounded(registry[..|registry| - 1], enabled, context, usage);
    }
  }

  // ---------------------------------------------------------------- the engine

  class ActionsEngine {
    const registry: seq<Action>
    var recencyTick: u64
    var recency: map<ActionId, u64>

    ghost function View(): Usage
      reads this
    {
      Usage(recencyTick, recency)
    }

    constructor (registry: seq<Action>)
      ensures View() == AfterUses([]) && this.registry == registry
    {
      this.registry, recencyTick, recency := registry, 0, map[];
    }

    method RecordUse(id: ActionId)
      modifies this
      ensures View() == Used(old(View()), id)
    {
      recencyTick := if recencyTick < U64_MAX then recencyTick + 1 else recencyTick;
      recency := recency[id := recencyTick];
    }

    method RankAll(enabled: ActionId -> bool, context: Context) returns (all: seq<Ranked>)
      ensures all == AllRanked(registry, enabled, context, View())
    {
      hide BaseScore, RecencyBoost;
      all := [];
      for i := 0 to |registry|
        invariant all == AllRanked(registry[..i], enabled, context, View())
      {
        assert registry[..i + 1][..i] == registry[..i];
        var action := registry[i];
        if enabled(action.id) {
          var score := BaseScore(action.id, context) + RecencyBoost(Usage(recencyTick, recency), action.id);
          all := all + [Ranked(action, score)];
        }
      }
      assert registry[..|registry|] == registry;
    }

    /** The best `limit` enabled actions, best first: no action left out ranks before one returned. */
    method RankTopN(enabled: ActionId -> bool, context: Context, limit: nat) returns (ranked: seq<Ranked>)
      ensures SortedBy(ranked, RankLeq)
      ensures IsTop(ranked, AllRanked(registry, enabled, context, View()), limit)
    {
      hide RankLeq, AllRanked, IsTotalOrder;
      var all := RankAll(enabled, context);
      RankOrderIsTotal();
      var sorted := SortBy(all, RankLeq);
      SortedFrontIsTop(sorted, all, limit);
      ranked := sorted[..Min(limit, |sorted|)];
    }
  }

  /** As many as asked for or as there are, and what is left out does not rank before them. */
  ghost predicate IsTop(ranked: seq<Ranked>, all: seq<Ranked>, limit: nat) {
    && |ranked| == Min(limit, |all|)
    && exists rest: seq<Ranked> ::
         && multiset(ranked) + multiset(rest) == multiset(all)
         && forall l, r :: l in ranked && r in rest ==> RankLeq(l, r)
  }

  lemma SortedFrontIsTop(sorted: seq<Ranked>, all: seq<Ranked>, limit: nat)
    requires SortedBy(sorted, RankLeq) && multiset(sorted) == multiset(all)
    ensures |sorted| == |all|
    ensures SortedBy(sorted[..Min(limit, |sorted|)], RankLeq) && IsTop(sorted[..Min(limit, |sorted|)], all, limit)
  {
    hide RankLeq;
    assert |multiset(sorted)| == |sorted| && |multiset(all)| == |all|;
    var n := Min(limit, |sorted|);
    var ranked, rest := sorted[..n], sorted[n..];
    assert sorted == ranked + rest;
    forall l, r | l in ranked && r in rest
      ensures RankLeq(l, r)
    {
      var i :| 0 <= i < |ranked| && ranked[i] == l;
      var j :| 0 <= j < |rest| && rest[j] == r;
      assert RankLeq(sorted[i], sorted[n + j]);
    }
  }

  // ---------------------------------------------------------------- the order of the palette

  datatype Match = Match(search: int, ranked: Ranked)
  {
    function Combined(): int {
      search * 10000 + ranked.score
    }
  }

  predicate CombinedLeq(l: Match, r: Match) {
    l.Combined() > r.Combined() || (l.Combined() == r.Combined() && Leq(l.ranked.action.title, r.ranked.action.title))
  }

  /** By match, then by rank, then by title. */
  predicate LexicographicLeq(l: Match, r: Match) {
    l.search > r.search || (l.search == r.search && RankLeq(l.ranked, r.ranked))
  }

  predicate WithinBounds(m: Match) {
    0 <= m.ranked.score <= 1025
  }

  /** As ranks stay below the weight of a match point, the combined score orders lexicographically. */
  lemma CombinedIsLexicographic(l: Match, r: Match)
    requires WithinBounds(l) && WithinBounds(r)
    ensures CombinedLeq(l, r) <==> LexicographicLeq(l, r)
  {
    hide Leq;
  }

  lemma CombinedOrderIsTotal()
    ensures IsTotalOrder(CombinedLeq)
  {
    hide Leq;
    forall x: Match, y: Match
      ensures CombinedLeq(x, y) || CombinedLeq(y, x)
    {
      LeqTotal(x.ranked.action.title, y.ranked.action.title);
    }
    forall x, y, z | CombinedLeq(x, y) && CombinedLeq(y, z)
      ensures CombinedLeq(x, z)
    {
      if x.Combined() == y.Combined() == z.Combined() {
        LeqTransitive(x.ranked.action.title, y.ranked.action.title, z.ranked.action.title);
      }
    }
  }

  function MatchOf(query: string, ranked: Ranked): Option<Match> {
    match PaletteMatchScore(query, AsciiLowercase(ranked.action.title), AsciiLowercase(ranked.action.description),
                            ranked.action.aliases)
    case None => None
    case Some(score) => Some(Match(score, ranked))
  }

  function Matches(query: string, ranked: seq<Ranked>): seq<Match> {
    if ranked == [] then []
    else
      var front, last := Matches(query, ranked[..|ranked| - 1]), MatchOf(query, ranked[|ranked| - 1]);
      if last.Some? then front + [last.value] else front
  }

  lemma {:induction false} MatchesWithinBounds(query: string, ranked: seq<Ranked>)
    requires forall r :: r in ranked ==> 0 <= r.score <= 1025
    ensures forall m :: m in Matches(query, ranked) ==> WithinBounds(m)
  {
    hide PaletteMatchScore;
    if ranked != [] {
      MatchesWithinBounds(query, ranked[..|ranked| - 1]);
    }
  }

  /** Exactly the ranked actions that match, the best match first, equal matches by rank and equal ranks
      by title. */
  method SortedMatches(query: string, ranked: seq<Ranked>) returns (entries: seq<Match>)
    requires forall r :: r in ranked ==> 0 <= r.score <= 1025
    ensures multiset(entries) == multiset(Matches(query, ranked))
    ensures SortedBy(entries, LexicographicLeq)
  {
    hide PaletteMatchScore, CombinedLeq, LexicographicLeq, IsTotalOrder, MatchOf;
    var matches: seq<Match> := [];
    for i := 0 to |ranked|
      invariant matches == Matches(query, ranked[..i])
    {
      assert ranked[..i + 1][..i] == ranked[..i];
      var found := MatchOf(query, ranked[i]);
      if found.Some? {
        matches := matches + [found.value];
      }
    }
    assert ranked[..|ranked|] == ranked;
    CombinedOrderIsTotal();
    entries := SortBy(matches, CombinedLeq);
    MatchesWithinBounds(query, ranked);
    forall i, j | 0 <= i < j < |entries|
      ensures LexicographicLeq(entries[i], entries[j])
    {
      assert entries[i] in multiset(entries) && entries[j] in multiset(entries);
      CombinedIsLexicographic(entries[i], entries[j]);
    }
  }

  const PALETTE_LIMIT: nat := 50

  function RankedIds(ranked: seq<Ranked>): (ids: seq<ActionId>)
    ensures |ids| == |ranked|
  {
    seq(|ranked|, i requires 0 <= i < |ranked| => ranked[i].action.id)
  }

  function MatchIds(entries: seq<Match>): (ids: seq<ActionId>)
    ensures |ids| == |entries|
  {
    seq(|entries|, i requires 0 <= i < |entries| => entries[i].ranked.action.id)
  }

  /** The actions listed for a query: the ranked ones as they are, or those that match, in match order. */
  ghost predicate Lists(ids: seq<ActionId>, query: string, ranked: seq<Ranked>) {
    if query == "" then ids == RankedIds(ranked)
    else exists entries: seq<Match> ::
           && multiset(entries) == multiset(Matches(query, ranked))
           && SortedBy(entries, LexicographicLeq)
           && ids == MatchIds(entries)
  }

  lemma TopIsBounded(ranked: seq<Ranked>, all: seq<Ranked>, limit: nat)
    requires IsTop(ranked, all, limit) && forall r :: r in all ==> 0 <= r.score <= 1025
    ensures forall r :: r in ranked ==> 0 <= r.score <= 1025
  {
    hide RankLeq;
    var rest: seq<Ranked> :| multiset(ranked) + multiset(rest) == multiset(all);
    forall r | r in ranked
      ensures r in all
    {
      assert r in multiset(ranked) && r in multiset(all);
    }
  }

  /** What the palette lists: the query is trimmed and lowered, the best fifty actions are searched. */
  method PaletteEntries(engine: ActionsEngine, enabled: ActionId -> bool, context: Context, paletteQuery: string)
    returns (ids: seq<ActionId>)
    ensures exists ranked: seq<Ranked> ::
              && SortedBy(ranked, RankLeq)
              && IsTop(ranked, AllRanked(engine.registry, enabled, context, engine.View()), PALETTE_LIMIT)
              && Lists(ids, AsciiLowercase(Trim(paletteQuery)), ranked)
  {
    hide RankLeq, AllRanked, IsTop, Matches, LexicographicLeq, SortedBy, Trim, AsciiLowercase, RankedIds, MatchIds;
    var query := AsciiLowercase(Trim(paletteQuery));
    var ranked := engine.RankTopN(enabled, context, PALETTE_LIMIT);
    if query == "" {
      return RankedIds(ranked);
    }
    RanksAreBounded(engine.registry, enabled, context, engine.View());
    TopIsBounded(ranked, AllRanked(engine.registry, enabled, context, engine.View()), PALETTE_LIMIT);
    var entries := SortedMatches(query, ranked);
    ids := MatchIds(entries);
  }
}
