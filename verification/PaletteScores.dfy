/** The points of the command palette: for a match of the query, and for an action in its context. */
module PaletteScores {
  import opened Text
  import opened Palette

  // ---------------------------------------------------------------- the start of a word

  predicate AllAlphanumeric(s: string) {
    forall i :: 0 <= i < |s| ==> IsAsciiAlphanumeric(s[i])
  }

  /** The query stands at i, within one word, and that word starts at i. */
  predicate BeginsWordAt(text: string, query: string, i: nat) {
    && OccursAt(text, query, i)
    && AllAlphanumeric(query)
    && (i > 0 ==> i <= |text| && !IsAsciiAlphanumeric(text[i - 1]))
  }

  lemma {:induction false} FirstWord(text: string, query: string)
    ensures query <= Words(text)[0] <==> query <= text && AllAlphanumeric(query)
  {
    hide IsAsciiAlphanumeric;
    if query != "" && text != "" && IsAsciiAlphanumeric(text[0]) {
      FirstWord(text[1..], query[1..]);
      PrefixTail(text, query);
      PrefixTail(Words(text)[0], query);
      assert Words(text)[0][1..] == Words(text[1..])[0];
      AlphanumericTail(query);
    }
  }

  lemma PrefixTail(text: string, query: string)
    requires query != "" && text != ""
    ensures query <= text <==> query[0] == text[0] && query[1..] <= text[1..]
  {
    if query[0] == text[0] && query[1..] <= text[1..] {
      assert query == [query[0]] + query[1..] && text == [text[0]] + text[1..];
    }
  }

  lemma AlphanumericTail(query: string)
    requires query != ""
    ensures AllAlphanumeric(query) <==> IsAsciiAlphanumeric(query[0]) && AllAlphanumeric(query[1..])
  {
    hide IsAsciiAlphanumeric;
    if IsAsciiAlphanumeric(query[0]) && AllAlphanumeric(query[1..]) {
      forall i | 0 <= i < |query|
        ensures IsAsciiAlphanumeric(query[i])
      {
        assert i > 0 ==> query[i] == query[1..][i - 1];
      }
    }
  }

  ghost predicate WordBehind(text: string, query: string) {
    exists j :: 1 <= j < |Words(text)| && query <= Words(text)[j]
  }

  ghost predicate BeginsBehind(text: string, query: string) {
    exists i: nat :: i > 0 && BeginsWordAt(text, query, i)
  }

  lemma BeginsLater(text: string, query: string, i: nat)
    requires query != "" && text != ""
    ensures BeginsWordAt(text, query, i + 1) <==>
            if i == 0 then !IsAsciiAlphanumeric(text[0]) && BeginsWordAt(text[1..], query, 0)
            else BeginsWordAt(text[1..], query, i)
  {
    hide IsAsciiAlphanumeric, OccursAt, AllAlphanumeric;
    OccursLater(text, query, i);
  }

  lemma BeginsFirst(text: string, query: string)
    ensures BeginsWordAt(text, query, 0) <==> query <= text && AllAlphanumeric(query)
  {
    OccursFirst(text, query);
  }

  lemma {:induction false} LaterWords(text: string, query: string)
    requires query != ""
    ensures WordBehind(text, query) <==> BeginsBehind(text, query)
  {
    hide IsAsciiAlphanumeric, OccursAt, AllAlphanumeric, BeginsWordAt;
    if text == "" {
      NothingBegins(query);
    } else {
      LaterWords(text[1..], query);
      FirstWord(text[1..], query);
      BeginsFirst(text[1..], query);
      BeginsLater(text, query, 0);
      WordsBehind(text, query);
      if BeginsBehind(text, query) {
        var i: nat :| i > 0 && BeginsWordAt(text, query, i);
        BeginsLater(text, query, i - 1);
      }
      if BeginsBehind(text[1..], query) {
        var i: nat :| i > 0 && BeginsWordAt(text[1..], query, i);
        BeginsLater(text, query, i);
        assert BeginsWordAt(text, query, i + 1);
      }
    }
  }

  lemma NothingBegins(query: string)
    requires query != ""
    ensures !BeginsBehind("", query) && !WordBehind("", query)
  {
  }

  lemma WordsBehind(text: string, query: string)
    requires text != ""
    ensures WordBehind(text, query) <==>
            WordBehind(text[1..], query) || (!IsAsciiAlphanumeric(text[0]) && query <= Words(text[1..])[0])
  {
    hide IsAsciiAlphanumeric;
    var rest := Words(text[1..]);
    if IsAsciiAlphanumeric(text[0]) {
      assert forall j :: 1 <= j < |rest| ==> Words(text)[j] == rest[j];
    } else {
      assert forall j :: 1 <= j < |Words(text)| ==> Words(text)[j] == rest[j - 1];
      assert forall j :: 0 <= j < |rest| ==> rest[j] == Words(text)[j + 1];
    }
  }

  /** Some word of the text starts with the query exactly when the query is all letters and digits and stands at
      the start of the text or behind a character that is neither. */
  lemma StartsAWordIff(query: string, text: string)
    requires query != ""
    ensures StartsAWord(query, text) <==> exists i: nat :: BeginsWordAt(text, query, i)
  {
    hide IsAsciiAlphanumeric, OccursAt, AllAlphanumeric, BeginsWordAt, Words;
    FirstWord(text, query);
    BeginsFirst(text, query);
    LaterWords(text, query);
    if WordBehind(text, query) {
      var j :| 1 <= j < |Words(text)| && query <= Words(text)[j];
      assert Words(text)[j] != "";
    }
    if StartsAWord(query, text) {
      var j :| 0 <= j < |Words(text)| && Words(text)[j] != "" && query <= Words(text)[j];
      assert j == 0 || WordBehind(text, query);
    }
  }

  // ---------------------------------------------------------------- the points of a match

  /** The five levels: the text itself, its front, the start of a word, anywhere, and scattered. */
  lemma TextScoreLevels(query: string, text: string)
    requires query != "" && text != ""
    ensures var score := TextMatchScore(query, text);
            && (score == Some(1000) <==> query == text)
            && (score == Some(900) <==> query < text)
            && (score == Some(820) <==> !(query <= text) && exists i: nat :: BeginsWordAt(text, query, i))
            && (score == Some(760) <==>
                  && !(query <= text)
                  && (exists i: nat :: OccursAt(text, query, i))
                  && (forall i: nat :: !BeginsWordAt(text, query, i)))
            && (!(exists i: nat :: OccursAt(text, query, i)) ==> score == FuzzyScore(query, text))
  {
    hide FuzzyScore, StartsAWord, OccursAt, Contains, BeginsWordAt, IsSubsequence;
    StartsAWordIff(query, text);
    ContainsIffSubstring(text, query);
    FuzzyIffSubsequence(query, text);
    OccursFirst(text, query);
    if i: nat :| BeginsWordAt(text, query, i) {
      BeginningOccurs(text, query, i);
    }
  }

  lemma BeginningOccurs(text: string, query: string, i: nat)
    requires BeginsWordAt(text, query, i)
    ensures OccursAt(text, query, i)
  {
  }

  /** A match without gaps of a query of n characters has 620 points and 8 for each, up to 12; gaps take up
      to 12 points each, down to 500 in all. */
  lemma FuzzyPoints(query: string, text: string)
    requires FuzzyScore(query, text).Some?
    ensures var positions := Greedy(query, text, 0).value;
            var full := 620 + 8 * (if |query| < 12 then |query| else 12);
            && full - 12 * (|query| - 1) <= FuzzyScore(query, text).value
            && FuzzyScore(query, text).value <= full
            && (FuzzyScore(query, text).value == full <==> InOneRun(positions))
  {
    hide Greedy, InOneRun, GapPenalty;
    var positions := Greedy(query, text, 0).value;
    GreedyEmbeds(query, text, 0);
    PenaltyBounds(positions);
  }

  predicate InOneRun(positions: seq<nat>) {
    forall i :: 0 <= i < |positions| - 1 ==> positions[i + 1] == positions[i] + 1
  }

  lemma RunGrows(positions: seq<nat>)
    requires |positions| > 1
    ensures InOneRun(positions) <==>
            && InOneRun(positions[..|positions| - 1])
            && positions[|positions| - 1] == positions[|positions| - 2] + 1
  {
    var front := positions[..|positions| - 1];
    assert forall i :: 0 <= i < |front| ==> front[i] == positions[i];
  }

  lemma {:induction false} PenaltyBounds(positions: seq<nat>)
    requires positions != [] && forall i, j :: 0 <= i < j < |positions| ==> positions[i] < positions[j]
    ensures GapPenalty(positions) <= 12 * (|positions| - 1)
    ensures GapPenalty(positions) == 0 <==> InOneRun(positions)
  {
    hide InOneRun;
    if |positions| > 1 {
      PenaltyBounds(positions[..|positions| - 1]);
      RunGrows(positions);
    } else {
      SingleIsRun(positions);
    }
  }

  lemma SingleIsRun(positions: seq<nat>)
    requires |positions| == 1
    ensures InOneRun(positions)
  {
  }

  /** The points of an action: the most that its title with 30 more, its description or one of its aliases with
      15 more has. */
  lemma BestOfAll(query: string, title: string, description: string, aliases: seq<string>)
    ensures var best := PaletteMatchScore(query, title, description, aliases);
            var title, description := TextMatchScore(query, title), TextMatchScore(query, description);
            && (best.None? <==>
                  && title.None? && description.None?
                  && forall i :: 0 <= i < |aliases| ==> TextMatchScore(query, aliases[i]).None?)
            && (title.Some? ==> best.value >= title.value + 30)
            && (description.Some? ==> best.value >= description.value)
            && (forall i :: 0 <= i < |aliases| && TextMatchScore(query, aliases[i]).Some? ==>
                  best.value >= TextMatchScore(query, aliases[i]).value + 15)
            && (best.Some? ==>
                  || (title.Some? && best.value == title.value + 30)
                  || best == description
                  || exists i :: 0 <= i < |aliases| && TextMatchScore(query, aliases[i]) == Some(best.value - 15))
  {
    hide TextMatchScore;
    BestOfAliases(query, aliases);
  }

  lemma {:induction false} BestOfAliases(query: string, aliases: seq<string>)
    ensures var best := BestAlias(query, aliases);
            && (best.None? <==> forall i :: 0 <= i < |aliases| ==> TextMatchScore(query, aliases[i]).None?)
            && (forall i :: 0 <= i < |aliases| && TextMatchScore(query, aliases[i]).Some? ==>
                  best.value >= TextMatchScore(query, aliases[i]).value)
            && (best.Some? ==> exists i :: 0 <= i < |aliases| && TextMatchScore(query, aliases[i]) == best)
  {
    hide TextMatchScore;
    if aliases != [] {
      BestOfAliases(query, aliases[1..]);
      assert forall i :: 1 <= i < |aliases| ==> aliases[i] == aliases[1..][i - 1];
      assert forall i :: 0 <= i < |aliases| - 1 ==> aliases[1..][i] == aliases[i + 1];
    }
  }

  // ---------------------------------------------------------------- the points of an action

  /** The action has something to work on: results, a table, a query. */
  predicate Applies(id: ActionId, c: Context) {
    match id
    case ExportCsv | ExportJson | ExportCsvGzip | ExportJsonGzip | ExportJsonLines | ExportJsonLinesGzip
       | CopyCell | CopyRow | SearchResults => c.hasResults
    case PreviewTable | DescribeTable | ShowIndexes | ShowCreateTable => c.view == SchemaExplorer && c.table
    case JumpToRelatedTable => c.view == SchemaExplorer && c.table && c.hasRelatedTables
    case NextPage => c.view == Results && c.paginationEnabled && c.canPageNext
    case PreviousPage => c.view == Results && c.paginationEnabled && c.canPagePrevious
    case CountEstimate => c.database && c.table
    case BuildFilterSortQuery => c.database && c.table && c.column
    case InsertSelectSnippet | InsertJoinSnippet => c.view == QueryEditor
    case FocusQueryEditor => c.view != QueryEditor
    case CancelRunningQuery => c.queryRunning
    case RunHealthDiagnostics => !c.queryRunning
    case RunCurrentQuery => c.queryText
    case SaveBookmark => c.queryText || c.table
    case OpenBookmark => c.hasSavedBookmarks
    case ApplyLimit200 => c.limitSuggested
    case ExplainQuery => c.explainSuggested
  }

  /** The actions by their points, the most urgent first. */
  predicate HasPoints(id: ActionId, points: int) {
    match points
    case 1000 => id.CancelRunningQuery?
    case 950 => id.ApplyLimit200?
    case 910 => id.ExplainQuery?
    case 900 => id.PreviewTable?
    case 880 => id.BuildFilterSortQuery?
    case 870 => id.JumpToRelatedTable?
    case 860 => id.NextPage?
    case 850 => id.RunCurrentQuery?
    case 840 => id.PreviousPage?
    case 820 => id.InsertSelectSnippet? || id.DescribeTable?
    case 790 => id.ShowIndexes?
    case 780 => id.InsertJoinSnippet?
    case 760 => id.ShowCreateTable?
    case 700 => id.CountEstimate?
    case 640 => id.ExportCsv?
    case 638 => id.ExportJson?
    case 636 => id.ExportCsvGzip?
    case 634 => id.ExportJsonGzip?
    case 632 => id.ExportJsonLines?
    case 630 => id.ExportJsonLinesGzip?
    case 620 => id.SaveBookmark?
    case 610 => id.OpenBookmark?
    case 600 => id.CopyCell? || id.CopyRow?
    case 580 => id.SearchResults?
    case 565 => id.RunHealthDiagnostics?
    case 500 => id.FocusQueryEditor?
    case _ => false
  }

  /** An action that applies has its points, and one that does not has none. */
  lemma PointsWhereItApplies(id: ActionId, c: Context)
    ensures Applies(id, c) ==> HasPoints(id, BaseScore(id, c))
    ensures !Applies(id, c) ==> BaseScore(id, c) == 0
  {
  }
}
