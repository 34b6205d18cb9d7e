/**
 * The sequential parts of the voice agent's Odoo support tools
 * (backend/agent/tools.py, class OdooTools): the error-message analyser, the
 * tail selection of the server-log tool and the installed-modules report.
 * The Odoo connection and the log file are not modelled; what they deliver
 * (module records, the file's lines, or the failure) is an input.
 */
module AgentTools {
  import opened Strings

  // ---------------------------------------------------------------------------
  // analyze_error
  // ---------------------------------------------------------------------------

  /** One row of the analyser's table: an error pattern and the advice for it. */
  datatype Advice = Advice(pattern: string, solution: string)

  /** The analyser's table of common Odoo error patterns, in insertion order. */
  const Solutions: seq<Advice> := [
    Advice("Access Denied", "This is typically a permissions issue. Check user access rights and security groups."),
    Advice("Module not found", "The module may not be installed or the technical name is incorrect."),
    Advice("Database locked", "Another process may be using the database. Check for running upgrades or backups."),
    Advice("psycopg2", "This is a PostgreSQL database error. Check database connectivity and permissions."),
    Advice("ImportError", "A Python dependency is missing. Check that all required packages are installed."),
    Advice("ValidationError", "Data validation failed. Check that all required fields are filled correctly."),
    Advice("MissingError", "A record was not found. It may have been deleted or the ID is incorrect.")
  ]

  /** The sentence appended when no pattern of the table matched. */
  const NoMatchText := "No specific pattern matched. Please provide more context or check the server logs."

  function AnalysisHeader(errorMessage: string): string
  {
    "Error Analysis for: " + errorMessage + "\n\n"
  }

  function CauseLine(advice: Advice): string
  {
    "Possible cause: " + advice.solution + "\n"
  }

  /** The test the analyser applies to each row: `pattern.lower() in error_message.lower()`. */
  predicate Matches(advice: Advice, errorMessage: string)
  {
    Contains(Lower(advice.pattern), Lower(errorMessage))
  }

  /** The rows of `table` that match `errorMessage`, in table order. */
  function Matching(table: seq<Advice>, errorMessage: string): (matched: seq<Advice>)
    ensures |matched| <= |table|
  {
    if table == [] then []
    else
      var last := table[|table| - 1];
      Matching(table[..|table| - 1], errorMessage) + (if Matches(last, errorMessage) then [last] else [])
  }

  function CauseLines(matched: seq<Advice>): seq<string>
  {
    seq(|matched|, i requires 0 <= i < |matched| => CauseLine(matched[i]))
  }

  /** The whole text `analyze_error` returns for `errorMessage`. */
  function Analysis(errorMessage: string): string
  {
    var matched := Matching(Solutions, errorMessage);
    AnalysisHeader(errorMessage) + Concat(CauseLines(matched)) + (if matched == [] then NoMatchText else "")
  }

  /** Extending the scanned prefix of the table by one row adds that row's cause line if it matches. */
  lemma MatchingStep(table: seq<Advice>, errorMessage: string, i: int)
    requires 0 <= i < |table|
    ensures Concat(CauseLines(Matching(table[..i + 1], errorMessage)))
         == Concat(CauseLines(Matching(table[..i], errorMessage)))
            + (if Matches(table[i], errorMessage) then CauseLine(table[i]) else "")
  {
    var t := table[..i + 1];
    assert t[..|t| - 1] == table[..i];
    var matched := Matching(table[..i], errorMessage);
    if Matches(table[i], errorMessage) {
      assert Matching(t, errorMessage) == matched + [table[i]];
      assert CauseLines(matched + [table[i]]) == CauseLines(matched) + [CauseLine(table[i])];
      ConcatAppend(CauseLines(matched), [CauseLine(table[i])]);
      assert Concat([CauseLine(table[i])]) == CauseLine(table[i]) by {
        assert [CauseLine(table[i])][..0] == [];
      }
    } else {
      assert Matching(t, errorMessage) == matched;
    }
  }

  /** Cause lines are never empty, so they add text exactly when some row matched. */
  lemma CauseLinesEmptyIff(matched: seq<Advice>)
    ensures Concat(CauseLines(matched)) == "" <==> matched == []
  {
    ConcatEmptyIff(CauseLines(matched));
  }

  /**
   * The loop of analyze_error, stated for any table: append to `header` the
   * cause line of every row whose lower-cased pattern occurs in the
   * lower-cased message, in table order.
   */
  method AppendCauses(header: string, table: seq<Advice>, errorMessage: string) returns (result: string)
    ensures result == header + Concat(CauseLines(Matching(table, errorMessage)))
  {
    result := header;
    for i := 0 to |table|
      invariant result == header + Concat(CauseLines(Matching(table[..i], errorMessage)))
    {
      var advice := table[i];
      ghost var done := Concat(CauseLines(Matching(table[..i], errorMessage)));
      MatchingStep(table, errorMessage, i);
      if Matches(advice, errorMessage) {
        result := result + CauseLine(advice);
        assert result == header + (done + CauseLine(advice));
      }
    }
    assert table[..|table|] == table;
  }

  /**
   * OdooTools.analyze_error: start from the header, append one cause line per
   * matching row of the table, then append the fallback sentence if the text
   * is still just the header.
   */
  method AnalyzeError(errorMessage: string) returns (result: string)
    ensures result == Analysis(errorMessage)
    ensures AnalysisHeader(errorMessage) <= result
  {
    result := AppendCauses(AnalysisHeader(errorMessage), Solutions, errorMessage);
    CauseLinesEmptyIff(Matching(Solutions, errorMessage));
    if result == AnalysisHeader(errorMessage) {
      result := result + NoMatchText;
    }
  }

  /** A row is used exactly when its lower-cased pattern occurs in the lower-cased message. */
  lemma MatchesIff(advice: Advice, errorMessage: string)
    ensures Matches(advice, errorMessage) <==> IsSubstring(Lower(advice.pattern), Lower(errorMessage))
  {
    ContainsIff(Lower(advice.pattern), Lower(errorMessage));
  }

  /** A row is among the matched rows exactly when it is in the table and matches. */
  lemma {:induction false} MatchingMembers(table: seq<Advice>, errorMessage: string, advice: Advice)
    ensures advice in Matching(table, errorMessage) <==> advice in table && Matches(advice, errorMessage)
  {
    if table != [] {
      var init := table[..|table| - 1];
      MatchingMembers(init, errorMessage, advice);
      assert table == init + [table[|table| - 1]];
    }
  }

  /** `s` is `t` with some elements left out, the rest kept in order. */
  ghost predicate IsSubsequence<T>(s: seq<T>, t: seq<T>)
    decreases |t|
  {
    if s == [] then true
    else if t == [] then false
    else (s[|s| - 1] == t[|t| - 1] && IsSubsequence(s[..|s| - 1], t[..|t| - 1]))
         || IsSubsequence(s, t[..|t| - 1])
  }

  /** Appending an element to the longer sequence keeps a subsequence a subsequence. */
  lemma SubsequenceOfLonger<T>(s: seq<T>, t: seq<T>, x: T)
    requires IsSubsequence(s, t)
    ensures IsSubsequence(s, t + [x])
  {
    assert (t + [x])[..|t|] == t;
  }

  /** Cause lines come out in the table's insertion order. */
  lemma {:induction false} MatchingInTableOrder(table: seq<Advice>, errorMessage: string)
    ensures IsSubsequence(Matching(table, errorMessage), table)
  {
    if table != [] {
      var init := table[..|table| - 1];
      MatchingInTableOrder(init, errorMessage);
      var matched := Matching(init, errorMessage);
      if Matches(table[|table| - 1], errorMessage) {
        var m := matched + [table[|table| - 1]];
        assert Matching(table, errorMessage) == m;
        assert m[..|m| - 1] == matched;
      } else {
        assert Matching(table, errorMessage) == matched;
        SubsequenceOfLonger(matched, init, table[|table| - 1]);
        assert init + [table[|table| - 1]] == table;
      }
    }
  }

  /** Indices of the rows of `table` that match. */
  ghost function MatchIndices(table: seq<Advice>, errorMessage: string): set<int>
  {
    set k | 0 <= k < |table| && Matches(table[k], errorMessage)
  }

  /** One cause per matching row: the number of matched rows is the number of matching indices. */
  lemma {:induction false} MatchingCount(table: seq<Advice>, errorMessage: string)
    ensures |Matching(table, errorMessage)| == |MatchIndices(table, errorMessage)|
  {
    if table == [] {
      assert MatchIndices(table, errorMessage) == {};
    } else {
      var n := |table| - 1;
      var init := table[..n];
      MatchingCount(init, errorMessage);
      if Matches(table[n], errorMessage) {
        assert MatchIndices(table, errorMessage) == MatchIndices(init, errorMessage) + {n};
      } else {
        assert MatchIndices(table, errorMessage) == MatchIndices(init, errorMessage);
      }
    }
  }

  /** Facts about the table itself: seven rows with pairwise distinct patterns, as keys of a dictionary. */
  lemma SolutionsTable()
    ensures |Solutions| == 7
    ensures forall i, j | 0 <= i < j < |Solutions| :: Solutions[i].pattern != Solutions[j].pattern
  {
  }

  /** A text without line breaks followed by one line break holds exactly one. */
  lemma SingleLine(body: string)
    requires '\n' !in body
    ensures Count(body + "\n", '\n') == 1
  {
    CountAppend(body, "\n", '\n');
    CountAbsent(body, '\n');
  }

  /** Each cause line holds exactly one line break when the solutions are single lines. */
  lemma {:induction false} CauseLinesNewlines(matched: seq<Advice>)
    requires forall i | 0 <= i < |matched| :: '\n' !in matched[i].solution
    ensures Count(Concat(CauseLines(matched)), '\n') == |matched|
  {
    if matched != [] {
      var n := |matched| - 1;
      var advice := matched[n];
      assert CauseLines(matched) == CauseLines(matched[..n]) + [CauseLine(advice)];
      ConcatAppend(CauseLines(matched[..n]), [CauseLine(advice)]);
      assert Concat([CauseLine(advice)]) == CauseLine(advice) by {
        assert [CauseLine(advice)][..0] == [];
      }
      CauseLinesNewlines(matched[..n]);
      CountAppend(Concat(CauseLines(matched[..n])), CauseLine(advice), '\n');
      SingleLine("Possible cause: " + advice.solution);
    }
  }

  /**
   * The shape of the analysis: the header, then one "Possible cause" line per
   * matching row (at most seven), then the fallback sentence exactly when no
   * row matched.
   */
  lemma AnalysisShape(errorMessage: string)
    ensures var matched := Matching(Solutions, errorMessage);
      && |matched| <= 7
      && |matched| == |MatchIndices(Solutions, errorMessage)|
      && |CauseLines(matched)| == |matched|
      && (matched == [] <==> forall k | 0 <= k < |Solutions| :: !Matches(Solutions[k], errorMessage))
      && (matched == [] ==> Analysis(errorMessage) == AnalysisHeader(errorMessage) + NoMatchText)
      && (matched != [] ==> Analysis(errorMessage) == AnalysisHeader(errorMessage) + Concat(CauseLines(matched)))
  {
    var matched := Matching(Solutions, errorMessage);
    SolutionsTable();
    MatchingCount(Solutions, errorMessage);
    if matched == [] {
      forall k | 0 <= k < |Solutions| ensures !Matches(Solutions[k], errorMessage) {
        MatchingMembers(Solutions, errorMessage, Solutions[k]);
      }
    } else {
      MatchingMembers(Solutions, errorMessage, matched[0]);
    }
  }

  /** Matching ignores letter case: messages equal up to case match the same rows. */
  lemma {:induction false} MatchingIgnoresCase(table: seq<Advice>, m1: string, m2: string)
    requires Lower(m1) == Lower(m2)
    ensures Matching(table, m1) == Matching(table, m2)
  {
    if table != [] {
      MatchingIgnoresCase(table[..|table| - 1], m1, m2);
    }
  }

  /** Two messages equal up to case get the same analysis after their headers. */
  lemma AnalysisIgnoresCase(m1: string, m2: string)
    requires Lower(m1) == Lower(m2)
    ensures Analysis(m1)[|AnalysisHeader(m1)|..] == Analysis(m2)[|AnalysisHeader(m2)|..]
  {
    MatchingIgnoresCase(Solutions, m1, m2);
  }

  // ---------------------------------------------------------------------------
  // get_server_logs
  // ---------------------------------------------------------------------------

  /** Default of the `lines` parameter. */
  const DefaultLogLines := 50

  /** What opening and reading the log file gave. */
  datatype LogFile = Missing | Unreadable(reason: string) | Present(lines: seq<string>)

  function Min(a: int, b: int): int
  {
    if a <= b then a else b
  }

  /**
   * Python's `s[start:]` for any integer `start`: a negative start counts from
   * the end and is clamped at 0, a start past the end gives the empty list.
   */
  function SliceFrom<T>(s: seq<T>, start: int): seq<T>
  {
    if start < 0 then (if |s| + start <= 0 then s else s[|s| + start..])
    else if start >= |s| then []
    else s[start..]
  }

  /** `all_lines[-lines:]`: which lines the log tool returns. */
  function RecentLines(allLines: seq<string>, lines: int): (recent: seq<string>)
    ensures |recent| <= |allLines| && recent == allLines[|allLines| - |recent|..]
    ensures lines > 0 ==> |recent| == Min(lines, |allLines|)
    ensures lines == 0 ==> recent == allLines
    ensures lines < 0 ==> |recent| == |allLines| - Min(-lines, |allLines|)
  {
    SliceFrom(allLines, -lines)
  }

  /** OdooTools.get_server_logs with the file access abstracted into `file`. */
  function ServerLogs(logFile: string, file: LogFile, lines: int): string
  {
    match file
    case Missing => "Log file not found at: " + logFile
    case Unreadable(reason) => "Error reading logs: " + reason
    case Present(allLines) => "Recent Server Logs:\n" + Concat(RecentLines(allLines, lines))
  }

  /**
   * For a positive `lines` the tool returns the header followed by the last
   * `lines` lines (all of them if the file is shorter) unchanged and in order,
   * which is a suffix of the file's text.
   */
  lemma ServerLogsTail(logFile: string, allLines: seq<string>, lines: int)
    requires lines > 0
    ensures var k := |allLines| - Min(lines, |allLines|);
      && ServerLogs(logFile, Present(allLines), lines) == "Recent Server Logs:\n" + Concat(allLines[k..])
      && |Concat(allLines[k..])| <= |Concat(allLines)|
      && Concat(allLines[k..]) == Concat(allLines)[|Concat(allLines)| - |Concat(allLines[k..])|..]
  {
    ConcatSuffix(allLines, |allLines| - Min(lines, |allLines|));
  }

  /** Asking for zero lines returns the whole file, since `-0 == 0`. */
  lemma ServerLogsZero(logFile: string, allLines: seq<string>)
    ensures ServerLogs(logFile, Present(allLines), 0) == "Recent Server Logs:\n" + Concat(allLines)
  {
  }

  /** With the default argument, at most the last fifty lines are returned. */
  lemma ServerLogsDefault(allLines: seq<string>)
    ensures |RecentLines(allLines, DefaultLogLines)| == Min(50, |allLines|)
  {
  }

  // ---------------------------------------------------------------------------
  // get_installed_modules
  // ---------------------------------------------------------------------------

  /** The fields the tool reads of an installed module, already rendered as text. */
  datatype ModuleRecord = ModuleRecord(name: string, shortdesc: string, installedVersion: string)

  /** What the search-and-read of installed modules gave. */
  datatype ModuleQuery = Fetched(records: seq<ModuleRecord>) | QueryFailed(reason: string)

  function ModuleLine(m: ModuleRecord): string
  {
    "- " + m.name + " (" + m.shortdesc + "): v" + m.installedVersion + "\n"
  }

  function ModuleLines(records: seq<ModuleRecord>): seq<string>
  {
    seq(|records|, i requires 0 <= i < |records| => ModuleLine(records[i]))
  }

  /** The report for a list of records: a header, then one line per record in read order. */
  function ModulesReport(records: seq<ModuleRecord>): string
  {
    "Installed Modules:\n" + Concat(ModuleLines(records))
  }

  /** Reading one more record adds its line at the end of the report. */
  lemma ModulesReportStep(records: seq<ModuleRecord>, i: int)
    requires 0 <= i < |records|
    ensures ModulesReport(records[..i + 1]) == ModulesReport(records[..i]) + ModuleLine(records[i])
  {
    assert ModuleLines(records[..i + 1]) == ModuleLines(records[..i]) + [ModuleLine(records[i])];
    ConcatAppend(ModuleLines(records[..i]), [ModuleLine(records[i])]);
    assert Concat([ModuleLine(records[i])]) == ModuleLine(records[i]) by {
      assert [ModuleLine(records[i])][..0] == [];
    }
  }

  /** OdooTools.get_installed_modules with the Odoo search-and-read abstracted into `query`. */
  method GetInstalledModules(query: ModuleQuery) returns (result: string)
    ensures query.Fetched? ==> result == ModulesReport(query.records)
    ensures query.QueryFailed? ==> result == "Error retrieving modules: " + query.reason
  {
    match query
    case QueryFailed(reason) =>
      result := "Error retrieving modules: " + reason;
    case Fetched(modules) =>
      result := "Installed Modules:\n";
      for i := 0 to |modules|
        invariant result == ModulesReport(modules[..i])
      {
        ModulesReportStep(modules, i);
        result := result + ModuleLine(modules[i]);
      }
      assert modules[..|modules|] == modules;
  }

  /** Reports respect read order: the records of a longer read add their lines at the end. */
  lemma ModulesReportAppend(first: seq<ModuleRecord>, rest: seq<ModuleRecord>)
    ensures ModulesReport(first + rest) == ModulesReport(first) + Concat(ModuleLines(rest))
  {
    assert ModuleLines(first + rest) == ModuleLines(first) + ModuleLines(rest);
    ConcatAppend(ModuleLines(first), ModuleLines(rest));
  }

  /** A module line holds exactly one line break when the record's fields hold none. */
  lemma ModuleLineBreak(m: ModuleRecord)
    requires '\n' !in m.name && '\n' !in m.shortdesc && '\n' !in m.installedVersion
    ensures Count(ModuleLine(m), '\n') == 1
  {
    SingleLine("- " + m.name + " (" + m.shortdesc + "): v" + m.installedVersion);
  }

  /** Exactly one line per record: with single-line fields the report has one line break per record plus the header's. */
  lemma {:induction false} ModulesReportLineCount(records: seq<ModuleRecord>)
    requires forall i | 0 <= i < |records| ::
      '\n' !in records[i].name && '\n' !in records[i].shortdesc && '\n' !in records[i].installedVersion
    ensures Count(ModulesReport(records), '\n') == |records| + 1
  {
    if records == [] {
      assert ModuleLines(records) == [];
      assert ModulesReport(records) == "Installed Modules:" + "\n";
      SingleLine("Installed Modules:");
    } else {
      var n := |records| - 1;
      var m := records[n];
      assert records == records[..n] + [m];
      ModulesReportLineCount(records[..n]);
      ModulesReportAppend(records[..n], [m]);
      assert Concat(ModuleLines([m])) == ModuleLine(m) by {
        assert ModuleLines([m]) == [ModuleLine(m)];
        assert [ModuleLine(m)][..0] == [];
      }
      CountAppend(ModulesReport(records[..n]), ModuleLine(m), '\n');
      ModuleLineBreak(m);
    }
  }
}
