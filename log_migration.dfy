/**
 * The one-off migration script that moves the application from the standard
 * `logging` module to the project's own `get_logger`: every Python file
 * found under `app/`, except the logging configuration itself, is read,
 * passed through six literal replace-all substitutions in a fixed order,
 * and written back.
 */
module LogMigration {
  import opened Common

  /**
   * `re.sub(pat, rep, s)` for a pattern that matches only the literal text
   * `pat`: scanning from the left, each occurrence is replaced and the scan
   * resumes after it, so occurrences never overlap.
   */
  function ReplaceAll(s: string, pat: string, rep: string): string
    requires |pat| > 0
    decreases |s|
  {
    if StartsWith(s, pat) then rep + ReplaceAll(s[|pat|..], pat, rep)
    else if |s| == 0 then ""
    else [s[0]] + ReplaceAll(s[1..], pat, rep)
  }

  /** The number of occurrences `ReplaceAll` replaces. */
  function Matches(s: string, pat: string): nat
    requires |pat| > 0
    decreases |s|
  {
    if StartsWith(s, pat) then 1 + Matches(s[|pat|..], pat)
    else if |s| == 0 then 0
    else Matches(s[1..], pat)
  }

  /**
   * Text in front of the first occurrence is copied as it is: when no
   * occurrence starts inside `a`, the result is `a` followed by the result
   * on `b`.
   */
  lemma {:induction false} PrefixKept(a: string, b: string, pat: string, rep: string)
    requires |pat| > 0
    requires forall i :: 0 <= i < |a| ==> !StartsWith((a + b)[i..], pat)
    ensures ReplaceAll(a + b, pat, rep) == a + ReplaceAll(b, pat, rep)
    decreases |a|
  {
    if |a| > 0 {
      var s, t := a + b, a[1..] + b;
      assert s[0..] == s;
      assert !StartsWith(s, pat);
      assert s[1..] == t;
      assert ReplaceAll(s, pat, rep) == [a[0]] + ReplaceAll(t, pat, rep);
      forall i | 0 <= i < |a[1..]|
        ensures !StartsWith(t[i..], pat)
      {
        assert t[i..] == s[i + 1..];
      }
      PrefixKept(a[1..], b, pat, rep);
      assert [a[0]] + (a[1..] + ReplaceAll(b, pat, rep)) == a + ReplaceAll(b, pat, rep);
    } else {
      assert a + b == b;
    }
  }

  /**
   * The leftmost occurrence is the one replaced: when `pat` first occurs
   * right after `a`, the result is `a`, the replacement, and the result on
   * what follows the occurrence.
   */
  lemma LeftmostReplaced(a: string, b: string, pat: string, rep: string)
    requires |pat| > 0
    requires forall i :: 0 <= i < |a| ==> !StartsWith((a + pat + b)[i..], pat)
    ensures ReplaceAll(a + pat + b, pat, rep) == a + rep + ReplaceAll(b, pat, rep)
  {
    assert a + pat + b == a + (pat + b);
    PrefixKept(a, pat + b, pat, rep);
    assert StartsWith(pat + b, pat);
    assert (pat + b)[|pat|..] == b;
  }

  /** Text in which the pattern does not occur is returned unchanged. */
  lemma {:induction false} ReplaceAbsent(s: string, pat: string, rep: string)
    requires |pat| > 0 && !Contains(s, pat)
    ensures ReplaceAll(s, pat, rep) == s
    decreases |s|
  {
    if |s| > 0 {
      ReplaceAbsent(s[1..], pat, rep);
      assert [s[0]] + s[1..] == s;
    }
  }

  /** A pattern that is replaced by itself leaves every text unchanged. */
  lemma {:induction false} ReplaceBySelf(s: string, pat: string)
    requires |pat| > 0
    ensures ReplaceAll(s, pat, pat) == s
    decreases |s|
  {
    if StartsWith(s, pat) {
      ReplaceBySelf(s[|pat|..], pat);
      assert s[..|pat|] + s[|pat|..] == s;
    } else if |s| > 0 {
      ReplaceBySelf(s[1..], pat);
      assert [s[0]] + s[1..] == s;
    }
  }

  /** The length count of one more replacement in front of the rest. */
  lemma OneMoreReplacement(total: int, sLen: int, tLen: int, patLen: int, repLen: int, m: int, rest: int)
    requires sLen == patLen + tLen && rest == tLen + m * (repLen - patLen) && total == repLen + rest
    ensures total == sLen + (m + 1) * (repLen - patLen)
  {
    var d := repLen - patLen;
    assert (m + 1) * d == m * d + d;
  }

  /** Each replacement changes the length by the difference of the two texts. */
  lemma {:induction false} ReplaceLength(s: string, pat: string, rep: string)
    requires |pat| > 0
    ensures |ReplaceAll(s, pat, rep)| == |s| + Matches(s, pat) * (|rep| - |pat|)
    decreases |s|
  {
    if StartsWith(s, pat) {
      var t := s[|pat|..];
      ReplaceLength(t, pat, rep);
      assert |ReplaceAll(s, pat, rep)| == |rep| + |ReplaceAll(t, pat, rep)|;
      assert Matches(s, pat) == Matches(t, pat) + 1;
      OneMoreReplacement(|ReplaceAll(s, pat, rep)|, |s|, |t|, |pat|, |rep|, Matches(t, pat), |ReplaceAll(t, pat, rep)|);
    } else if |s| > 0 {
      ReplaceLength(s[1..], pat, rep);
      assert |ReplaceAll(s, pat, rep)| == 1 + |ReplaceAll(s[1..], pat, rep)|;
      assert Matches(s, pat) == Matches(s[1..], pat);
    }
  }

  /** The scan finds an occurrence whenever there is one. */
  lemma {:induction false} MatchesWhenPresent(s: string, pat: string)
    requires |pat| > 0
    ensures Matches(s, pat) > 0 <==> Contains(s, pat)
    decreases |s|
  {
    if !StartsWith(s, pat) && |s| > 0 {
      MatchesWhenPresent(s[1..], pat);
    }
  }

  /** With a replacement of the same length, a text holding the pattern comes out different. */
  lemma {:induction false} SameLengthChanges(s: string, pat: string, rep: string)
    requires |pat| > 0 && |rep| == |pat| && rep != pat && Contains(s, pat)
    ensures ReplaceAll(s, pat, rep) != s
    decreases |s|
  {
    var r := ReplaceAll(s, pat, rep);
    if StartsWith(s, pat) {
      assert r[..|pat|] == rep;
    } else {
      SameLengthChanges(s[1..], pat, rep);
      assert r[1..] == ReplaceAll(s[1..], pat, rep);
    }
  }

  /** A substitution leaves the text as it was exactly when it has nothing to replace or replaces a text by itself. */
  lemma ReplaceUnchangedIff(s: string, pat: string, rep: string)
    requires |pat| > 0
    ensures ReplaceAll(s, pat, rep) == s <==> (pat == rep || !Contains(s, pat))
  {
    if pat == rep {
      ReplaceBySelf(s, pat);
    } else if !Contains(s, pat) {
      ReplaceAbsent(s, pat, rep);
    } else if |rep| == |pat| {
      SameLengthChanges(s, pat, rep);
    } else {
      ReplaceLength(s, pat, rep);
      MatchesWhenPresent(s, pat);
      var m, d := Matches(s, pat), |rep| - |pat|;
      assert m > 0 && d != 0;
      assert m * d != 0;
      assert |ReplaceAll(s, pat, rep)| != |s|;
    }
  }

  // The six substitutions, pattern then replacement.
  const ImportPattern: string := "import logging\n"
  const ImportReplacement: string := "from app.core.logging import get_logger\n"
  const LoggerPattern: string := "logger = logging.getLogger(__name__)"
  const LoggerReplacement: string := "logger = get_logger(__name__)"
  const InfoPattern: string := "logging.info("
  const InfoReplacement: string := "logger.info("
  const ErrorPattern: string := "logging.error("
  const ErrorReplacement: string := "logger.error("
  const WarningPattern: string := "logging.warning("
  const WarningReplacement: string := "logger.warning("
  const DebugPattern: string := "logging.debug("
  const DebugReplacement: string := "logger.debug("

  /** The file text after the six passes, each applied to the result of the one before. */
  function Migrated(content: string): string
  {
    var afterImport := ReplaceAll(content, ImportPattern, ImportReplacement);
    var afterLogger := ReplaceAll(afterImport, LoggerPattern, LoggerReplacement);
    var afterInfo := ReplaceAll(afterLogger, InfoPattern, InfoReplacement);
    var afterError := ReplaceAll(afterInfo, ErrorPattern, ErrorReplacement);
    var afterWarning := ReplaceAll(afterError, WarningPattern, WarningReplacement);
    ReplaceAll(afterWarning, DebugPattern, DebugReplacement)
  }

  /**
   * What `open(path, 'r')` reads: text mode with universal newlines turns
   * each `\r\n`, and each `\r` on its own, into `\n`.
   */
  function ReadText(s: string): (r: string)
    ensures '\r' !in r
    ensures |r| <= |s|
    decreases |s|
  {
    if |s| == 0 then ""
    else if s[0] == '\r' then "\n" + ReadText(if |s| > 1 && s[1] == '\n' then s[2..] else s[1..])
    else [s[0]] + ReadText(s[1..])
  }

  /** Text without a carriage return is read as it is. */
  lemma {:induction false} ReadTextPlain(s: string)
    requires '\r' !in s
    ensures ReadText(s) == s
    decreases |s|
  {
    if |s| > 0 {
      assert s == [s[0]] + s[1..];
      assert '\r' !in s[1..];
      ReadTextPlain(s[1..]);
    }
  }

  /** Reading again what was read changes nothing. */
  lemma ReadTextIdempotent(s: string)
    ensures ReadText(ReadText(s)) == ReadText(s)
  {
    ReadTextPlain(ReadText(s));
  }

  /** A Windows line ending after carriage-return-free text is read as one newline. */
  lemma {:induction false} CrlfRead(a: string, b: string)
    requires '\r' !in a
    ensures ReadText(a + "\r\n" + b) == a + "\n" + ReadText(b)
    decreases |a|
  {
    var s := a + "\r\n" + b;
    if |a| == 0 {
      assert s[0] == '\r' && s[1] == '\n' && s[2..] == b;
    } else {
      assert s[0] == a[0] && a[0] != '\r';
      assert s[1..] == a[1..] + "\r\n" + b;
      assert '\r' !in a[1..];
      CrlfRead(a[1..], b);
      calc {
        ReadText(s);
        [a[0]] + ReadText(a[1..] + "\r\n" + b);
        [a[0]] + (a[1..] + "\n" + ReadText(b));
        { assert [a[0]] + a[1..] == a; }
        a + "\n" + ReadText(b);
      }
    }
  }

  /** An import line ending in `\r\n` is read as one that the first pass replaces. */
  lemma CrlfImportMatches(rest: string)
    ensures StartsWith(ReadText("import logging\r\n" + rest), ImportPattern)
  {
    CrlfRead("import logging", rest);
    assert "import logging" + "\r\n" + rest == "import logging\r\n" + rest;
    assert ("import logging" + "\n" + ReadText(rest))[..|ImportPattern|] == ImportPattern;
  }

  /**
   * What `replace_logging_imports` leaves in a file it rewrites: the text as
   * read, migrated, written back with `\n` line endings (on a POSIX system
   * the text-mode write adds no `\r`).
   */
  function Rewritten(disk: string): string
  {
    Migrated(ReadText(disk))
  }

  /** A file using none of the six patterns is written back exactly as it was read. */
  lemma MigrationKeepsUnrelated(content: string)
    requires !Contains(content, ImportPattern) && !Contains(content, LoggerPattern)
    requires !Contains(content, InfoPattern) && !Contains(content, ErrorPattern)
    requires !Contains(content, WarningPattern) && !Contains(content, DebugPattern)
    ensures Migrated(content) == content
    ensures '\r' !in content ==> Rewritten(content) == content
  {
    ReplaceAbsent(content, ImportPattern, ImportReplacement);
    ReplaceAbsent(content, LoggerPattern, LoggerReplacement);
    ReplaceAbsent(content, InfoPattern, InfoReplacement);
    ReplaceAbsent(content, ErrorPattern, ErrorReplacement);
    ReplaceAbsent(content, WarningPattern, WarningReplacement);
    ReplaceAbsent(content, DebugPattern, DebugReplacement);
    if '\r' !in content {
      ReadTextPlain(content);
    }
  }

  /** The path test in `main`: the logging configuration file and any path naming `logging.py` are skipped. */
  predicate Excluded(path: string)
  {
    Contains(path, "logging.py")
  }

  /** The files that are processed, in the order they were found. */
  function Selected(found: seq<string>): (r: seq<string>)
    ensures forall p :: p in r <==> p in found && !Excluded(p)
    ensures |r| <= |found|
    ensures Distinct(found) ==> Distinct(r)
    decreases |found|
  {
    if |found| == 0 then []
    else if Excluded(found[0]) then Selected(found[1..])
    else [found[0]] + Selected(found[1..])
  }

  predicate Distinct(paths: seq<string>)
  {
    forall i, j :: 0 <= i < j < |paths| ==> paths[i] != paths[j]
  }

  /**
   * After the files of `done` were processed: the same paths, each processed
   * file that could be rewritten migrated once, every other file as it was.
   */
  predicate MigratedWithin(files: map<string, string>, original: map<string, string>, done: seq<string>, failing: set<string>)
  {
    && files.Keys == original.Keys
    && forall p :: p in files ==>
         files[p] == (if p in done && p !in failing then Rewritten(original[p]) else original[p])
  }

  /** Processing one more file not processed before keeps the account of what was done. */
  lemma MigrateStep(files: map<string, string>, original: map<string, string>, done: seq<string>,
                    failing: set<string>, path: string, after: map<string, string>, next: seq<string>)
    requires MigratedWithin(files, original, done, failing) && path !in done && next == done + [path]
    requires Workspace.Rewritable(files, failing, path) ==> after == files[path := Rewritten(files[path])]
    requires !Workspace.Rewritable(files, failing, path) ==> after == files
    ensures Workspace.Rewritable(files, failing, path) == Workspace.Rewritable(original, failing, path)
    ensures MigratedWithin(after, original, next, failing)
  {
  }

  /** The line printed for one file. */
  datatype Report = Updated(path: string) | ErrorUpdating(path: string)

  /** The files under `app/`, by path, with the paths whose read or write raises. */
  class Workspace {
    var files: map<string, string>

    constructor(files: map<string, string>)
      ensures this.files == files
    {
      this.files := files;
    }

    /** A file is rewritten when it exists and neither reading nor writing it raises. */
    static predicate Rewritable(files: map<string, string>, failing: set<string>, path: string)
    {
      path in files && path !in failing
    }

    /**
     * `replace_logging_imports(path)`: read the file in text mode, run the
     * six passes over its text and write the result back; any exception is
     * reported and the file is left as it was.
     */
    method ReplaceLoggingImports(path: string, failing: set<string>) returns (report: Report)
      modifies this
      ensures Rewritable(old(files), failing, path) ==>
                files == old(files)[path := Rewritten(old(files)[path])] && report == Updated(path)
      ensures !Rewritable(old(files), failing, path) ==> files == old(files) && report == ErrorUpdating(path)
    {
      if path !in files || path in failing {
        return ErrorUpdating(path);
      }
      var content := ReadText(files[path]);
      content := ReplaceAll(content, ImportPattern, ImportReplacement);
      content := ReplaceAll(content, LoggerPattern, LoggerReplacement);
      content := ReplaceAll(content, InfoPattern, InfoReplacement);
      content := ReplaceAll(content, ErrorPattern, ErrorReplacement);
      content := ReplaceAll(content, WarningPattern, WarningReplacement);
      content := ReplaceAll(content, DebugPattern, DebugReplacement);
      files := files[path := content];
      report := Updated(path);
    }

    /**
     * `main`: process every selected file in turn, whether or not an earlier
     * one failed, and return the per-file reports and the number of files
     * selected.
     */
    method MigrateAll(found: seq<string>, failing: set<string>) returns (reports: seq<Report>, count: nat)
      requires Distinct(found)
      modifies this
      ensures count == |Selected(found)| && |reports| == count
      ensures forall i :: 0 <= i < count ==>
                reports[i] == (if Rewritable(old(files), failing, Selected(found)[i])
                               then Updated(Selected(found)[i]) else ErrorUpdating(Selected(found)[i]))
      ensures files.Keys == old(files).Keys
      ensures forall p :: p in files ==>
                files[p] == (if p in found && !Excluded(p) && p !in failing then Rewritten(old(files)[p]) else old(files)[p])
      ensures forall p :: p in files && Excluded(p) ==> files[p] == old(files)[p]
    {
      var selected := Selected(found);
      reports := [];
      for i := 0 to |selected|
        invariant |reports| == i
        invariant forall k :: 0 <= k < i ==>
                    reports[k] == (if Rewritable(old(files), failing, selected[k])
                                   then Updated(selected[k]) else ErrorUpdating(selected[k]))
        invariant MigratedWithin(files, old(files), selected[..i], failing)
      {
        var path := selected[i];
        assert path !in selected[..i];
        assert selected[..i + 1] == selected[..i] + [path];
        var before := files;
        var report := ReplaceLoggingImports(path, failing);
        MigrateStep(before, old(files), selected[..i], failing, path, files, selected[..i + 1]);
        var previous := reports;
        reports := reports + [report];
        assert forall k :: 0 <= k < i ==> reports[k] == previous[k];
      }
      assert selected[..|selected|] == selected;
      count := |selected|;
    }
  }
}
