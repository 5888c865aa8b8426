/** What a reader hands back to the operator for `self.report(...)`: a severity
    and a message that names the imported file. */
module Reports {
  import opened PyValues

  datatype Severity = INFO | WARNING | ERROR

  datatype Report = Report(message: string, severity: Severity)

  /** `bpy.path.basename(path)`: the text after the last '/'. (Stripping a
      leading "//" first never changes that text.) */
  function Basename(path: string): (b: string)
    ensures '/' !in b
    ensures |b| <= |path| && path[|path| - |b|..] == b
    ensures |b| < |path| ==> path[|path| - |b| - 1] == '/'
  {
    if path == [] then []
    else if path[|path| - 1] == '/' then []
    else
      var b := Basename(path[..|path| - 1]);
      assert path[..|path| - 1][|path| - 1 - |b|..] == path[|path| - 1 - |b|..|path| - 1];
      b + [path[|path| - 1]]
  }

  /** A path without a '/' is its own basename. */
  lemma BasenameOfPlainName(path: string)
    requires '/' !in path
    ensures Basename(path) == path
  {
  }

  /** `"Imported {n} from \"{file_name}\""`, the JSON and GeoPackage success text:
      it opens with "Imported " and the printed count, and closes with the file
      name in double quotes. */
  function ImportedMessage(n: int, fileName: string): (m: string)
    ensures |m| >= 9 + |ShowInt(n)| + |fileName| + 2
    ensures m[..9] == "Imported "
    ensures m[9..9 + |ShowInt(n)|] == ShowInt(n)
    ensures m[|m| - |fileName| - 2..] == "\"" + fileName + "\""
  {
    var count := ShowInt(n);
    var m := "Imported " + count + " from \"" + fileName + "\"";
    assert m == "Imported " + (count + (" from " + ("\"" + fileName + "\"")));
    m
  }

  /** The count a success text reports reads back as the number of imported items. */
  lemma ImportedCount(n: int, fileName: string)
    ensures IntOfStr(ImportedMessage(n, fileName)[9..9 + |ShowInt(n)|]) == Returned(n)
  {
    IntOfShowInt(n);
  }

  /** The success report of the JSON and GeoPackage readers: always INFO, with
      the success text for the file name of the path. */
  function ImportedReport(n: int, path: string): (r: Report)
    ensures r.severity == INFO
  {
    Report(ImportedMessage(n, Basename(path)), INFO)
  }

  /** The success report's message opens with "Imported " and closes with the
      quoted file name of the path. */
  lemma ImportedReportText(n: int, path: string)
    ensures var m, b := ImportedReport(n, path).message, Basename(path);
      |m| >= 9 + |b| + 2 && m[..9] == "Imported " && m[|m| - |b| - 2..] == "\"" + b + "\""
  {
    var b := Basename(path);
    var m := ImportedMessage(n, b);
    assert ImportedReport(n, path).message == m;
  }
}
