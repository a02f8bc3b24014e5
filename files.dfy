/**
 * Which uploaded files the bot accepts: the extension of a bank statement
 * file (`BankStatementFile.extension`, `is_supported`), the service's
 * quick name check (`FileProcessingService.is_supported_file`, identical
 * in both service modules) and the guard at the top of `process_file`.
 */
module Files {
  import opened Common

  /** `SUPPORTED_EXTENSIONS`. */
  const SupportedExtensions: set<string> := {"csv", "xlsx"}

  /** The message of the `ValueError` raised for any other extension. */
  const UnsupportedFormat: string := "Unsupported file format"

  /** An uploaded statement: its name and its raw bytes. */
  datatype BankStatementFile = BankStatementFile(filename: string, content: seq<bv8>)

  /** `s.split('.')[-1]`: the longest suffix of `s` free of '.', which is
      all of `s` when `s` has no '.'. */
  function AfterLastDot(s: string): (r: string)
    ensures '.' !in r
    ensures |r| <= |s| && r == s[|s| - |r|..]
    ensures |r| < |s| ==> s[|s| - |r| - 1] == '.'
    ensures '.' !in s ==> r == s
  {
    if s == [] then []
    else if s[|s| - 1] == '.' then []
    else AfterLastDot(s[..|s| - 1]) + [s[|s| - 1]]
  }

  /** `extension`: the text after the last '.', lower-cased. */
  function Extension(filename: string): (r: string)
    ensures '.' !in r
    ensures Lower(r) == r
  {
    var r := Lower(AfterLastDot(filename));
    forall i | 0 <= i < |r|
      ensures LowerChar(r[i]) == r[i]
    {
      LowerCharIdempotent(AfterLastDot(filename)[i]);
    }
    r
  }

  /** `is_supported`. */
  predicate IsSupported(filename: string) {
    Extension(filename) in SupportedExtensions
  }

  /** `is_supported_file`: an empty name or a name without '.' is refused
      before the extension is looked at. */
  predicate IsSupportedFile(filename: string) {
    if filename == [] || '.' !in filename then false
    else Extension(filename) in SupportedExtensions
  }

  /** `process_file`: the file is built from the name and the bytes; an
      unsupported extension raises before anything else happens, otherwise
      `run` (the pipeline over the content, or the backend upload) gives
      the response. */
  function ProcessFile<R>(filename: string, content: seq<bv8>, run: BankStatementFile -> R): (r: Result<R>)
    ensures r.Err? <==> !IsSupported(filename)
    ensures r.Err? ==> r.error == UnsupportedFormat
    ensures r.Ok? ==> r.value == run(BankStatementFile(filename, content))
  {
    var file := BankStatementFile(filename, content);
    if !IsSupported(file.filename) then Err(UnsupportedFormat)
    else Ok(run(file))
  }

  // ---------------------------------------------------------------------
  // Properties
  // ---------------------------------------------------------------------

  /** `split` finds the same last '.' in the lower-cased name. */
  lemma AfterLastDotOfLower(s: string)
    ensures AfterLastDot(Lower(s)) == Lower(AfterLastDot(s))
  {
    var t := Lower(s);
    forall i | 0 <= i < |s|
      ensures s[i] == '.' <==> t[i] == '.'
    {
      LowerCharDot(s[i]);
    }
    SameDots(s, t);
    var n := |AfterLastDot(s)|;
    assert Lower(s[|s| - n..]) == t[|s| - n..];
  }

  /** Two names with their dots in the same places have extensions of the
      same length. */
  lemma {:induction false} SameDots(s: string, t: string)
    requires |s| == |t| && forall i :: 0 <= i < |s| ==> (s[i] == '.' <==> t[i] == '.')
    ensures |AfterLastDot(s)| == |AfterLastDot(t)|
    decreases |s|
  {
    if s != [] {
      SameDots(s[..|s| - 1], t[..|t| - 1]);
    }
  }

  lemma LowerCharDot(x: char)
    ensures LowerChar(x) == '.' <==> x == '.'
  {
  }

  /** The check ignores the case of the whole name. */
  lemma ExtensionIgnoresCase(filename: string)
    ensures Extension(Lower(filename)) == Extension(filename)
    ensures IsSupported(Lower(filename)) <==> IsSupported(filename)
  {
    AfterLastDotOfLower(filename);
  }

  /** An upper-case extension is accepted by both checks. */
  lemma UpperCaseExtensionAccepted()
    ensures IsSupported("STATEMENT.XLSX") && IsSupportedFile("STATEMENT.XLSX")
  {
    assert AfterLastDot("STATEMENT.XLSX") == "XLSX";
    assert Lower("XLSX") == "xlsx";
  }

  /** A name ending in '.' has an empty extension and is refused by both
      checks. */
  lemma TrailingDotRejected(filename: string)
    requires |filename| > 0 && filename[|filename| - 1] == '.'
    ensures Extension(filename) == ""
    ensures !IsSupported(filename) && !IsSupportedFile(filename)
  {
  }

  /** A name without '.' is its own extension: `is_supported` accepts the
      bare name "csv", `is_supported_file` never accepts such a name. */
  lemma DotFreeName(filename: string)
    requires '.' !in filename
    ensures Extension(filename) == Lower(filename)
    ensures !IsSupportedFile(filename)
    ensures IsSupported(filename) <==> Lower(filename) in SupportedExtensions
  {
  }

  lemma BareExtensionAcceptedByFileOnly()
    ensures IsSupported("csv") && !IsSupportedFile("csv")
  {
    DotFreeName("csv");
    assert Lower("csv") == "csv";
  }

  /** The service's check is the file's check restricted to names that
      hold a '.': whatever it accepts, the file accepts, and `process_file`
      goes past its guard. */
  lemma ServiceCheckRefinesFileCheck(filename: string, content: seq<bv8>, run: BankStatementFile -> int)
    ensures IsSupportedFile(filename) <==> '.' in filename && IsSupported(filename)
    ensures IsSupportedFile(filename) ==> ProcessFile(filename, content, run).Ok?
  {
  }
}
