/**
 * The browser's file-name check in uploadFile (static/js/script.js) and how it relates
 * to the server's own check in upload_file (app.py).
 */
module FileIntake {
  import opened Text
  import opened UploadServer

  /** Index of the last dot of `name`, or -1 when it has none. */
  function LastDot(name: string): (i: int)
    ensures -1 <= i < |name|
    ensures i >= 0 ==> name[i] == '.'
    ensures forall k :: i < k < |name| ==> name[k] != '.'
  {
    if name == [] then -1
    else if name[|name| - 1] == '.' then |name| - 1
    else LastDot(name[..|name| - 1])
  }

  /** `name.split('.').pop()`: the text after the last dot, or the whole name when it has none. */
  function LastSegment(name: string): (ext: string)
    ensures '.' !in ext
    ensures EndsWith(name, ext)
    ensures ext == name || name[|name| - |ext| - 1] == '.'
  {
    name[LastDot(name) + 1..]
  }

  /** The browser's rule: the lower-cased last segment is `xlsx` or `csv`. */
  predicate ClientAccepts(name: string)
  {
    LowerExtension(name) == "xlsx" || LowerExtension(name) == "csv"
  }

  /** `name.split('.').pop().toLowerCase()`. */
  function LowerExtension(name: string): string
  {
    ToLower(LastSegment(name))
  }

  /** `name` ends, after a dot or at its very start, with `word` in any mix of letter case. */
  predicate EndsWithSegmentIgnoringCase(name: string, word: string)
  {
    && |word| <= |name|
    && ToLower(name[|name| - |word|..]) == word
    && (|word| == |name| || name[|name| - |word| - 1] == '.')
  }

  /** Any dot-free suffix that is preceded by a dot or is the whole name is the last segment. */
  lemma {:induction false} LastSegmentUnique(name: string, ext: string)
    requires '.' !in ext && EndsWith(name, ext)
    requires ext == name || name[|name| - |ext| - 1] == '.'
    ensures LastSegment(name) == ext
  {
    var p := |name| - |ext| - 1;
    assert LastDot(name) == p;
  }

  lemma {:induction false} ToLowerDotFree(s: string)
    ensures '.' in ToLower(s) <==> '.' in s
  {
    if '.' in ToLower(s) {
      var k :| 0 <= k < |s| && ToLower(s)[k] == '.';
      assert s[k] == '.';
    }
    if '.' in s {
      var k :| 0 <= k < |s| && s[k] == '.';
      assert ToLower(s)[k] == '.';
    }
  }

  /** For a dot-free `word`, the name ends in `word` after a dot (in any case) iff its lower-cased last segment is `word`. */
  lemma {:induction false} SegmentIgnoringCase(name: string, word: string)
    requires '.' !in word
    ensures EndsWithSegmentIgnoringCase(name, word) <==> LowerExtension(name) == word
  {
    var ext := LastSegment(name);
    if EndsWithSegmentIgnoringCase(name, word) {
      var tail := name[|name| - |word|..];
      ToLowerDotFree(tail);
      LastSegmentUnique(name, tail);
    }
    if ToLower(ext) == word {
      assert |ext| == |word|;
    }
  }

  /** The browser accepts exactly the names that end, after a dot or as the whole name, in xlsx or csv in any case. */
  lemma {:induction false} ClientAcceptsIff(name: string)
    ensures ClientAccepts(name) <==>
      EndsWithSegmentIgnoringCase(name, "xlsx") || EndsWithSegmentIgnoringCase(name, "csv")
  {
    assert '.' !in "xlsx" && '.' !in "csv";
    SegmentIgnoringCase(name, "xlsx");
    SegmentIgnoringCase(name, "csv");
  }

  lemma ToLowerOfLower(s: string)
    requires forall k :: 0 <= k < |s| ==> !IsAsciiUpper(s[k])
    ensures ToLower(s) == s
  {
  }

  /** Everything the server accepts, the browser accepts too. */
  lemma {:induction false} ServerAcceptedIsClientAccepted(name: string)
    ensures ServerAccepts(name) ==> ClientAccepts(name)
  {
    if EndsWith(name, ".xlsx") {
      var ext := name[|name| - 4..];
      assert ext == name[|name| - 5..][1..] == "xlsx";
      LastSegmentUnique(name, ext);
      ToLowerOfLower(ext);
    } else if EndsWith(name, ".csv") {
      var ext := name[|name| - 3..];
      assert ext == name[|name| - 4..][1..] == "csv";
      LastSegmentUnique(name, ext);
      ToLowerOfLower(ext);
    }
  }

  /** For a dot-free `word`, the name ends in `.word` iff it has a dot and its last segment is `word`. */
  lemma {:induction false} DotSuffix(name: string, word: string)
    requires '.' !in word
    ensures EndsWith(name, "." + word) <==> '.' in name && LastSegment(name) == word
  {
    if EndsWith(name, "." + word) {
      var tail := name[|name| - |word|..];
      assert tail == name[|name| - |word| - 1..][1..] == word;
      assert name[|name| - |word| - 1] == name[|name| - |word| - 1..][0] == '.';
      LastSegmentUnique(name, tail);
    }
    if '.' in name && LastSegment(name) == word {
      DottedLastSegment(name);
    }
  }

  /** The server accepts exactly the names that contain a dot and whose last segment is exactly xlsx or csv. */
  lemma {:induction false} ServerAcceptsIff(name: string)
    ensures ServerAccepts(name) <==> '.' in name && (LastSegment(name) == "xlsx" || LastSegment(name) == "csv")
  {
    assert '.' !in "xlsx" && '.' !in "csv";
    assert "." + "xlsx" == ".xlsx" && "." + "csv" == ".csv";
    DotSuffix(name, "xlsx");
    DotSuffix(name, "csv");
  }

  /** A name with a dot ends in a dot followed by its last segment. */
  lemma {:induction false} DottedLastSegment(name: string)
    requires '.' in name
    ensures EndsWith(name, "." + LastSegment(name))
  {
    var ext := LastSegment(name);
    assert ext != name;
    var dotted := name[|name| - |ext| - 1..];
    assert |dotted| == |"." + ext|;
    forall k | 0 <= k < |dotted|
      ensures dotted[k] == ("." + ext)[k]
    {
      if k > 0 {
        assert dotted[k] == name[|name| - |ext| - 1 + k] == ext[k - 1];
      }
    }
  }

  /** The two rules disagree on upper-case extensions ... */
  lemma UpperCaseExtensionDisagreement()
    ensures ClientAccepts("DATA.CSV") && !ServerAccepts("DATA.CSV")
  {
    var name := "DATA.CSV";
    LastSegmentUnique(name, "CSV");
    var lower := ToLower("CSV");
    assert lower[0] == 'c' && lower[1] == 's' && lower[2] == 'v';
    assert lower == "csv";
    assert name[4..][1] == 'C';
  }

  /** A name without a dot is its own last segment, and the server refuses it. */
  lemma {:induction false} NameWithoutDot(name: string)
    requires '.' !in name
    ensures LastSegment(name) == name
    ensures !ServerAccepts(name)
  {
    LastSegmentUnique(name, name);
    ServerAcceptsIff(name);
  }

  /** A dot-free name in lower case is its own extension for the browser, and the server refuses it. */
  lemma BareLowerCaseName(name: string)
    requires '.' !in name
    requires forall k :: 0 <= k < |name| ==> !IsAsciiUpper(name[k])
    ensures LowerExtension(name) == name
    ensures !ServerAccepts(name)
  {
    NameWithoutDot(name);
    ToLowerOfLower(name);
  }

  /** ... and on a name that is nothing but the extension, with no dot. */
  lemma DotlessNameDisagreement()
    ensures ClientAccepts("csv") && !ServerAccepts("csv")
  {
    assert '.' !in "csv";
    BareLowerCaseName("csv");
  }

  /** A `.pdf` file is refused by both sides, so the browser sends no request for it. */
  lemma PdfRejected()
    ensures !ClientAccepts("report.pdf") && !ServerAccepts("report.pdf")
  {
    LastSegmentUnique("report.pdf", "pdf");
    ToLowerOfLower("pdf");
    assert "report.pdf"[6..][1] == 'p' && "report.pdf"[5..][0] == 't';
  }
}
