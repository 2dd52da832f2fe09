/**
 * The validation branches of the `/upload` handler (app.py, upload_file). Reading the
 * file is a parameter: it yields the parsed frame or the text of the exception it raised.
 */
module UploadServer {
  import opened Wrappers
  import opened Text
  import opened ColumnTypes

  /** One part of a multipart request: the client's file name and the bytes sent. */
  datatype FilePart = FilePart(filename: string, content: seq<bv8>)

  /** The request's file parts, by form field name. */
  datatype Request = Request(files: map<string, FilePart>)

  /** Which pandas reader the handler calls. */
  datatype Reader = Excel | Csv

  /** The JSON object the handler answers with (the `data` records are not modelled). */
  datatype Response =
    | Error(error: string)
    | Processed(columns: seq<string>, columnTypes: map<string, Tag>, message: string)

  const NoFilePart: string := "No file part"
  const NoSelectedFile: string := "No selected file"
  const NotSupported: string := "File type not supported. Please upload .xlsx or .csv files."
  const ProcessedMessage: string := "File successfully processed"

  /** The server's extension rule: a case-sensitive `.xlsx` or `.csv` suffix. */
  predicate ServerAccepts(filename: string)
  {
    EndsWith(filename, ".xlsx") || EndsWith(filename, ".csv")
  }

  function ReaderFor(filename: string): (reader: Reader)
  {
    if EndsWith(filename, ".xlsx") then Excel else Csv
  }

  /** An accepted `.xlsx` name goes to the Excel reader, an accepted `.csv` name to the CSV reader. */
  lemma ReaderChoice(filename: string)
    requires ServerAccepts(filename)
    ensures ReaderFor(filename) == Excel <==> EndsWith(filename, ".xlsx")
    ensures ReaderFor(filename) == Csv <==> EndsWith(filename, ".csv")
  {
    var last := filename[|filename| - 1];
    assert EndsWith(filename, ".xlsx") ==> last == 'x' by {
      if EndsWith(filename, ".xlsx") { assert filename[|filename| - 5..][4] == last; }
    }
    assert EndsWith(filename, ".csv") ==> last == 'v' by {
      if EndsWith(filename, ".csv") { assert filename[|filename| - 4..][3] == last; }
    }
  }

  /** The readers de-duplicate repeated headers, so every frame they return has distinct labels. */
  ghost predicate ReadersDeduplicate(read: (Reader, FilePart) -> Result<Frame, string>)
  {
    forall reader, part :: read(reader, part).Success? ==> DistinctNames(read(reader, part).value)
  }

  /** The success response for a frame: its column labels and one tag per column. */
  predicate DescribesFrame(response: Response, frame: Frame, isNumeric: Column -> bool, isDate: Column -> bool)
  {
    && response.Processed?
    && response.columns == Names(frame.columns)
    && response.columnTypes.Keys == (set c | c in frame.columns :: c.name)
    && (forall i :: 0 <= i < |frame.columns| ==>
          response.columnTypes[frame.columns[i].name] == Classify(frame.columns[i], isNumeric, isDate))
    && response.message == ProcessedMessage
  }

  /**
   * upload_file. The `file and ...` test in upload_file is always true at that point: a
   * werkzeug file part is truthy exactly when its file name is non-empty, which the previous
   * branch has established. Any exception raised while reading becomes an error response.
   */
  method UploadFile(
    request: Request,
    read: (Reader, FilePart) -> Result<Frame, string>,
    isNumeric: Column -> bool,
    isDate: Column -> bool)
    returns (response: Response)
    requires ReadersDeduplicate(read)
    ensures "file" !in request.files ==> response == Error(NoFilePart)
    ensures "file" in request.files ==>
      var part := request.files["file"];
      if part.filename == "" then
        response == Error(NoSelectedFile)
      else if !ServerAccepts(part.filename) then
        response == Error(NotSupported)
      else
        match read(ReaderFor(part.filename), part)
        case Failure(e) => response == Error(e)
        case Success(frame) => DescribesFrame(response, frame, isNumeric, isDate)
  {
    if "file" !in request.files {
      return Error(NoFilePart);
    }
    var part := request.files["file"];
    if part.filename == "" {
      return Error(NoSelectedFile);
    }
    if ServerAccepts(part.filename) {
      var reader := ReaderFor(part.filename);
      match read(reader, part)
      case Failure(e) =>
        return Error(e);
      case Success(frame) =>
        var types := IdentifyColumnTypes(frame, isNumeric, isDate);
        return Processed(Names(frame.columns), types, ProcessedMessage);
    }
    return Error(NotSupported);
  }
}
