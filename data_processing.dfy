/** Uploading a dataset: the uploaded file is read according to its content type (a CSV
    file directly, a ZIP archive through its first CSV member) and, only when reading
    succeeds, the module-global dataset is replaced by the new table. The CSV reader and the
    archive reader are library code; they are parameters here and may fail. */
module DataProcessing {
  import opened Common
  import opened Exceptions
  import opened Tables
  import opened ExceptionHandler

  type Bytes = seq<bv8>

  /** An `UploadFile`: its declared content type (possibly absent) and its bytes. */
  datatype Upload = Upload(contentType: Option<string>, content: Bytes)

  /** An opened archive: its entries, name and bytes, in the archive's order. */
  datatype Archive = Archive(entries: seq<(string, Bytes)>)

  /** `pd.read_csv(bytes, sep=separator, header=header)` */
  type CsvReader = (Bytes, string, int) -> Result<Table, Raised>

  /** `zipfile.ZipFile(bytes)`; a corrupt archive raises `BadZipFile`. */
  type ZipReader = Bytes -> Result<Archive, Raised>

  const ZipType := "application/zip"
  const CsvType := "text/csv"
  const ExcelCsvType := "application/vnd.ms-excel"
  const CsvSuffix := ".csv"
  const NoCsvMessage := "No CSV file found in the zip archive."
  const UnsupportedPrefix := "Unsupported file type: "
  const UnsupportedSuffix := ". Please upload a CSV or a ZIP file containing a CSV."
  const DefaultSeparator := ","
  const DefaultHeader := 0
  /** `df.head()` shows five rows. */
  const PreviewRows := 5

  /** `ZipFile.namelist()` */
  function Namelist(a: Archive): (names: seq<string>)
    ensures |names| == |a.entries|
    ensures forall i :: 0 <= i < |names| ==> names[i] == a.entries[i].0
  {
    seq(|a.entries|, i requires 0 <= i < |a.entries| => a.entries[i].0)
  }

  /** `ZipFile.open(name)`: the last entry stored under that name wins, as in the name table
      `zipfile` builds. */
  function Open(entries: seq<(string, Bytes)>, name: string): (content: Bytes)
    ensures (exists k :: 0 <= k < |entries| && entries[k].0 == name) ==>
      exists k :: 0 <= k < |entries| && entries[k] == (name, content) &&
        forall j :: k < j < |entries| ==> entries[j].0 != name
  {
    if entries == [] then []
    else if entries[|entries| - 1].0 == name then entries[|entries| - 1].1
    else Open(entries[..|entries| - 1], name)
  }

  /** The position of the first name ending in `.csv`, the suffix compared case-sensitively. */
  function FirstCsvIndex(names: seq<string>): (r: Option<nat>)
    ensures r.Some? ==> r.value < |names| && EndsWith(names[r.value], CsvSuffix)
    ensures r.Some? ==> forall j :: 0 <= j < r.value ==> !EndsWith(names[j], CsvSuffix)
    ensures r.None? <==> forall j :: 0 <= j < |names| ==> !EndsWith(names[j], CsvSuffix)
  {
    if names == [] then None
    else if EndsWith(names[0], CsvSuffix) then Some(0)
    else
      match FirstCsvIndex(names[1..])
      case None => None
      case Some(i) => Some(i + 1)
  }

  /** `next((name for name in names if name.endswith('.csv')), None)` */
  function FirstCsvName(names: seq<string>): Option<string>
  {
    match FirstCsvIndex(names)
    case None => None
    case Some(i) => Some(names[i])
  }

  /** `DataHandler._load_zip`: the first CSV member of the archive, read as CSV. */
  function LoadZip(content: Bytes, separator: string, header: int, readCsv: CsvReader, readZip: ZipReader): Result<Table, Raised>
  {
    match readZip(content)
    case Err(e) => Err(e)
    case Ok(archive) =>
      match FirstCsvName(Namelist(archive))
      case None => Err(FileNotFoundWithText(NoCsvMessage))
      case Some(name) => readCsv(Open(archive.entries, name), separator, header)
  }

  /** The content type as the f-string renders it; an absent one prints as `None`. */
  function TypeText(contentType: Option<string>): string
  {
    match contentType
    case None => "None"
    case Some(t) => t
  }

  function UnsupportedMessage(contentType: Option<string>): string
  {
    UnsupportedPrefix + TypeText(contentType) + UnsupportedSuffix
  }

  predicate IsCsvType(contentType: Option<string>)
  {
    contentType == Some(CsvType) || contentType == Some(ExcelCsvType)
  }

  /** What `load_csv` reads from an upload, or what it raises. */
  function Load(upload: Upload, separator: string, header: int, readCsv: CsvReader, readZip: ZipReader): Result<Table, Raised>
  {
    if upload.contentType == Some(ZipType) then LoadZip(upload.content, separator, header, readCsv, readZip)
    else if IsCsvType(upload.contentType) then readCsv(upload.content, separator, header)
    else Err(App(Make(WrongFileType, Some(UnsupportedMessage(upload.contentType)))))
  }

  /** The module-global dataset that `get_dataframe` returns. */
  class DatasetHolder {
    var df: Option<Table>

    constructor()
      ensures df == None
    {
      df := None;
    }

    /** `DataHandler.load_csv`: on success the held dataset becomes exactly the new table and
        the answer is its first rows; on any failure the held dataset is left as it was. */
    method LoadCsv(upload: Upload, separator: string, header: int, readCsv: CsvReader, readZip: ZipReader)
      returns (preview: Result<Table, Raised>)
      modifies this
      ensures var loaded := Load(upload, separator, header, readCsv, readZip);
        && (loaded.Ok? ==> df == Some(loaded.value) && preview == Ok(Head(loaded.value, PreviewRows)))
        && (loaded.Err? ==> df == old(df) && preview == Err(loaded.error))
    {
      var loaded := Load(upload, separator, header, readCsv, readZip);
      match loaded
      case Err(e) =>
        preview := Err(e);
      case Ok(t) =>
        df := Some(t);
        preview := Ok(Head(t, PreviewRows));
    }
  }

  /** An unsupported content type raises `WrongFileTypeError` with a message naming that type. */
  lemma UnsupportedTypeNamed(upload: Upload, separator: string, header: int, readCsv: CsvReader, readZip: ZipReader)
    requires upload.contentType != Some(ZipType) && !IsCsvType(upload.contentType)
    ensures var loaded := Load(upload, separator, header, readCsv, readZip);
      loaded.Err? && loaded.error.App? && loaded.error.err.kind == WrongFileType &&
      Contains(loaded.error.err.msg, TypeText(upload.contentType))
  {
    ContainsWithin(UnsupportedPrefix, TypeText(upload.contentType), UnsupportedSuffix);
  }

  /** Only `application/zip` opens an archive, and the two CSV types are read directly: the
      outcome of any other upload does not depend on the archive reader. */
  lemma OnlyZipOpensArchive(upload: Upload, separator: string, header: int, readCsv: CsvReader, z1: ZipReader, z2: ZipReader)
    requires upload.contentType != Some(ZipType)
    ensures Load(upload, separator, header, readCsv, z1) == Load(upload, separator, header, readCsv, z2)
    ensures IsCsvType(upload.contentType) ==> Load(upload, separator, header, readCsv, z1) == readCsv(upload.content, separator, header)
  {
  }

  /** The member read from an archive is the first `.csv` name in archive order. */
  lemma ArchiveReadsFirstCsv(content: Bytes, separator: string, header: int, readCsv: CsvReader, readZip: ZipReader, archive: Archive, i: nat)
    requires readZip(content) == Ok(archive)
    requires i < |archive.entries| && EndsWith(archive.entries[i].0, CsvSuffix)
    requires forall j :: 0 <= j < i ==> !EndsWith(archive.entries[j].0, CsvSuffix)
    ensures LoadZip(content, separator, header, readCsv, readZip) ==
            readCsv(Open(archive.entries, archive.entries[i].0), separator, header)
  {
    var names := Namelist(archive);
    assert names[i] == archive.entries[i].0;
  }

  /** An archive without a `.csv` member raises `FileNotFoundError` with only a message. */
  lemma ArchiveWithoutCsv(content: Bytes, separator: string, header: int, readCsv: CsvReader, readZip: ZipReader, archive: Archive)
    requires readZip(content) == Ok(archive)
    requires forall j :: 0 <= j < |archive.entries| ==> !EndsWith(archive.entries[j].0, CsvSuffix)
    ensures LoadZip(content, separator, header, readCsv, readZip) == Err(FileNotFound(None, NoCsvMessage))
  {
    assert FirstCsvIndex(Namelist(archive)).None?;
  }

  /** The archive error reaches the client as a 400 answer with a `null` body, because the
      single-argument `FileNotFoundError` leaves `strerror` unset. */
  lemma ArchiveWithoutCsvAnswersNull()
    ensures Dispatch(Threw(FileNotFoundWithText(NoCsvMessage))) == Respond(JSONResponse(BadRequest, None))
  {
  }
}
