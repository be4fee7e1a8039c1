/**
 * The file-parser entry point: which parser a file goes to, by its extension and MIME type,
 * and where a local file is looked for. The parsers themselves (PDF text, spreadsheet cells)
 * are outside the model; a parsed file is represented by the parser that handles it.
 */
module Parsers {
  import opened Wrappers
  import opened Strings
  import opened Utils

  /**
   * The extension `parseFile` dispatches on: the lower-cased last '.'-segment of the name,
   * which is the whole name when it has no '.'.
   */
  function ParseExtension(fileName: string): (ext: string)
    ensures '.' !in ext
    ensures '.' in fileName ==> ext == FileExtension(fileName)
    ensures '.' !in fileName ==> ext == Lower(fileName)
  {
    var last := AfterLast(fileName, '.');
    LowerKeepsDots(last);
    Lower(last)
  }

  const SpreadsheetExtensions: seq<string> := ["xls", "xlsx", "csv"]
  const ImageExtensions: seq<string> := ["jpg", "jpeg", "png", "gif", "bmp", "tiff", "webp"]
  const WordExtensions: seq<string> := ["doc", "docx"]

  predicate PdfLike(ext: string, mimeType: string) {
    ext == "pdf" || Contains(mimeType, "pdf")
  }

  predicate SpreadsheetLike(ext: string, mimeType: string) {
    ext in SpreadsheetExtensions || Contains(mimeType, "sheet") || Contains(mimeType, "excel")
  }

  predicate ImageLike(ext: string, mimeType: string) {
    ext in ImageExtensions || StartsWith(mimeType, "image/")
  }

  predicate WordLike(ext: string, mimeType: string) {
    ext in WordExtensions || Contains(mimeType, "word") || Contains(mimeType, "document")
  }

  /**
   * What `parseFile` returns, by parser: the PDF and spreadsheet parsers' output is not
   * modelled; images, Word documents and unknown files give a notice with the byte count.
   */
  datatype Parsed = PdfText | SheetText | ImageNotice(text: string) | WordNotice(text: string) | FileNotice(text: string)

  /** `parseFile` on a buffer of `size` bytes: the first of PDF, spreadsheet, image and Word that fits, else a notice. */
  function ParseFile(size: nat, mimeType: string, fileName: string): (p: Parsed)
    ensures var ext := ParseExtension(fileName);
      && (p.PdfText? <==> PdfLike(ext, mimeType))
      && (p.SheetText? <==> !PdfLike(ext, mimeType) && SpreadsheetLike(ext, mimeType))
      && (p.ImageNotice? <==> !PdfLike(ext, mimeType) && !SpreadsheetLike(ext, mimeType) && ImageLike(ext, mimeType))
      && (p.WordNotice? <==>
            !PdfLike(ext, mimeType) && !SpreadsheetLike(ext, mimeType) && !ImageLike(ext, mimeType) && WordLike(ext, mimeType))
      && (p.FileNotice? ==> p.text == FallbackNotice(size, mimeType, fileName))
  {
    var ext := ParseExtension(fileName);
    if PdfLike(ext, mimeType) then PdfText
    else if SpreadsheetLike(ext, mimeType) then SheetText
    else if ImageLike(ext, mimeType) then
      ImageNotice("[图片文件 - " + NatToString(size) + " bytes]\n注意：图片 OCR 功能需要配置 OCR 服务（如阿里云 OCR）")
    else if WordLike(ext, mimeType) then
      WordNotice("[Word 文档 - " + NatToString(size) + " bytes]\n注意：Word 解析功能需要安装 mammoth 库")
    else FileNotice(FallbackNotice(size, mimeType, fileName))
  }

  /** The notice for a file no parser takes. */
  function FallbackNotice(size: nat, mimeType: string, fileName: string): string {
    "[文件: " + fileName + ", 类型: " + mimeType + ", 大小: " + NatToString(size) + " bytes]"
  }

  /** The notice names the file and its MIME type. */
  lemma FallbackNoticeNamesFile(size: nat, mimeType: string, fileName: string)
    ensures Contains(FallbackNotice(size, mimeType, fileName), fileName)
    ensures Contains(FallbackNotice(size, mimeType, fileName), mimeType)
  {
    var head := "[文件: ";
    var mid := ", 类型: ";
    var text := FallbackNotice(size, mimeType, fileName);
    assert text == head + fileName + mid + mimeType + ", 大小: " + NatToString(size) + " bytes]";
    assert text[|head|..|head| + |fileName|] == fileName;
    ContainsAt(text, fileName, |head|);
    var at := |head| + |fileName| + |mid|;
    assert text[at..at + |mimeType|] == mimeType;
    ContainsAt(text, mimeType, at);
  }

  /** A CSV file, whatever the case of its extension, goes to the spreadsheet parser unless its MIME type names PDF. */
  lemma CsvGoesToSpreadsheetParser(size: nat, mimeType: string, base: string, ext: string)
    requires Lower(ext) == "csv" && !Contains(mimeType, "pdf")
    ensures ParseFile(size, mimeType, base + "." + ext) == SheetText
  {
    FileExtensionOf(base, ext);
    assert '.' in base + "." + ext by {
      assert (base + "." + ext)[|base|] == '.';
    }
  }

  /** A MIME type naming PDF wins over any extension. */
  lemma PdfMimeWins(size: nat, mimeType: string, fileName: string)
    requires Contains(mimeType, "pdf")
    ensures ParseFile(size, mimeType, fileName) == PdfText
  {
  }

  /** A name without '.' is read as its own extension: a file called "PDF" goes to the PDF parser. */
  lemma BareNameIsItsOwnExtension(size: nat, mimeType: string)
    ensures ParseFile(size, mimeType, "PDF") == PdfText
  {
    assert Lower("PDF") == "pdf";
  }

  // ---- locating a local file ----

  const UploadsRoot := "/root/guanwu-uploads"
  const StandalonePublic := "/root/guanwu-system/.next/standalone/guanwu-system/public"
  const SourcePublic := "/root/guanwu-system/public"

  /** The six places `parseFromLocalPath` looks, in order; `cwd` is the process's working directory. */
  function CandidatePaths(filePath: string, cwd: string): (paths: seq<string>)
    ensures |paths| == 6 && paths[0] == filePath
  {
    [ filePath,
      UploadsRoot + filePath,
      UploadsRoot + ReplaceFirst(filePath, "/uploads/", "/"),
      StandalonePublic + filePath,
      SourcePublic + filePath,
      cwd + "/public" + filePath ]
  }

  /** A path under /uploads/ is also looked for in the persistent directory without that prefix. */
  lemma UploadsPrefixDropped(rest: string, cwd: string)
    ensures CandidatePaths("/uploads/" + rest, cwd)[2] == UploadsRoot + "/" + rest
  {
    var p := "/uploads/" + rest;
    assert StartsWith(p, "/uploads/");
    assert IndexOfText(p, "/uploads/") == 0;
    assert p[9..] == rest;
  }

  /** The index of the first path that can be read, if any. */
  function FirstExisting(paths: seq<string>, readable: string -> bool): (r: Option<nat>)
    ensures r.None? <==> forall i :: 0 <= i < |paths| ==> !readable(paths[i])
    ensures r.Some? ==>
      r.value < |paths| && readable(paths[r.value]) && forall j :: 0 <= j < r.value ==> !readable(paths[j])
  {
    if |paths| == 0 then None
    else if readable(paths[0]) then Some(0)
    else
      match FirstExisting(paths[1..], readable)
      case None => None
      case Some(k) => Some(k + 1)
  }

  /** The existing file is always preferred at the path given. */
  lemma GivenPathPreferred(filePath: string, cwd: string, readable: string -> bool)
    requires readable(filePath)
    ensures FirstExisting(CandidatePaths(filePath, cwd), readable) == Some(0)
  {
  }

  const NotFoundPrefix := "文件未找到，尝试过的路径: "

  /**
   * The search loop of `parseFromLocalPath`: the first candidate that exists and reads,
   * else the error listing all six. `readable` stands for the existence check and read,
   * a path whose read throws counting as absent.
   */
  method FindLocalFile(filePath: string, cwd: string, readable: string -> bool) returns (r: Result<string, string>)
    ensures var paths := CandidatePaths(filePath, cwd);
      match FirstExisting(paths, readable)
      case Some(i) => r == Ok(paths[i])
      case None => r == Err(NotFoundPrefix + Join(paths, ", "))
  {
    var possiblePaths := CandidatePaths(filePath, cwd);
    var found := false;
    var actualPath := "";
    var i := 0;
    while i < |possiblePaths|
      invariant 0 <= i <= |possiblePaths|
      invariant forall j :: 0 <= j < i ==> !readable(possiblePaths[j])
      invariant !found
    {
      var tryPath := possiblePaths[i];
      if readable(tryPath) {
        found := true;
        actualPath := tryPath;
        break;
      }
      i := i + 1;
    }
    if !found {
      return Err(NotFoundPrefix + Join(possiblePaths, ", "));
    }
    return Ok(actualPath);
  }

  /** `parseFromLocalPath`: the file found, parsed by name and MIME type; `sizeOf` gives its byte count. */
  method ParseFromLocalPath(filePath: string, cwd: string, mimeType: string, fileName: string,
                            readable: string -> bool, sizeOf: string -> nat)
    returns (r: Result<Parsed, string>)
    ensures r.Err? <==> forall i :: 0 <= i < 6 ==> !readable(CandidatePaths(filePath, cwd)[i])
    ensures r.Ok? ==>
      (exists i ::
         && 0 <= i < 6
         && FirstExisting(CandidatePaths(filePath, cwd), readable) == Some(i)
         && r.value == ParseFile(sizeOf(CandidatePaths(filePath, cwd)[i]), mimeType, fileName))
  {
    var found := FindLocalFile(filePath, cwd, readable);
    if found.Err? {
      return Err(found.error);
    }
    var path := found.value;
    return Ok(ParseFile(sizeOf(path), mimeType, fileName));
  }
}
