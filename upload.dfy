/**
 * The decisions of the upload endpoint: the order of its request checks, the extension
 * it checks, and the document type it records, from the form field or from the name.
 */
module Upload {
  import opened Wrappers
  import opened Strings
  import opened Utils

  datatype FileType = BillOfLading | Invoice | PackingList | Contract | Certificate | Other

  /** The tests of `inferFileType`, in source order. */
  const InferRules: seq<Rule<FileType>> := [
    Rule(["bill", "提单", "b/l"], BillOfLading),
    Rule(["invoice", "发票", "inv"], Invoice),
    Rule(["packing", "装箱单", "pl"], PackingList),
    Rule(["contract", "合同", "ct"], Contract),
    Rule(["certificate", "原产地证"], Certificate)
  ]

  /** `inferFileType`: the type of the first group with a substring of the lower-cased name, else Other. */
  function InferFileType(fileName: string): (t: FileType)
    ensures t == Other <==> FirstRule(InferRules, Lower(fileName)) == -1
    ensures t != Other ==> t == InferRules[FirstRule(InferRules, Lower(fileName))].target
  {
    var i := FirstRule(InferRules, Lower(fileName));
    if i == -1 then Other else InferRules[i].target
  }

  /** A lower-cased name with a keyword of the `i`-th group and none of the earlier ones gets that group's type. */
  lemma InferredFromGroup(n: string, i: nat)
    requires Lower(n) == n && i < |InferRules|
    requires MatchesAny(n, InferRules[i].keywords)
    requires forall j :: 0 <= j < i ==> !MatchesAny(n, InferRules[j].keywords)
    ensures InferFileType(n) == InferRules[i].target
  {
    FirstRuleIs(InferRules, n, i);
  }

  /** The two-letter groups catch ordinary words: "apple" holds "pl", so an apple price list is a packing list. */
  lemma AppleIsPackingList()
    ensures InferFileType("apple.pdf") == PackingList
  {
    ApplePieces("apple.pdf");
  }

  lemma ApplePieces(n: string)
    requires n == "apple.pdf"
    ensures InferFileType(n) == PackingList
  {
    AppleIsLowerCase(n);
    AppleMissesBillOfLading(n);
    AppleMissesInvoice(n);
    ContainsAt(n, "pl", 2);
    assert "pl" in InferRules[2].keywords;
    InferredFromGroup(n, 2);
  }

  lemma AppleIsLowerCase(n: string)
    requires n == "apple.pdf"
    ensures Lower(n) == n
  {
  }

  lemma AppleMissesBillOfLading(n: string)
    requires n == "apple.pdf"
    ensures !MatchesAny(n, InferRules[0].keywords)
  {
    MissingCharExcludes(n, "bill", 'b');
    MissingCharExcludes(n, "提单", '提');
    MissingCharExcludes(n, "b/l", 'b');
  }

  lemma AppleMissesInvoice(n: string)
    requires n == "apple.pdf"
    ensures !MatchesAny(n, InferRules[1].keywords)
  {
    MissingCharExcludes(n, "invoice", 'i');
    MissingCharExcludes(n, "发票", '发');
    MissingCharExcludes(n, "inv", 'i');
  }

  /** `FILE_TYPE_MAP`: the form's Chinese type names. */
  const FileTypeMap: map<string, FileType> := map[
    "提单" := BillOfLading,
    "发票" := Invoice,
    "装箱单" := PackingList,
    "合同" := Contract,
    "原产地证" := Certificate,
    "保险单" := Other,
    "3C证书" := Other,
    "入库单" := Other,
    "出境备案清单" := Other,
    "许可证" := Other,
    "核注清单" := Other,
    "手册" := Other,
    "加工贸易合同" := Other,
    "报关单" := Other,
    "进境备案清单" := Other,
    "出口退税联" := Other,
    "转仓单" := Other,
    "出口核注清单" := Other,
    "进口保税核注清单" := Other,
    "检验检疫证书" := Other
  ]

  /** The recorded type: the form's `fileType` when it is a name of the table, else inferred from the file name. */
  function SelectFileType(fileTypeParam: Option<string>, fileName: string): (t: FileType)
    ensures fileTypeParam.Some? && fileTypeParam.value in FileTypeMap ==> t == FileTypeMap[fileTypeParam.value]
    ensures !(fileTypeParam.Some? && fileTypeParam.value in FileTypeMap) ==> t == InferFileType(fileName)
  {
    if fileTypeParam.Some? && fileTypeParam.value != "" && fileTypeParam.value in FileTypeMap then
      FileTypeMap[fileTypeParam.value]
    else InferFileType(fileName)
  }

  /** The extension the route checks: '.' and the lower-cased last '.'-segment, the whole name when it has no '.'. */
  function UploadExtension(fileName: string): (ext: string)
    ensures |ext| > 0 && ext[0] == '.'
    ensures '.' !in fileName ==> ext == "." + Lower(fileName)
  {
    "." + Lower(AfterLast(fileName, '.'))
  }

  /** On a name with a '.', the route and `validateFile` look at the same extension; on a bare name they differ. */
  lemma UploadExtensionAgrees(fileName: string)
    ensures '.' in fileName ==> UploadExtension(fileName) == "." + FileExtension(fileName)
    ensures UploadExtension("pdf") in AcceptedFileTypes && !ValidateFile(0, "pdf").valid
  {
    assert "." + FileExtension("pdf") == ".";
    assert UploadExtension("pdf") == ".pdf";
  }

  /** The limit as the error message renders it. */
  lemma SizeLimitText()
    ensures NatToString(MaxFileSize / 1024 / 1024) == "50"
  {
    assert MaxFileSize / 1024 / 1024 == 50;
    assert NatToString(5) == "5";
  }

  datatype UploadedFile = UploadedFile(name: string, size: nat)

  /** The form fields the route reads. */
  datatype UploadForm = UploadForm(file: Option<UploadedFile>, taskId: Option<string>, fileType: Option<string>)

  /** The route's answer: an error response, or the extension and type of a file it goes on to store. */
  datatype Decision = Reject(status: nat, error: string) | Accept(extension: string, fileType: FileType)

  /** The request checks of the upload route, in order; `taskExists` stands for the database lookup. */
  function CheckUpload(form: UploadForm, taskExists: string -> bool): (d: Decision)
    ensures form.file.None? <==> d == Reject(400, "未选择文件")
    ensures d == Reject(400, "缺少任务ID") <==> form.file.Some? && (form.taskId.None? || form.taskId.value == "")
    ensures d == Reject(404, "任务不存在") <==>
      form.file.Some? && form.taskId.Some? && form.taskId.value != "" && !taskExists(form.taskId.value)
    ensures d == Reject(400, "文件大小超过限制（最大 50MB）") <==>
      (&& form.file.Some? && form.taskId.Some? && form.taskId.value != "" && taskExists(form.taskId.value)
       && form.file.value.size > MaxFileSize)
    ensures d.Accept? <==>
      (&& form.file.Some? && form.taskId.Some? && form.taskId.value != "" && taskExists(form.taskId.value)
       && form.file.value.size <= MaxFileSize && UploadExtension(form.file.value.name) in AcceptedFileTypes)
    ensures d.Accept? ==> d == Accept(UploadExtension(form.file.value.name), SelectFileType(form.fileType, form.file.value.name))
    ensures (&& form.file.Some? && form.taskId.Some? && form.taskId.value != "" && taskExists(form.taskId.value)
             && form.file.value.size <= MaxFileSize && UploadExtension(form.file.value.name) !in AcceptedFileTypes) ==>
      d == Reject(400, "不支持的文件类型：" + UploadExtension(form.file.value.name))
  {
    if form.file.None? then Reject(400, "未选择文件")
    else if form.taskId.None? || form.taskId.value == "" then Reject(400, "缺少任务ID")
    else if !taskExists(form.taskId.value) then Reject(404, "任务不存在")
    else if form.file.value.size > MaxFileSize then
      SizeLimitText();
      assert "文件大小超过限制（最大 " + "50" + "MB）" == "文件大小超过限制（最大 50MB）";
      Reject(400, "文件大小超过限制（最大 " + NatToString(MaxFileSize / 1024 / 1024) + "MB）")
    else
      var ext := UploadExtension(form.file.value.name);
      if ext !in AcceptedFileTypes then
        assert ("不支持的文件类型：" + ext)[0] != "文件大小超过限制（最大 50MB）"[0];
        Reject(400, "不支持的文件类型：" + ext)
      else Accept(ext, SelectFileType(form.fileType, form.file.value.name))
  }
}
