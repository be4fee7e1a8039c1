/**
 * File-name helpers: the extension of a name, the document type a name suggests, the
 * download name of a stored file, and the size and extension check on an upload.
 */
module Utils {
  import opened Wrappers
  import opened Strings

  lemma LowerIdempotent(s: string)
    ensures Lower(Lower(s)) == Lower(s)
  {
  }

  lemma LowerKeepsDots(s: string)
    ensures '.' in Lower(s) <==> '.' in s
  {
    if '.' in s {
      var i :| 0 <= i < |s| && s[i] == '.';
      assert Lower(s)[i] == '.';
    }
  }

  /** `getFileExtension`: the lower-cased text after the last '.', or "" when the name has none. */
  function FileExtension(fileName: string): (ext: string)
    ensures '.' !in ext && Lower(ext) == ext
    ensures '.' !in fileName ==> ext == ""
    ensures '.' in fileName ==>
      (|ext| < |fileName| && fileName[|fileName| - |ext| - 1] == '.' && ext == Lower(fileName[|fileName| - |ext|..]))
  {
    if '.' in fileName then
      var after := AfterLast(fileName, '.');
      LowerKeepsDots(after);
      LowerIdempotent(after);
      Lower(after)
    else ""
  }

  /** The extension of `base + "." + ext` is `ext` lower-cased, whatever `base` holds. */
  lemma FileExtensionOf(base: string, ext: string)
    requires '.' !in ext
    ensures FileExtension(base + "." + ext) == Lower(ext)
  {
    var s := base + "." + ext;
    var r := AfterLast(s, '.');
    assert s[|s| - |ext| - 1] == '.';
    assert s[|s| - |ext|..] == ext;
    assert r == ext;
  }

  /** A keyword rule: any of the keywords selects the target. */
  datatype Rule<L> = Rule(keywords: seq<string>, target: L)

  predicate MatchesAny(text: string, keywords: seq<string>) {
    exists k :: k in keywords && Contains(text, k)
  }

  /** The index of the first rule with a keyword in `text`, or -1. */
  function FirstRule<L>(rules: seq<Rule<L>>, text: string): (i: int)
    ensures -1 <= i < |rules|
    ensures i >= 0 ==> MatchesAny(text, rules[i].keywords)
    ensures forall j :: 0 <= j < |rules| && (i == -1 || j < i) ==> !MatchesAny(text, rules[j].keywords)
  {
    if |rules| == 0 then -1
    else
      var i := FirstRule(rules[..|rules| - 1], text);
      if i >= 0 then i
      else if MatchesAny(text, rules[|rules| - 1].keywords) then |rules| - 1
      else -1
  }

  /** The rule that matches with no earlier rule matching is the one chosen. */
  lemma FirstRuleIs<L>(rules: seq<Rule<L>>, text: string, i: nat)
    requires i < |rules| && MatchesAny(text, rules[i].keywords)
    requires forall j :: 0 <= j < i ==> !MatchesAny(text, rules[j].keywords)
    ensures FirstRule(rules, text) == i
  {
  }

  /** The tests of `identifyFileType`, in source order. */
  const IdentifyRules: seq<Rule<string>> := [
    Rule(["bill", "提单", "b/l"], "提单"),
    Rule(["invoice", "发票"], "发票"),
    Rule(["packing", "装箱单", "箱单"], "装箱单"),
    Rule(["contract", "合同"], "合同"),
    Rule(["origin", "原产地"], "原产地证"),
    Rule(["insurance", "保险"], "保险单"),
    Rule(["核注清单", "verification"], "核注清单"),
    Rule(["报关单", "customs", "declaration"], "报关单"),
    Rule(["备案清单", "record"], "备案清单"),
    Rule(["手册", "handbook"], "手册"),
    Rule(["3c", "ccc"], "3C证书"),
    Rule(["许可", "license"], "许可证")
  ]

  const OtherLabel := "其他"

  /** `identifyFileType`: the label of the first rule matching the lower-cased name, else 其他. */
  function IdentifyFileType(fileName: string): (name: string)
    ensures name == OtherLabel <==> FirstRule(IdentifyRules, Lower(fileName)) == -1
    ensures name != OtherLabel ==> name == IdentifyRules[FirstRule(IdentifyRules, Lower(fileName))].target
  {
    var i := FirstRule(IdentifyRules, Lower(fileName));
    if i == -1 then OtherLabel else IdentifyRules[i].target
  }

  /** Only the lower-cased name matters. */
  lemma IdentifyIgnoresCase(fileName: string)
    ensures IdentifyFileType(Lower(fileName)) == IdentifyFileType(fileName)
  {
    LowerIdempotent(fileName);
  }

  /** The bill-of-lading rule comes first: a name mentioning 提单 is a bill of lading whatever else it says. */
  lemma BillOfLadingWins(fileName: string)
    requires Contains(Lower(fileName), "提单")
    ensures IdentifyFileType(fileName) == "提单"
  {
    assert MatchesAny(Lower(fileName), IdentifyRules[0].keywords);
    assert FirstRule(IdentifyRules[..1], Lower(fileName)) == 0;
    assert IdentifyRules[..1][..0] == [];
    var i := FirstRule(IdentifyRules, Lower(fileName));
    assert i == 0;
  }

  /** `generateDownloadFileName` */
  function DownloadFileName(originalName: string, fileType: string, taskNo: string): (name: string)
    ensures StartsWith(name, fileType + "_" + taskNo + ".")
  {
    fileType + "_" + taskNo + "." + FileExtension(originalName)
  }

  /** The download name keeps the original's extension (an empty one too). */
  lemma DownloadNameKeepsExtension(originalName: string, fileType: string, taskNo: string)
    ensures FileExtension(DownloadFileName(originalName, fileType, taskNo)) == FileExtension(originalName)
  {
    var ext := FileExtension(originalName);
    assert DownloadFileName(originalName, fileType, taskNo) == (fileType + "_" + taskNo) + "." + ext;
    FileExtensionOf(fileType + "_" + taskNo, ext);
  }

  /** 50 MB, as in `validateFile` and the upload route. */
  const MaxFileSize: nat := 50 * 1024 * 1024

  /** The twelve accepted extensions, as in `validateFile` and the upload route. */
  const AcceptedFileTypes: seq<string> := [
    ".pdf", ".doc", ".docx", ".xls", ".xlsx", ".csv", ".jpg", ".jpeg", ".png", ".tiff", ".zip", ".rar"]

  datatype Validation = Validation(valid: bool, error: Option<string>)

  /** `validateFile`: the size is checked before the extension. */
  function ValidateFile(size: nat, fileName: string): (v: Validation)
    ensures v.valid <==> v.error.None?
    ensures v.valid <==> size <= MaxFileSize && "." + FileExtension(fileName) in AcceptedFileTypes
    ensures size > MaxFileSize ==> v.error == Some("文件大小不能超过 50MB")
    ensures size <= MaxFileSize && !v.valid ==> v.error == Some("不支持的文件类型")
  {
    if size > MaxFileSize then Validation(false, Some("文件大小不能超过 50MB"))
    else if "." + FileExtension(fileName) !in AcceptedFileTypes then Validation(false, Some("不支持的文件类型"))
    else Validation(true, None)
  }

  /** A name with an accepted extension, in any letter case, passes when small enough; a name with no '.' never does. */
  lemma ValidateFileByExtension(size: nat, base: string, ext: string, bare: string)
    requires '.' !in ext && '.' !in bare
    ensures ValidateFile(size, base + "." + ext).valid <==> size <= MaxFileSize && "." + Lower(ext) in AcceptedFileTypes
    ensures !ValidateFile(size, bare).valid
  {
    FileExtensionOf(base, ext);
    assert "." + FileExtension(bare) == ".";
  }
}
