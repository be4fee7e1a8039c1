/**
 * Merging the extraction results of several files into one record set: a data-based
 * priority per file, the highest-priority file for single records, and a sweep in
 * ascending priority for customers and goods, with an audit log of every choice.
 */
module Merger {
  import opened Wrappers
  import opened Cells
  import opened Extractor
  import opened Sightings

  datatype MergeLog = MergeLog(field: string, sourceFile: string, priority: real, reason: string)

  /** The merged record: the extracted-data shape plus the log and the source file names. */
  datatype MergedData = MergedData(data: ExtractedData, mergeLogs: seq<MergeLog>, sourceFiles: seq<string>)

  datatype FileData = FileData(fileName: string, data: ExtractedData)

  /** A file's data with its computed priority. */
  datatype Ranked = Ranked(fileName: string, data: ExtractedData, priority: real)

  // ---- priority ----

  /** `calculateFilePriority`: the file name takes no part in the score. */
  function FilePriority(fileName: string, data: ExtractedData): (score: real)
    ensures score >= data.totalRows as real * 0.1
    ensures data.declaration.Some? ==> score >= 100.0
  {
    (if data.declaration.Some? then 100.0 else 0.0)
    + (if data.enterprise.Some? then 20.0 else 0.0)
    + (if data.customers.Some? then |data.customers.value| as real * 10.0 else 0.0)
    + (if data.goods.Some? then |data.goods.value| as real * 5.0 else 0.0)
    + data.totalRows as real * 0.1
  }

  /** Adding a manifest record raises the score by exactly 100, one more goods line by exactly 5. */
  lemma PriorityIncrements(fileName: string, data: ExtractedData, d: DeclarationInfo, g: GoodsItem)
    ensures data.declaration.None? ==>
      FilePriority(fileName, data.(declaration := Some(d))) == FilePriority(fileName, data) + 100.0
    ensures data.goods.Some? ==>
      FilePriority(fileName, data.(goods := Some(data.goods.value + [g]))) == FilePriority(fileName, data) + 5.0
    ensures data.enterprise.None? ==>
      FilePriority(fileName, data.(enterprise := Some(EnterpriseInfo("", "", "", None, None)))) == FilePriority(fileName, data) + 20.0
  {
  }

  function Rank(files: seq<FileData>): (rs: seq<Ranked>)
    ensures |rs| == |files|
    ensures forall i :: 0 <= i < |files| ==>
      rs[i] == Ranked(files[i].fileName, files[i].data, FilePriority(files[i].fileName, files[i].data))
  {
    seq(|files|, i requires 0 <= i < |files| => Ranked(files[i].fileName, files[i].data, FilePriority(files[i].fileName, files[i].data)))
  }

  // ---- single-record entities ----

  /** File `k` holds the entity, no file holding it has a higher priority, and every earlier one has a lower priority. */
  predicate IsFirstHighest(list: seq<Ranked>, has: seq<bool>, k: int)
    requires |has| == |list|
  {
    && 0 <= k < |list| && has[k]
    && (forall i :: 0 <= i < |list| && has[i] ==> list[i].priority <= list[k].priority)
    && (forall i :: 0 <= i < k && has[i] ==> list[i].priority < list[k].priority)
  }

  /**
   * The first element of the stable descending sort of the files holding the entity:
   * the earliest file of maximum priority, -1 when no file holds it.
   */
  function FirstHighest(list: seq<Ranked>, has: seq<bool>): (k: int)
    requires |has| == |list|
    ensures -1 <= k < |list|
    ensures k == -1 <==> forall i :: 0 <= i < |list| ==> !has[i]
    ensures k >= 0 ==> IsFirstHighest(list, has, k)
  {
    if |list| == 0 then -1
    else
      var n := |list| - 1;
      var b := FirstHighest(list[..n], has[..n]);
      if !has[n] then b
      else if b == -1 || list[b].priority < list[n].priority then n
      else b
  }

  function HasEnterprise(list: seq<Ranked>): (has: seq<bool>)
    ensures |has| == |list| && forall i :: 0 <= i < |list| ==> (has[i] <==> list[i].data.enterprise.Some?)
  {
    seq(|list|, i requires 0 <= i < |list| => list[i].data.enterprise.Some?)
  }

  function HasDeclaration(list: seq<Ranked>): (has: seq<bool>)
    ensures |has| == |list| && forall i :: 0 <= i < |list| ==> (has[i] <==> list[i].data.declaration.Some?)
  {
    seq(|list|, i requires 0 <= i < |list| => list[i].data.declaration.Some?)
  }

  function SelectionLog(nt: NumberText, field: string, r: Ranked): MergeLog {
    MergeLog(field, r.fileName, r.priority, "选择优先级最高的文件（优先级: " + nt.show(r.priority) + "）")
  }

  datatype Selection<T> = Selection(result: Option<T>, logs: seq<MergeLog>)

  /** `mergeEnterpriseInfo` */
  function MergeEnterpriseInfo(nt: NumberText, list: seq<Ranked>): (r: Selection<EnterpriseInfo>)
    ensures r.result.None? <==> forall i :: 0 <= i < |list| ==> list[i].data.enterprise.None?
    ensures r.result.None? ==> r.logs == []
    ensures r.result.Some? ==> exists k :: (IsFirstHighest(list, HasEnterprise(list), k)
      && r.result == list[k].data.enterprise && r.logs == [SelectionLog(nt, "enterprise", list[k])])
  {
    var k := FirstHighest(list, HasEnterprise(list));
    if k < 0 then Selection(None, [])
    else Selection(list[k].data.enterprise, [SelectionLog(nt, "enterprise", list[k])])
  }

  /** `mergeDeclarationInfo` */
  function MergeDeclarationInfo(nt: NumberText, list: seq<Ranked>): (r: Selection<DeclarationInfo>)
    ensures r.result.None? <==> forall i :: 0 <= i < |list| ==> list[i].data.declaration.None?
    ensures r.result.None? ==> r.logs == []
    ensures r.result.Some? ==> exists k :: (IsFirstHighest(list, HasDeclaration(list), k)
      && r.result == list[k].data.declaration && r.logs == [SelectionLog(nt, "declaration", list[k])])
  {
    var k := FirstHighest(list, HasDeclaration(list));
    if k < 0 then Selection(None, [])
    else Selection(list[k].data.declaration, [SelectionLog(nt, "declaration", list[k])])
  }

  // ---- the stable ascending sort ----

  predicate SortedByPriority(s: seq<Ranked>) {
    forall i, j :: 0 <= i < j < |s| ==> s[i].priority <= s[j].priority
  }

  /** Inserts `x` after every element whose priority does not exceed its own. */
  function InsertByPriority(s: seq<Ranked>, x: Ranked): (r: seq<Ranked>)
    ensures multiset(r) == multiset(s) + multiset{x}
  {
    if |s| == 0 then [x]
    else if s[|s| - 1].priority <= x.priority then s + [x]
    else
      assert s == s[..|s| - 1] + [s[|s| - 1]];
      InsertByPriority(s[..|s| - 1], x) + [s[|s| - 1]]
  }

  /** `[...list].sort((a, b) => a.priority - b.priority)`, a stable sort. */
  function SortByPriority(s: seq<Ranked>): (r: seq<Ranked>)
    ensures multiset(r) == multiset(s)
  {
    if |s| == 0 then []
    else
      assert s == s[..|s| - 1] + [s[|s| - 1]];
      InsertByPriority(SortByPriority(s[..|s| - 1]), s[|s| - 1])
  }

  lemma {:induction false} InsertKeepsSorted(s: seq<Ranked>, x: Ranked)
    requires SortedByPriority(s)
    ensures SortedByPriority(InsertByPriority(s, x))
    decreases |s|
  {
    if |s| > 0 && s[|s| - 1].priority > x.priority {
      var front := s[..|s| - 1];
      var last := s[|s| - 1];
      assert s == front + [last];
      var r := InsertByPriority(front, x);
      assert InsertByPriority(s, x) == r + [last];
      InsertKeepsSorted(front, x);
      forall i | 0 <= i < |r|
        ensures r[i].priority <= last.priority
      {
        InsertedFrom(front, x, r[i]);
        if r[i] != x {
          var j :| 0 <= j < |front| && front[j] == r[i];
          assert s[j] == r[i];
        }
      }
      SortedSnoc(r, last);
    }
  }

  /** An element of an insertion is the inserted one or one of the sequence's. */
  lemma InsertedFrom(s: seq<Ranked>, x: Ranked, y: Ranked)
    requires y in InsertByPriority(s, x)
    ensures y == x || y in s
  {
    assert y in multiset(InsertByPriority(s, x));
  }

  lemma SortedSnoc(r: seq<Ranked>, last: Ranked)
    requires SortedByPriority(r)
    requires forall i :: 0 <= i < |r| ==> r[i].priority <= last.priority
    ensures SortedByPriority(r + [last])
  {
  }

  lemma {:induction false} SortIsSorted(s: seq<Ranked>)
    ensures SortedByPriority(SortByPriority(s))
    decreases |s|
  {
    if |s| > 0 {
      SortIsSorted(s[..|s| - 1]);
      InsertKeepsSorted(SortByPriority(s[..|s| - 1]), s[|s| - 1]);
    }
  }

  /** The files of priority `v`, in order. */
  function OfPriority(s: seq<Ranked>, v: real): seq<Ranked> {
    if |s| == 0 then []
    else OfPriority(s[..|s| - 1], v) + (if s[|s| - 1].priority == v then [s[|s| - 1]] else [])
  }

  lemma {:induction false} OfPriorityAppend(a: seq<Ranked>, b: seq<Ranked>, v: real)
    ensures OfPriority(a + b, v) == OfPriority(a, v) + OfPriority(b, v)
    decreases |b|
  {
    if |b| == 0 {
      assert a + b == a;
    } else {
      var n := |b| - 1;
      assert (a + b)[..|a + b| - 1] == a + b[..n];
      OfPriorityAppend(a, b[..n], v);
    }
  }

  lemma {:induction false} InsertIsStable(s: seq<Ranked>, x: Ranked, v: real)
    requires SortedByPriority(s)
    ensures OfPriority(InsertByPriority(s, x), v) == OfPriority(s, v) + OfPriority([x], v)
    decreases |s|
  {
    if |s| == 0 {
      assert [] + [x] == [x];
    } else if s[|s| - 1].priority <= x.priority {
      OfPriorityAppend(s, [x], v);
    } else {
      var front := s[..|s| - 1];
      var last := s[|s| - 1];
      assert s == front + [last];
      var r := InsertByPriority(front, x);
      assert InsertByPriority(s, x) == r + [last];
      InsertIsStable(front, x, v);
      OfPriorityAppend(r, [last], v);
      OfPriorityAppend(front, [last], v);
    }
  }

  /** Stability: the files of any one priority keep their input order. */
  lemma {:induction false} SortIsStable(s: seq<Ranked>, v: real)
    ensures OfPriority(SortByPriority(s), v) == OfPriority(s, v)
    decreases |s|
  {
    if |s| > 0 {
      var front := s[..|s| - 1];
      var last := s[|s| - 1];
      assert s == front + [last];
      var sorted := SortByPriority(front);
      assert SortByPriority(s) == InsertByPriority(sorted, last);
      SortIsStable(front, v);
      SortIsSorted(front);
      InsertIsStable(sorted, last, v);
      OfPriorityAppend(front, [last], v);
      calc {
        OfPriority(SortByPriority(s), v);
        OfPriority(sorted, v) + OfPriority([last], v);
        OfPriority(front, v) + OfPriority([last], v);
        OfPriority(front + [last], v);
      }
    }
  }

  /** A stored record with where it came from. */
  datatype Entry<T> = Entry(value: T, source: string, priority: real)

  /** A JavaScript `Map` from key to entry, with its keys in insertion order, plus the log written so far. */
  datatype KeyedMap<T> = KeyedMap(keys: seq<string>, entries: map<string, Entry<T>>, logs: seq<MergeLog>)

  ghost predicate ValidMap<T>(m: KeyedMap<T>) {
    Distinct(m.keys) && forall k :: k in m.entries <==> k in m.keys
  }

  /** `Array.from(map.values())`, the records in key-insertion order. */
  function Values<T>(m: KeyedMap<T>): (vs: seq<T>)
    requires ValidMap(m)
    ensures |vs| == |m.keys|
    ensures forall i :: 0 <= i < |vs| ==> vs[i] == m.entries[m.keys[i]].value
  {
    seq(|m.keys|, i requires 0 <= i < |m.keys| => m.entries[m.keys[i]].value)
  }

  // ---- customers ----

  /** `customer.customsCode || customer.name` */
  function CustomerKey(c: CustomerInfo): string {
    if c.customsCode != "" then c.customsCode else c.name
  }

  function CustomerSightingsOf(r: Ranked): (ss: seq<Sighting<CustomerInfo>>)
    ensures r.data.customers.None? ==> ss == []
    ensures r.data.customers.Some? ==> |ss| == |r.data.customers.value| && forall i :: 0 <= i < |ss| ==>
      ss[i] == Sighting(CustomerKey(r.data.customers.value[i]), r.fileName, r.priority, |r.data.customers.value|, r.data.customers.value[i])
  {
    if r.data.customers.None? then []
    else
      var cs := r.data.customers.value;
      seq(|cs|, i requires 0 <= i < |cs| => Sighting(CustomerKey(cs[i]), r.fileName, r.priority, |cs|, cs[i]))
  }

  /** The customers of the files, file after file. */
  function CustomerSightings(files: seq<Ranked>): seq<Sighting<CustomerInfo>> {
    if |files| == 0 then []
    else CustomerSightings(files[..|files| - 1]) + CustomerSightingsOf(files[|files| - 1])
  }

  function CustomerLog(s: Sighting<CustomerInfo>): MergeLog {
    MergeLog("customer", s.fileName, s.priority,
      "客户 " + s.value.name + "（编码: " + s.value.customsCode + "）来自优先级更高的文件")
  }

  /** One customer of the sweep: stored when its key is new or its file has a strictly higher priority. */
  function CustomerStep(m: KeyedMap<CustomerInfo>, s: Sighting<CustomerInfo>): KeyedMap<CustomerInfo> {
    if s.key !in m.entries || m.entries[s.key].priority < s.priority then
      var entries := m.entries[s.key := Entry(s.value, s.fileName, s.priority)];
      KeyedMap(if s.key in m.entries then m.keys else m.keys + [s.key], entries,
        if |entries| > s.fileCount then m.logs + [CustomerLog(s)] else m.logs)
    else m
  }

  function FoldCustomers(ss: seq<Sighting<CustomerInfo>>): (m: KeyedMap<CustomerInfo>)
    ensures ValidMap(m)
  {
    if |ss| == 0 then KeyedMap([], map[], [])
    else CustomerStep(FoldCustomers(ss[..|ss| - 1]), ss[|ss| - 1])
  }

  /** The customer map holds, for every key met, the winning sighting, and its keys in first-seen order. */
  lemma CustomerFoldIsWinners(ss: seq<Sighting<CustomerInfo>>)
    ensures FoldCustomers(ss).keys == Dedup(KeysOf(ss))
    ensures forall k :: k in FoldCustomers(ss).entries <==> k in Winners(ss)
    ensures forall k :: k in FoldCustomers(ss).entries ==>
      FoldCustomers(ss).entries[k] == Entry(Winners(ss)[k].value, Winners(ss)[k].fileName, Winners(ss)[k].priority)
  {
    CustomerFoldKeys(ss);
    forall k | k in FoldCustomers(ss).entries
      ensures FoldCustomers(ss).entries[k] == Entry(Winners(ss)[k].value, Winners(ss)[k].fileName, Winners(ss)[k].priority)
    {
      CustomerFoldEntry(ss, k);
    }
  }

  lemma {:induction false} CustomerFoldKeys(ss: seq<Sighting<CustomerInfo>>)
    ensures FoldCustomers(ss).keys == Dedup(KeysOf(ss))
    ensures forall k :: k in FoldCustomers(ss).entries <==> k in Winners(ss)
    decreases |ss|
  {
    if |ss| > 0 {
      var n := |ss| - 1;
      CustomerFoldKeys(ss[..n]);
      WinnersDomain(ss[..n]);
      assert KeysOf(ss)[..n] == KeysOf(ss[..n]);
    }
  }

  lemma {:induction false} CustomerFoldDomain(ss: seq<Sighting<CustomerInfo>>)
    ensures forall k :: k in FoldCustomers(ss).entries <==> k in Winners(ss)
    decreases |ss|
  {
    if |ss| > 0 {
      CustomerFoldDomain(ss[..|ss| - 1]);
    }
  }

  lemma {:induction false} CustomerFoldEntry(ss: seq<Sighting<CustomerInfo>>, k: string)
    requires k in FoldCustomers(ss).entries
    ensures k in Winners(ss)
    ensures FoldCustomers(ss).entries[k] == Entry(Winners(ss)[k].value, Winners(ss)[k].fileName, Winners(ss)[k].priority)
    decreases |ss|
  {
    CustomerFoldDomain(ss);
    var n := |ss| - 1;
    var s := ss[n];
    CustomerFoldDomain(ss[..n]);
    assert FoldCustomers(ss) == CustomerStep(FoldCustomers(ss[..n]), s);
    assert Winners(ss) == if s.key !in Winners(ss[..n]) || Winners(ss[..n])[s.key].priority < s.priority
      then Winners(ss[..n])[s.key := s] else Winners(ss[..n]);
    if k != s.key || k in FoldCustomers(ss[..n]).entries {
      CustomerFoldEntry(ss[..n], k);
    }
  }

  /** The customer map never holds more entries than the customers met, and a sweep whose files each hold at least as many customers as the whole sweep logs nothing. */
  lemma {:induction false} CustomerLogsNeedLargerMap(ss: seq<Sighting<CustomerInfo>>)
    ensures |FoldCustomers(ss).entries| <= |ss|
    ensures (forall i :: 0 <= i < |ss| ==> ss[i].fileCount >= |ss|) ==> FoldCustomers(ss).logs == []
    decreases |ss|
  {
    if |ss| > 0 {
      CustomerLogsNeedLargerMap(ss[..|ss| - 1]);
    }
  }

  // ---- goods ----

  /** An optional text is truthy when present and non-empty. */
  predicate Filled(o: Option<string>) {
    o.Some? && o.value != ""
  }

  /** `a || b` on strings */
  function OrText(a: string, b: string): string {
    if a != "" then a else b
  }

  /** `a || b` on optional strings */
  function OrOptText(a: Option<string>, b: Option<string>): Option<string> {
    if Filled(a) then a else b
  }

  /** `a ?? b` on optional numbers: 0 counts as present */
  function OrNumber(a: Option<real>, b: Option<real>): Option<real> {
    if a.Some? then a else b
  }

  /** Every populated field of `w` has its value in `m`. */
  predicate KeepsPopulated(m: GoodsItem, w: GoodsItem) {
    && (w.goodsName != "" ==> m.goodsName == w.goodsName)
    && (w.hsCode != "" ==> m.hsCode == w.hsCode)
    && (w.quantity.Some? ==> m.quantity == w.quantity)
    && (Filled(w.unit) ==> m.unit == w.unit)
    && (w.unitPrice.Some? ==> m.unitPrice == w.unitPrice)
    && (w.totalPrice.Some? ==> m.totalPrice == w.totalPrice)
    && (Filled(w.currency) ==> m.currency == w.currency)
    && (Filled(w.origin) ==> m.origin == w.origin)
    && (w.netWeight.Some? ==> m.netWeight == w.netWeight)
    && (w.grossWeight.Some? ==> m.grossWeight == w.grossWeight)
    && (Filled(w.itemCode) ==> m.itemCode == w.itemCode)
  }

  /** Every field `w` leaves unpopulated has its value in `m` taken from `o`. */
  predicate FillsGapsFrom(m: GoodsItem, o: GoodsItem, w: GoodsItem) {
    && (w.goodsName == "" ==> m.goodsName == o.goodsName)
    && (w.hsCode == "" ==> m.hsCode == o.hsCode)
    && (w.quantity.None? ==> m.quantity == o.quantity)
    && (!Filled(w.unit) ==> m.unit == o.unit)
    && (w.unitPrice.None? ==> m.unitPrice == o.unitPrice)
    && (w.totalPrice.None? ==> m.totalPrice == o.totalPrice)
    && (!Filled(w.currency) ==> m.currency == o.currency)
    && (!Filled(w.origin) ==> m.origin == o.origin)
    && (w.netWeight.None? ==> m.netWeight == o.netWeight)
    && (w.grossWeight.None? ==> m.grossWeight == o.grossWeight)
    && (!Filled(w.itemCode) ==> m.itemCode == o.itemCode)
  }

  /** The field merge of a higher-priority line into the stored one. */
  function MergeGoodsItem(stored: GoodsItem, item: GoodsItem, key: string): (m: GoodsItem)
    ensures m.matchKey == key
    ensures KeepsPopulated(m, item)
    ensures FillsGapsFrom(m, stored, item)
  {
    GoodsItem(
      goodsName := OrText(item.goodsName, stored.goodsName),
      hsCode := OrText(item.hsCode, stored.hsCode),
      quantity := OrNumber(item.quantity, stored.quantity),
      unit := OrOptText(item.unit, stored.unit),
      unitPrice := OrNumber(item.unitPrice, stored.unitPrice),
      totalPrice := OrNumber(item.totalPrice, stored.totalPrice),
      currency := OrOptText(item.currency, stored.currency),
      origin := OrOptText(item.origin, stored.origin),
      netWeight := OrNumber(item.netWeight, stored.netWeight),
      grossWeight := OrNumber(item.grossWeight, stored.grossWeight),
      itemCode := OrOptText(item.itemCode, stored.itemCode),
      matchKey := key)
  }

  /** No populated field of either line is lost, and merging a line into itself changes nothing. */
  lemma MergeLosesNothing(stored: GoodsItem, item: GoodsItem, key: string)
    ensures var m := MergeGoodsItem(stored, item, key);
      && (stored.hsCode != "" || item.hsCode != "" ==> m.hsCode != "")
      && (stored.goodsName != "" || item.goodsName != "" ==> m.goodsName != "")
      && (stored.quantity.Some? || item.quantity.Some? ==> m.quantity.Some?)
      && (Filled(stored.origin) || Filled(item.origin) ==> Filled(m.origin))
      && (Filled(stored.unit) || Filled(item.unit) ==> Filled(m.unit))
      && (stored.totalPrice.Some? || item.totalPrice.Some? ==> m.totalPrice.Some?)
    ensures MergeGoodsItem(item, item, item.matchKey) == item
  {
  }

  function GoodsSightingsOf(r: Ranked): (ss: seq<Sighting<GoodsItem>>)
    ensures r.data.goods.None? ==> ss == []
    ensures r.data.goods.Some? ==> |ss| == |r.data.goods.value| && forall i :: 0 <= i < |ss| ==>
      ss[i] == Sighting(r.data.goods.value[i].matchKey, r.fileName, r.priority, |r.data.goods.value|, r.data.goods.value[i])
  {
    if r.data.goods.None? then []
    else
      var gs := r.data.goods.value;
      seq(|gs|, i requires 0 <= i < |gs| => Sighting(gs[i].matchKey, r.fileName, r.priority, |gs|, gs[i]))
  }

  /** The goods lines of the files, file after file. */
  function GoodsSightings(files: seq<Ranked>): seq<Sighting<GoodsItem>> {
    if |files| == 0 then []
    else GoodsSightings(files[..|files| - 1]) + GoodsSightingsOf(files[|files| - 1])
  }

  function NewGoodsLog(s: Sighting<GoodsItem>): MergeLog {
    MergeLog("goods", s.fileName, s.priority, "新增商品: " + s.value.goodsName + "（匹配键: " + s.value.matchKey + "）")
  }

  function UpdatedGoodsLog(s: Sighting<GoodsItem>): MergeLog {
    MergeLog("goods", s.fileName, s.priority, "更新商品: " + s.value.goodsName + "（匹配键: " + s.key + "，优先级更高）")
  }

  /** One goods line of the sweep: a new key is stored, a strictly higher priority merges fields, anything else is ignored. */
  function GoodsStep(m: KeyedMap<GoodsItem>, s: Sighting<GoodsItem>): KeyedMap<GoodsItem> {
    if s.key !in m.entries then
      KeyedMap(m.keys + [s.key], m.entries[s.key := Entry(s.value, s.fileName, s.priority)], m.logs + [NewGoodsLog(s)])
    else if s.priority > m.entries[s.key].priority then
      var merged := MergeGoodsItem(m.entries[s.key].value, s.value, s.key);
      KeyedMap(m.keys, m.entries[s.key := Entry(merged, s.fileName, s.priority)], m.logs + [UpdatedGoodsLog(s)])
    else m
  }

  function FoldGoodsFrom(m: KeyedMap<GoodsItem>, ss: seq<Sighting<GoodsItem>>): (r: KeyedMap<GoodsItem>)
    requires ValidMap(m)
    ensures ValidMap(r)
  {
    if |ss| == 0 then m
    else GoodsStep(FoldGoodsFrom(m, ss[..|ss| - 1]), ss[|ss| - 1])
  }

  function FoldGoods(ss: seq<Sighting<GoodsItem>>): (r: KeyedMap<GoodsItem>)
    ensures ValidMap(r)
  {
    FoldGoodsFrom(KeyedMap([], map[], []), ss)
  }

  /** Each sighting's key is its line's match key. */
  predicate KeyedByMatchKey(ss: seq<Sighting<GoodsItem>>) {
    forall i :: 0 <= i < |ss| ==> ss[i].key == ss[i].value.matchKey
  }

  /** The goods map holds an entry for every key met, and its keys keep first-seen order. */
  lemma {:induction false} GoodsFoldKeys(ss: seq<Sighting<GoodsItem>>)
    ensures FoldGoods(ss).keys == Dedup(KeysOf(ss))
    ensures forall k :: k in FoldGoods(ss).entries <==> k in Winners(ss)
    decreases |ss|
  {
    if |ss| > 0 {
      var n := |ss| - 1;
      GoodsFoldKeys(ss[..n]);
      WinnersDomain(ss[..n]);
      assert KeysOf(ss)[..n] == KeysOf(ss[..n]);
    }
  }

  lemma {:induction false} GoodsFoldDomain(ss: seq<Sighting<GoodsItem>>)
    ensures forall k :: k in FoldGoods(ss).entries <==> k in Winners(ss)
    decreases |ss|
  {
    if |ss| > 0 {
      GoodsFoldDomain(ss[..|ss| - 1]);
    }
  }

  /**
   * The entry stored under a key has the source and priority of the winning line,
   * every populated field of that line, and the key as its match key.
   */
  lemma GoodsFoldEntry(ss: seq<Sighting<GoodsItem>>, k: string)
    requires KeyedByMatchKey(ss)
    requires k in FoldGoods(ss).entries
    ensures k in Winners(ss)
    ensures FoldGoods(ss).entries[k].source == Winners(ss)[k].fileName
    ensures FoldGoods(ss).entries[k].priority == Winners(ss)[k].priority
    ensures FoldGoods(ss).entries[k].value.matchKey == k
    ensures KeepsPopulated(FoldGoods(ss).entries[k].value, Winners(ss)[k].value)
  {
    GoodsFoldOrigin(ss, k);
    GoodsFoldKey(ss, k);
    GoodsFoldKeeps(ss, k);
  }

  /** The entry under a key records the winning line's file and priority. */
  lemma {:induction false} GoodsFoldOrigin(ss: seq<Sighting<GoodsItem>>, k: string)
    requires k in FoldGoods(ss).entries
    ensures k in Winners(ss)
    ensures FoldGoods(ss).entries[k].source == Winners(ss)[k].fileName
    ensures FoldGoods(ss).entries[k].priority == Winners(ss)[k].priority
    decreases |ss|
  {
    GoodsFoldDomain(ss);
    var n := |ss| - 1;
    var s := ss[n];
    var prev := FoldGoods(ss[..n]);
    GoodsFoldDomain(ss[..n]);
    assert FoldGoods(ss) == GoodsStep(prev, s);
    assert Winners(ss) == if s.key !in Winners(ss[..n]) || Winners(ss[..n])[s.key].priority < s.priority
      then Winners(ss[..n])[s.key := s] else Winners(ss[..n]);
    if k != s.key || k in prev.entries {
      GoodsFoldOrigin(ss[..n], k);
    }
  }

  /** The entry under a key carries the key as its match key. */
  lemma {:induction false} GoodsFoldKey(ss: seq<Sighting<GoodsItem>>, k: string)
    requires KeyedByMatchKey(ss)
    requires k in FoldGoods(ss).entries
    ensures FoldGoods(ss).entries[k].value.matchKey == k
    decreases |ss|
  {
    var n := |ss| - 1;
    var s := ss[n];
    var prev := FoldGoods(ss[..n]);
    assert FoldGoods(ss) == GoodsStep(prev, s);
    if k != s.key || k in prev.entries {
      assert KeyedByMatchKey(ss[..n]) by {
        forall i | 0 <= i < n
          ensures ss[..n][i].key == ss[..n][i].value.matchKey
        {
          assert ss[..n][i] == ss[i];
        }
      }
      if k in prev.entries {
        GoodsFoldKey(ss[..n], k);
      }
    } else {
      assert s.key == s.value.matchKey;
    }
  }

  /** The entry under a key keeps every populated field of the winning line. */
  lemma {:induction false} GoodsFoldKeeps(ss: seq<Sighting<GoodsItem>>, k: string)
    requires k in FoldGoods(ss).entries
    ensures k in Winners(ss)
    ensures KeepsPopulated(FoldGoods(ss).entries[k].value, Winners(ss)[k].value)
    decreases |ss|
  {
    GoodsFoldDomain(ss);
    var n := |ss| - 1;
    var s := ss[n];
    var prev := FoldGoods(ss[..n]);
    GoodsFoldDomain(ss[..n]);
    assert FoldGoods(ss) == GoodsStep(prev, s);
    assert Winners(ss) == if s.key !in Winners(ss[..n]) || Winners(ss[..n])[s.key].priority < s.priority
      then Winners(ss[..n])[s.key := s] else Winners(ss[..n]);
    if k != s.key {
      GoodsFoldKeeps(ss[..n], k);
    } else if k in prev.entries {
      GoodsFoldOrigin(ss[..n], k);
      GoodsFoldKeeps(ss[..n], k);
    }
  }

  lemma {:induction false} FoldGoodsFromAppend(m: KeyedMap<GoodsItem>, a: seq<Sighting<GoodsItem>>, b: seq<Sighting<GoodsItem>>)
    requires ValidMap(m)
    ensures FoldGoodsFrom(m, a + b) == FoldGoodsFrom(FoldGoodsFrom(m, a), b)
    decreases |b|
  {
    if |b| == 0 {
      assert a + b == a;
    } else {
      assert (a + b)[..|a + b| - 1] == a + b[..|b| - 1];
      FoldGoodsFromAppend(m, a, b[..|b| - 1]);
    }
  }

  /** Lines whose keys are all stored with at least their priority change nothing. */
  lemma {:induction false} FoldGoodsFromStale(m: KeyedMap<GoodsItem>, b: seq<Sighting<GoodsItem>>)
    requires ValidMap(m)
    requires forall i :: 0 <= i < |b| ==> b[i].key in m.entries && b[i].priority <= m.entries[b[i].key].priority
    ensures FoldGoodsFrom(m, b) == m
    decreases |b|
  {
    if |b| > 0 {
      FoldGoodsFromStale(m, b[..|b| - 1]);
    }
  }

  /** Sweeping the same lines twice at one priority gives what sweeping them once gives. */
  lemma GoodsSweepIdempotent(ss: seq<Sighting<GoodsItem>>, p: real)
    requires KeyedByMatchKey(ss)
    requires forall i :: 0 <= i < |ss| ==> ss[i].priority == p
    ensures FoldGoods(ss + ss) == FoldGoods(ss)
  {
    var m := FoldGoods(ss);
    GoodsFoldKeys(ss);
    WinnersDomain(ss);
    forall i | 0 <= i < |ss|
      ensures ss[i].key in m.entries && ss[i].priority <= m.entries[ss[i].key].priority
    {
      assert KeysOf(ss)[i] == ss[i].key;
      GoodsFoldEntry(ss, ss[i].key);
      var w := WinnerIsFirstBest(ss, ss[i].key);
    }
    FoldGoodsFromAppend(KeyedMap([], map[], []), ss, ss);
    FoldGoodsFromStale(m, ss);
  }

  // ---- from files to sightings ----

  predicate KeyedByCustomerKey(ss: seq<Sighting<CustomerInfo>>) {
    forall i :: 0 <= i < |ss| ==> ss[i].key == CustomerKey(ss[i].value)
  }

  lemma {:induction false} CustomerSightingsKeyed(files: seq<Ranked>)
    ensures KeyedByCustomerKey(CustomerSightings(files))
    decreases |files|
  {
    if |files| > 0 {
      CustomerSightingsKeyed(files[..|files| - 1]);
    }
  }

  /** Every customer sighting is a customer of one of the files, with that file's name and priority. */
  lemma {:induction false} CustomerSightingSource(files: seq<Ranked>, i: nat) returns (f: Ranked)
    requires i < |CustomerSightings(files)|
    ensures f in files && f.data.customers.Some?
    ensures CustomerSightings(files)[i].value in f.data.customers.value
    ensures CustomerSightings(files)[i].fileName == f.fileName && CustomerSightings(files)[i].priority == f.priority
    decreases |files|
  {
    var n := |files| - 1;
    var front := CustomerSightings(files[..n]);
    if i < |front| {
      f := CustomerSightingSource(files[..n], i);
    } else {
      f := files[n];
      assert CustomerSightings(files)[i] == CustomerSightingsOf(f)[i - |front|];
    }
  }

  /** Every customer of every file is sighted, with its file's priority. */
  lemma {:induction false} CustomerSightingOfFile(files: seq<Ranked>, f: Ranked, c: CustomerInfo) returns (i: nat)
    requires f in files && f.data.customers.Some? && c in f.data.customers.value
    ensures i < |CustomerSightings(files)|
    ensures CustomerSightings(files)[i].value == c && CustomerSightings(files)[i].priority == f.priority
    decreases |files|
  {
    var n := |files| - 1;
    var front := CustomerSightings(files[..n]);
    var last := CustomerSightingsOf(files[n]);
    assert CustomerSightings(files) == front + last;
    if f in files[..n] {
      i := CustomerSightingOfFile(files[..n], f, c);
      assert (front + last)[i] == front[i];
    } else {
      assert f == files[n];
      var j :| 0 <= j < |f.data.customers.value| && f.data.customers.value[j] == c;
      i := |front| + j;
      assert (front + last)[i] == last[j];
    }
  }

  lemma {:induction false} GoodsSightingsKeyed(files: seq<Ranked>)
    ensures KeyedByMatchKey(GoodsSightings(files))
    decreases |files|
  {
    if |files| > 0 {
      GoodsSightingsKeyed(files[..|files| - 1]);
    }
  }

  /** Every goods sighting is a line of one of the files, with that file's name and priority. */
  lemma {:induction false} GoodsSightingSource(files: seq<Ranked>, i: nat) returns (f: Ranked)
    requires i < |GoodsSightings(files)|
    ensures f in files && f.data.goods.Some?
    ensures GoodsSightings(files)[i].value in f.data.goods.value
    ensures GoodsSightings(files)[i].fileName == f.fileName && GoodsSightings(files)[i].priority == f.priority
    decreases |files|
  {
    var n := |files| - 1;
    var front := GoodsSightings(files[..n]);
    if i < |front| {
      f := GoodsSightingSource(files[..n], i);
    } else {
      f := files[n];
      assert GoodsSightings(files)[i] == GoodsSightingsOf(f)[i - |front|];
    }
  }

  /** Every goods line of every file is sighted, with its file's priority. */
  lemma {:induction false} GoodsSightingOfFile(files: seq<Ranked>, f: Ranked, g: GoodsItem) returns (i: nat)
    requires f in files && f.data.goods.Some? && g in f.data.goods.value
    ensures i < |GoodsSightings(files)|
    ensures GoodsSightings(files)[i].value == g && GoodsSightings(files)[i].priority == f.priority
    decreases |files|
  {
    var n := |files| - 1;
    var front := GoodsSightings(files[..n]);
    var last := GoodsSightingsOf(files[n]);
    assert GoodsSightings(files) == front + last;
    if f in files[..n] {
      i := GoodsSightingOfFile(files[..n], f, g);
      assert (front + last)[i] == front[i];
    } else {
      assert f == files[n];
      var j :| 0 <= j < |f.data.goods.value| && f.data.goods.value[j] == g;
      i := |front| + j;
      assert (front + last)[i] == last[j];
    }
  }

  // ---- the merges of keyed records ----

  datatype Merged<T> = Merged(result: seq<T>, logs: seq<MergeLog>)

  /** What `mergeCustomerInfo` returns: the customer sweep over the files in ascending priority. */
  function CustomerMerge(list: seq<Ranked>): Merged<CustomerInfo> {
    var m := FoldCustomers(CustomerSightings(SortByPriority(list)));
    Merged(Values(m), m.logs)
  }

  /** What `mergeGoodsItems` returns: the goods sweep over the files in ascending priority. */
  function GoodsMerge(list: seq<Ranked>): Merged<GoodsItem> {
    var m := FoldGoods(GoodsSightings(SortByPriority(list)));
    Merged(Values(m), m.logs)
  }

  /** The merged customers are the winners of their keys, in first-seen key order. */
  lemma CustomerMergeKeyAt(list: seq<Ranked>, i: nat)
    requires i < |CustomerMerge(list).result|
    ensures CustomerKey(CustomerMerge(list).result[i]) == FoldCustomers(CustomerSightings(SortByPriority(list))).keys[i]
  {
    var ss := CustomerSightings(SortByPriority(list));
    var m := FoldCustomers(ss);
    CustomerFoldIsWinners(ss);
    CustomerSightingsKeyed(SortByPriority(list));
    var j := WinnerIsFirstBest(ss, m.keys[i]);
  }

  /** No two merged customers share a key. */
  lemma CustomerMergeKeysDistinct(list: seq<Ranked>)
    ensures forall i, j :: 0 <= i < j < |CustomerMerge(list).result| ==>
      CustomerKey(CustomerMerge(list).result[i]) != CustomerKey(CustomerMerge(list).result[j])
  {
    forall i, j | 0 <= i < j < |CustomerMerge(list).result|
      ensures CustomerKey(CustomerMerge(list).result[i]) != CustomerKey(CustomerMerge(list).result[j])
    {
      CustomerMergeKeyAt(list, i);
      CustomerMergeKeyAt(list, j);
    }
  }

  /** The key of every customer of every file is among the merged customers. */
  lemma CustomerMergeCoversKey(list: seq<Ranked>, f: Ranked, c: CustomerInfo) returns (i: nat)
    requires f in list && f.data.customers.Some? && c in f.data.customers.value
    ensures i < |CustomerMerge(list).result| && CustomerKey(CustomerMerge(list).result[i]) == CustomerKey(c)
  {
    var sorted := SortByPriority(list);
    var ss := CustomerSightings(sorted);
    var m := FoldCustomers(ss);
    CustomerFoldIsWinners(ss);
    CustomerSightingsKeyed(sorted);
    assert f in multiset(sorted);
    var j := CustomerSightingOfFile(sorted, f, c);
    assert KeysOf(ss)[j] == CustomerKey(c);
    assert CustomerKey(c) in KeysOf(ss);
    assert CustomerKey(c) in m.keys;
    i :| 0 <= i < |m.keys| && m.keys[i] == CustomerKey(c);
    CustomerMergeKeyAt(list, i);
  }

  /**
   * Each merged customer comes from a file holding it, and no file holding a customer
   * with the same key has a higher priority.
   */
  lemma CustomerMergeChoice(list: seq<Ranked>, i: nat) returns (f: Ranked)
    requires i < |CustomerMerge(list).result|
    ensures f in list && f.data.customers.Some? && CustomerMerge(list).result[i] in f.data.customers.value
    ensures forall g, c :: (g in list && g.data.customers.Some? && c in g.data.customers.value
      && CustomerKey(c) == CustomerKey(CustomerMerge(list).result[i])) ==> g.priority <= f.priority
  {
    var sorted := SortByPriority(list);
    var ss := CustomerSightings(sorted);
    var m := FoldCustomers(ss);
    CustomerFoldIsWinners(ss);
    CustomerSightingsKeyed(sorted);
    var j := WinnerIsFirstBest(ss, m.keys[i]);
    f := CustomerSightingSource(sorted, j);
    assert f in multiset(list);
    forall g, c | g in list && g.data.customers.Some? && c in g.data.customers.value
      && CustomerKey(c) == CustomerKey(CustomerMerge(list).result[i])
      ensures g.priority <= f.priority
    {
      assert g in multiset(sorted);
      var j' := CustomerSightingOfFile(sorted, g, c);
    }
  }

  /** A single file never produces a customer log entry. */
  lemma CustomerMergeOneFile(r: Ranked)
    ensures CustomerMerge([r]).logs == []
  {
    assert SortByPriority([r]) == [r];
    assert CustomerSightings([r]) == CustomerSightingsOf(r);
    CustomerLogsNeedLargerMap(CustomerSightingsOf(r));
  }

  /** The merged goods lines carry the keys of the sweep, in first-seen key order. */
  lemma GoodsMergeKeyAt(list: seq<Ranked>, i: nat)
    requires i < |GoodsMerge(list).result|
    ensures GoodsMerge(list).result[i].matchKey == FoldGoods(GoodsSightings(SortByPriority(list))).keys[i]
  {
    var ss := GoodsSightings(SortByPriority(list));
    GoodsSightingsKeyed(SortByPriority(list));
    GoodsFoldEntry(ss, FoldGoods(ss).keys[i]);
  }

  /** No two merged goods lines share a match key. */
  lemma GoodsMergeKeysDistinct(list: seq<Ranked>)
    ensures forall i, j :: 0 <= i < j < |GoodsMerge(list).result| ==>
      GoodsMerge(list).result[i].matchKey != GoodsMerge(list).result[j].matchKey
  {
    forall i, j | 0 <= i < j < |GoodsMerge(list).result|
      ensures GoodsMerge(list).result[i].matchKey != GoodsMerge(list).result[j].matchKey
    {
      GoodsMergeKeyAt(list, i);
      GoodsMergeKeyAt(list, j);
    }
  }

  /** The match key of every goods line of every file is among the merged lines. */
  lemma GoodsMergeCoversKey(list: seq<Ranked>, f: Ranked, g: GoodsItem) returns (i: nat)
    requires f in list && f.data.goods.Some? && g in f.data.goods.value
    ensures i < |GoodsMerge(list).result| && GoodsMerge(list).result[i].matchKey == g.matchKey
  {
    var sorted := SortByPriority(list);
    var ss := GoodsSightings(sorted);
    var m := FoldGoods(ss);
    GoodsFoldKeys(ss);
    GoodsSightingsKeyed(sorted);
    assert f in multiset(sorted);
    var j := GoodsSightingOfFile(sorted, f, g);
    assert KeysOf(ss)[j] == g.matchKey;
    assert g.matchKey in KeysOf(ss);
    assert g.matchKey in m.keys;
    i :| 0 <= i < |m.keys| && m.keys[i] == g.matchKey;
    GoodsMergeKeyAt(list, i);
  }

  /**
   * Each merged goods line carries every populated field of a line with its key from a file
   * that no file holding that key outranks.
   */
  lemma GoodsMergeChoice(list: seq<Ranked>, i: nat) returns (f: Ranked, item: GoodsItem)
    requires i < |GoodsMerge(list).result|
    ensures f in list && f.data.goods.Some? && item in f.data.goods.value
    ensures item.matchKey == GoodsMerge(list).result[i].matchKey
    ensures KeepsPopulated(GoodsMerge(list).result[i], item)
    ensures forall h, g :: (h in list && h.data.goods.Some? && g in h.data.goods.value
      && g.matchKey == item.matchKey) ==> h.priority <= f.priority
  {
    var sorted := SortByPriority(list);
    var ss := GoodsSightings(sorted);
    var m := FoldGoods(ss);
    GoodsFoldKeys(ss);
    GoodsSightingsKeyed(sorted);
    var k := m.keys[i];
    GoodsFoldEntry(ss, k);
    var j := WinnerIsFirstBest(ss, k);
    f := GoodsSightingSource(sorted, j);
    item := ss[j].value;
    assert f in multiset(list);
    GoodsNotOutranked(list, k, f.priority);
  }

  /** A bound on the priorities of the sightings of a key bounds every file holding a line with that key. */
  lemma GoodsNotOutranked(list: seq<Ranked>, key: string, p: real)
    requires forall t :: (0 <= t < |GoodsSightings(SortByPriority(list))|
      && GoodsSightings(SortByPriority(list))[t].key == key) ==> GoodsSightings(SortByPriority(list))[t].priority <= p
    ensures forall h, g :: (h in list && h.data.goods.Some? && g in h.data.goods.value
      && g.matchKey == key) ==> h.priority <= p
  {
    var sorted := SortByPriority(list);
    var ss := GoodsSightings(sorted);
    GoodsSightingsKeyed(sorted);
    forall h, g | h in list && h.data.goods.Some? && g in h.data.goods.value && g.matchKey == key
      ensures h.priority <= p
    {
      assert h in multiset(sorted);
      var t := GoodsSightingOfFile(sorted, h, g);
      assert ss[t].key == key;
    }
  }

  // ---- the sweeps as the source writes them ----

  /** `mergeCustomerInfo` */
  method MergeCustomerInfo(list: seq<Ranked>) returns (result: seq<CustomerInfo>, logs: seq<MergeLog>)
    ensures Merged(result, logs) == CustomerMerge(list)
  {
    var sorted := SortByPriority(list);
    var keys, entries;
    keys, entries, logs := SweepCustomers(sorted);
    result := seq(|keys|, k requires 0 <= k < |keys| => entries[keys[k]].value);
    assert result == Values(KeyedMap(keys, entries, logs));
  }

  /** The outer loop of `mergeCustomerInfo`: the files in the given order. */
  method SweepCustomers(sorted: seq<Ranked>)
    returns (keys: seq<string>, entries: map<string, Entry<CustomerInfo>>, logs: seq<MergeLog>)
    ensures KeyedMap(keys, entries, logs) == FoldCustomers(CustomerSightings(sorted))
  {
    keys, entries, logs := [], map[], [];
    var i := 0;
    while i < |sorted|
      invariant 0 <= i <= |sorted|
      invariant KeyedMap(keys, entries, logs) == FoldCustomers(CustomerSightings(sorted[..i]))
    {
      assert sorted[..i + 1][..i] == sorted[..i];
      keys, entries, logs := SweepFileCustomers(keys, entries, logs, CustomerSightings(sorted[..i]), sorted[i]);
      i := i + 1;
    }
    assert sorted[..i] == sorted;
  }

  lemma FoldCustomersSnoc(ss: seq<Sighting<CustomerInfo>>, s: Sighting<CustomerInfo>)
    ensures FoldCustomers(ss + [s]) == CustomerStep(FoldCustomers(ss), s)
  {
    assert (ss + [s])[..|ss|] == ss;
  }

  /** The body of the inner loop of `mergeCustomerInfo`: one customer of a file holding `count` customers. */
  method StoreCustomer(keys0: seq<string>, entries0: map<string, Entry<CustomerInfo>>, logs0: seq<MergeLog>,
                       file: Ranked, count: nat, customer: CustomerInfo)
    returns (keys: seq<string>, entries: map<string, Entry<CustomerInfo>>, logs: seq<MergeLog>)
    ensures KeyedMap(keys, entries, logs) ==
      CustomerStep(KeyedMap(keys0, entries0, logs0), Sighting(CustomerKey(customer), file.fileName, file.priority, count, customer))
  {
    keys, entries, logs := keys0, entries0, logs0;
    var key := if customer.customsCode != "" then customer.customsCode else customer.name;
    if key !in entries || entries[key].priority < file.priority {
      if key !in entries {
        keys := keys + [key];
      }
      entries := entries[key := Entry(customer, file.fileName, file.priority)];
      if |entries| > count {
        logs := logs + [MergeLog("customer", file.fileName, file.priority,
          "客户 " + customer.name + "（编码: " + customer.customsCode + "）来自优先级更高的文件")];
      }
    }
  }

  /** The inner loop of `mergeCustomerInfo`: the customers of one file. */
  method SweepFileCustomers(keys0: seq<string>, entries0: map<string, Entry<CustomerInfo>>, logs0: seq<MergeLog>,
                            ghost done: seq<Sighting<CustomerInfo>>, file: Ranked)
    returns (keys: seq<string>, entries: map<string, Entry<CustomerInfo>>, logs: seq<MergeLog>)
    requires KeyedMap(keys0, entries0, logs0) == FoldCustomers(done)
    ensures KeyedMap(keys, entries, logs) == FoldCustomers(done + CustomerSightingsOf(file))
  {
    keys, entries, logs := keys0, entries0, logs0;
    if file.data.customers.None? {
      assert done + CustomerSightingsOf(file) == done;
      return;
    }
    var customers := file.data.customers.value;
    ghost var sights := CustomerSightingsOf(file);
    assert done + sights[..0] == done;
    var j := 0;
    while j < |customers|
      invariant 0 <= j <= |customers|
      invariant KeyedMap(keys, entries, logs) == FoldCustomers(done + sights[..j])
    {
      var customer := customers[j];
      assert sights[j] == Sighting(CustomerKey(customer), file.fileName, file.priority, |customers|, customer);
      keys, entries, logs := StoreCustomer(keys, entries, logs, file, |customers|, customer);
      AppendNext(done, sights, j);
      FoldCustomersSnoc(done + sights[..j], sights[j]);
      j := j + 1;
    }
    assert sights[..j] == sights;
  }

  /** `mergeGoodsItems` */
  method MergeGoodsItems(list: seq<Ranked>) returns (result: seq<GoodsItem>, logs: seq<MergeLog>)
    ensures Merged(result, logs) == GoodsMerge(list)
  {
    var sorted := SortByPriority(list);
    var keys, entries;
    keys, entries, logs := SweepGoods(sorted);
    result := seq(|keys|, k requires 0 <= k < |keys| => entries[keys[k]].value);
    assert result == Values(KeyedMap(keys, entries, logs));
  }

  /** The outer loop of `mergeGoodsItems`: the files in the given order. */
  method SweepGoods(sorted: seq<Ranked>)
    returns (keys: seq<string>, entries: map<string, Entry<GoodsItem>>, logs: seq<MergeLog>)
    ensures KeyedMap(keys, entries, logs) == FoldGoods(GoodsSightings(sorted))
  {
    keys, entries, logs := [], map[], [];
    var i := 0;
    while i < |sorted|
      invariant 0 <= i <= |sorted|
      invariant KeyedMap(keys, entries, logs) == FoldGoods(GoodsSightings(sorted[..i]))
    {
      GoodsSightingsSnoc(sorted, i);
      keys, entries, logs := SweepFileGoods(keys, entries, logs, GoodsSightings(sorted[..i]), sorted[i]);
      i := i + 1;
    }
    assert sorted[..i] == sorted;
  }

  lemma GoodsSightingsSnoc(files: seq<Ranked>, i: nat)
    requires i < |files|
    ensures GoodsSightings(files[..i + 1]) == GoodsSightings(files[..i]) + GoodsSightingsOf(files[i])
  {
    assert files[..i + 1][..i] == files[..i];
  }

  lemma FoldGoodsSnoc(ss: seq<Sighting<GoodsItem>>, s: Sighting<GoodsItem>)
    ensures FoldGoods(ss + [s]) == GoodsStep(FoldGoods(ss), s)
  {
    assert (ss + [s])[..|ss|] == ss;
  }

  /** The inner loop of `mergeGoodsItems`: the goods lines of one file. */
  method SweepFileGoods(keys0: seq<string>, entries0: map<string, Entry<GoodsItem>>, logs0: seq<MergeLog>,
                        ghost done: seq<Sighting<GoodsItem>>, file: Ranked)
    returns (keys: seq<string>, entries: map<string, Entry<GoodsItem>>, logs: seq<MergeLog>)
    requires KeyedMap(keys0, entries0, logs0) == FoldGoods(done)
    ensures KeyedMap(keys, entries, logs) == FoldGoods(done + GoodsSightingsOf(file))
  {
    keys, entries, logs := keys0, entries0, logs0;
    if file.data.goods.None? {
      assert done + GoodsSightingsOf(file) == done;
      return;
    }
    var goods := file.data.goods.value;
    ghost var sights := GoodsSightingsOf(file);
    assert done + sights[..0] == done;
    var j := 0;
    while j < |goods|
      invariant 0 <= j <= |goods|
      invariant KeyedMap(keys, entries, logs) == FoldGoods(done + sights[..j])
    {
      var item := goods[j];
      var key := item.matchKey;
      assert sights[j] == Sighting(key, file.fileName, file.priority, |goods|, item);
      if key !in entries {
        keys := keys + [key];
        entries := entries[key := Entry(item, file.fileName, file.priority)];
        logs := logs + [MergeLog("goods", file.fileName, file.priority,
          "新增商品: " + item.goodsName + "（匹配键: " + item.matchKey + "）")];
      } else {
        var existing := entries[key];
        if file.priority > existing.priority {
          var merged := MergeGoodsItem(existing.value, item, key);
          entries := entries[key := Entry(merged, file.fileName, file.priority)];
          logs := logs + [MergeLog("goods", file.fileName, file.priority,
            "更新商品: " + item.goodsName + "（匹配键: " + key + "，优先级更高）")];
        }
      }
      AppendNext(done, sights, j);
      FoldGoodsSnoc(done + sights[..j], sights[j]);
      j := j + 1;
    }
    assert sights[..j] == sights;
  }

  // ---- the whole merge ----

  /** `filesData.reduce((sum, f) => sum + f.data.totalRows, 0)` */
  function SumRows(files: seq<FileData>): nat {
    if |files| == 0 then 0 else SumRows(files[..|files| - 1]) + files[|files| - 1].data.totalRows
  }

  /** The row total of two lists of files is the sum of their totals. */
  lemma {:induction false} SumRowsAppend(a: seq<FileData>, b: seq<FileData>)
    ensures SumRows(a + b) == SumRows(a) + SumRows(b)
    decreases |b|
  {
    if |b| == 0 {
      assert a + b == a;
    } else {
      var n := |b| - 1;
      assert (a + b)[..|a + b| - 1] == a + b[..n];
      SumRowsAppend(a, b[..n]);
    }
  }

  function FileNames(files: seq<FileData>): (names: seq<string>)
    ensures |names| == |files| && forall i :: 0 <= i < |files| ==> names[i] == files[i].fileName
  {
    seq(|files|, i requires 0 <= i < |files| => files[i].fileName)
  }

  /** `mergeExcelData`: customers and goods are always present, possibly empty. */
  function MergeExcelData(nt: NumberText, files: seq<FileData>): (r: MergedData)
    ensures r.data.customers.Some? && r.data.goods.Some?
    ensures r.data.enterprise.None? <==> forall i :: 0 <= i < |files| ==> files[i].data.enterprise.None?
    ensures r.data.declaration.None? <==> forall i :: 0 <= i < |files| ==> files[i].data.declaration.None?
    ensures |r.sourceFiles| == |files| && forall i :: 0 <= i < |files| ==> r.sourceFiles[i] == files[i].fileName
    ensures r.data.totalRows == SumRows(files)
    ensures r.data.customers == Some(CustomerMerge(Rank(files)).result)
    ensures r.mergeLogs == MergeEnterpriseInfo(nt, Rank(files)).logs + CustomerMerge(Rank(files)).logs
      + MergeDeclarationInfo(nt, Rank(files)).logs + GoodsMerge(Rank(files)).logs
  {
    var list := Rank(files);
    RankKeepsHolders(files);
    var enterprise := MergeEnterpriseInfo(nt, list);
    var customers := CustomerMerge(list);
    var declaration := MergeDeclarationInfo(nt, list);
    var goods := GoodsMerge(list);
    MergedData(
      ExtractedData(enterprise.result, Some(customers.result), declaration.result, Some(goods.result), SumRows(files)),
      enterprise.logs + customers.logs + declaration.logs + goods.logs,
      FileNames(files))
  }

  /** Ranking keeps which files hold an enterprise and a manifest. */
  lemma RankKeepsHolders(files: seq<FileData>)
    ensures (forall i :: 0 <= i < |Rank(files)| ==> Rank(files)[i].data.enterprise.None?)
      <==> forall i :: 0 <= i < |files| ==> files[i].data.enterprise.None?
    ensures (forall i :: 0 <= i < |Rank(files)| ==> Rank(files)[i].data.declaration.None?)
      <==> forall i :: 0 <= i < |files| ==> files[i].data.declaration.None?
  {
    var rs := Rank(files);
    assert forall i :: 0 <= i < |files| ==> rs[i].data == files[i].data;
  }

  /** Merging a single file keeps its enterprise, manifest and row count, and logs no customer. */
  lemma MergeOneFile(nt: NumberText, f: FileData)
    ensures MergeExcelData(nt, [f]).data.enterprise == f.data.enterprise
    ensures MergeExcelData(nt, [f]).data.declaration == f.data.declaration
    ensures MergeExcelData(nt, [f]).data.totalRows == f.data.totalRows
    ensures CustomerMerge(Rank([f])).logs == []
  {
    var list := Rank([f]);
    assert FirstHighest(list, HasEnterprise(list)) == (if f.data.enterprise.Some? then 0 else -1);
    assert FirstHighest(list, HasDeclaration(list)) == (if f.data.declaration.Some? then 0 else -1);
    assert SumRows([f]) == SumRows([]) + f.data.totalRows;
    CustomerMergeOneFile(list[0]);
  }

  lemma SortOne(x: Ranked)
    ensures SortByPriority([x]) == [x]
  {
    assert [x][..0] == [];
  }

  lemma SortPair(x: Ranked, y: Ranked)
    requires x.priority <= y.priority
    ensures SortByPriority([x, y]) == [x, y]
  {
    assert [x, y][..1] == [x];
    SortOne(x);
  }

  lemma GoodsSightingsPair(x: Ranked, y: Ranked)
    ensures GoodsSightings([x]) == GoodsSightingsOf(x)
    ensures GoodsSightings([x, y]) == GoodsSightingsOf(x) + GoodsSightingsOf(y)
  {
    assert [x][..0] == [];
    assert [x, y][..1] == [x];
  }

  lemma FoldGoodsPair(s: Sighting<GoodsItem>, t: Sighting<GoodsItem>)
    ensures FoldGoods([s]) == GoodsStep(KeyedMap([], map[], []), s)
    ensures FoldGoods([s, t]) == GoodsStep(GoodsStep(KeyedMap([], map[], []), s), t)
  {
    var e := KeyedMap([], map[], []);
    assert [s][..0] == [];
    assert [s, t][..1] == [s];
    assert FoldGoodsFrom(e, []) == e;
    assert FoldGoodsFrom(e, [s]) == GoodsStep(FoldGoodsFrom(e, []), s);
    assert FoldGoodsFrom(e, [s, t]) == GoodsStep(FoldGoodsFrom(e, [s]), t);
  }

  /** Two sightings of one key, the later of higher priority: one record, the later merged into the earlier. */
  lemma TwoSightingsOneKey(sa: Sighting<GoodsItem>, sb: Sighting<GoodsItem>)
    requires sa.key == sb.key && sa.priority < sb.priority
    ensures Values(FoldGoods([sa, sb])) == [MergeGoodsItem(sa.value, sb.value, sa.key)]
  {
    FoldGoodsPair(sa, sb);
    var m1 := GoodsStep(KeyedMap([], map[], []), sa);
    FirstGoodsStep(sa);
    var m := FoldGoods([sa, sb]);
    HigherGoodsStep(m1, sb);
    assert m.keys == [sa.key];
    var vs := Values(m);
    assert |vs| == 1 && vs[0] == m.entries[sa.key].value;
  }

  lemma FirstGoodsStep(s: Sighting<GoodsItem>)
    ensures GoodsStep(KeyedMap([], map[], []), s).keys == [s.key]
    ensures GoodsStep(KeyedMap([], map[], []), s).entries == map[s.key := Entry(s.value, s.fileName, s.priority)]
  {
  }

  lemma HigherGoodsStep(m: KeyedMap<GoodsItem>, s: Sighting<GoodsItem>)
    requires s.key in m.entries && s.priority > m.entries[s.key].priority
    ensures GoodsStep(m, s).keys == m.keys
    ensures GoodsStep(m, s).entries[s.key].value == MergeGoodsItem(m.entries[s.key].value, s.value, s.key)
  {
  }

  /** The goods lines of two one-line files in ascending priority. */
  lemma TwoFilesSightings(x: Ranked, y: Ranked, a: GoodsItem, b: GoodsItem)
    requires x.priority < y.priority
    requires x.data.goods == Some([a]) && y.data.goods == Some([b])
    ensures GoodsSightings(SortByPriority([x, y]))
      == [Sighting(a.matchKey, x.fileName, x.priority, 1, a), Sighting(b.matchKey, y.fileName, y.priority, 1, b)]
  {
    SortPair(x, y);
    GoodsSightingsPair(x, y);
    var sa := Sighting(a.matchKey, x.fileName, x.priority, 1, a);
    var sb := Sighting(b.matchKey, y.fileName, y.priority, 1, b);
    assert GoodsSightingsOf(x) == [sa];
    assert GoodsSightingsOf(y) == [sb];
    assert [sa] + [sb] == [sa, sb];
  }

  /** Two files with one line each under the same key: the higher-priority line is merged into the other. */
  lemma TwoLinesOneKey(x: Ranked, y: Ranked, a: GoodsItem, b: GoodsItem)
    requires x.priority < y.priority
    requires x.data.goods == Some([a]) && y.data.goods == Some([b]) && a.matchKey == b.matchKey
    ensures GoodsMerge([x, y]).result == [MergeGoodsItem(a, b, a.matchKey)]
  {
    var sa := Sighting(a.matchKey, x.fileName, x.priority, 1, a);
    var sb := Sighting(b.matchKey, y.fileName, y.priority, 1, b);
    TwoFilesSightings(x, y, a, b);
    TwoSightingsOneKey(sa, sb);
    assert GoodsMerge([x, y]).result == Values(FoldGoods([sa, sb]));
  }

  /** Listing the same file twice leaves the goods and their log as listing it once. */
  lemma GoodsMergeSameFileTwice(r: Ranked)
    ensures GoodsMerge([r, r]) == GoodsMerge([r])
  {
    SortOne(r);
    SortPair(r, r);
    GoodsSightingsPair(r, r);
    GoodsSightingsKeyed([r]);
    GoodsSweepIdempotent(GoodsSightingsOf(r), r.priority);
  }

  lemma FirstHighestTwice(r: Ranked, h: bool)
    ensures FirstHighest([r, r], [h, h]) == (if h then 0 else -1)
  {
    assert [r, r][..1] == [r];
    assert [h, h][..1] == [h];
  }

  /** The merged goods, enterprise and manifest are those of the three merges over the ranked files. */
  lemma MergeExcelDataParts(nt: NumberText, files: seq<FileData>)
    ensures MergeExcelData(nt, files).data.goods == Some(GoodsMerge(Rank(files)).result)
    ensures MergeExcelData(nt, files).data.enterprise == MergeEnterpriseInfo(nt, Rank(files)).result
    ensures MergeExcelData(nt, files).data.declaration == MergeDeclarationInfo(nt, Rank(files)).result
  {
  }

  lemma MergedGoods(nt: NumberText, files: seq<FileData>)
    ensures MergeExcelData(nt, files).data.goods == Some(GoodsMerge(Rank(files)).result)
  {
  }

  lemma RankPair(f: FileData, g: FileData)
    ensures Rank([f, g]) == [Ranked(f.fileName, f.data, FilePriority(f.fileName, f.data)),
                             Ranked(g.fileName, g.data, FilePriority(g.fileName, g.data))]
  {
  }

  lemma RankTwice(f: FileData)
    ensures Rank([f, f]) == [Rank([f])[0], Rank([f])[0]]
    ensures Rank([f]) == [Rank([f])[0]]
  {
  }

  lemma EnterpriseTwice(nt: NumberText, r: Ranked)
    ensures MergeEnterpriseInfo(nt, [r, r]).result == MergeEnterpriseInfo(nt, [r]).result
  {
    assert HasEnterprise([r, r]) == [r.data.enterprise.Some?, r.data.enterprise.Some?];
    assert HasEnterprise([r]) == [r.data.enterprise.Some?];
    FirstHighestTwice(r, r.data.enterprise.Some?);
    FirstHighestOnce(r, r.data.enterprise.Some?);
  }

  lemma DeclarationTwice(nt: NumberText, r: Ranked)
    ensures MergeDeclarationInfo(nt, [r, r]).result == MergeDeclarationInfo(nt, [r]).result
  {
    assert HasDeclaration([r, r]) == [r.data.declaration.Some?, r.data.declaration.Some?];
    assert HasDeclaration([r]) == [r.data.declaration.Some?];
    FirstHighestTwice(r, r.data.declaration.Some?);
    FirstHighestOnce(r, r.data.declaration.Some?);
  }

  lemma FirstHighestOnce(r: Ranked, h: bool)
    ensures FirstHighest([r], [h]) == (if h then 0 else -1)
  {
    assert [r][..0] == [];
    assert [h][..0] == [];
  }

  lemma RowsTwice(nt: NumberText, f: FileData)
    ensures MergeExcelData(nt, [f, f]).data.totalRows == 2 * MergeExcelData(nt, [f]).data.totalRows
  {
    SumRowsTwice(f);
  }

  lemma SumRowsTwice(f: FileData)
    ensures SumRows([f]) == f.data.totalRows
    ensures SumRows([f, f]) == 2 * f.data.totalRows
  {
    SumRowsAppend([f], [f]);
    assert [f] + [f] == [f, f];
    assert [f][..0] == [];
  }

  /**
   * Listing the same file twice changes neither the goods nor the single records, while
   * its rows are counted twice.
   */
  lemma MergeSameFileTwice(nt: NumberText, f: FileData)
    ensures MergeExcelData(nt, [f, f]).data.goods == MergeExcelData(nt, [f]).data.goods
    ensures MergeExcelData(nt, [f, f]).data.enterprise == MergeExcelData(nt, [f]).data.enterprise
    ensures MergeExcelData(nt, [f, f]).data.declaration == MergeExcelData(nt, [f]).data.declaration
    ensures MergeExcelData(nt, [f, f]).data.totalRows == 2 * MergeExcelData(nt, [f]).data.totalRows
  {
    RowsTwice(nt, f);
    var r := Rank([f])[0];
    RankTwice(f);
    MergeExcelDataParts(nt, [f, f]);
    MergeExcelDataParts(nt, [f]);
    GoodsMergeSameFileTwice(r);
    EnterpriseTwice(nt, r);
    DeclarationTwice(nt, r);
  }

  function Line(name: string, hsCode: string, quantity: Option<real>, origin: Option<string>): GoodsItem {
    GoodsItem(name, hsCode, quantity, None, None, None, None, origin, None, None, None, "HS:" + hsCode)
  }

  /** Two files with one goods line each under the same key: the higher-priority file's line is merged into the other. */
  lemma HigherFileLineWins(nt: NumberText, f: FileData, g: FileData, a: GoodsItem, b: GoodsItem)
    requires FilePriority(f.fileName, f.data) < FilePriority(g.fileName, g.data)
    requires f.data.goods == Some([a]) && g.data.goods == Some([b]) && a.matchKey == b.matchKey
    ensures MergeExcelData(nt, [f, g]).data.goods == Some([MergeGoodsItem(a, b, a.matchKey)])
  {
    var x := Ranked(f.fileName, f.data, FilePriority(f.fileName, f.data));
    var y := Ranked(g.fileName, g.data, FilePriority(g.fileName, g.data));
    RankPair(f, g);
    MergedGoods(nt, [f, g]);
    TwoLinesOneKey(x, y, a, b);
  }

  lemma LaterLineComplete(a: GoodsItem, b: GoodsItem)
    requires a == Line("白炽灯", "8512201000", Some(1000.0), None)
    requires b == Line("机动车辆用白炽灯", "8512201000", Some(2000.0), Some("泰国"))
    ensures MergeGoodsItem(a, b, a.matchKey) == b
  {
  }

  /**
   * A packing list and a manifest both list HS code 8512201000; the manifest file, holding the
   * manifest record, outranks the packing list and its name, quantity and origin win.
   */
  lemma ManifestFileWins(nt: NumberText, decl: DeclarationInfo)
    ensures MergeExcelData(nt, [
        FileData("装箱单.xlsx", ExtractedData(None, None, None, Some([Line("白炽灯", "8512201000", Some(1000.0), None)]), 3)),
        FileData("核注清单.xlsx", ExtractedData(None, None, Some(decl),
          Some([Line("机动车辆用白炽灯", "8512201000", Some(2000.0), Some("泰国"))]), 5))
      ]).data.goods == Some([Line("机动车辆用白炽灯", "8512201000", Some(2000.0), Some("泰国"))])
  {
    var a := Line("白炽灯", "8512201000", Some(1000.0), None);
    var b := Line("机动车辆用白炽灯", "8512201000", Some(2000.0), Some("泰国"));
    var files := [
      FileData("装箱单.xlsx", ExtractedData(None, None, None, Some([a]), 3)),
      FileData("核注清单.xlsx", ExtractedData(None, None, Some(decl), Some([b]), 5))];
    assert FilePriority(files[0].fileName, files[0].data) == 5.3;
    assert FilePriority(files[1].fileName, files[1].data) >= 100.0;
    HigherFileLineWins(nt, files[0], files[1], a, b);
    LaterLineComplete(a, b);
  }

  /**
   * A later, higher-priority line with the same key fills in the name it carries and keeps
   * the quantity only the earlier line has.
   */
  lemma EmptyFieldsFallBack(data: ExtractedData)
    ensures GoodsMerge([
        Ranked("A.xlsx", data.(goods := Some([Line("", "8512201000", Some(1000.0), None)])), 50.0),
        Ranked("B.xlsx", data.(goods := Some([Line("白炽灯", "8512201000", None, None)])), 100.0)
      ]).result == [Line("白炽灯", "8512201000", Some(1000.0), None)]
  {
    var a := Line("", "8512201000", Some(1000.0), None);
    var b := Line("白炽灯", "8512201000", None, None);
    TwoLinesOneKey(Ranked("A.xlsx", data.(goods := Some([a])), 50.0), Ranked("B.xlsx", data.(goods := Some([b])), 100.0), a, b);
  }
}
