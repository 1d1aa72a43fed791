// Stage and ripe files: one appearance record a line, as `Consolidate` writes them and
// `AsciiFileToAppearanceMap` reads them. A file is the sequence of its lines.
module StageFile {
  import opened Ranges
  import opened Sorting
  import opened Text
  import opened Common

  const ASCII_APPEARANCE_SIZE: nat := 59
  const SENTINEL_ADDR := "0xdeaddeaddeaddeaddeaddeaddeaddeaddeaddead"
  const MISCONFIG_REWARD: nat := 99997

  datatype AppRecord = AppRecord(blockNumber: nat, transactionIndex: nat)

  // The in-memory form: appearances by address.
  type AppMap = map<string, seq<AppRecord>>

  // The abstract form: an address appears in a transaction of a block.
  datatype Record = Record(addr: string, block: nat, tx: nat)

  datatype Line = Skipped | Parsed(addr: string, bn: nat, txid: nat) {
    // The fields are narrowed to uint32 when they are stored.
    function Stored(): Record
      requires Parsed?
    {
      Record(addr, bn % UINT32, txid % UINT32)
    }
  }

  // Lines without exactly three fields are ignored, as are the records of a misconfigured miner.
  function ParseLine(line: string): Line {
    var parts := Split(line, '\t');
    if |parts| != 3 then Skipped
    else
      var addr := ToLower(parts[0]);
      var bn := ParseUint(TrimZeros(parts[1]));
      var txid := ParseUint(TrimZeros(parts[2]));
      if addr == SENTINEL_ADDR && txid == MISCONFIG_REWARD then Skipped else Parsed(addr, bn, txid)
  }

  function ParseAll(lines: seq<string>): (ps: seq<Line>)
    ensures |ps| == |lines|
  {
    seq(|lines|, i requires 0 <= i < |lines| => ParseLine(lines[i]))
  }

  function StoredAs(p: Line): multiset<Record> {
    if p.Parsed? then multiset{p.Stored()} else multiset{}
  }

  function StoredOf(ps: seq<Line>): multiset<Record> {
    if ps == [] then multiset{} else StoredOf(ps[..|ps| - 1]) + StoredAs(ps[|ps| - 1])
  }

  // All appearances a file holds.
  function Kept(lines: seq<string>): multiset<Record> {
    StoredOf(ParseAll(lines))
  }

  function Stretch(r: FileRange, p: Line): FileRange {
    if p.Skipped? then r
    else FileRange(if p.bn < r.first then p.bn else r.first, if p.bn > r.last then p.bn else r.last)
  }

  function SpanOf(ps: seq<Line>): FileRange {
    if ps == [] then FileRange(NOPOSN, 0) else Stretch(SpanOf(ps[..|ps| - 1]), ps[|ps| - 1])
  }

  // A missing or empty file has the range 0-0.
  function SpanOfFile(lines: seq<string>): FileRange {
    if lines == [] then FileRange(0, 0) else SpanOf(ParseAll(lines))
  }

  // `m` holds exactly the appearances `recs`.
  ghost predicate Holds(m: AppMap, recs: multiset<Record>) {
    && (forall a :: a in m ==> m[a] != [])
    && (forall a, b, t :: recs[Record(a, b, t)] == if a in m then multiset(m[a])[AppRecord(b, t)] else 0)
  }

  lemma HoldsEmpty(m: AppMap, recs: multiset<Record>)
    requires Holds(m, recs)
    ensures m == map[] <==> recs == multiset{}
  {
    if recs != multiset{} {
      var r :| r in recs;
      assert recs[Record(r.addr, r.block, r.tx)] > 0;
    }
    if m != map[] {
      var a :| a in m;
      var app := m[a][0];
      assert app in multiset(m[a]);
      assert recs[Record(a, app.blockNumber, app.transactionIndex)] > 0;
    }
  }

  function Append(m: AppMap, addr: string, app: AppRecord): AppMap {
    m[addr := (if addr in m then m[addr] else []) + [app]]
  }

  lemma AppendHolds(m: AppMap, recs: multiset<Record>, addr: string, app: AppRecord)
    requires Holds(m, recs)
    ensures var r := Record(addr, app.blockNumber, app.transactionIndex);
      Holds(Append(m, addr, app), recs + multiset{r}) && |recs + multiset{r}| == |recs| + 1
  {
  }

  lemma StoredAsParsed(p: Line)
    requires p.Parsed?
    ensures StoredAs(p) == multiset{Record(p.addr, p.bn % UINT32, p.txid % UINT32)}
  {
  }

  // The loop of `AsciiFileToAppearanceMap`. (Its caller here removes the file it read.)
  method ReadAppearances(lines: seq<string>) returns (appMap: AppMap, fileRange: FileRange, nAdded: nat)
    ensures Holds(appMap, Kept(lines))
    ensures fileRange == SpanOfFile(lines)
    ensures nAdded == |Kept(lines)|
  {
    hide Holds, Append, Stretch, ParseLine, StoredAs;
    appMap, fileRange, nAdded := map[], FileRange(NOPOSN, 0), 0;
    NothingHeld();
    if lines == [] {
      return appMap, FileRange(0, 0), 0;
    }
    ghost var ps := ParseAll(lines);
    for i := 0 to |lines|
      invariant Holds(appMap, StoredOf(ps[..i]))
      invariant fileRange == SpanOf(ps[..i])
      invariant nAdded == |StoredOf(ps[..i])|
    {
      assert ps[..i + 1][..i] == ps[..i];
      var p := ParseLine(lines[i]);
      fileRange := Stretch(fileRange, p);
      if p.Parsed? {
        StoredAsParsed(p);
        AppendHolds(appMap, StoredOf(ps[..i]), p.addr, AppRecord(p.bn % UINT32, p.txid % UINT32));
        appMap := Append(appMap, p.addr, AppRecord(p.bn % UINT32, p.txid % UINT32));
        nAdded := nAdded + 1;
      } else {
        SkippedAddsNothing(StoredOf(ps[..i]), p);
      }
    }
    assert ps[..|lines|] == ps;
  }

  lemma NothingHeld()
    ensures Holds(map[], multiset{})
  {
  }

  lemma SkippedAddsNothing(recs: multiset<Record>, p: Line)
    requires p.Skipped?
    ensures recs + StoredAs(p) == recs
  {
  }

  // The appearances of each address in one map are appended to those in the other, in any order of the addresses.
  method Merge(appMap: AppMap, thisMap: AppMap, ghost have: multiset<Record>, ghost found: multiset<Record>)
    returns (merged: AppMap)
    requires Holds(appMap, have) && Holds(thisMap, found)
    ensures Holds(merged, have + found)
  {
    hide Holds;
    merged := appMap;
    var todo := thisMap.Keys;
    while todo != {}
      invariant todo <= thisMap.Keys
      invariant forall a :: a in merged <==> a in appMap || (a in thisMap && a !in todo)
      invariant forall a :: a in merged ==>
        merged[a] == (if a in appMap then appMap[a] else []) + (if a in thisMap && a !in todo then thisMap[a] else [])
      decreases |todo|
    {
      var addr :| addr in todo;
      var before := if addr in merged then merged[addr] else [];
      merged := merged[addr := before + thisMap[addr]];
      todo := todo - {addr};
    }
    JoinedHolds(appMap, thisMap, merged, have, found);
  }

  lemma JoinedHolds(m: AppMap, n: AppMap, joined: AppMap, have: multiset<Record>, found: multiset<Record>)
    requires Holds(m, have) && Holds(n, found)
    requires forall a :: a in joined <==> a in m || a in n
    requires forall a :: a in joined ==> joined[a] == (if a in m then m[a] else []) + (if a in n then n[a] else [])
    ensures Holds(joined, have + found)
  {
  }

  function Tagged(addr: string, apps: seq<AppRecord>): (t: seq<Record>)
    ensures |t| == |apps|
  {
    seq(|apps|, i requires 0 <= i < |apps| => Record(addr, apps[i].blockNumber, apps[i].transactionIndex))
  }

  lemma {:induction false} TaggedCount(addr: string, apps: seq<AppRecord>, a: string, b: nat, t: nat)
    ensures multiset(Tagged(addr, apps))[Record(a, b, t)] == if a == addr then multiset(apps)[AppRecord(b, t)] else 0
  {
    if apps != [] {
      var k := |apps| - 1;
      TaggedCount(addr, apps[..k], a, b, t);
      assert apps == apps[..k] + [apps[k]];
      assert Tagged(addr, apps) ==
             Tagged(addr, apps[..k]) + [Record(addr, apps[k].blockNumber, apps[k].transactionIndex)];
    }
  }

  // The records of a map in some order: the appearance table of a chunk, or the rows of a stage file.
  method Flatten(appMap: AppMap, ghost recs: multiset<Record>) returns (table: seq<Record>)
    requires Holds(appMap, recs)
    ensures multiset(table) == recs
  {
    table := [];
    var todo := appMap.Keys;
    while todo != {}
      invariant todo <= appMap.Keys
      invariant forall a, b, t ::
        multiset(table)[Record(a, b, t)] ==
        (if a in appMap && a !in todo then multiset(appMap[a])[AppRecord(b, t)] else 0)
      decreases |todo|
    {
      var addr :| addr in todo;
      forall a, b, t
        ensures multiset(Tagged(addr, appMap[addr]))[Record(a, b, t)] ==
          (if a == addr then multiset(appMap[addr])[AppRecord(b, t)] else 0)
      {
        TaggedCount(addr, appMap[addr], a, b, t);
      }
      table := table + Tagged(addr, appMap[addr]);
      todo := todo - {addr};
    }
    forall r: Record ensures multiset(table)[r] == recs[r] {
      assert r == Record(r.addr, r.block, r.tx);
    }
  }

  // ---- Writing, and reading back ----

  // "%s\t%09d\t%05d"
  function Format(r: Record): string {
    r.addr + ("\t" + (Pad(r.block, 9) + ("\t" + Pad(r.tx, 5))))
  }

  // What the parser stores, apart from index values that wrap onto the misconfigured-miner marker.
  ghost predicate Writable(r: Record) {
    && '\t' !in r.addr && ToLower(r.addr) == r.addr
    && r.block < UINT32 && r.tx < UINT32
    && !(r.addr == SENTINEL_ADDR && r.tx == MISCONFIG_REWARD)
  }

  lemma ParseFormat(r: Record)
    requires Writable(r)
    ensures ParseLine(Format(r)) == Parsed(r.addr, r.block, r.tx)
  {
    var bn, txid := Pad(r.block, 9), Pad(r.tx, 5);
    assert '\t' !in bn && '\t' !in txid;
    SplitJoin(r.addr, bn + ("\t" + txid), '\t');
    SplitJoin(bn, txid, '\t');
    SplitField(txid, '\t');
    assert Split(Format(r), '\t') == [r.addr, bn, txid];
    ParsePad(r.block, 9);
    ParsePad(r.tx, 5);
  }

  // What the parser makes of a row, whatever its three fields are: capitals become small letters, the
  // numbers are cut to 32 bits, and the rows that mark a misconfigured miner are left out.
  lemma RowMeans(addr: string, low: string, bn: string, txid: string)
    requires '\t' !in addr && '\t' !in bn && '\t' !in txid
    requires |low| == |addr| && forall i :: 0 <= i < |addr| ==>
      low[i] == if 'A' <= addr[i] <= 'Z' then (addr[i] as int + 32) as char else addr[i]
    ensures var b, t := ParseUint(TrimZeros(bn)), ParseUint(TrimZeros(txid));
      Kept([addr + "\t" + bn + "\t" + txid]) ==
        if low == "0xdeaddeaddeaddeaddeaddeaddeaddeaddeaddead" && t == 99997 then multiset{}
        else multiset{Record(low, b % 0x1_0000_0000, t % 0x1_0000_0000)}
  {
    hide Split, TrimZeros, ParseUint, Kept, StoredAs;
    ThreeFields(addr, bn, txid);
    var row := addr + "\t" + bn + "\t" + txid;
    assert ToLower(addr) == low;
    KeptLine(row);
    StoredOrNot(row);
  }

  lemma ThreeFields(addr: string, bn: string, txid: string)
    requires '\t' !in addr && '\t' !in bn && '\t' !in txid
    ensures Split(addr + "\t" + bn + "\t" + txid, '\t') == [addr, bn, txid]
  {
    hide Split;
    assert addr + "\t" + bn + "\t" + txid == addr + ("\t" + (bn + ("\t" + txid)));
    SplitJoin(addr, bn + ("\t" + txid), '\t');
    SplitJoin(bn, txid, '\t');
    SplitField(txid, '\t');
  }

  lemma StoredOrNot(line: string)
    ensures var p := ParseLine(line);
      StoredAs(p) == if p.Parsed? then multiset{p.Stored()} else multiset{}
  {
  }

  // The rows that are written: a padded block and a padded index.
  lemma PaddedRow(addr: string, low: string, b: nat, t: nat)
    requires '\t' !in addr && b <= NOPOSN && t <= NOPOSN
    requires |low| == |addr| && forall i :: 0 <= i < |addr| ==>
      low[i] == if 'A' <= addr[i] <= 'Z' then (addr[i] as int + 32) as char else addr[i]
    ensures Kept([addr + "\t" + Pad(b, 9) + "\t" + Pad(t, 5)]) ==
      if low == "0xdeaddeaddeaddeaddeaddeaddeaddeaddeaddead" && t == 99997 then multiset{}
      else multiset{Record(low, b % 0x1_0000_0000, t % 0x1_0000_0000)}
  {
    assert '\t' !in Pad(b, 9) && '\t' !in Pad(t, 5);
    RowMeans(addr, low, Pad(b, 9), Pad(t, 5));
    ParsePad(b, 9);
    ParsePad(t, 5);
  }

  // Lines of fewer or more than three fields are ignored.
  lemma OtherLine(line: string)
    requires multiset(line)['\t'] != 2
    ensures Kept([line]) == multiset{}
  {
    SplitCount(line, '\t');
    KeptLine(line);
  }

  lemma KeptLine(line: string)
    ensures Kept([line]) == StoredAs(ParseLine(line))
  {
    assert ParseAll([line]) == [] + [ParseLine(line)];
    StoredSnoc([], ParseLine(line));
  }

  // A file holds what its lines hold.
  lemma KeptAppends(lines: seq<string>, line: string)
    ensures Kept(lines + [line]) == Kept(lines) + Kept([line])
  {
    assert ParseAll(lines + [line]) == ParseAll(lines) + [ParseLine(line)];
    StoredSnoc(ParseAll(lines), ParseLine(line));
    KeptLine(line);
  }

  lemma {:induction false} StoredFrom(ps: seq<Line>, r: Record) returns (i: nat)
    requires r in StoredOf(ps)
    ensures i < |ps| && ps[i].Parsed? && ps[i].Stored() == r
  {
    var k := |ps| - 1;
    if r in StoredAs(ps[k]) {
      i := k;
    } else {
      i := StoredFrom(ps[..k], r);
    }
  }

  // No appearance of a misconfigured miner's marker is ever kept.
  lemma NoMarkerKept(lines: seq<string>, r: Record)
    requires Canonical(lines) && r in Kept(lines)
    ensures !(r.addr == "0xdeaddeaddeaddeaddeaddeaddeaddeaddeaddead" && r.tx == 99997)
  {
    var i := StoredFrom(ParseAll(lines), r);
    assert Fits(ParseAll(lines)[i]);
  }

  function FormatAll(table: seq<Record>): (lines: seq<string>)
    ensures |lines| == |table|
    ensures forall i :: 0 <= i < |table| ==> lines[i] == Format(table[i])
  {
    seq(|table|, i requires 0 <= i < |table| => Format(table[i]))
  }

  // The stage file for a table of records.
  function StageLines(table: seq<Record>): (lines: seq<string>)
    ensures |lines| == |table|
  {
    Sort(FormatAll(table), StringLeq)
  }

  function Rows(table: seq<Record>): (ps: seq<Line>)
    ensures |ps| == |table|
  {
    seq(|table|, i requires 0 <= i < |table| => Parsed(table[i].addr, table[i].block, table[i].tx))
  }

  lemma {:induction false} StoredRows(table: seq<Record>)
    requires forall r :: r in table ==> Writable(r)
    ensures StoredOf(Rows(table)) == multiset(table)
  {
    if table != [] {
      var k := |table| - 1;
      StoredRows(table[..k]);
      assert Rows(table)[..k] == Rows(table[..k]);
      assert table[k] in table && Rows(table)[k].Stored() == table[k];
      assert table == table[..k] + [table[k]];
    }
  }

  lemma StoredSnoc(ps: seq<Line>, p: Line)
    ensures StoredOf(ps + [p]) == StoredOf(ps) + StoredAs(p)
  {
  }

  lemma SwapLast(a: multiset<Record>, b: multiset<Record>, c: multiset<Record>)
    ensures (a + b) + c == (a + c) + b
  {
  }

  lemma WithoutSnoc(t: seq<Line>, i: nat)
    requires i < |t| - 1
    ensures Without(t, i) == Without(t[..|t| - 1], i) + [t[|t| - 1]]
  {
  }

  lemma {:induction false} StoredWithout(t: seq<Line>, i: nat)
    requires i < |t|
    ensures StoredOf(t) == StoredOf(Without(t, i)) + StoredAs(t[i])
  {
    hide StoredAs;
    var k := |t| - 1;
    if i < k {
      var rest := Without(t[..k], i);
      StoredWithout(t[..k], i);
      WithoutSnoc(t, i);
      StoredSnoc(rest, t[k]);
      SwapLast(StoredOf(rest), StoredAs(t[i]), StoredAs(t[k]));
    } else {
      assert Without(t, i) == t[..k];
    }
  }

  lemma {:induction false} StoredPermutation(s: seq<Line>, t: seq<Line>)
    requires multiset(s) == multiset(t)
    ensures StoredOf(s) == StoredOf(t)
  {
    assert |multiset(s)| == |multiset(t)|;
    if s != [] {
      assert s[0] in multiset(t);
      var i :| 0 <= i < |t| && t[i] == s[0];
      StoredPermutation(Without(s, 0), Without(t, i));
      StoredWithout(s, 0);
      StoredWithout(t, i);
    }
  }

  // Writing a table and parsing the file gives the same records back, each as often as it occurred.
  lemma StageRoundTrip(table: seq<Record>)
    requires forall r :: r in table ==> Writable(r)
    ensures Kept(StageLines(table)) == multiset(table)
  {
    var rows, lines := FormatAll(table), StageLines(table);
    ParseRows(table);
    StoredRows(table);
    MapPermutation(ParseLine, lines, rows, ParseAll(lines), ParseAll(rows));
    StoredPermutation(ParseAll(lines), Rows(table));
  }

  lemma ParseRows(table: seq<Record>)
    requires forall r :: r in table ==> Writable(r)
    ensures ParseAll(FormatAll(table)) == Rows(table)
  {
    forall i | 0 <= i < |table| ensures ParseLine(FormatAll(table)[i]) == Rows(table)[i] {
      ParseFormat(table[i]);
    }
  }

  // ---- Shape of the written file ----

  // A 42-character address, a block of at most nine digits and an index of at most five.
  ghost predicate FixedWidth(r: Record) {
    |r.addr| == 42 && r.block < 1_000_000_000 && r.tx < 100_000
  }

  predicate RecordLeq(r: Record, s: Record) {
    if r.addr != s.addr then StringLeq(r.addr, s.addr)
    else if r.block != s.block then r.block < s.block
    else r.tx <= s.tx
  }

  lemma FormatOrder(r: Record, s: Record)
    requires FixedWidth(r) && FixedWidth(s)
    ensures StringLeq(Format(r), Format(s)) <==> RecordLeq(r, s)
    ensures |Format(r)| == ASCII_APPEARANCE_SIZE - 1
  {
    assert Pow10(9) == 1_000_000_000 && Pow10(5) == 100_000;
    PadOrder(r.block, s.block, 9);
    PadOrder(r.tx, s.tx, 5);
    var br, bs, tr, ts := Pad(r.block, 9), Pad(s.block, 9), Pad(r.tx, 5), Pad(s.tx, 5);
    LeqByField(r.addr, s.addr, "\t" + (br + ("\t" + tr)), "\t" + (bs + ("\t" + ts)));
    LeqByField("\t", "\t", br + ("\t" + tr), bs + ("\t" + ts));
    LeqByField(br, bs, "\t" + tr, "\t" + ts);
    LeqByField("\t", "\t", tr, ts);
  }

  // Every line ends in one newline.
  function FileSize(lines: seq<string>): nat {
    if lines == [] then 0 else FileSize(lines[..|lines| - 1]) + |lines[|lines| - 1]| + 1
  }

  lemma {:induction false} FixedWidthSize(lines: seq<string>)
    requires forall line :: line in lines ==> |line| == ASCII_APPEARANCE_SIZE - 1
    ensures FileSize(lines) == ASCII_APPEARANCE_SIZE * |lines|
  {
    if lines != [] {
      FixedWidthSize(lines[..|lines| - 1]);
    }
  }

  lemma RecordOrderIsTotal()
    ensures TotalPreorder(RecordLeq)
  {
    StringOrderIsTotal();
  }

  // Sorting the rows as strings puts the records in (address, block, index) order.
  lemma StageOrder(table: seq<Record>)
    requires forall r :: r in table ==> FixedWidth(r)
    ensures SortedBy(Sort(table, RecordLeq), RecordLeq)
    ensures StageLines(table) == FormatAll(Sort(table, RecordLeq))
  {
    var t := Sort(table, RecordLeq);
    var rows := FormatAll(t);
    RecordOrderIsTotal();
    SortSorts(table, RecordLeq);
    forall r | r in t ensures FixedWidth(r) { assert r in multiset(t); }
    forall i, j | 0 <= i < j < |t| ensures StringLeq(rows[i], rows[j]) {
      FormatOrder(t[i], t[j]);
    }
    StringOrderIsTotal();
    SortSorts(FormatAll(table), StringLeq);
    MapPermutation(Format, t, table, rows, FormatAll(table));
    OneArrangement(StringLeq, multiset(rows), StageLines(table), rows);
  }

  // The size of the stage file tells how many records it holds.
  lemma StageSize(table: seq<Record>)
    requires forall r :: r in table ==> FixedWidth(r)
    ensures FileSize(StageLines(table)) / ASCII_APPEARANCE_SIZE == |table|
  {
    var lines := StageLines(table);
    forall line | line in lines ensures |line| == ASCII_APPEARANCE_SIZE - 1 {
      assert line in multiset(lines) && line in FormatAll(table);
      var i :| 0 <= i < |table| && line == Format(table[i]);
      FormatOrder(table[i], table[i]);
    }
    FixedWidthSize(lines);
  }

  // ---- The range a file spans ----

  ghost predicate Fits(p: Line) {
    p.Parsed? ==> p.bn < UINT32 && p.txid < UINT32
  }

  // Every number in the file fits the fields it is stored in.
  ghost predicate Canonical(lines: seq<string>) {
    forall i :: 0 <= i < |lines| ==> Fits(ParseAll(lines)[i])
  }

  // A range as small as can be that contains some appearances.
  ghost predicate Tight(recs: multiset<Record>, span: FileRange) {
    if recs == multiset{} then span == FileRange(NOPOSN, 0)
    else
      && (forall r :: r in recs ==> span.Contains(r.block))
      && (exists r :: r in recs && r.block == span.first)
      && (exists r :: r in recs && r.block == span.last)
  }

  lemma StretchTight(recs: multiset<Record>, span: FileRange, p: Line)
    requires Tight(recs, span) && Fits(p)
    ensures Tight(recs + StoredAs(p), Stretch(span, p))
  {
    if p.Parsed? {
      var all := recs + StoredAs(p);
      assert forall r :: r in all <==> r in recs || r == p.Stored();
      assert p.Stored() in all && p.Stored().block == p.bn;
      hide StoredAs;
    } else {
      assert recs + StoredAs(p) == recs;
    }
  }

  lemma {:induction false} SpanIsTight(ps: seq<Line>)
    requires forall i :: 0 <= i < |ps| ==> Fits(ps[i])
    ensures Tight(StoredOf(ps), SpanOf(ps))
  {
    hide Tight, StoredAs, Stretch, Fits;
    if ps == [] {
      NothingIsTight();
    } else {
      SpanIsTight(ps[..|ps| - 1]);
      StretchTight(StoredOf(ps[..|ps| - 1]), SpanOf(ps[..|ps| - 1]), ps[|ps| - 1]);
    }
  }

  lemma NothingIsTight()
    ensures Tight(multiset{}, FileRange(NOPOSN, 0))
  {
  }

  // A stage file written from writable records is canonical again.
  lemma StageIsCanonical(table: seq<Record>)
    requires forall r :: r in table ==> Writable(r)
    ensures Canonical(StageLines(table))
  {
    var lines := StageLines(table);
    forall i | 0 <= i < |lines| ensures Fits(ParseAll(lines)[i]) {
      assert lines[i] in multiset(lines) && lines[i] in FormatAll(table);
      var j :| 0 <= j < |table| && lines[i] == Format(table[j]);
      ParseFormat(table[j]);
    }
  }
}
