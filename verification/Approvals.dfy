// HandleApprovals: the latest Approval event (EIP-20, section "Events") of every owner, spender and token.
module Approvals {
  import opened Sorting
  import opened Wrappers

  // Addresses compare as 20-byte numbers.
  type Address = nat

  datatype Key = Key(owner: Address, spender: Address, token: Address)

  // An Approval log that passes the filters. Its topics hold the owner and the spender.
  datatype Log = Log(block: nat, tx: nat, logId: nat, ts: int, token: Address, owner: Address, spender: Address) {
    function KeyOf(): Key {
      Key(owner, spender, token)
    }
  }

  datatype Info = Info(allowance: Option<nat>, ts: int, block: nat, tx: nat, logId: nat)

  // The order of positions on the chain.
  predicate PosLeq(a: Log, b: Log) {
    a.block < b.block || (a.block == b.block && (a.tx < b.tx || (a.tx == b.tx && a.logId <= b.logId)))
  }

  ghost predicate At(i: Info, l: Log) {
    i.block == l.block && i.tx == l.tx && i.logId == l.logId && i.ts == l.ts
  }

  // The log of its key with the greatest position.
  ghost predicate IsLatest(seen: set<Log>, l: Log) {
    l in seen && forall x :: x in seen && x.KeyOf() == l.KeyOf() ==> PosLeq(x, l)
  }

  ghost predicate Holds(approvals: map<Key, Info>, seen: set<Log>, k: Key)
    requires k in approvals
  {
    exists l :: IsLatest(seen, l) && l.KeyOf() == k && At(approvals[k], l)
  }

  // The map holds the latest log of every key seen, and no other key.
  ghost predicate Latest(approvals: map<Key, Info>, seen: set<Log>) {
    && (forall l :: l in seen ==> l.KeyOf() in approvals)
    && (forall k :: k in approvals ==> Holds(approvals, seen, k))
  }

  lemma NewKey(approvals: map<Key, Info>, seen: set<Log>, item: Log, info: Info)
    requires Latest(approvals, seen) && At(info, item)
    requires item.KeyOf() !in approvals || forall x :: x in seen && x.KeyOf() == item.KeyOf() ==> PosLeq(x, item)
    ensures Latest(approvals[item.KeyOf() := info], seen + {item})
  {
  }

  lemma OldKey(approvals: map<Key, Info>, seen: set<Log>, item: Log)
    requires Latest(approvals, seen) && item.KeyOf() in approvals
    requires forall l :: IsLatest(seen, l) && At(approvals[item.KeyOf()], l) ==> PosLeq(item, l)
    ensures Latest(approvals, seen + {item})
  {
  }

  lemma LaterThanAll(approvals: map<Key, Info>, seen: set<Log>, item: Log)
    requires Latest(approvals, seen) && item.KeyOf() in approvals
    ensures var i := approvals[item.KeyOf()];
      if i.block < item.block ||
         (i.block == item.block && (i.tx < item.tx || (i.tx == item.tx && i.logId < item.logId)))
      then forall x :: x in seen && x.KeyOf() == item.KeyOf() ==> PosLeq(x, item)
      else forall l :: IsLatest(seen, l) && At(i, l) ==> PosLeq(item, l)
  {
  }

  // Whatever order the logs came in, and however they were split up, the positions are the same.
  lemma LatestIsUnique(a: map<Key, Info>, b: map<Key, Info>, seen: set<Log>)
    requires Latest(a, seen) && Latest(b, seen)
    ensures a.Keys == b.Keys
    ensures forall k :: k in a && k in b ==> a[k].block == b[k].block && a[k].tx == b[k].tx && a[k].logId == b[k].logId
  {
  }

  // ---- What monitors deliver ----

  // The logs of one appearance.
  datatype Fetched = QueryFails | Logs(logs: seq<Log>)

  type Slice = map<nat, Fetched>

  datatype MonitorData = SliceError | NoAppearances | Slices(slices: seq<Slice>)

  ghost function LogsOf(slice: Slice): set<Log> {
    set a, l | a in slice && slice[a].Logs? && l in slice[a].logs :: l
  }

  ghost function LogsOfSlices(slices: seq<Slice>): set<Log> {
    if slices == [] then {} else LogsOfSlices(slices[..|slices| - 1]) + LogsOf(slices[|slices| - 1])
  }

  ghost function LogsOfMonitors(ms: seq<MonitorData>): set<Log> {
    if ms == [] then {}
    else
      var m := ms[|ms| - 1];
      LogsOfMonitors(ms[..|ms| - 1]) + if m.Slices? then LogsOfSlices(m.slices) else {}
  }

  // ---- Output ----

  datatype Allowance = Unavailable | NoAnswer | Amount(wei: nat)

  datatype Query = Query(noZero: bool, at: (Key, nat) -> Allowance)

  datatype Row = Row(key: Key, allowance: nat, ts: int, block: nat, tx: nat, logId: nat)

  predicate KeyLeq(a: Key, b: Key) {
    a.token < b.token ||
    (a.token == b.token && (a.spender < b.spender || (a.spender == b.spender && a.owner <= b.owner)))
  }

  predicate Shown(q: Query, k: Key, block: nat) {
    var a := q.at(k, block);
    a.Amount? && !(q.noZero && a.wei == 0)
  }

  ghost predicate Ascending(rows: seq<Row>) {
    forall i, j :: 0 <= i < j < |rows| ==> KeyLeq(rows[i].key, rows[j].key) && rows[i].key != rows[j].key
  }

  // The rows, in key order, are the keys whose allowance at their latest log is to be shown.
  ghost predicate Output(rows: seq<Row>, q: Query, seen: set<Log>) {
    && Ascending(rows)
    && (forall i :: 0 <= i < |rows| ==> RowOk(rows[i], q, seen))
    && (forall l :: IsLatest(seen, l) && Shown(q, l.KeyOf(), l.block) ==> HasKey(rows, l.KeyOf()))
  }

  ghost predicate HasKey(rows: seq<Row>, k: Key) {
    exists i :: 0 <= i < |rows| && rows[i].key == k
  }

  predicate SamePos(r: Row, l: Log) {
    r.block == l.block && r.tx == l.tx && r.logId == l.logId && r.ts == l.ts
  }

  ghost predicate RowOk(r: Row, q: Query, seen: set<Log>) {
    && q.at(r.key, r.block) == Amount(r.allowance) && Shown(q, r.key, r.block)
    && exists l :: IsLatest(seen, l) && l.KeyOf() == r.key && SamePos(r, l)
  }

  class ApprovalMap {
    var approvals: map<Key, Info>

    constructor ()
      ensures approvals == map[]
    {
      approvals := map[];
    }

    // Keeps the log if it is the first of its key or later than the one held.
    method Note(item: Log, ghost seen: set<Log>)
      requires Latest(approvals, seen)
      modifies this
      ensures Latest(approvals, seen + {item})
      // only this key can change, and its allowance is yet to be queried
      ensures approvals == old(approvals) ||
              approvals == old(approvals)[item.KeyOf() := Info(None, item.ts, item.block, item.tx, item.logId)]
    {
      hide Latest;
      var key := item.KeyOf();
      var isLater := false;
      if key !in approvals {
        isLater := true;
      } else {
        var existing := approvals[key];
        LaterThanAll(approvals, seen, item);
        if item.block > existing.block {
          isLater := true;
        } else if item.block == existing.block {
          if item.tx > existing.tx {
            isLater := true;
          } else if item.tx == existing.tx {
            if item.logId > existing.logId {
              isLater := true;
            }
          }
        }
      }
      if isLater {
        var info := Info(None, item.ts, item.block, item.tx, item.logId);
        NewKey(approvals, seen, item, info);
        approvals := approvals[key := info];
      } else {
        OldKey(approvals, seen, item);
      }
    }

    // The logs in the order given.
    method AddAll(items: seq<Log>, ghost seen: set<Log>)
      requires Latest(approvals, seen)
      modifies this
      ensures Latest(approvals, seen + LogSet(items))
    {
      hide Latest, LogSet;
      NoLogs(seen);
      for i := 0 to |items|
        invariant Latest(approvals, seen + LogSet(items[..i]))
      {
        Note(items[i], seen + LogSet(items[..i]));
        OneMoreLog(seen, items, i);
      }
      assert items[..|items|] == items;
    }

    // All logs of a slice, sorted. Their transactions are fetched first.
    method AddSlice(slice: Slice, ghost seen: set<Log>) returns (failed: bool)
      requires Latest(approvals, seen)
      modifies this
      ensures failed <==> Failing(slice)
      ensures failed ==> approvals == old(approvals)
      ensures !failed ==> Latest(approvals, seen + LogsOf(slice))
    {
      hide Latest, LogSet, LogsOf, Sort;
      var items;
      items, failed := Collect(slice);
      if failed {
        return;
      }
      SameLogs(items, Sort(items, PosLeq));
      AddAll(Sort(items, PosLeq), seen);
    }

    // Queries the allowance of every key held, in any order, and selects the keys to show.
    method Select(q: Query, ghost seen: set<Log>) returns (apps: seq<Key>)
      requires Latest(approvals, seen)
      modifies this
      ensures Latest(approvals, seen)
      ensures Selected(q, approvals, apps)
    {
      hide Latest, Shown, NoRepeats, Selected;
      apps := [];
      var todo := approvals.Keys;
      NoKeys(q, approvals);
      while todo != {}
        invariant todo <= approvals.Keys
        invariant Selected(q, approvals - todo, apps)
        invariant Latest(approvals, seen)
        decreases |todo|
      {
        var key :| key in todo;
        assert todo == (todo - {key}) + {key};
        todo := todo - {key};
        var info := approvals[key];
        SelectedOneMore(q, approvals, todo, key, apps);
        match q.at(key, info.block) {
          case Unavailable =>
          case NoAnswer =>
          case Amount(wei) =>
            if !(q.noZero && wei == 0) {
              NewAllowance(approvals, seen, key, Amount(wei));
              approvals := approvals[key := info.(allowance := Some(wei))];
              apps := apps + [key];
            }
        }
      }
      assert approvals - {} == approvals;
    }

    // The rows in key order.
    method Emit(q: Query, ghost seen: set<Log>) returns (rows: seq<Row>)
      requires Latest(approvals, seen)
      modifies this
      ensures Latest(approvals, seen)
      ensures Output(rows, q, seen)
    {
      hide Latest, Shown, NoRepeats, Output, Sort;
      var unsorted := Select(q, seen);
      var apps := Sort(unsorted, KeyLeq);
      KeyOrderIsTotal();
      SortSorts(unsorted, KeyLeq);
      SelectedSorted(q, approvals, unsorted, apps);
      rows := [];
      forall j | 0 <= j < |apps| ensures apps[j] in approvals && approvals[apps[j]].allowance.Some? {
        assert apps[j] in apps;
      }
      for i := 0 to |apps|
        invariant |rows| == i
        invariant forall j :: 0 <= j < |apps| ==> apps[j] in approvals && approvals[apps[j]].allowance.Some?
        invariant forall j :: 0 <= j < i ==> rows[j] == RowOf(apps[j], approvals[apps[j]])
      {
        rows := rows + [RowOf(apps[i], approvals[apps[i]])];
      }
      RowsAreOutput(q, approvals, seen, apps, rows);
    }

    // The slices of one monitor. `cancelled` tells before which slices the user has cancelled.
    method AddSlices(slices: seq<Slice>, cancelled: set<nat>, ghost seen: set<Log>) returns (stopped: bool)
      requires Latest(approvals, seen)
      modifies this
      ensures stopped <==> exists i :: 0 <= i < |slices| && (i in cancelled || Failing(slices[i]))
      ensures !stopped ==> Latest(approvals, seen + LogsOfSlices(slices))
    {
      hide Latest, LogsOf;
      assert seen + {} == seen;
      for i := 0 to |slices|
        invariant Latest(approvals, seen + LogsOfSlices(slices[..i]))
        invariant forall j :: 0 <= j < i ==> j !in cancelled && !Failing(slices[j])
      {
        if i in cancelled {
          return true;
        }
        stopped := AddSlice(slices[i], seen + LogsOfSlices(slices[..i]));
        if stopped {
          return;
        }
        assert slices[..i + 1][..i] == slices[..i];
        assert (seen + LogsOfSlices(slices[..i])) + LogsOf(slices[i]) == seen + LogsOfSlices(slices[..i + 1]);
      }
      assert slices[..|slices|] == slices;
      return false;
    }

    // One emission after every monitor that has appearances or fails to load; a failure cancels the query,
    // so that the slices of later monitors are not looked at. `after` tells after how many monitors each came.
    method HandleApprovals(monitors: seq<MonitorData>, cancelled: nat -> set<nat>, q: Query)
      returns (emitted: seq<seq<Row>>, ghost after: seq<nat>, stopped: bool)
      requires approvals == map[]
      modifies this
      ensures |after| == |emitted| && forall j :: 0 <= j < |after| ==> 0 < after[j] <= |monitors|
      ensures forall i, j :: 0 <= i < j < |after| ==> after[i] < after[j]
      ensures forall j :: 0 <= j < |emitted| ==> Output(emitted[j], q, LogsOfMonitors(monitors[..after[j]]))
      ensures stopped <==> !Passed(monitors, cancelled, |monitors|)
      ensures forall n :: 0 < n <= |monitors| ==>
        (n in after <==> Passed(monitors, cancelled, n) && !monitors[n - 1].NoAppearances?)
      ensures !stopped ==> Latest(approvals, LogsOfMonitors(monitors))
    {
      hide Latest, Output, LogsOfSlices, LogsOfMonitors, Failing, Passed;
      emitted, after, stopped := [], [], false;
      var given := false;
      NothingSeen();
      PassedPrefixes(monitors, cancelled);
      for n := 0 to |monitors|
        invariant |after| == |emitted| && forall j :: 0 <= j < |after| ==> 0 < after[j] <= n
        invariant forall i, j :: 0 <= i < j < |after| ==> after[i] < after[j]
        invariant forall j :: 0 <= j < |emitted| ==> Output(emitted[j], q, LogsOfMonitors(monitors[..after[j]]))
        invariant given <==> exists i :: 0 <= i < n && monitors[i].SliceError?
        invariant Passed(monitors, cancelled, n) && Latest(approvals, LogsOfMonitors(monitors[..n]))
        invariant forall m :: 0 < m <= n ==> (m in after <==> !monitors[m - 1].NoAppearances?)
      {
        ghost var seen := LogsOfMonitors(monitors[..n]);
        OneMoreMonitor(monitors, n);
        PassedOneMore(monitors, cancelled, n);
        match monitors[n] {
          case SliceError =>
            given := true;
            var rows := Emit(q, seen);
            emitted, after := emitted + [rows], after + [n + 1];
          case NoAppearances =>
          case Slices(slices) =>
            if given && slices != [] {
              return emitted, after, true;
            }
            stopped := AddSlices(slices, cancelled(n), seen);
            if stopped {
              return;
            }
            var rows := Emit(q, seen + LogsOfSlices(slices));
            emitted, after := emitted + [rows], after + [n + 1];
        }
      }
      assert monitors[..|monitors|] == monitors;
    }
  }

  predicate Failing(slice: Slice) {
    exists a :: a in slice && slice[a].QueryFails?
  }

  // The query gets past the first `n` monitors: no slice fails, is cancelled, or comes after a monitor
  // that failed to load.
  ghost predicate Passed(monitors: seq<MonitorData>, cancelled: nat -> set<nat>, n: nat)
    requires n <= |monitors|
  {
    forall m :: 0 <= m < n && monitors[m].Slices? ==>
      var slices := monitors[m].slices;
      && (forall i :: 0 <= i < |slices| ==> i !in cancelled(m) && !Failing(slices[i]))
      && (slices != [] ==> forall i :: 0 <= i < m ==> !monitors[i].SliceError?)
  }

  lemma NothingSeen()
    ensures Latest(map[], LogsOfMonitors([]))
  {
  }

  lemma PassedPrefixes(monitors: seq<MonitorData>, cancelled: nat -> set<nat>)
    ensures Passed(monitors, cancelled, 0)
    ensures forall m, n :: 0 <= m <= n <= |monitors| && Passed(monitors, cancelled, n) ==>
      Passed(monitors, cancelled, m)
  {
  }

  lemma PassedOneMore(monitors: seq<MonitorData>, cancelled: nat -> set<nat>, n: nat)
    requires n < |monitors| && Passed(monitors, cancelled, n)
    ensures Passed(monitors, cancelled, n + 1) <==> monitors[n].Slices? ==>
      var slices := monitors[n].slices;
      && (forall i :: 0 <= i < |slices| ==> i !in cancelled(n) && !Failing(slices[i]))
      && (slices != [] ==> forall i :: 0 <= i < n ==> !monitors[i].SliceError?)
  {
    hide Failing;
  }

  lemma OneMoreMonitor(monitors: seq<MonitorData>, n: nat)
    requires n < |monitors|
    ensures var seen := LogsOfMonitors(monitors[..n]);
      LogsOfMonitors(monitors[..n + 1]) == if monitors[n].Slices? then seen + LogsOfSlices(monitors[n].slices) else seen
  {
    assert monitors[..n + 1][..n] == monitors[..n];
  }

  lemma NoKeys(q: Query, approvals: map<Key, Info>)
    ensures Selected(q, approvals - approvals.Keys, [])
  {
  }

  lemma SelectedOneMore(q: Query, approvals: map<Key, Info>, todo: set<Key>, key: Key, apps: seq<Key>)
    requires key in approvals && key !in todo && Selected(q, approvals - (todo + {key}), apps)
    ensures var info := approvals[key];
      if Shown(q, key, info.block)
      then Selected(q, approvals[key := info.(allowance := Some(q.at(key, info.block).wei))] - todo, apps + [key])
      else Selected(q, approvals - todo, apps)
    ensures Shown(q, key, approvals[key].block) <==>
      q.at(key, approvals[key].block).Amount? && !(q.noZero && q.at(key, approvals[key].block).wei == 0)
  {
    assert key !in apps;
    assert multiset(apps + [key]) == multiset(apps) + multiset{key};
  }

  lemma NewAllowance(approvals: map<Key, Info>, seen: set<Log>, key: Key, a: Allowance)
    requires Latest(approvals, seen) && key in approvals && a.Amount?
    ensures Latest(approvals[key := approvals[key].(allowance := Some(a.wei))], seen)
  {
  }

  lemma SelectedSorted(q: Query, approvals: map<Key, Info>, keys: seq<Key>, sorted: seq<Key>)
    requires Selected(q, approvals, keys) && multiset(sorted) == multiset(keys)
    ensures Selected(q, approvals, sorted)
  {
    forall k ensures k in sorted <==> k in keys {
      assert k in multiset(sorted) <==> k in multiset(keys);
    }
  }

  ghost function LogSet(items: seq<Log>): set<Log> {
    set l | l in items
  }

  lemma NoLogs(seen: set<Log>)
    ensures seen + LogSet([]) == seen
  {
  }

  lemma OneMoreLog(seen: set<Log>, items: seq<Log>, i: nat)
    requires i < |items|
    ensures (seen + LogSet(items[..i])) + {items[i]} == seen + LogSet(items[..i + 1])
  {
  }

  lemma SameLogs(s: seq<Log>, t: seq<Log>)
    requires multiset(s) == multiset(t)
    ensures LogSet(s) == LogSet(t)
  {
    forall l ensures l in s <==> l in t {
      assert l in multiset(s) <==> l in multiset(t);
    }
  }

  // The logs of all appearances, one appearance after the other in any order.
  method Collect(slice: Slice) returns (items: seq<Log>, failed: bool)
    ensures failed <==> Failing(slice)
    ensures !failed ==> LogSet(items) == LogsOf(slice)
  {
    hide LogSet, LogsOf;
    items, failed := [], false;
    var todo := slice.Keys;
    NothingCollected(slice);
    while todo != {}
      invariant todo <= slice.Keys
      invariant LogSet(items) == LogsOf(slice - todo)
      invariant forall a :: a in slice && a !in todo ==> slice[a].Logs?
      decreases |todo|
    {
      var a :| a in todo;
      if slice[a].QueryFails? {
        return items, true;
      }
      CollectedOneMore(slice, todo, a, items);
      todo := todo - {a};
      items := items + slice[a].logs;
    }
    assert slice - {} == slice;
  }

  lemma NothingCollected(slice: Slice)
    ensures LogSet([]) == LogsOf(slice - slice.Keys)
  {
  }

  lemma CollectedOneMore(slice: Slice, todo: set<nat>, a: nat, items: seq<Log>)
    requires todo <= slice.Keys && a in todo && slice[a].Logs? && LogSet(items) == LogsOf(slice - todo)
    ensures LogSet(items + slice[a].logs) == LogsOf(slice - (todo - {a}))
  {
    var more := slice - (todo - {a});
    forall l | l in LogSet(items + slice[a].logs) ensures l in LogsOf(more) {
      if l in slice[a].logs {
        assert a in more && more[a].Logs? && l in more[a].logs;
      } else {
        assert l in LogsOf(slice - todo);
        var x :| x in slice - todo && slice[x].Logs? && l in slice[x].logs;
        assert x in more && more[x].Logs? && l in more[x].logs;
      }
    }
    forall l | l in LogsOf(more) ensures l in LogSet(items + slice[a].logs) {
      var x :| x in more && more[x].Logs? && l in more[x].logs;
      if x != a {
        assert x in slice - todo && l in (slice - todo)[x].logs;
        assert l in LogSet(items);
      }
    }
  }

  // ---- Emission ----

  ghost predicate NoRepeats(keys: seq<Key>) {
    forall k :: multiset(keys)[k] <= 1
  }

  lemma Twice(keys: seq<Key>, i: nat, j: nat)
    requires i < j < |keys| && keys[i] == keys[j]
    ensures multiset(keys)[keys[i]] >= 2
  {
    assert keys == keys[..j] + [keys[j]] + keys[j + 1..];
    assert keys[..j][i] == keys[j];
  }

  lemma RepeatCounts(keys: seq<Key>, i: nat, j: nat)
    requires NoRepeats(keys) && i < j < |keys|
    ensures keys[i] != keys[j]
  {
    if keys[i] == keys[j] {
      Twice(keys, i, j);
    }
  }

  lemma KeyOrderIsTotal()
    ensures TotalOrder(KeyLeq)
  {
  }

  // The keys that are to be shown, and no others.
  ghost predicate Selected(q: Query, approvals: map<Key, Info>, keys: seq<Key>) {
    && NoRepeats(keys)
    && (forall k :: k in keys <==> k in approvals && Shown(q, k, approvals[k].block))
    && (forall k :: k in keys ==> approvals[k].allowance == Some(q.at(k, approvals[k].block).wei))
  }

  function RowOf(k: Key, i: Info): Row
    requires i.allowance.Some?
  {
    Row(k, i.allowance.value, i.ts, i.block, i.tx, i.logId)
  }

  lemma RowsAreOutput(q: Query, approvals: map<Key, Info>, seen: set<Log>, keys: seq<Key>, rows: seq<Row>)
    requires Latest(approvals, seen) && Selected(q, approvals, keys) && SortedBy(keys, KeyLeq)
    requires |rows| == |keys| && forall i :: 0 <= i < |rows| ==>
      keys[i] in approvals && approvals[keys[i]].allowance.Some? && rows[i] == RowOf(keys[i], approvals[keys[i]])
    ensures Output(rows, q, seen)
  {
    forall i, j | 0 <= i < j < |rows| ensures rows[i].key != rows[j].key {
      RepeatCounts(keys, i, j);
    }
    forall i | 0 <= i < |rows| ensures RowOk(rows[i], q, seen) {
      assert keys[i] in keys && Holds(approvals, seen, keys[i]);
    }
    forall l | IsLatest(seen, l) && Shown(q, l.KeyOf(), l.block) ensures HasKey(rows, l.KeyOf()) {
      assert Holds(approvals, seen, l.KeyOf());
      assert l.KeyOf() in keys;
      var i :| 0 <= i < |keys| && keys[i] == l.KeyOf();
      assert rows[i].key == l.KeyOf();
    }
  }

  // No log of the same owner, spender and token lies later on the chain.
  ghost predicate IsLast(l: Log, seen: set<Log>) {
    l in seen && forall x :: x in seen && x.owner == l.owner && x.spender == l.spender && x.token == l.token ==>
      x.block < l.block || (x.block == l.block && (x.tx < l.tx || (x.tx == l.tx && x.logId <= l.logId)))
  }

  ghost predicate Tells(r: Row, l: Log) {
    && r.key.owner == l.owner && r.key.spender == l.spender && r.key.token == l.token
    && r.block == l.block && r.tx == l.tx && r.logId == l.logId && r.ts == l.ts
  }

  lemma LastIsLatest(l: Log, seen: set<Log>)
    ensures IsLast(l, seen) <==> IsLatest(seen, l)
  {
  }

  // The map has an entry for each owner, spender and token of a log, and no other.
  lemma KeysByFields(approvals: map<Key, Info>, seen: set<Log>)
    requires Latest(approvals, seen)
    ensures forall l :: l in seen ==> Key(l.owner, l.spender, l.token) in approvals
    ensures forall k :: k in approvals ==>
      exists l :: l in seen && l.owner == k.owner && l.spender == k.spender && l.token == k.token
  {
    forall l | l in seen ensures Key(l.owner, l.spender, l.token) in approvals {
      assert l.KeyOf() in approvals;
    }
    forall k | k in approvals
      ensures exists l :: l in seen && l.owner == k.owner && l.spender == k.spender && l.token == k.token
    {
      assert Holds(approvals, seen, k);
    }
  }

  // What the rows say, field by field: each tells of the last log of its owner, spender and token, whose
  // allowance was queried at that log's block; each such log whose allowance is to be shown has a row;
  // the rows go by token, then spender, then owner, and no two have all three the same.
  lemma OutputByFields(rows: seq<Row>, q: Query, seen: set<Log>)
    requires Output(rows, q, seen)
    ensures forall r :: r in rows ==> exists l :: IsLast(l, seen) && Tells(r, l)
    ensures forall r :: r in rows ==>
      && q.at(Key(r.key.owner, r.key.spender, r.key.token), r.block) == Amount(r.allowance)
      && (q.noZero ==> r.allowance != 0)
    ensures forall l :: IsLast(l, seen) ==>
      var a := q.at(Key(l.owner, l.spender, l.token), l.block);
      (exists i :: 0 <= i < |rows| && rows[i].key == Key(l.owner, l.spender, l.token)) <==>
        a.Amount? && (q.noZero ==> a.wei != 0)
    ensures forall i, j :: 0 <= i < j < |rows| ==>
      var a, b := rows[i].key, rows[j].key;
      a.token < b.token || (a.token == b.token &&
        (a.spender < b.spender || (a.spender == b.spender && a.owner < b.owner)))
  {
    forall r | r in rows ensures exists l :: IsLast(l, seen) && Tells(r, l) {
      assert RowOk(r, q, seen);
      var l :| IsLatest(seen, l) && l.KeyOf() == r.key && SamePos(r, l);
      LastIsLatest(l, seen);
      assert Tells(r, l);
    }
    forall l | IsLast(l, seen)
      ensures var a := q.at(Key(l.owner, l.spender, l.token), l.block);
        (exists i :: 0 <= i < |rows| && rows[i].key == Key(l.owner, l.spender, l.token)) <==>
          a.Amount? && (q.noZero ==> a.wei != 0)
    {
      LastIsLatest(l, seen);
      var k := Key(l.owner, l.spender, l.token);
      assert l.KeyOf() == k;
      if i :| 0 <= i < |rows| && rows[i].key == k {
        assert RowOk(rows[i], q, seen);
        var x :| IsLatest(seen, x) && x.KeyOf() == rows[i].key && SamePos(rows[i], x);
        assert x.block == l.block;
      } else {
        assert !HasKey(rows, k);
      }
    }
  }

  // The logs of the chain: a position holds one log.
  ghost predicate OnePerPosition(seen: set<Log>) {
    forall x, y :: x in seen && y in seen && PosLeq(x, y) && PosLeq(y, x) ==> x == y
  }

  lemma HasRow(r: Row, rows: seq<Row>, q: Query, seen: set<Log>)
    requires Output(rows, q, seen) && RowOk(r, q, seen) && OnePerPosition(seen)
    ensures r in rows
  {
  }

  // The output is a function of the logs seen: the order of slices, monitors and map iterations, and
  // the freedom an unstable sort has, make no difference.
  lemma {:induction false} OutputIsUnique(rows: seq<Row>, rows': seq<Row>, q: Query, seen: set<Log>)
    requires Output(rows, q, seen) && Output(rows', q, seen) && OnePerPosition(seen)
    ensures rows == rows'
  {
    hide RowOk, OnePerPosition, IsLatest, Shown;
    forall i | 0 <= i < |rows| ensures rows[i] in rows' {
      HasRow(rows[i], rows', q, seen);
    }
    forall i | 0 <= i < |rows'| ensures rows'[i] in rows {
      HasRow(rows'[i], rows, q, seen);
    }
    SameAscending(rows, rows');
  }

  lemma HasMember(s: seq<Row>)
    ensures s == [] || exists r :: r in s
  {
    if s != [] {
      assert s[0] in s;
    }
  }

  lemma Rest(s: seq<Row>)
    requires Ascending(s) && s != []
    ensures Ascending(s[1..])
    ensures forall r :: r in s[1..] <==> r in s && r != s[0]
  {
  }

  lemma {:induction false} SameAscending(s: seq<Row>, t: seq<Row>)
    requires Ascending(s) && Ascending(t)
    requires forall r :: r in s <==> r in t
    ensures s == t
    decreases |s|
  {
    if s == [] {
      HasMember(t);
    } else {
      assert s[0] in t && t[0] in s;
      var i :| 0 <= i < |t| && t[i] == s[0];
      var j :| 0 <= j < |s| && s[j] == t[0];
      assert s[0] == t[0];
      Rest(s);
      Rest(t);
      SameAscending(s[1..], t[1..]);
      assert s == [s[0]] + s[1..] && t == [t[0]] + t[1..];
    }
  }
}
