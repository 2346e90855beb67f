/** The average aging job: transferred and arrived averages are merged on their raw keys, and missing
    columns become UNKNOWN only afterwards. */
module AverageAging {
  import opened Options
  import opened Columns
  import opened Sequences

  datatype Key = Key(
    date: string, platform: Column, channel: Column, productCode: Column, transporterAccountId: Column,
    transporterId: Column)

  /** One row; an average that is null, or was never set, is `None`. */
  datatype Row = Row(key: Key, transferred: Option<real>, arrived: Option<real>)

  function NormalKey(k: Key): Key {
    k.(platform := NormalColumn(k.platform), channel := NormalColumn(k.channel),
       productCode := NormalColumn(k.productCode),
       transporterAccountId := NormalColumn(k.transporterAccountId), transporterId := NormalColumn(k.transporterId))
  }

  function NormalRow(row: Row): Row { row.(key := NormalKey(row.key)) }

  function NormalRows(rows: seq<Row>): seq<Row> { Map(NormalRow, rows) }

  function IndexOf(rows: seq<Row>, key: Key): int { FindIndex(rows, (r: Row) => r.key == key) }

  function MergeOne(rows: seq<Row>, item: Row): seq<Row> {
    var i := IndexOf(rows, item.key);
    if i == -1 then rows + [Row(item.key, None, item.arrived)] else rows[i := rows[i].(arrived := item.arrived)]
  }

  function MergeAll(rows: seq<Row>, items: seq<Row>): seq<Row> {
    if items == [] then rows else MergeOne(MergeAll(rows, items[..|items| - 1]), items[|items| - 1])
  }

  /** What the job builds. */
  function MergedThenNormal(rows: seq<Row>, items: seq<Row>): seq<Row> { NormalRows(MergeAll(rows, items)) }

  /** What normalising before merging would build. */
  function NormalThenMerged(rows: seq<Row>, items: seq<Row>): seq<Row> { MergeAll(NormalRows(rows), NormalRows(items)) }

  /** The list part of `handle`: both lists as fetched, merged by index, then normalised in place. */
  method MergeAgings(averageTransferredAgingArray: seq<Row>, averageArrivedAgingArray: seq<Row>)
    returns (rows: seq<Row>)
    ensures rows == MergedThenNormal(averageTransferredAgingArray, averageArrivedAgingArray)
  {
    rows := averageTransferredAgingArray;
    var n := 0;
    while n < |averageArrivedAgingArray|
      invariant 0 <= n <= |averageArrivedAgingArray|
      invariant rows == MergeAll(averageTransferredAgingArray, averageArrivedAgingArray[..n])
    {
      var item := averageArrivedAgingArray[n];
      var index := IndexOf(rows, item.key);
      if index == -1 {
        rows := rows + [Row(item.key, None, item.arrived)];
      } else {
        rows := rows[index := rows[index].(arrived := item.arrived)];
      }
      n := n + 1;
      assert averageArrivedAgingArray[..n][..n - 1] == averageArrivedAgingArray[..n - 1];
    }
    assert averageArrivedAgingArray[..n] == averageArrivedAgingArray;
    ghost var merged := rows;
    var i := 0;
    while i < |rows|
      invariant 0 <= i <= |rows| == |merged|
      invariant forall j :: 0 <= j < |rows| ==> rows[j] == if j < i then NormalRow(merged[j]) else merged[j]
    {
      rows := rows[i := NormalRow(rows[i])];
      i := i + 1;
    }
    assert rows == NormalRows(merged);
  }

  // ---------------------------------------------------------------- what the merge means

  predicate HasKey(rows: seq<Row>, key: Key) { exists i :: 0 <= i < |rows| && rows[i].key == key }

  predicate UniqueKeys(rows: seq<Row>) { forall i, j :: 0 <= i < j < |rows| ==> rows[i].key != rows[j].key }

  predicate IsFirst(rows: seq<Row>, i: nat)
    requires i < |rows|
  {
    forall j :: 0 <= j < i ==> rows[j].key != rows[i].key
  }

  /** The average of the last item with the key. */
  function Last(items: seq<Row>, key: Key): Option<real> {
    if items == [] then None
    else if items[|items| - 1].key == key then items[|items| - 1].arrived
    else Last(items[..|items| - 1], key)
  }

  predicate Blank(rows: seq<Row>) { forall i :: 0 <= i < |rows| ==> rows[i].arrived.None? }

  lemma {:induction false} MergedKeys(rows: seq<Row>, items: seq<Row>, key: Key)
    ensures HasKey(MergeAll(rows, items), key) <==> HasKey(rows, key) || HasKey(items, key)
  {
    if items != [] {
      var front, item := items[..|items| - 1], items[|items| - 1];
      MergedKeys(rows, front, key);
      MergedKeysStep(MergeAll(rows, front), item, key);
      assert items == front + [item];
      HasKeyAppend(front, item, key);
    }
  }

  lemma HasKeyAppend(rows: seq<Row>, row: Row, key: Key)
    ensures HasKey(rows + [row], key) <==> HasKey(rows, key) || row.key == key
  {
    var r := rows + [row];
    if HasKey(rows, key) {
      var j :| 0 <= j < |rows| && rows[j].key == key;
      assert r[j].key == key;
    }
    if row.key == key { assert r[|rows|].key == key; }
  }

  lemma MergedKeysStep(rows: seq<Row>, item: Row, key: Key)
    ensures HasKey(MergeOne(rows, item), key) <==> HasKey(rows, key) || item.key == key
  {
    var i := IndexOf(rows, item.key);
    if i == -1 {
      HasKeyAppend(rows, Row(item.key, None, item.arrived), key);
    } else {
      var r := MergeOne(rows, item);
      assert forall j :: 0 <= j < |rows| ==> r[j].key == rows[j].key;
      assert r[i].key == item.key;
      if HasKey(rows, key) {
        var j :| 0 <= j < |rows| && rows[j].key == key;
        assert r[j].key == key;
      }
    }
  }

  /** The merge keeps the rows it starts from in place, up to the arrived average. */
  lemma {:induction false} MergedPrefix(rows: seq<Row>, items: seq<Row>)
    ensures |rows| <= |MergeAll(rows, items)|
    ensures forall i :: 0 <= i < |rows| ==> MergeAll(rows, items)[i].key == rows[i].key
                                            && MergeAll(rows, items)[i].transferred == rows[i].transferred
    ensures forall i :: |rows| <= i < |MergeAll(rows, items)| ==> MergeAll(rows, items)[i].transferred == None
  {
    if items != [] { MergedPrefix(rows, items[..|items| - 1]); }
  }

  /** A row the merge adds shares its key with no other row. */
  lemma {:induction false} AddedUnique(rows: seq<Row>, items: seq<Row>, i: nat, j: nat)
    requires |rows| <= i < |MergeAll(rows, items)| && j < |MergeAll(rows, items)| && i != j
    ensures MergeAll(rows, items)[i].key != MergeAll(rows, items)[j].key
  {
    MergedPrefix(rows, items);
    if items != [] {
      var front := items[..|items| - 1];
      var m := MergeAll(rows, front);
      if i < |m| && j < |m| { AddedUnique(rows, front, i, j); }
    }
  }

  /** A row shows the last average of its key when it is the first of that key, and none otherwise. */
  lemma {:induction false} MergedArrived(rows: seq<Row>, items: seq<Row>, i: nat)
    requires Blank(rows) && i < |MergeAll(rows, items)|
    ensures var m := MergeAll(rows, items);
            m[i].arrived == if IsFirst(m, i) then Last(items, m[i].key) else None
  {
    if items != [] {
      var front, item := items[..|items| - 1], items[|items| - 1];
      var before, m := MergeAll(rows, front), MergeAll(rows, items);
      if i < |before| {
        MergedArrived(rows, front, i);
        assert forall j :: 0 <= j <= i ==> m[j].key == before[j].key;
        assert IsFirst(m, i) <==> IsFirst(before, i);
      }
    }
  }

  // ---------------------------------------------------------------- the result by its columns

  /** The five columns that may be null are filled; the date stays. */
  predicate KeyFilled(k: Key, k': Key) {
    && Filled(k.platform, k'.platform) && Filled(k.channel, k'.channel) && Filled(k.productCode, k'.productCode)
    && Filled(k.transporterAccountId, k'.transporterAccountId) && Filled(k.transporterId, k'.transporterId)
    && k'.date == k.date
  }

  predicate LastAt(items: seq<Row>, key: Key, k: nat) {
    k < |items| && items[k].key == key && forall l :: k < l < |items| ==> items[l].key != key
  }

  lemma {:induction false} LastIs(items: seq<Row>, key: Key)
    ensures forall k: nat :: LastAt(items, key, k) ==> Last(items, key) == items[k].arrived
    ensures !HasKey(items, key) ==> Last(items, key) == None
  {
    if items != [] {
      var n := |items| - 1;
      var front := items[..n];
      LastIs(front, key);
      assert items == front + [items[n]];
      HasKeyAppend(front, items[n], key);
      forall k: nat | LastAt(items, key, k) ensures Last(items, key) == items[k].arrived {
        if k < n { assert items[n].key != key && LastAt(front, key, k); }
      }
    }
  }

  /** Row i of the result: of the row it started from it keeps the transferred average and the key, filled; an
      added row has none. The first row of a key shows the average of its last item, any other none. */
  ghost predicate RowMerged(r: seq<Row>, keys: seq<Key>, rows: seq<Row>, items: seq<Row>, i: nat)
    requires i < |r| == |keys|
  {
    && KeyFilled(keys[i], r[i].key)
    && (i < |rows| ==> keys[i] == rows[i].key && r[i].transferred == rows[i].transferred)
    && (i >= |rows| ==> r[i].transferred == None && forall j :: 0 <= j < |keys| && j != i ==> keys[j] != keys[i])
    && ((exists j :: 0 <= j < i && keys[j] == keys[i]) ==> r[i].arrived == None)
    && ((forall k :: 0 <= k < |items| ==> items[k].key != keys[i]) ==> r[i].arrived == None)
    && ((forall j :: 0 <= j < i ==> keys[j] != keys[i]) ==>
          forall k: nat :: LastAt(items, keys[i], k) ==> r[i].arrived == items[k].arrived)
  }

  /** The result by its rows: each has a key as fetched, of a row of the first list in place or of an item, and
      every item's key is there. */
  lemma MergedMeans(rows: seq<Row>, items: seq<Row>) returns (keys: seq<Key>)
    requires Blank(rows)
    ensures |keys| == |MergedThenNormal(rows, items)| >= |rows|
    ensures forall i :: 0 <= i < |keys| ==> RowMerged(MergedThenNormal(rows, items), keys, rows, items, i)
    ensures forall i :: |rows| <= i < |keys| ==> exists k :: 0 <= k < |items| && items[k].key == keys[i]
    ensures forall k :: 0 <= k < |items| ==> items[k].key in keys
  {
    var m := MergeAll(rows, items);
    keys := Map((r: Row) => r.key, m);
    MergedPrefix(rows, items);
    forall i | 0 <= i < |keys| ensures RowMerged(MergedThenNormal(rows, items), keys, rows, items, i) {
      RowMeans(rows, items, keys, i);
    }
    forall i | |rows| <= i < |keys| ensures exists k :: 0 <= k < |items| && items[k].key == keys[i] {
      MergedKeys(rows, items, keys[i]);
      assert HasKey(m, keys[i]) by { assert m[i].key == keys[i]; }
      if HasKey(rows, keys[i]) {
        var j :| 0 <= j < |rows| && rows[j].key == keys[i];
        AddedUnique(rows, items, i, j);
      }
    }
    forall k | 0 <= k < |items| ensures items[k].key in keys {
      MergedKeys(rows, items, items[k].key);
      assert HasKey(items, items[k].key);
      var i :| 0 <= i < |m| && m[i].key == items[k].key;
      assert keys[i] == items[k].key;
    }
  }

  lemma RowMeans(rows: seq<Row>, items: seq<Row>, keys: seq<Key>, i: nat)
    requires Blank(rows) && |keys| == |MergeAll(rows, items)| && i < |keys|
    requires forall j :: 0 <= j < |keys| ==> keys[j] == MergeAll(rows, items)[j].key
    ensures |MergedThenNormal(rows, items)| == |keys| && RowMerged(MergedThenNormal(rows, items), keys, rows, items, i)
  {
    var m := MergeAll(rows, items);
    MergedPrefix(rows, items);
    MergedArrived(rows, items, i);
    LastIs(items, keys[i]);
    assert MergedThenNormal(rows, items)[i] == NormalRow(m[i]);
    if i >= |rows| {
      forall j | 0 <= j < |keys| && j != i ensures keys[j] != keys[i] { AddedUnique(rows, items, i, j); }
    }
  }

  // ---------------------------------------------------------------- alike keys

  /** Keys that normalise to the same key. */
  predicate Alike(a: Key, b: Key) { NormalKey(a) == NormalKey(b) }

  predicate HasAlike(rows: seq<Row>, key: Key) { exists i :: 0 <= i < |rows| && Alike(rows[i].key, key) }

  predicate IsFirstAlike(rows: seq<Row>, i: nat)
    requires i < |rows|
  {
    forall j :: 0 <= j < i ==> !Alike(rows[j].key, rows[i].key)
  }

  /** The average of the last item with an alike key. */
  function LastAlike(items: seq<Row>, key: Key): Option<real> {
    if items == [] then None
    else if Alike(items[|items| - 1].key, key) then items[|items| - 1].arrived
    else LastAlike(items[..|items| - 1], key)
  }

  lemma {:induction false} LastNormal(items: seq<Row>, key: Key)
    ensures Last(NormalRows(items), NormalKey(key)) == LastAlike(items, key)
  {
    if items != [] {
      var front := items[..|items| - 1];
      LastNormal(front, key);
      assert NormalRows(items)[..|items| - 1] == NormalRows(front);
    }
  }

  lemma HasKeyNormal(rows: seq<Row>, key: Key)
    ensures HasKey(NormalRows(rows), NormalKey(key)) <==> HasAlike(rows, key)
  {
    var n := NormalRows(rows);
    if HasKey(n, NormalKey(key)) {
      var i :| 0 <= i < |n| && n[i].key == NormalKey(key);
      assert Alike(rows[i].key, key);
    }
    if HasAlike(rows, key) {
      var i :| 0 <= i < |rows| && Alike(rows[i].key, key);
      assert n[i].key == NormalKey(key);
    }
  }

  lemma {:induction false} LastsSame(items: seq<Row>, key: Key)
    requires forall j :: 0 <= j < |items| && Alike(items[j].key, key) ==> items[j].key == key
    ensures Last(items, key) == LastAlike(items, key)
  {
    if items != [] { LastsSame(items[..|items| - 1], key); }
  }

  // ---------------------------------------------------------------- when the two orders agree

  /** Item j brings a key that was not there, although an alike one was. */
  predicate AddsAlike(rows: seq<Row>, items: seq<Row>, j: nat)
    requires j < |items|
  {
    var key, before := items[j].key, items[..j];
    !HasKey(rows, key) && !HasKey(before, key) && (HasAlike(rows, key) || HasAlike(before, key))
  }

  /** Of the rows with alike keys, the first shows the same average whether items are looked up by equal
      or by alike keys, and no other one is given an average. */
  predicate AveragesAgree(rows: seq<Row>, items: seq<Row>, i: nat)
    requires i < |rows|
  {
    if IsFirstAlike(rows, i) then Last(items, rows[i].key) == LastAlike(items, rows[i].key)
    else IsFirst(rows, i) ==> Last(items, rows[i].key) == None
  }

  predicate NothingAddedAlike(rows: seq<Row>, items: seq<Row>) {
    forall j :: 0 <= j < |items| ==> !AddsAlike(rows, items, j)
  }

  /** The condition, on the keys and averages of the two lists as they were fetched. */
  predicate OrdersAgree(rows: seq<Row>, items: seq<Row>) {
    NothingAddedAlike(rows, items) && forall i :: 0 <= i < |rows| ==> AveragesAgree(rows, items, i)
  }

  ghost predicate SameKeys(raw: seq<Row>, norm: seq<Row>) {
    |raw| == |norm| && forall i :: 0 <= i < |raw| ==> norm[i].key == NormalKey(raw[i].key)
  }

  lemma AddsAlikeFront(rows: seq<Row>, items: seq<Row>)
    requires items != []
    ensures var n := |items| - 1;
            NothingAddedAlike(rows, items) <==> NothingAddedAlike(rows, items[..n]) && !AddsAlike(rows, items, n)
  {
    var n := |items| - 1;
    forall j | 0 <= j < n ensures AddsAlike(rows, items[..n], j) <==> AddsAlike(rows, items, j) {
      assert items[..n][..j] == items[..j];
    }
    forall j | 0 <= j < n && NothingAddedAlike(rows, items) ensures !AddsAlike(rows, items[..n], j) {
      assert !AddsAlike(rows, items, j);
    }
    if NothingAddedAlike(rows, items[..n]) && !AddsAlike(rows, items, n) {
      forall j | 0 <= j < |items| ensures !AddsAlike(rows, items, j) {
        if j < n { assert !AddsAlike(rows, items[..n], j); }
      }
    }
  }

  /** Whether one more item adds a row to either merge. */
  lemma Adds(rows: seq<Row>, front: seq<Row>, key: Key)
    ensures IndexOf(MergeAll(rows, front), key) == -1 <==> !HasKey(rows, key) && !HasKey(front, key)
    ensures IndexOf(NormalThenMerged(rows, front), NormalKey(key)) == -1 <==>
            !HasAlike(rows, key) && !HasAlike(front, key)
  {
    MergedKeys(rows, front, key);
    MergedKeys(NormalRows(rows), NormalRows(front), NormalKey(key));
    HasKeyNormal(rows, key);
    HasKeyNormal(front, key);
    IndexHas(MergeAll(rows, front), key);
    IndexHas(NormalThenMerged(rows, front), NormalKey(key));
  }

  lemma IndexHas(rows: seq<Row>, key: Key)
    ensures IndexOf(rows, key) == -1 <==> !HasKey(rows, key)
  {
    var i := IndexOf(rows, key);
    if i != -1 { assert rows[i].key == key; }
  }

  lemma HasKeyImpliesAlike(rows: seq<Row>, key: Key)
    requires HasKey(rows, key)
    ensures HasAlike(rows, key)
  {
    var i :| 0 <= i < |rows| && rows[i].key == key;
    assert Alike(rows[i].key, key);
  }

  lemma NormalThenMergedStep(rows: seq<Row>, items: seq<Row>)
    requires items != []
    ensures var n := |items| - 1;
            NormalThenMerged(rows, items) == MergeOne(NormalThenMerged(rows, items[..n]), NormalRow(items[n]))
  {
    var n := |items| - 1;
    assert NormalRows(items)[..n] == NormalRows(items[..n]);
  }

  lemma MergeOneKeys(rows: seq<Row>, item: Row)
    ensures var r := MergeOne(rows, item);
            && |r| == |rows| + (if IndexOf(rows, item.key) == -1 then 1 else 0)
            && (forall i :: 0 <= i < |rows| ==> r[i].key == rows[i].key)
            && (|r| > |rows| ==> r[|rows|].key == item.key)
  {
  }

  /** The two merges line up exactly when no item adds an alike key; otherwise the raw one is longer. */
  lemma {:induction false} KeysLineUp(rows: seq<Row>, items: seq<Row>)
    ensures NothingAddedAlike(rows, items) ==> SameKeys(MergeAll(rows, items), NormalThenMerged(rows, items))
    ensures !NothingAddedAlike(rows, items) ==> |MergeAll(rows, items)| > |NormalThenMerged(rows, items)|
  {
    if items == [] {
      assert NormalRows(items) == [];
    } else {
      var n := |items| - 1;
      var front, item := items[..n], items[n];
      KeysLineUp(rows, front);
      AddsAlikeFront(rows, items);
      Adds(rows, front, item.key);
      NormalThenMergedStep(rows, items);
      MergeOneKeys(MergeAll(rows, front), item);
      MergeOneKeys(NormalThenMerged(rows, front), NormalRow(item));
      if HasKey(rows, item.key) { HasKeyImpliesAlike(rows, item.key); }
      if HasKey(front, item.key) { HasKeyImpliesAlike(front, item.key); }
    }
  }

  lemma NormalBlank(rows: seq<Row>)
    requires Blank(rows)
    ensures Blank(NormalRows(rows))
  {
  }

  /** What both merges show in a row they started from. */
  lemma StartingRow(rows: seq<Row>, items: seq<Row>, i: nat)
    requires Blank(rows) && i < |rows|
    ensures i < |MergeAll(rows, items)| && i < |NormalThenMerged(rows, items)|
    ensures MergeAll(rows, items)[i].arrived == if IsFirst(rows, i) then Last(items, rows[i].key) else None
    ensures NormalThenMerged(rows, items)[i].arrived ==
            if IsFirstAlike(rows, i) then LastAlike(items, rows[i].key) else None
    ensures IsFirstAlike(rows, i) ==> IsFirst(rows, i)
  {
    var m, n := MergeAll(rows, items), NormalThenMerged(rows, items);
    MergedPrefix(rows, items);
    MergedArrived(rows, items, i);
    assert IsFirst(m, i) <==> IsFirst(rows, i);
    NormalBlank(rows);
    MergedPrefix(NormalRows(rows), NormalRows(items));
    MergedArrived(NormalRows(rows), NormalRows(items), i);
    assert forall j :: 0 <= j <= i ==> n[j].key == NormalKey(rows[j].key);
    assert IsFirst(n, i) <==> IsFirstAlike(rows, i);
    LastNormal(items, rows[i].key);
  }

  /** From `start` on, no row shares its key with another. */
  predicate Apart(rows: seq<Row>, start: nat) {
    forall i, j :: start <= i < |rows| && 0 <= j < |rows| && i != j ==> rows[i].key != rows[j].key
  }

  lemma AddedApart(rows: seq<Row>, items: seq<Row>)
    ensures Apart(MergeAll(rows, items), |rows|)
  {
    var m := MergeAll(rows, items);
    forall i, j | |rows| <= i < |m| && 0 <= j < |m| && i != j ensures m[i].key != m[j].key {
      AddedUnique(rows, items, i, j);
    }
  }

  lemma AlikeIsSame(raw: seq<Row>, norm: seq<Row>, start: nat, i: nat, key: Key)
    requires SameKeys(raw, norm) && Apart(norm, start) && start <= i < |raw| && HasKey(raw, key)
             && Alike(key, raw[i].key)
    ensures key == raw[i].key
  {
    var k :| 0 <= k < |raw| && raw[k].key == key;
    assert norm[k].key == norm[i].key;
  }

  lemma ItemShown(rows: seq<Row>, items: seq<Row>, j: nat)
    requires j < |items|
    ensures HasKey(MergeAll(rows, items), items[j].key)
  {
    MergedKeys(rows, items, items[j].key);
    assert HasKey(items, items[j].key);
  }

  /** A row that both merges add shows the same average in both. */
  lemma AddedRow(rows: seq<Row>, items: seq<Row>, i: nat)
    requires Blank(rows) && SameKeys(MergeAll(rows, items), NormalThenMerged(rows, items))
    requires |rows| <= i < |MergeAll(rows, items)|
    ensures MergeAll(rows, items)[i].arrived == NormalThenMerged(rows, items)[i].arrived
  {
    var m, n := MergeAll(rows, items), NormalThenMerged(rows, items);
    NormalBlank(rows);
    AddedApart(rows, items);
    AddedApart(NormalRows(rows), NormalRows(items));
    assert IsFirst(m, i) && IsFirst(n, i);
    MergedArrived(rows, items, i);
    MergedArrived(NormalRows(rows), NormalRows(items), i);
    LastNormal(items, m[i].key);
    forall j | 0 <= j < |items| && Alike(items[j].key, m[i].key) ensures items[j].key == m[i].key {
      ItemShown(rows, items, j);
      AlikeIsSame(m, n, |rows|, i, items[j].key);
    }
    LastsSame(items, m[i].key);
  }

  lemma RowsAgree(rows: seq<Row>, items: seq<Row>, i: nat)
    requires Blank(rows) && i < |rows|
    ensures i < |MergeAll(rows, items)| && i < |NormalThenMerged(rows, items)|
    ensures AveragesAgree(rows, items, i) <==>
            MergeAll(rows, items)[i].arrived == NormalThenMerged(rows, items)[i].arrived
  {
    StartingRow(rows, items, i);
  }

  lemma SameTransferred(rows: seq<Row>, items: seq<Row>, i: nat)
    requires i < |MergeAll(rows, items)| && i < |NormalThenMerged(rows, items)|
    ensures MergeAll(rows, items)[i].transferred == NormalThenMerged(rows, items)[i].transferred
  {
    MergedPrefix(rows, items);
    MergedPrefix(NormalRows(rows), NormalRows(items));
  }

  /** Normalising after merging gives the rows of normalising before it exactly when no item adds a key
      that is alike to an earlier different one, and the averages agree for equal and for alike keys. */
  lemma OrdersAgreeExactly(rows: seq<Row>, items: seq<Row>)
    requires Blank(rows)
    ensures MergedThenNormal(rows, items) == NormalThenMerged(rows, items) <==> OrdersAgree(rows, items)
  {
    var m, n := MergeAll(rows, items), NormalThenMerged(rows, items);
    KeysLineUp(rows, items);
    MergedPrefix(rows, items);
    if NothingAddedAlike(rows, items) {
      forall i | 0 <= i < |m| ensures NormalRow(m[i]) == n[i] <==> m[i].arrived == n[i].arrived {
        SameTransferred(rows, items, i);
      }
      forall i | 0 <= i < |rows| ensures AveragesAgree(rows, items, i) <==> m[i].arrived == n[i].arrived {
        RowsAgree(rows, items, i);
      }
      forall i | |rows| <= i < |m| ensures m[i].arrived == n[i].arrived { AddedRow(rows, items, i); }
      assert NormalRows(m) == n <==> forall i :: 0 <= i < |m| ==> NormalRow(m[i]) == n[i];
    }
  }

  /** The orders do differ on a row whose channel is UNKNOWN and another where it is null. */
  lemma OrdersDiffer(known: Key, x: real, y: real)
    requires NormalKey(known) == known && known.channel == UNKNOWN
    ensures var rows, items := [Row(known, Some(x), None)], [Row(known.(channel := None), None, Some(y))];
            MergedThenNormal(rows, items) != NormalThenMerged(rows, items)
  {
    var rows, items := [Row(known, Some(x), None)], [Row(known.(channel := None), None, Some(y))];
    assert AddsAlike(rows, items, 0) by {
      assert Alike(rows[0].key, items[0].key);
    }
    OrdersAgreeExactly(rows, items);
  }

  // ---------------------------------------------------------------- when the result has one row per key

  /** Different keys of the two lists never normalise to the same key. */
  predicate NoneAlike(rows: seq<Row>, items: seq<Row>) {
    forall i, j ::
      0 <= i < |rows + items| && 0 <= j < |rows + items| && Alike((rows + items)[i].key, (rows + items)[j].key) ==>
      (rows + items)[i].key == (rows + items)[j].key
  }

  lemma KeyInBoth(rows: seq<Row>, items: seq<Row>, key: Key)
    ensures HasKey(MergeAll(rows, items), key) <==> HasKey(rows + items, key)
  {
    var all := rows + items;
    MergedKeys(rows, items, key);
    if HasKey(rows, key) {
      var i :| 0 <= i < |rows| && rows[i].key == key;
      assert all[i].key == key;
    }
    if HasKey(items, key) {
      var i :| 0 <= i < |items| && items[i].key == key;
      assert all[|rows| + i].key == key;
    }
  }

  lemma MergedUnique(rows: seq<Row>, items: seq<Row>)
    ensures UniqueKeys(MergeAll(rows, items)) <==> UniqueKeys(rows)
  {
    var m := MergeAll(rows, items);
    MergedPrefix(rows, items);
    if UniqueKeys(rows) {
      forall i, j | 0 <= i < j < |m| ensures m[i].key != m[j].key {
        if j >= |rows| { AddedUnique(rows, items, j, i); }
      }
    }
    if UniqueKeys(m) {
      forall i, j | 0 <= i < j < |rows| ensures rows[i].key != rows[j].key { assert m[i].key != m[j].key; }
    }
  }

  /** The result has one row per key exactly when the fetched rows have distinct keys and no two
      different keys of the two lists normalise to the same one. */
  lemma UniqueExactly(rows: seq<Row>, items: seq<Row>)
    ensures UniqueKeys(MergedThenNormal(rows, items)) <==> UniqueKeys(rows) && NoneAlike(rows, items)
  {
    var m, all := MergeAll(rows, items), rows + items;
    var r := NormalRows(m);
    MergedUnique(rows, items);
    if UniqueKeys(r) {
      forall i, j | 0 <= i < j < |m| ensures m[i].key != m[j].key { assert r[i].key != r[j].key; }
      forall i, j | 0 <= i < |all| && 0 <= j < |all| && Alike(all[i].key, all[j].key) ensures all[i].key == all[j].key {
        KeyInBoth(rows, items, all[i].key);
        KeyInBoth(rows, items, all[j].key);
        assert HasKey(all, all[i].key) && HasKey(all, all[j].key);
        var k :| 0 <= k < |m| && m[k].key == all[i].key;
        var l :| 0 <= l < |m| && m[l].key == all[j].key;
        assert r[k].key == r[l].key;
      }
    }
    if UniqueKeys(rows) && NoneAlike(rows, items) {
      forall k, l | 0 <= k < l < |m| ensures r[k].key != r[l].key {
        KeyInBoth(rows, items, m[k].key);
        KeyInBoth(rows, items, m[l].key);
        assert HasKey(m, m[k].key) && HasKey(m, m[l].key);
        var i :| 0 <= i < |all| && all[i].key == m[k].key;
        var j :| 0 <= j < |all| && all[j].key == m[l].key;
      }
    }
  }

  /** Two rows that differ in an UNKNOWN and a null channel keep one key, although both orders agree. */
  lemma TwoRowsOneKey(known: Key, x: real, y: real)
    requires NormalKey(known) == known && known.channel == UNKNOWN
    ensures var rows := [Row(known, Some(x), None), Row(known.(channel := None), Some(y), None)];
            && MergedThenNormal(rows, []) == NormalThenMerged(rows, [])
            && |MergedThenNormal(rows, [])| == 2 && !UniqueKeys(MergedThenNormal(rows, []))
  {
    var rows := [Row(known, Some(x), None), Row(known.(channel := None), Some(y), None)];
    OrdersAgreeExactly(rows, []);
    UniqueExactly(rows, []);
    assert rows + [] == rows && Alike(rows[0].key, rows[1].key);
  }

  // ---------------------------------------------------------------- the dates of a run

  /** `parseDateArray` on day numbers: every day from the first to the last, once, in order. */
  method ParseDateArray(startDate: int, endDate: int) returns (dateArray: seq<int>)
    ensures |dateArray| == if startDate <= endDate then endDate - startDate + 1 else 0
    ensures forall i :: 0 <= i < |dateArray| ==> dateArray[i] == startDate + i
  {
    var currentDate := startDate;
    dateArray := [];
    while currentDate <= endDate
      invariant currentDate == startDate + |dateArray| && (dateArray != [] ==> currentDate <= endDate + 1)
      invariant forall i :: 0 <= i < |dateArray| ==> dateArray[i] == startDate + i
      decreases endDate - currentDate + 1
    {
      dateArray := dateArray + [currentDate];
      currentDate := currentDate + 1;
    }
  }
}
