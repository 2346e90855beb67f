/** Daily parcel quantities: three lists of counts are normalised and merged in place into one row
    per key. */
module DailyQuantity {
  import opened Options
  import opened Columns
  import opened Sequences

  datatype Key = Key(
    clientId: Column, transporterAccountId: Column, channel: Column, platform: Column, transporter: Column,
    date: string, trackingNumberPrefix: string)

  /** One row; a quantity that was never set stays `None`. */
  datatype Row = Row(key: Key, declared: Option<nat>, transferred: Option<nat>, arrived: Option<nat>)

  datatype Target = Declared | Transferred | Arrived

  function Quantity(row: Row, target: Target): Option<nat> {
    match target
    case Declared => row.declared
    case Transferred => row.transferred
    case Arrived => row.arrived
  }

  function SetQuantity(row: Row, target: Target, quantity: Option<nat>): Row {
    match target
    case Declared => row.(declared := quantity)
    case Transferred => row.(transferred := quantity)
    case Arrived => row.(arrived := quantity)
  }

  function NormalKey(k: Key): Key {
    k.(clientId := NormalColumn(k.clientId), transporterAccountId := NormalColumn(k.transporterAccountId),
       channel := NormalColumn(k.channel), platform := NormalColumn(k.platform),
       transporter := NormalColumn(k.transporter))
  }

  /** The five columns that may be null are filled; the date and the prefix stay. */
  predicate KeyFilled(k: Key, k': Key) {
    && Filled(k.clientId, k'.clientId) && Filled(k.transporterAccountId, k'.transporterAccountId)
    && Filled(k.channel, k'.channel) && Filled(k.platform, k'.platform) && Filled(k.transporter, k'.transporter)
    && k'.date == k.date && k'.trackingNumberPrefix == k.trackingNumberPrefix
  }

  lemma NormalIsFilled(k: Key, k': Key)
    ensures KeyFilled(k, k') <==> k' == NormalKey(k)
  {
  }

  function NormalRow(row: Row): Row { row.(key := NormalKey(row.key)) }

  function NormalRows(rows: seq<Row>): seq<Row> { Map(NormalRow, rows) }

  // ---------------------------------------------------------------- merging, as a function

  predicate FirstAt(rows: seq<Row>, key: Key, index: nat) {
    index < |rows| && rows[index].key == key && forall j :: 0 <= j < index ==> rows[j].key != key
  }

  function IndexOf(rows: seq<Row>, key: Key): (i: int)
    ensures i == -1 || (0 <= i && FirstAt(rows, key, i))
    ensures i == -1 ==> forall j :: 0 <= j < |rows| ==> rows[j].key != key
  {
    FindIndex(rows, (r: Row) => r.key == key)
  }

  function MergeOne(rows: seq<Row>, item: Row, target: Target): seq<Row> {
    var i := IndexOf(rows, item.key);
    if i == -1 then rows + [SetQuantity(Row(item.key, None, None, None), target, Quantity(item, target))]
    else rows[i := SetQuantity(rows[i], target, Quantity(item, target))]
  }

  function MergeAll(rows: seq<Row>, items: seq<Row>, target: Target): seq<Row> {
    if items == [] then rows
    else MergeOne(MergeAll(rows, items[..|items| - 1], target), items[|items| - 1], target)
  }

  // ---------------------------------------------------------------- the list the job changes in place

  class QuantityList {
    var rows: seq<Row>

    constructor (rows: seq<Row>)
      ensures this.rows == rows
    {
      this.rows := rows;
    }

    /** `_setNullElementAsUnknown`: every row, column by column. */
    method SetNullElementAsUnknown()
      modifies this
      ensures rows == NormalRows(old(rows))
      ensures |rows| == |old(rows)|
      ensures forall i :: 0 <= i < |rows| ==>
                KeyFilled(old(rows)[i].key, rows[i].key) && rows[i] == old(rows)[i].(key := rows[i].key)
    {
      var i := 0;
      while i < |rows|
        invariant 0 <= i <= |rows| == |old(rows)|
        invariant forall j :: 0 <= j < |rows| ==> rows[j] == if j < i then NormalRow(old(rows)[j]) else old(rows)[j]
      {
        var key := rows[i].key;
        if NormalColumn(key.clientId) != key.clientId { key := key.(clientId := UNKNOWN); }
        if NormalColumn(key.transporterAccountId) != key.transporterAccountId {
          key := key.(transporterAccountId := UNKNOWN);
        }
        if NormalColumn(key.channel) != key.channel { key := key.(channel := UNKNOWN); }
        if NormalColumn(key.platform) != key.platform { key := key.(platform := UNKNOWN); }
        if NormalColumn(key.transporter) != key.transporter { key := key.(transporter := UNKNOWN); }
        rows := rows[i := rows[i].(key := key)];
        i := i + 1;
      }
    }

    method FindIndex(key: Key) returns (index: int)
      ensures index == IndexOf(rows, key)
    {
      index := -1;
      var i := 0;
      while i < |rows|
        invariant 0 <= i <= |rows| && index == -1 && IndexOf(rows[..i], key) == -1
      {
        if rows[i].key == key {
          assert FirstAt(rows, key, i);
          return i;
        }
        assert rows[..i + 1][..i] == rows[..i];
        i := i + 1;
      }
      assert rows[..i] == rows;
    }

    /** `mergeParcelQuantityArray`. */
    method MergeParcelQuantityArray(targetArray: seq<Row>, target: Target)
      modifies this
      ensures rows == MergeAll(old(rows), targetArray, target)
    {
      var n := 0;
      while n < |targetArray|
        invariant 0 <= n <= |targetArray|
        invariant rows == MergeAll(old(rows), targetArray[..n], target)
      {
        var item := targetArray[n];
        var index := FindIndex(item.key);
        if index == -1 {
          rows := rows + [SetQuantity(Row(item.key, None, None, None), target, Quantity(item, target))];
        } else {
          rows := rows[index := SetQuantity(rows[index], target, Quantity(item, target))];
        }
        n := n + 1;
        assert targetArray[..n][..n - 1] == targetArray[..n - 1];
      }
      assert targetArray[..n] == targetArray;
    }
  }

  /** `buildQuantityDistributionArray`: the declared list itself becomes the result. */
  method BuildQuantityDistributionArray(declared: QuantityList, transferred: QuantityList, arrived: QuantityList)
    requires declared != transferred && declared != arrived && transferred != arrived
    modifies declared, transferred, arrived
    ensures declared.rows == Distribution(old(declared.rows), old(transferred.rows), old(arrived.rows))
  {
    declared.SetNullElementAsUnknown();
    transferred.SetNullElementAsUnknown();
    arrived.SetNullElementAsUnknown();
    declared.MergeParcelQuantityArray(transferred.rows, Transferred);
    declared.MergeParcelQuantityArray(arrived.rows, Arrived);
  }

  function Distribution(declared: seq<Row>, transferred: seq<Row>, arrived: seq<Row>): seq<Row> {
    MergeAll(MergeAll(NormalRows(declared), NormalRows(transferred), Transferred), NormalRows(arrived), Arrived)
  }

  // ---------------------------------------------------------------- what the merge means

  predicate HasKey(rows: seq<Row>, key: Key) { exists i :: 0 <= i < |rows| && rows[i].key == key }

  predicate UniqueKeys(rows: seq<Row>) { forall i, j :: 0 <= i < j < |rows| ==> rows[i].key != rows[j].key }

  /** The quantity the first row of a key shows. */
  function Lookup(rows: seq<Row>, key: Key, target: Target): Option<nat> {
    var i := IndexOf(rows, key);
    if i == -1 then None else Quantity(rows[i], target)
  }

  /** The quantity of the last row of a key: later rows overwrite earlier ones. */
  function Last(rows: seq<Row>, key: Key, target: Target, otherwise: Option<nat>): Option<nat> {
    if rows == [] then otherwise
    else if rows[|rows| - 1].key == key then Quantity(rows[|rows| - 1], target)
    else Last(rows[..|rows| - 1], key, target, otherwise)
  }

  lemma MergeOneMeans(rows: seq<Row>, item: Row, target: Target, key: Key, column: Target)
    ensures var r := MergeOne(rows, item, target);
            && Lookup(r, key, column)
               == (if key == item.key && column == target then Quantity(item, target) else Lookup(rows, key, column))
            && (HasKey(r, key) <==> HasKey(rows, key) || key == item.key)
            && (UniqueKeys(rows) ==> UniqueKeys(r))
  {
    var r := MergeOne(rows, item, target);
    var i, i' := IndexOf(rows, key), IndexOf(r, key);
    FirstIsIndex(rows, key);
    FirstIsIndex(r, key);
    if IndexOf(rows, item.key) == -1 {
      assert r[|rows|].key == item.key;
      if i != -1 { assert FirstAt(r, key, i); }
      else if key == item.key { assert FirstAt(r, key, |rows|); }
    } else {
      assert forall j :: 0 <= j < |rows| ==> r[j].key == rows[j].key;
      if i != -1 { assert FirstAt(r, key, i); }
    }
    if HasKey(rows, key) {
      var j :| 0 <= j < |rows| && rows[j].key == key;
      assert r[j].key == key;
    }
  }

  lemma FirstIsIndex(rows: seq<Row>, key: Key)
    ensures forall i :: FirstAt(rows, key, i) ==> i == IndexOf(rows, key)
  {
  }

  /** In general the last item of a key wins, the other columns stay, and the keys are the union. */
  lemma {:induction false} MergeAllMeans(rows: seq<Row>, items: seq<Row>, target: Target, key: Key, column: Target)
    ensures var r := MergeAll(rows, items, target);
            && Lookup(r, key, column) ==
               (if column == target then Last(items, key, target, Lookup(rows, key, target))
                else Lookup(rows, key, column))
            && (HasKey(r, key) <==> HasKey(rows, key) || HasKey(items, key))
            && (UniqueKeys(rows) ==> UniqueKeys(r))
  {
    if items != [] {
      var front, item := items[..|items| - 1], items[|items| - 1];
      MergeAllMeans(rows, front, target, key, column);
      MergeOneMeans(MergeAll(rows, front, target), item, target, key, column);
      assert items == front + [item];
      if HasKey(front, key) {
        var j :| 0 <= j < |front| && front[j].key == key;
        assert items[j].key == key;
      }
    }
  }

  lemma {:induction false} LastOfUnique(rows: seq<Row>, key: Key, target: Target)
    requires UniqueKeys(rows)
    ensures Last(rows, key, target, None) == Lookup(rows, key, target)
  {
    FirstIsIndex(rows, key);
    if rows != [] {
      var front := rows[..|rows| - 1];
      LastOfUnique(front, key, target);
      FirstIsIndex(front, key);
      if rows[|rows| - 1].key == key {
        assert FirstAt(rows, key, |rows| - 1);
      }
    }
  }

  predicate Blank(rows: seq<Row>, target: Target) {
    forall i :: 0 <= i < |rows| ==> Quantity(rows[i], target) == None
  }

  /** The rows of the declared query carry no other quantity. */
  predicate OnlyDeclared(rows: seq<Row>) { Blank(rows, Transferred) && Blank(rows, Arrived) }

  lemma BlankNormal(rows: seq<Row>, target: Target)
    requires Blank(rows, target)
    ensures Blank(NormalRows(rows), target)
  {
    forall i | 0 <= i < |rows| ensures Quantity(NormalRows(rows)[i], target) == None {
      assert NormalRows(rows)[i] == NormalRow(rows[i]);
      assert Quantity(rows[i], target) == None;
    }
  }

  /** With unique normalised keys in each input, the result has one row per key of the union, and looks up each
      input's quantity for it. */
  lemma JoinLookups(declared: seq<Row>, transferred: seq<Row>, arrived: seq<Row>, key: Key)
    requires UniqueKeys(NormalRows(declared)) && UniqueKeys(NormalRows(transferred)) && UniqueKeys(NormalRows(arrived))
    requires OnlyDeclared(declared)
    ensures var r := Distribution(declared, transferred, arrived);
            && UniqueKeys(r)
            && (HasKey(r, key) <==>
                  || HasKey(NormalRows(declared), key) || HasKey(NormalRows(transferred), key)
                  || HasKey(NormalRows(arrived), key))
            && Lookup(r, key, Declared) == Lookup(NormalRows(declared), key, Declared)
            && Lookup(r, key, Transferred) == Lookup(NormalRows(transferred), key, Transferred)
            && Lookup(r, key, Arrived) == Lookup(NormalRows(arrived), key, Arrived)
  {
    var d, t, a := NormalRows(declared), NormalRows(transferred), NormalRows(arrived);
    ColumnJoined(d, t, a, key, Declared);
    ColumnJoined(d, t, a, key, Transferred);
    ColumnJoined(d, t, a, key, Arrived);
    LastOfUnique(t, key, Transferred);
    LastOfUnique(a, key, Arrived);
    BlankNormal(declared, Transferred);
    BlankNormal(declared, Arrived);
    NoneLookedUp(d, key, Transferred);
    NoneLookedUp(d, key, Arrived);
  }

  /** The place of the row with a key, -1 if there is none. */
  ghost predicate IsAt(rows: seq<Row>, key: Key, j: int) {
    && -1 <= j < |rows|
    && (j >= 0 ==> KeyFilled(rows[j].key, key))
    && (j == -1 ==> forall i :: 0 <= i < |rows| ==> !KeyFilled(rows[i].key, key))
  }

  /** A row of the result shows the declared quantity of the declared row with its key, the transferred of the
      transferred, the arrived of the arrived, and null where a list has no such row. */
  ghost predicate RowJoined(row: Row, declared: seq<Row>, transferred: seq<Row>, arrived: seq<Row>) {
    && (forall j :: IsAt(declared, row.key, j) ==> row.declared == if j >= 0 then declared[j].declared else None)
    && (forall j :: IsAt(transferred, row.key, j) ==>
          row.transferred == if j >= 0 then transferred[j].transferred else None)
    && (forall j :: IsAt(arrived, row.key, j) ==> row.arrived == if j >= 0 then arrived[j].arrived else None)
    && exists j :: j >= 0 && (IsAt(declared, row.key, j) || IsAt(transferred, row.key, j) || IsAt(arrived, row.key, j))
  }

  lemma KeyIsAt(rows: seq<Row>, key: Key)
    requires UniqueKeys(NormalRows(rows))
    ensures forall j :: IsAt(rows, key, j) <==> j == IndexOf(NormalRows(rows), key)
    ensures HasKey(NormalRows(rows), key) <==> IndexOf(NormalRows(rows), key) >= 0
    ensures IndexOf(NormalRows(rows), key) < |rows|
  {
    var ns := NormalRows(rows);
    FirstIsIndex(ns, key);
    forall i | 0 <= i < |rows| ensures KeyFilled(rows[i].key, key) <==> ns[i].key == key {
      NormalIsFilled(rows[i].key, key);
    }
  }

  lemma RowsJoin(declared: seq<Row>, transferred: seq<Row>, arrived: seq<Row>, i: nat)
    requires UniqueKeys(NormalRows(declared)) && UniqueKeys(NormalRows(transferred)) && UniqueKeys(NormalRows(arrived))
    requires OnlyDeclared(declared) && i < |Distribution(declared, transferred, arrived)|
    ensures RowJoined(Distribution(declared, transferred, arrived)[i], declared, transferred, arrived)
  {
    var r := Distribution(declared, transferred, arrived);
    var key := r[i].key;
    JoinLookups(declared, transferred, arrived, key);
    KeyIsAt(declared, key);
    KeyIsAt(transferred, key);
    KeyIsAt(arrived, key);
    FirstIsIndex(r, key);
    MergedUnique(declared, transferred, arrived);
    assert FirstAt(r, key, i) && HasKey(r, key);
    var j, k, l := IndexOf(NormalRows(declared), key), IndexOf(NormalRows(transferred), key),
      IndexOf(NormalRows(arrived), key);
    assert IsAt(declared, key, j) && IsAt(transferred, key, k) && IsAt(arrived, key, l);
  }

  /** A full outer join: with unique normalised keys in each input, no two rows of the result share a key,
      every row of every input has one, and each row shows the quantities of exactly its own three rows. */
  lemma FullOuterJoin(declared: seq<Row>, transferred: seq<Row>, arrived: seq<Row>)
    requires UniqueKeys(NormalRows(declared)) && UniqueKeys(NormalRows(transferred)) && UniqueKeys(NormalRows(arrived))
    requires OnlyDeclared(declared)
    ensures var r := Distribution(declared, transferred, arrived);
            && (forall i, j :: 0 <= i < j < |r| ==> r[i].key != r[j].key)
            && (forall i :: 0 <= i < |r| ==> RowJoined(r[i], declared, transferred, arrived))
            && (forall row, key ::
                  (row in declared || row in transferred || row in arrived) && KeyFilled(row.key, key) ==>
                  exists i :: 0 <= i < |r| && r[i].key == key)
  {
    var r := Distribution(declared, transferred, arrived);
    MergedUnique(declared, transferred, arrived);
    forall i | 0 <= i < |r| ensures RowJoined(r[i], declared, transferred, arrived) {
      RowsJoin(declared, transferred, arrived, i);
    }
    forall row, key | (row in declared || row in transferred || row in arrived) && KeyFilled(row.key, key)
      ensures exists i :: 0 <= i < |r| && r[i].key == key
    {
      JoinLookups(declared, transferred, arrived, key);
      NormalIsFilled(row.key, key);
      if row in declared { InNormal(declared, row); }
      if row in transferred { InNormal(transferred, row); }
      if row in arrived { InNormal(arrived, row); }
      assert HasKey(r, key);
    }
  }

  lemma InNormal(rows: seq<Row>, row: Row)
    requires row in rows
    ensures HasKey(NormalRows(rows), NormalKey(row.key))
  {
    var i :| 0 <= i < |rows| && rows[i] == row;
    assert NormalRows(rows)[i].key == NormalKey(row.key);
  }

  lemma MergedUnique(declared: seq<Row>, transferred: seq<Row>, arrived: seq<Row>)
    requires UniqueKeys(NormalRows(declared))
    ensures UniqueKeys(Distribution(declared, transferred, arrived))
  {
    var any := Key(None, None, None, None, None, "", "");
    ColumnJoined(NormalRows(declared), NormalRows(transferred), NormalRows(arrived), any, Declared);
  }

  lemma ColumnJoined(d: seq<Row>, t: seq<Row>, a: seq<Row>, key: Key, column: Target)
    ensures var r := MergeAll(MergeAll(d, t, Transferred), a, Arrived);
            && Lookup(r, key, column) == (match column
                 case Declared => Lookup(d, key, Declared)
                 case Transferred => Last(t, key, Transferred, Lookup(d, key, Transferred))
                 case Arrived => Last(a, key, Arrived, Lookup(d, key, Arrived)))
            && (HasKey(r, key) <==> HasKey(d, key) || HasKey(t, key) || HasKey(a, key))
            && (UniqueKeys(d) ==> UniqueKeys(r))
  {
    MergeAllMeans(d, t, Transferred, key, column);
    MergeAllMeans(MergeAll(d, t, Transferred), a, Arrived, key, column);
  }

  lemma NoneLookedUp(rows: seq<Row>, key: Key, target: Target)
    requires Blank(rows, target)
    ensures Lookup(rows, key, target) == None
  {
  }

  // ---------------------------------------------------------------- totals

  function Amount(q: Option<nat>): nat { if q.Some? then q.value else 0 }

  function Total(rows: seq<Row>, target: Target): nat {
    if rows == [] then 0 else Total(rows[..|rows| - 1], target) + Amount(Quantity(rows[|rows| - 1], target))
  }

  /** What later items of the same key overwrite. */
  function Overwritten(items: seq<Row>, target: Target): nat {
    if items == [] then 0
    else
      var front, item := items[..|items| - 1], items[|items| - 1];
      Overwritten(front, target) + Amount(Last(front, item.key, target, None))
  }

  lemma {:induction false} TotalUpdate(rows: seq<Row>, i: nat, row: Row, target: Target)
    requires i < |rows|
    ensures Total(rows[i := row], target) + Amount(Quantity(rows[i], target))
            == Total(rows, target) + Amount(Quantity(row, target))
  {
    var front := rows[..|rows| - 1];
    if i == |rows| - 1 {
      assert rows[i := row][..|rows| - 1] == front;
    } else {
      assert rows[i := row][..|rows| - 1] == front[i := row];
      TotalUpdate(front, i, row, target);
    }
  }

  lemma MergeOneTotal(rows: seq<Row>, item: Row, target: Target, column: Target)
    ensures Total(MergeOne(rows, item, target), column)
            + (if column == target then Amount(Lookup(rows, item.key, target)) else 0)
            == Total(rows, column) + (if column == target then Amount(Quantity(item, target)) else 0)
  {
    var i := IndexOf(rows, item.key);
    if i == -1 {
      var r := MergeOne(rows, item, target);
      assert r[..|r| - 1] == rows;
    } else {
      TotalUpdate(rows, i, SetQuantity(rows[i], target, Quantity(item, target)), column);
    }
  }

  /** Merging conserves the other totals, and its own up to what items of one key overwrite. */
  lemma {:induction false} MergeAllTotal(rows: seq<Row>, items: seq<Row>, target: Target, column: Target)
    requires forall key :: Lookup(rows, key, target) == None
    ensures column != target ==> Total(MergeAll(rows, items, target), column) == Total(rows, column)
    ensures column == target ==>
              Total(MergeAll(rows, items, target), target) + Overwritten(items, target)
                == Total(rows, target) + Total(items, target)
  {
    if items != [] {
      var front, item := items[..|items| - 1], items[|items| - 1];
      MergeAllTotal(rows, front, target, column);
      MergeOneTotal(MergeAll(rows, front, target), item, target, column);
      MergeAllMeans(rows, front, target, item.key, target);
    }
  }

  /** Item i has a quantity, and a later item has its key. */
  predicate Loses(items: seq<Row>, target: Target, i: nat)
    requires i < |items|
  {
    Amount(Quantity(items[i], target)) > 0 && exists j :: i < j < |items| && items[j].key == items[i].key
  }

  lemma {:induction false} LastAmount(items: seq<Row>, key: Key, target: Target)
    ensures Amount(Last(items, key, target, None)) > 0 <==>
              exists i :: 0 <= i < |items| && items[i].key == key && Amount(Quantity(items[i], target)) > 0
                          && forall j :: i < j < |items| ==> items[j].key != key
  {
    if items != [] {
      var n := |items| - 1;
      LastAmount(items[..n], key, target);
      if items[n].key != key && Amount(Last(items, key, target, None)) > 0 {
        var i :| 0 <= i < n && items[..n][i].key == key && Amount(Quantity(items[..n][i], target)) > 0
                 && forall j :: i < j < n ==> items[..n][j].key != key;
        assert items[i] == items[..n][i] && forall j :: i < j < |items| ==> items[j].key != key;
      }
    }
  }

  lemma LosesMore(items: seq<Row>, target: Target)
    requires items != []
    ensures var n := |items| - 1;
            (exists i :: 0 <= i < |items| && Loses(items, target, i)) <==>
              || (exists i :: 0 <= i < n && Loses(items[..n], target, i))
              || Amount(Last(items[..n], items[n].key, target, None)) > 0
  {
    var n := |items| - 1;
    var front := items[..n];
    LastAmount(front, items[n].key, target);
    if i :| 0 <= i < n && Loses(front, target, i) {
      var j :| i < j < n && front[j].key == front[i].key;
      assert items[j].key == items[i].key && Loses(items, target, i);
    }
    if Amount(Last(front, items[n].key, target, None)) > 0 {
      var i :| 0 <= i < n && front[i].key == items[n].key && Amount(Quantity(front[i], target)) > 0;
      assert items[i] == front[i] && Loses(items, target, i);
    }
    if i :| 0 <= i < |items| && Loses(items, target, i) {
      var j :| i < j < |items| && items[j].key == items[i].key;
      LostSomewhere(items, target, i, j);
    }
  }

  /** The last of the rows with the key of i that stand before the last row loses to it, or i loses before. */
  lemma LostSomewhere(items: seq<Row>, target: Target, i: nat, j: nat)
    requires i < j < |items| && items[j].key == items[i].key && Amount(Quantity(items[i], target)) > 0
    ensures var n := |items| - 1;
            || (exists k :: 0 <= k < n && Loses(items[..n], target, k))
            || Amount(Last(items[..n], items[n].key, target, None)) > 0
  {
    var n := |items| - 1;
    var front := items[..n];
    if j < n {
      assert front[j].key == front[i].key && Loses(front, target, i);
    } else if k :| i < k < n && items[k].key == items[i].key {
      assert front[k].key == front[i].key && Loses(front, target, i);
    } else {
      LastAmount(front, items[n].key, target);
      assert front[i].key == items[n].key && forall k :: i < k < n ==> front[k].key != items[n].key;
    }
  }

  /** Nothing is overwritten exactly when every item that a later one of its key follows has no quantity. */
  lemma {:induction false} NothingOverwrittenExactly(items: seq<Row>, target: Target)
    ensures Overwritten(items, target) == 0 <==> forall i :: 0 <= i < |items| ==> !Loses(items, target, i)
  {
    if items != [] {
      NothingOverwrittenExactly(items[..|items| - 1], target);
      LosesMore(items, target);
    }
  }

  lemma {:induction false} TotalOfNone(rows: seq<Row>, target: Target)
    requires Blank(rows, target)
    ensures Total(rows, target) == 0
  {
    if rows != [] { TotalOfNone(rows[..|rows| - 1], target); }
  }

  lemma {:induction false} NormalTotal(rows: seq<Row>, target: Target)
    ensures Total(NormalRows(rows), target) == Total(rows, target)
  {
    if rows != [] {
      NormalTotal(rows[..|rows| - 1], target);
      assert NormalRows(rows)[..|rows| - 1] == NormalRows(rows[..|rows| - 1]);
    }
  }

  lemma MergeTotals(d: seq<Row>, t: seq<Row>, a: seq<Row>)
    requires forall key :: Lookup(d, key, Transferred) == None
    requires forall key :: Lookup(MergeAll(d, t, Transferred), key, Arrived) == None
    ensures var r := MergeAll(MergeAll(d, t, Transferred), a, Arrived);
            && Total(r, Declared) == Total(d, Declared)
            && Total(r, Transferred) + Overwritten(t, Transferred) == Total(d, Transferred) + Total(t, Transferred)
            && Total(r, Arrived) + Overwritten(a, Arrived) == Total(d, Arrived) + Total(a, Arrived)
  {
    var m := MergeAll(d, t, Transferred);
    MergeAllTotal(d, t, Transferred, Declared);
    MergeAllTotal(d, t, Transferred, Transferred);
    MergeAllTotal(d, t, Transferred, Arrived);
    MergeAllTotal(m, a, Arrived, Declared);
    MergeAllTotal(m, a, Arrived, Transferred);
    MergeAllTotal(m, a, Arrived, Arrived);
  }

  /** The declared total is always conserved; each other total falls short by exactly what rows of
      its own list with equal normalised keys overwrite. So it is conserved exactly when every row of that
      list that a later one of its normalised key follows has no quantity. */
  lemma TotalsConserved(declared: seq<Row>, transferred: seq<Row>, arrived: seq<Row>)
    requires OnlyDeclared(declared)
    ensures var r := Distribution(declared, transferred, arrived);
            && Total(r, Declared) == Total(declared, Declared)
            && Total(r, Transferred) + Overwritten(NormalRows(transferred), Transferred)
               == Total(transferred, Transferred)
            && Total(r, Arrived) + Overwritten(NormalRows(arrived), Arrived) == Total(arrived, Arrived)
    ensures Overwritten(NormalRows(transferred), Transferred) == 0 <==>
              forall i :: 0 <= i < |transferred| ==> !Loses(NormalRows(transferred), Transferred, i)
    ensures Overwritten(NormalRows(arrived), Arrived) == 0 <==>
              forall i :: 0 <= i < |arrived| ==> !Loses(NormalRows(arrived), Arrived, i)
  {
    var d, t, a := NormalRows(declared), NormalRows(transferred), NormalRows(arrived);
    var m := MergeAll(d, t, Transferred);
    BlankNormal(declared, Transferred);
    BlankNormal(declared, Arrived);
    TotalOfNone(d, Transferred);
    TotalOfNone(d, Arrived);
    forall key ensures Lookup(d, key, Transferred) == None { NoneLookedUp(d, key, Transferred); }
    forall key ensures Lookup(m, key, Arrived) == None {
      NoneLookedUp(d, key, Arrived);
      MergeAllMeans(d, t, Transferred, key, Arrived);
    }
    MergeTotals(d, t, a);
    NormalTotal(declared, Declared);
    NormalTotal(transferred, Transferred);
    NormalTotal(arrived, Arrived);
    NothingOverwrittenExactly(t, Transferred);
    NothingOverwrittenExactly(a, Arrived);
  }

  /** With unique keys nothing is lost. */
  lemma UniqueLosesNothing(items: seq<Row>, target: Target)
    requires UniqueKeys(items)
    ensures Overwritten(items, target) == 0
  {
    NothingOverwrittenExactly(items, target);
  }

  /** Two transferred counts, one under a null and one under an UNKNOWN channel: the first is lost. */
  lemma TransferredLost(known: Key)
    requires NormalKey(known) == known && known.channel == UNKNOWN
    ensures var transferred := [Row(known.(channel := None), None, Some(3), None), Row(known, None, Some(4), None)];
            Total(transferred, Transferred) == 7 && Total(Distribution([], transferred, []), Transferred) == 4
  {
    var first, second := Row(known.(channel := None), None, Some(3), None), Row(known, None, Some(4), None);
    var transferred := [first, second];
    var t := NormalRows(transferred);
    assert t == [Row(known, None, Some(3), None), Row(known, None, Some(4), None)];
    assert transferred[..1] == [first] && t[..1] == [t[0]] && [first][..0] == [] && [t[0]][..0] == [];
    assert Total([first], Transferred) == 3 && Total(transferred, Transferred) == 7;
    assert Last([t[0]], known, Transferred, None) == Some(3) && Overwritten([t[0]], Transferred) == 0;
    assert Overwritten(t, Transferred) == 3;
    TotalsConserved([], transferred, []);
  }
}
