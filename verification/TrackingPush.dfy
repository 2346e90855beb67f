/** The tracking push job: ready rows are grouped by platform and by client, sorted, sent to Kafka, and
    only then, all together, marked as pushed.

    The job is not awaited by the dispatcher, so runs overlap, and rows are added meanwhile. A step is what
    happens between two awaits of one run; what a run sends is decided when it has fetched its batch. */
module TrackingPush {
  import opened Options

  datatype Status = READY | SUCCESS

  /** What is sent of a row; `detail` stands for the remaining fields. */
  datatype Track = Track(trackingNumber: string, timestamp: int, event: string, detail: string)

  /** A row of the log without its status; `id` is its id, which is not sent. */
  datatype Item = Item(id: nat, platform: string, clientId: string, track: Track)
  datatype Row = Row(item: Item, status: Status)

  datatype Config = Config(platform: string, kafkaTopic: string)

  /** `run` is the run that sends it. */
  datatype Message = Message(run: nat, topic: string, platform: string, clientId: string, items: seq<Item>)

  const TAKE: nat := 500

  // ---------------------------------------------------------------- the order of a message

  /** JavaScript's `<` on strings: code unit by code unit, a prefix first. */
  predicate Below(a: string, b: string) {
    b != "" && (a == "" || a[0] < b[0] || (a[0] == b[0] && Below(a[1..], b[1..])))
  }

  lemma {:induction false} BelowTrichotomy(a: string, b: string)
    ensures (Below(a, b) && a != b && !Below(b, a)) || (a == b && !Below(a, b) && !Below(b, a))
            || (Below(b, a) && a != b && !Below(a, b))
  {
    if a != "" && b != "" && a[0] == b[0] {
      BelowTrichotomy(a[1..], b[1..]);
      assert a == [a[0]] + a[1..] && b == [b[0]] + b[1..];
    }
  }

  lemma {:induction false} BelowTransitive(a: string, b: string, c: string)
    requires Below(a, b) && Below(b, c)
    ensures Below(a, c)
  {
    if a != "" && a[0] == b[0] == c[0] { BelowTransitive(a[1..], b[1..], c[1..]); }
  }

  /** In dictionary order: equal up to some place, where the first string ends or has the smaller character. */
  ghost predicate Lower(a: string, b: string) {
    exists k: nat :: FirstDifference(a, b, k) && (k == |a| || a[k] < b[k])
  }

  predicate FirstDifference(a: string, b: string, k: nat) { k <= |a| && k < |b| && a[..k] == b[..k] }

  lemma {:induction false} BelowIsLower(a: string, b: string)
    ensures Below(a, b) <==> Lower(a, b)
  {
    if a == "" && b != "" {
      assert FirstDifference(a, b, 0);
    } else if a != "" && b != "" {
      BelowIsLower(a[1..], b[1..]);
      if k: nat :| FirstDifference(a[1..], b[1..], k) && (k == |a[1..]| || a[1..][k] < b[1..][k]) {
        if a[0] == b[0] {
          assert a[..k + 1] == [a[0]] + a[1..][..k] && b[..k + 1] == [b[0]] + b[1..][..k];
          assert FirstDifference(a, b, k + 1);
        }
      }
      if a[0] < b[0] { assert FirstDifference(a, b, 0); }
      if k: nat :| FirstDifference(a, b, k) && (k == |a| || a[k] < b[k]) {
        if k > 0 {
          assert a[..k][0] == b[..k][0] && a[1..][..k - 1] == a[..k][1..] && b[1..][..k - 1] == b[..k][1..];
          assert FirstDifference(a[1..], b[1..], k - 1);
        }
      }
    }
  }

  /** Tracking number ascending, then timestamp ascending, then event descending. */
  predicate Before(a: Track, b: Track) {
    || Below(a.trackingNumber, b.trackingNumber)
    || (a.trackingNumber == b.trackingNumber
        && (a.timestamp < b.timestamp || (a.timestamp == b.timestamp && Below(b.event, a.event))))
  }

  predicate AtMost(a: Item, b: Item) { !Before(b.track, a.track) }

  /** a may stand before b: tracking numbers ascend; where they are equal timestamps ascend; and where these are
      equal too events descend. */
  ghost predicate InOrder(a: Track, b: Track) {
    && (a.trackingNumber == b.trackingNumber || Lower(a.trackingNumber, b.trackingNumber))
    && (a.trackingNumber == b.trackingNumber ==> a.timestamp <= b.timestamp)
    && (a.trackingNumber == b.trackingNumber && a.timestamp == b.timestamp ==>
          a.event == b.event || Lower(b.event, a.event))
  }

  lemma AtMostIsInOrder(a: Item, b: Item)
    ensures AtMost(a, b) <==> InOrder(a.track, b.track)
  {
    BelowTrichotomy(a.track.trackingNumber, b.track.trackingNumber);
    BelowTrichotomy(a.track.event, b.track.event);
    BelowIsLower(a.track.trackingNumber, b.track.trackingNumber);
    BelowIsLower(b.track.event, a.track.event);
  }

  lemma AtMostTotal(a: Item, b: Item)
    ensures AtMost(a, b) || AtMost(b, a)
  {
    BelowTrichotomy(a.track.trackingNumber, b.track.trackingNumber);
    BelowTrichotomy(a.track.event, b.track.event);
  }

  lemma AtMostTransitive(a: Item, b: Item, c: Item)
    requires AtMost(a, b) && AtMost(b, c)
    ensures AtMost(a, c)
  {
    var x, y, z := a.track, b.track, c.track;
    BelowTrichotomy(x.trackingNumber, y.trackingNumber);
    BelowTrichotomy(y.trackingNumber, z.trackingNumber);
    BelowTrichotomy(x.trackingNumber, z.trackingNumber);
    BelowTrichotomy(x.event, y.event);
    BelowTrichotomy(y.event, z.event);
    BelowTrichotomy(x.event, z.event);
    if Below(x.trackingNumber, y.trackingNumber) && Below(y.trackingNumber, z.trackingNumber) {
      BelowTransitive(x.trackingNumber, y.trackingNumber, z.trackingNumber);
    }
    if Below(y.event, x.event) && Below(z.event, y.event) {
      BelowTransitive(z.event, y.event, x.event);
    }
  }

  ghost predicate Ordered(items: seq<Item>) {
    forall i, j :: 0 <= i < j < |items| ==> InOrder(items[i].track, items[j].track)
  }

  predicate Sorted(items: seq<Item>) { forall i, j :: 0 <= i < j < |items| ==> AtMost(items[i], items[j]) }

  /** Stable insertion: behind every item that is not greater. */
  function InsertItem(items: seq<Item>, item: Item): seq<Item> {
    if items == [] || AtMost(items[|items| - 1], item) then items + [item]
    else InsertItem(items[..|items| - 1], item) + [items[|items| - 1]]
  }

  /** `_.orderBy`: a stable sort. */
  function OrderBy(items: seq<Item>): seq<Item> {
    if items == [] then [] else InsertItem(OrderBy(items[..|items| - 1]), items[|items| - 1])
  }

  lemma {:induction false} InsertItems(items: seq<Item>, item: Item)
    ensures multiset(InsertItem(items, item)) == multiset(items) + multiset{item}
    ensures forall x :: x in InsertItem(items, item) <==> x in items || x == item
  {
    if items != [] && !AtMost(items[|items| - 1], item) {
      InsertItems(items[..|items| - 1], item);
      assert items == items[..|items| - 1] + [items[|items| - 1]];
    }
  }

  lemma SortedAppend(items: seq<Item>, item: Item)
    requires Sorted(items) && forall x :: x in items ==> AtMost(x, item)
    ensures Sorted(items + [item])
  {
  }

  lemma {:induction false} InsertSorted(items: seq<Item>, item: Item)
    requires Sorted(items)
    ensures Sorted(InsertItem(items, item))
  {
    if items == [] {
    } else if AtMost(items[|items| - 1], item) {
      forall x | x in items ensures AtMost(x, item) {
        var i :| 0 <= i < |items| && items[i] == x;
        if i < |items| - 1 { AtMostTransitive(x, items[|items| - 1], item); }
      }
      SortedAppend(items, item);
    } else {
      var front, last := items[..|items| - 1], items[|items| - 1];
      InsertSorted(front, item);
      InsertItems(front, item);
      AtMostTotal(item, last);
      forall x | x in InsertItem(front, item) ensures AtMost(x, last) {
        if x in front {
          var k :| 0 <= k < |front| && front[k] == x;
          assert items[k] == x;
        }
      }
      SortedAppend(InsertItem(front, item), last);
    }
  }

  lemma {:induction false} OrderByIsSorted(items: seq<Item>)
    ensures Sorted(OrderBy(items)) && multiset(OrderBy(items)) == multiset(items)
  {
    if items != [] {
      var front, last := items[..|items| - 1], items[|items| - 1];
      OrderByIsSorted(front);
      InsertSorted(OrderBy(front), last);
      InsertItems(OrderBy(front), last);
      assert items == front + [last];
    }
  }

  /** The items with the three sort keys of a track, in order. */
  function Equals(items: seq<Item>, t: Track): seq<Item> {
    if items == [] then []
    else
      var last := items[|items| - 1];
      Equals(items[..|items| - 1], t)
      + if last.track.trackingNumber == t.trackingNumber && last.track.timestamp == t.timestamp
           && last.track.event == t.event then [last] else []
  }

  lemma {:induction false} InsertStable(items: seq<Item>, item: Item, t: Track)
    ensures Equals(InsertItem(items, item), t) == Equals(items + [item], t)
  {
    assert (items + [item])[..|items|] == items;
    if items != [] && !AtMost(items[|items| - 1], item) {
      var front, last := items[..|items| - 1], items[|items| - 1];
      InsertStable(front, item, t);
      assert (front + [item])[..|front|] == front;
      assert (InsertItem(front, item) + [last])[..|InsertItem(front, item)|] == InsertItem(front, item);
      BelowTrichotomy(last.track.event, item.track.event);
      BelowTrichotomy(last.track.trackingNumber, item.track.trackingNumber);
      assert last.track.trackingNumber != item.track.trackingNumber || last.track.timestamp != item.track.timestamp
        || last.track.event != item.track.event;
    }
  }

  /** The sort is a permutation in the order of the three keys, and items equal in all of them keep their
      order. */
  lemma {:induction false} OrderBySorts(items: seq<Item>)
    ensures Ordered(OrderBy(items)) && multiset(OrderBy(items)) == multiset(items)
    ensures forall t: Track :: Equals(OrderBy(items), t) == Equals(items, t)
  {
    OrderByIsSorted(items);
    forall i, j | 0 <= i < j < |OrderBy(items)| ensures InOrder(OrderBy(items)[i].track, OrderBy(items)[j].track) {
      AtMostIsInOrder(OrderBy(items)[i], OrderBy(items)[j]);
    }
    if items != [] {
      var front, last := items[..|items| - 1], items[|items| - 1];
      OrderBySorts(front);
      forall t: Track ensures Equals(OrderBy(items), t) == Equals(items, t) {
        InsertStable(OrderBy(front), last, t);
        assert (OrderBy(front) + [last])[..|OrderBy(front)|] == OrderBy(front);
      }
    }
  }

  // ---------------------------------------------------------------- grouping

  function TopicOf(configs: seq<Config>, platform: string): Option<string> {
    if configs == [] then None
    else if configs[0].platform == platform then Some(configs[0].kafkaTopic)
    else TopicOf(configs[1..], platform)
  }

  /** The topic is that of the first configuration of the platform. */
  ghost predicate Topic(configs: seq<Config>, platform: string, topic: string) {
    exists k: nat :: FirstAt(configs, platform, k) && configs[k].kafkaTopic == topic
  }

  predicate FirstAt(configs: seq<Config>, platform: string, k: nat) {
    k < |configs| && configs[k].platform == platform && forall j :: 0 <= j < k ==> configs[j].platform != platform
  }

  lemma {:induction false} TopicFound(configs: seq<Config>, platform: string)
    ensures TopicOf(configs, platform).Some? <==> exists c :: c in configs && c.platform == platform
    ensures TopicOf(configs, platform).Some? ==> Topic(configs, platform, TopicOf(configs, platform).value)
  {
    if configs != [] {
      var rest := configs[1..];
      TopicFound(rest, platform);
      if configs[0].platform == platform {
        assert FirstAt(configs, platform, 0);
      } else if TopicOf(rest, platform).Some? {
        var k: nat :| FirstAt(rest, platform, k) && rest[k].kafkaTopic == TopicOf(rest, platform).value;
        assert FirstAt(configs, platform, k + 1);
      }
    }
  }

  /** The two levels of `_.groupBy`. */
  datatype Level = ByPlatform | ByClient

  function KeyOf(level: Level, item: Item): string { if level == ByPlatform then item.platform else item.clientId }

  function KeysOf(level: Level, items: seq<Item>): set<string> { set x | x in items :: KeyOf(level, x) }

  /** The items of some groups, in order. */
  function InGroups(level: Level, items: seq<Item>, keys: set<string>): seq<Item> {
    if items == [] then []
    else
      var last := items[|items| - 1];
      InGroups(level, items[..|items| - 1], keys) + if KeyOf(level, last) in keys then [last] else []
  }

  lemma {:induction false} GroupsSplit(level: Level, items: seq<Item>, keys: set<string>, key: string)
    requires key in keys
    ensures multiset(InGroups(level, items, keys)) ==
            multiset(InGroups(level, items, {key})) + multiset(InGroups(level, items, keys - {key}))
  {
    if items != [] { GroupsSplit(level, items[..|items| - 1], keys, key); }
  }

  lemma {:induction false} GroupsAreFilters(level: Level, items: seq<Item>, keys: set<string>)
    ensures forall x :: x in InGroups(level, items, keys) ==> x in items && KeyOf(level, x) in keys
  {
    if items != [] { GroupsAreFilters(level, items[..|items| - 1], keys); }
  }

  lemma {:induction false} AllOrNoGroups(level: Level, items: seq<Item>, keys: set<string>)
    ensures (forall x :: x in items ==> KeyOf(level, x) in keys) ==> InGroups(level, items, keys) == items
    ensures keys == {} ==> InGroups(level, items, keys) == []
  {
    if items != [] {
      var front, last := items[..|items| - 1], items[|items| - 1];
      AllOrNoGroups(level, front, keys);
      assert items == front + [last];
    }
  }

  /** A message as it should be: one platform, one client, the topic configured for the platform, sorted. */
  ghost predicate GoodMessage(m: Message, configs: seq<Config>) {
    && (forall x :: x in m.items ==> x.platform == m.platform && x.clientId == m.clientId)
    && Topic(configs, m.platform, m.topic) && Ordered(m.items)
  }

  /** Everything in a run of messages. */
  function Items(ms: seq<Message>): multiset<Item> {
    if ms == [] then multiset{} else Items(ms[..|ms| - 1]) + multiset(ms[|ms| - 1].items)
  }

  /** The indices of the first READY rows, at most `n` of them. */
  function Ready(rows: seq<Row>, n: nat): seq<nat> {
    if rows == [] then []
    else
      var front := Ready(rows[..|rows| - 1], n);
      if |front| < n && rows[|rows| - 1].status == READY then front + [|rows| - 1] else front
  }

  lemma {:induction false} ReadyAreReady(rows: seq<Row>, n: nat)
    ensures |Ready(rows, n)| <= n
    ensures forall k :: 0 <= k < |Ready(rows, n)| ==>
              Ready(rows, n)[k] < |rows| && rows[Ready(rows, n)[k]].status == READY
    ensures forall j, k :: 0 <= j < k < |Ready(rows, n)| ==> Ready(rows, n)[j] < Ready(rows, n)[k]
    ensures forall i: nat :: i < |rows| && rows[i].status == READY && i !in Ready(rows, n) ==>
              |Ready(rows, n)| == n && forall k :: 0 <= k < |Ready(rows, n)| ==> Ready(rows, n)[k] < i
  {
    if rows != [] {
      ReadyAreReady(rows[..|rows| - 1], n);
      forall i: nat | i < |rows| - 1 && rows[i].status == READY && i in Ready(rows[..|rows| - 1], n)
        ensures i in Ready(rows, n)
      {
      }
    }
  }

  predicate InRange(ids: seq<nat>, n: nat) { forall k :: 0 <= k < |ids| ==> ids[k] < n }

  function ItemsAt(rows: seq<Row>, ids: seq<nat>): seq<Item>
    requires InRange(ids, |rows|)
  {
    if ids == [] then [] else ItemsAt(rows, ids[..|ids| - 1]) + [rows[ids[|ids| - 1]].item]
  }

  /** `find({ status: READY, take: 500, order: { id: 'ASC' } })`. */
  function Batch(rows: seq<Row>): (ids: seq<nat>)
    ensures InRange(ids, |rows|) && |ids| <= TAKE
    ensures forall i :: i in ids ==> i < |rows| && rows[i].status == READY
  {
    ReadyAreReady(rows, TAKE);
    Ready(rows, TAKE)
  }

  ghost predicate AllGood(ms: seq<Message>, run: nat, configs: seq<Config>) {
    forall m :: m in ms ==> m.run == run && GoodMessage(m, configs)
  }

  /** What was put into messages of some items, and what their remaining groups hold, are together all of them. */
  ghost predicate Left(level: Level, items: seq<Item>, news: seq<Message>, keys: set<string>) {
    Items(news) + multiset(InGroups(level, items, keys)) == multiset(items)
  }

  lemma LeftAtStart(level: Level, items: seq<Item>)
    ensures Left(level, items, [], KeysOf(level, items))
  {
    AllOrNoGroups(level, items, KeysOf(level, items));
  }

  lemma LeftAtEnd(level: Level, items: seq<Item>, news: seq<Message>)
    requires Left(level, items, news, {})
    ensures Items(news) == multiset(items)
  {
    AllOrNoGroups(level, items, {});
  }

  /** Taking the whole of one group takes it off the remaining ones. */
  lemma LeftAfter(level: Level, items: seq<Item>, news: seq<Message>, more: seq<Message>, keys: set<string>,
                  key: string)
    requires Left(level, items, news, keys) && key in keys
    requires Items(more) == multiset(InGroups(level, items, {key}))
    ensures Left(level, items, news + more, keys - {key})
  {
    GroupsSplit(level, items, keys, key);
    ItemsAppend(news, more);
  }

  /** The message of one client is good, and holds exactly that client's items. */
  lemma ClientMessage(group: seq<Item>, m: Message, configs: seq<Config>)
    requires m.items == OrderBy(InGroups(ByClient, group, {m.clientId}))
    requires (forall x :: x in group ==> x.platform == m.platform) && Topic(configs, m.platform, m.topic)
    ensures GoodMessage(m, configs) && Items([m]) == multiset(InGroups(ByClient, group, {m.clientId}))
  {
    var mine := InGroups(ByClient, group, {m.clientId});
    GroupsAreFilters(ByClient, group, {m.clientId});
    OrderBySorts(mine);
    SameItems(mine, m.items);
    assert [m][..0] == [] && Items([m]) == Items([]) + multiset(m.items);
  }

  lemma SameItems(a: seq<Item>, b: seq<Item>)
    requires multiset(a) == multiset(b)
    ensures forall x :: x in a <==> x in b
  {
    forall x ensures x in a <==> x in b { assert x in multiset(a) <==> x in multiset(b); }
  }

  lemma {:induction false} ItemsAppend(a: seq<Message>, b: seq<Message>)
    ensures Items(a + b) == Items(a) + Items(b)
    decreases b
  {
    if b == [] {
      assert a + b == a;
    } else {
      assert (a + b)[..|a + b| - 1] == a + b[..|b| - 1];
      ItemsAppend(a, b[..|b| - 1]);
    }
  }

  lemma {:induction false} InItems(ms: seq<Message>, item: Item)
    requires item in Items(ms)
    ensures exists m :: m in ms && item in m.items
  {
    var n := |ms| - 1;
    if item in ms[n].items {
      assert ms[n] in ms;
    } else {
      InItems(ms[..n], item);
      var m :| m in ms[..n] && item in m.items;
      assert m in ms;
    }
  }

  // ---------------------------------------------------------------- what a run will send

  /** One message per platform and client. */
  ghost predicate OnePerClient(ms: seq<Message>) {
    forall i, j :: 0 <= i < j < |ms| ==> ms[i].platform != ms[j].platform || ms[i].clientId != ms[j].clientId
  }

  predicate AllConfigured(batch: seq<Item>, configs: seq<Config>) {
    forall x :: x in batch ==> exists c :: c in configs && c.platform == x.platform
  }

  /** The messages of a run: all good, one per platform and client, of rows of the batch, and together the
      batch, unless a platform without configuration stops the run before its messages. */
  ghost predicate Plan(run: nat, batch: seq<Item>, configs: seq<Config>, ms: seq<Message>) {
    && AllGood(ms, run, configs) && OnePerClient(ms) && Items(ms) <= multiset(batch)
    && (AllConfigured(batch, configs) ==> Items(ms) == multiset(batch))
  }

  lemma OneMoreClient(ms: seq<Message>, m: Message)
    requires OnePerClient(ms) && forall x :: x in ms ==> x.platform != m.platform || x.clientId != m.clientId
    ensures OnePerClient(ms + [m])
  {
  }

  lemma OnePerClientConcat(a: seq<Message>, b: seq<Message>)
    requires OnePerClient(a) && OnePerClient(b) && forall x, y :: x in a && y in b ==> x.platform != y.platform
    ensures OnePerClient(a + b)
  {
  }

  /** The loop over the clients of one platform. */
  method PlanPlatform(run: nat, group: seq<Item>, platform: string, topic: string, ghost configs: seq<Config>)
    returns (news: seq<Message>)
    requires Topic(configs, platform, topic)
    requires forall x :: x in group ==> x.platform == platform
    ensures AllGood(news, run, configs) && OnePerClient(news) && (forall m :: m in news ==> m.platform == platform)
    ensures Items(news) == multiset(group)
  {
    news := [];
    var clients := KeysOf(ByClient, group);
    LeftAtStart(ByClient, group);
    while clients != {}
      invariant AllGood(news, run, configs) && OnePerClient(news)
      invariant forall m :: m in news ==> m.platform == platform && m.clientId !in clients
      invariant Left(ByClient, group, news, clients)
      decreases clients
    {
      var clientId :| clientId in clients;
      var m := Message(run, topic, platform, clientId, OrderBy(InGroups(ByClient, group, {clientId})));
      ClientMessage(group, m, configs);
      LeftAfter(ByClient, group, news, [m], clients, clientId);
      OneMoreClient(news, m);
      news := news + [m];
      clients := clients - {clientId};
    }
    LeftAtEnd(ByClient, group, news);
  }

  /** The loop over the platforms: a platform without configuration throws. */
  method PlanAll(run: nat, batch: seq<Item>, trackingPushes: seq<Config>) returns (ms: seq<Message>)
    ensures Plan(run, batch, trackingPushes, ms)
  {
    ms := [];
    var platforms := KeysOf(ByPlatform, batch);
    LeftAtStart(ByPlatform, batch);
    while platforms != {}
      invariant AllGood(ms, run, trackingPushes) && OnePerClient(ms)
      invariant platforms <= KeysOf(ByPlatform, batch) && forall m :: m in ms ==> m.platform !in platforms
      invariant Left(ByPlatform, batch, ms, platforms)
      decreases platforms
    {
      var platform :| platform in platforms;
      var topic := TopicOf(trackingPushes, platform);
      TopicFound(trackingPushes, platform);
      if topic.None? {
        return;
      }
      GroupsAreFilters(ByPlatform, batch, {platform});
      var more := PlanPlatform(run, InGroups(ByPlatform, batch, {platform}), platform, topic.value, trackingPushes);
      LeftAfter(ByPlatform, batch, ms, more, platforms, platform);
      OnePerClientConcat(ms, more);
      ms := ms + more;
      platforms := platforms - {platform};
    }
    LeftAtEnd(ByPlatform, batch, ms);
  }

  // ---------------------------------------------------------------- all interleavings

  /** What a run worked with. */
  datatype Read = Read(configs: seq<Config>, batch: seq<Item>)

  /** `sending` holds what each run in flight has still to send, `read` what every run worked with, and
      `marked` the runs whose update took effect. */
  datatype State = State(
    rows: seq<Row>, sent: seq<Message>, sending: map<nat, seq<Message>>, read: map<nat, Read>, marked: set<nat>)

  predicate Inserted(s: State, s': State, item: Item) {
    item.id == |s.rows| && s' == s.(rows := s.rows + [Row(item, READY)])
  }

  /** A run has read its configurations and fetched its batch. */
  ghost predicate Fetched(s: State, s': State, run: nat, configs: seq<Config>, ms: seq<Message>) {
    var batch := ItemsAt(s.rows, Batch(s.rows));
    && run !in s.read && Plan(run, batch, configs, ms)
    && s' == s.(sending := s.sending[run := ms], read := s.read[run := Read(configs, batch)])
  }

  predicate Sent(s: State, s': State, run: nat) {
    && run in s.sending && s.sending[run] != []
    && s' == s.(sent := s.sent + [s.sending[run][0]], sending := s.sending[run := s.sending[run][1..]])
  }

  /** The run ends: it is done, dies, or something throws; a call that throws may have taken effect. */
  predicate Ended(s: State, s': State, run: nat) {
    run in s.sending && s' == s.(sending := s.sending - {run})
  }

  function IdsOf(batch: seq<Item>): set<nat> { set x | x in batch :: x.id }

  /** The one UPDATE at the end. */
  function Pushed(rows: seq<Row>, ids: set<nat>): (r: seq<Row>)
    ensures |r| == |rows|
            && forall i :: 0 <= i < |rows| ==> r[i] == if i in ids then rows[i].(status := SUCCESS) else rows[i]
  {
    seq(|rows|, i requires 0 <= i < |rows| => if i in ids then rows[i].(status := SUCCESS) else rows[i])
  }

  /** All messages are sent, and the rows of the batch are updated. */
  predicate Marked(s: State, s': State, run: nat) {
    && run in s.sending && s.sending[run] == [] && run in s.read
    && AllConfigured(s.read[run].batch, s.read[run].configs)
    && s' == s.(rows := Pushed(s.rows, IdsOf(s.read[run].batch)), sending := s.sending - {run},
                marked := s.marked + {run})
  }

  ghost predicate Next(s: State, s': State) {
    || (exists item: Item :: Inserted(s, s', item))
    || (exists run: nat, configs: seq<Config>, ms: seq<Message> :: Fetched(s, s', run, configs, ms))
    || (exists run: nat :: Sent(s, s', run))
    || (exists run: nat :: Marked(s, s', run))
    || (exists run: nat :: Ended(s, s', run))
  }

  function Empty(): State { State([], [], map[], map[], {}) }

  ghost predicate StepAt(b: seq<State>, k: nat) { 0 < k < |b| ==> Next(b[k - 1], b[k]) }

  ghost predicate Behaviour(b: seq<State>) { |b| > 0 && b[0] == Empty() && forall k: nat :: StepAt(b, k) }

  // ---------------------------------------------------------------- the invariant

  function MessagesOf(sent: seq<Message>, run: nat): seq<Message> {
    if sent == [] then []
    else MessagesOf(sent[..|sent| - 1], run) + if sent[|sent| - 1].run == run then [sent[|sent| - 1]] else []
  }

  lemma MessagesAppend(sent: seq<Message>, m: Message, run: nat)
    ensures MessagesOf(sent + [m], run) == MessagesOf(sent, run) + if m.run == run then [m] else []
  {
    assert (sent + [m])[..|sent|] == sent;
  }

  lemma {:induction false} MessagesOfOther(sent: seq<Message>, run: nat)
    requires forall m :: m in sent ==> m.run != run
    ensures MessagesOf(sent, run) == []
  {
    if sent != [] { MessagesOfOther(sent[..|sent| - 1], run); }
  }

  lemma {:induction false} MessagesOfIn(sent: seq<Message>, run: nat)
    ensures forall m :: m in MessagesOf(sent, run) <==> m in sent && m.run == run
  {
    if sent != [] {
      MessagesOfIn(sent[..|sent| - 1], run);
      assert sent == sent[..|sent| - 1] + [sent[|sent| - 1]];
    }
  }

  /** What a run sent and what it has still to send are the messages of one plan. */
  ghost predicate RunOk(s: State, run: nat)
    requires run in s.sending
  {
    && run in s.read && run !in s.marked
    && Plan(run, s.read[run].batch, s.read[run].configs, MessagesOf(s.sent, run) + s.sending[run])
  }

  ghost predicate RunsOk(s: State) { forall run :: run in s.sending ==> RunOk(s, run) }

  ghost predicate MessageOk(s: State, m: Message) { m.run in s.read && GoodMessage(m, s.read[m.run].configs) }

  ghost predicate SentOk(s: State) { forall m :: m in s.sent ==> MessageOk(s, m) }

  /** The run sent its whole batch, in messages as they should be. */
  ghost predicate Complete(s: State, run: nat) {
    && run in s.read && run !in s.sending && OnePerClient(MessagesOf(s.sent, run))
    && Items(MessagesOf(s.sent, run)) == multiset(s.read[run].batch)
  }

  ghost predicate MarkedOk(s: State) { forall run :: run in s.marked ==> Complete(s, run) }

  /** The row is in the batch of a run that updated it. */
  ghost predicate RowMarked(s: State, i: nat)
    requires i < |s.rows|
  {
    exists run :: run in s.marked && run in s.read && s.rows[i].item in s.read[run].batch
  }

  ghost predicate RowsOk(s: State) {
    && (forall i :: 0 <= i < |s.rows| ==> s.rows[i].item.id == i)
    && (forall i :: 0 <= i < |s.rows| && s.rows[i].status == SUCCESS ==> RowMarked(s, i))
    && forall run, x :: run in s.read && x in s.read[run].batch ==> x.id < |s.rows| && s.rows[x.id].item == x
  }

  ghost predicate Inv(s: State) { RunsOk(s) && SentOk(s) && MarkedOk(s) && RowsOk(s) }

  lemma {:induction false} ItemsAtIn(rows: seq<Row>, ids: seq<nat>)
    requires InRange(ids, |rows|)
    ensures forall x :: x in ItemsAt(rows, ids) ==> exists i :: 0 <= i < |rows| && rows[i].item == x && i in ids
  {
    if ids != [] {
      var n := |ids| - 1;
      ItemsAtIn(rows, ids[..n]);
      forall x | x in ItemsAt(rows, ids) ensures exists i :: 0 <= i < |rows| && rows[i].item == x && i in ids {
        if x in ItemsAt(rows, ids[..n]) {
          var i :| 0 <= i < |rows| && rows[i].item == x && i in ids[..n];
          assert i in ids;
        } else {
          assert rows[ids[n]].item == x;
        }
      }
    }
  }

  lemma RowsGrow(s: State, s': State)
    requires RowsOk(s) && s'.read == s.read && s'.marked == s.marked
    requires |s.rows| <= |s'.rows| && forall i :: 0 <= i < |s.rows| ==> s'.rows[i] == s.rows[i]
    requires forall i :: |s.rows| <= i < |s'.rows| ==> s'.rows[i].item.id == i && s'.rows[i].status == READY
    ensures RowsOk(s')
  {
    forall i | 0 <= i < |s'.rows| && s'.rows[i].status == SUCCESS ensures RowMarked(s', i) { assert RowMarked(s, i); }
  }

  lemma InsertedKeeps(s: State, s': State, item: Item)
    requires Inv(s) && Inserted(s, s', item)
    ensures Inv(s')
  {
    RowsGrow(s, s');
    forall run | run in s'.sending ensures RunOk(s', run) { assert RunOk(s, run); }
    forall run | run in s'.marked ensures Complete(s', run) { assert Complete(s, run); }
    forall m | m in s'.sent ensures MessageOk(s', m) { assert MessageOk(s, m); }
  }

  lemma FetchedRows(s: State, s': State, run: nat, configs: seq<Config>, ms: seq<Message>)
    requires RowsOk(s) && Fetched(s, s', run, configs, ms)
    ensures RowsOk(s')
  {
    ItemsAtIn(s.rows, Batch(s.rows));
    forall i | 0 <= i < |s'.rows| && s'.rows[i].status == SUCCESS ensures RowMarked(s', i) {
      var r :| r in s.marked && r in s.read && s.rows[i].item in s.read[r].batch;
      assert r in s'.marked && s'.read[r] == s.read[r];
    }
  }

  lemma FetchedKeeps(s: State, s': State, run: nat, configs: seq<Config>, ms: seq<Message>)
    requires Inv(s) && Fetched(s, s', run, configs, ms)
    ensures Inv(s')
  {
    FetchedRows(s, s', run, configs, ms);
    forall m | m in s.sent ensures m.run != run { assert MessageOk(s, m); }
    MessagesOfOther(s.sent, run);
    assert [] + ms == ms;
    forall r | r in s.marked ensures r in s.read { assert Complete(s, r); }
    forall r | r in s'.sending ensures RunOk(s', r) {
      if r != run { assert RunOk(s, r); }
    }
    forall r | r in s'.marked ensures Complete(s', r) { assert Complete(s, r); }
    forall m | m in s'.sent ensures MessageOk(s', m) { assert MessageOk(s, m); }
  }

  /** A run's message moves from what it has to send to what was sent. */
  lemma MessageMoves(sent: seq<Message>, todo: seq<Message>, run: nat)
    requires todo != [] && todo[0].run == run
    ensures MessagesOf(sent + [todo[0]], run) + todo[1..] == MessagesOf(sent, run) + todo
  {
    MessagesAppend(sent, todo[0], run);
    assert (MessagesOf(sent, run) + [todo[0]]) + todo[1..] == MessagesOf(sent, run) + todo;
  }

  lemma NextMessageGood(s: State, run: nat)
    requires run in s.sending && s.sending[run] != [] && RunOk(s, run)
    ensures var m := s.sending[run][0]; m.run == run && GoodMessage(m, s.read[run].configs)
  {
    assert s.sending[run][0] in MessagesOf(s.sent, run) + s.sending[run];
  }

  lemma SentRun(s: State, s': State, run: nat)
    requires RunsOk(s) && Sent(s, s', run)
    ensures RunOk(s', run) && MessageOk(s', s.sending[run][0]) && s.sending[run][0].run == run
  {
    assert RunOk(s, run);
    NextMessageGood(s, run);
    MessageMoves(s.sent, s.sending[run], run);
  }

  lemma SentKeeps(s: State, s': State, run: nat)
    requires Inv(s) && Sent(s, s', run)
    ensures Inv(s')
  {
    var m := s.sending[run][0];
    SentRun(s, s', run);
    forall r | r in s'.sending ensures RunOk(s', r) {
      if r != run {
        assert RunOk(s, r);
        MessagesAppend(s.sent, m, r);
        assert MessagesOf(s.sent, r) + [] == MessagesOf(s.sent, r);
      }
    }
    forall r | r in s'.marked ensures Complete(s', r) {
      assert Complete(s, r);
      MessagesAppend(s.sent, m, r);
      assert MessagesOf(s.sent, r) + [] == MessagesOf(s.sent, r);
    }
    forall x | x in s'.sent ensures MessageOk(s', x) {
      if x in s.sent { assert MessageOk(s, x); }
    }
    RowsGrow(s, s');
  }

  lemma MarkedRows(s: State, s': State, run: nat)
    requires RowsOk(s) && Marked(s, s', run)
    ensures RowsOk(s')
  {
    var batch := s.read[run].batch;
    forall i | 0 <= i < |s'.rows| && s'.rows[i].status == SUCCESS ensures RowMarked(s', i) {
      if i in IdsOf(batch) {
        var x :| x in batch && x.id == i;
        assert s'.rows[i].item == x && run in s'.marked;
      } else {
        assert RowMarked(s, i);
        var r :| r in s.marked && r in s.read && s.rows[i].item in s.read[r].batch;
        assert r in s'.marked;
      }
    }
  }

  lemma MarkedKeeps(s: State, s': State, run: nat)
    requires Inv(s) && Marked(s, s', run)
    ensures Inv(s')
  {
    MarkedRows(s, s', run);
    assert RunOk(s, run) && MessagesOf(s.sent, run) + [] == MessagesOf(s.sent, run);
    forall r | r in s'.sending ensures RunOk(s', r) { assert RunOk(s, r); }
    forall r | r in s'.marked ensures Complete(s', r) {
      if r != run { assert Complete(s, r); }
    }
    forall m | m in s'.sent ensures MessageOk(s', m) { assert MessageOk(s, m); }
  }

  lemma EndedKeeps(s: State, s': State, run: nat)
    requires Inv(s) && Ended(s, s', run)
    ensures Inv(s')
  {
    RowsGrow(s, s');
    forall r | r in s'.sending ensures RunOk(s', r) { assert RunOk(s, r); }
    forall r | r in s'.marked ensures Complete(s', r) { assert Complete(s, r); }
    forall m | m in s'.sent ensures MessageOk(s', m) { assert MessageOk(s, m); }
  }

  lemma NextKeeps(s: State, s': State)
    requires Inv(s) && Next(s, s')
    ensures Inv(s')
  {
    if item: Item :| Inserted(s, s', item) {
      InsertedKeeps(s, s', item);
    } else if run: nat, configs: seq<Config>, ms: seq<Message> :| Fetched(s, s', run, configs, ms) {
      FetchedKeeps(s, s', run, configs, ms);
    } else if run: nat :| Sent(s, s', run) {
      SentKeeps(s, s', run);
    } else if run: nat :| Marked(s, s', run) {
      MarkedKeeps(s, s', run);
    } else {
      var run: nat :| Ended(s, s', run);
      EndedKeeps(s, s', run);
    }
  }

  lemma {:induction false} InvAlways(b: seq<State>, k: nat)
    requires Behaviour(b) && k < |b|
    ensures Inv(b[k])
  {
    if k > 0 {
      InvAlways(b, k - 1);
      assert StepAt(b, k);
      NextKeeps(b[k - 1], b[k]);
    }
  }

  // ---------------------------------------------------------------- over all runs

  /** Every message ever sent has one platform, the topic that its own run's configurations name for it, one
      client, and its rows in order. */
  lemma MessagesAreGood(b: seq<State>, k: nat, m: Message)
    requires Behaviour(b) && k < |b| && m in b[k].sent
    ensures m.run in b[k].read && GoodMessage(m, b[k].read[m.run].configs)
  {
    InvAlways(b, k);
    assert MessageOk(b[k], m);
  }

  /** A row is SUCCESS only if it, and not just a row like it, was sent to the topic configured for its platform. */
  lemma SuccessWasSent(b: seq<State>, k: nat, i: nat)
    requires Behaviour(b) && k < |b| && i < |b[k].rows| && b[k].rows[i].status == SUCCESS
    ensures exists m :: m in b[k].sent && b[k].rows[i].item in m.items && m.run in b[k].read
              && Topic(b[k].read[m.run].configs, b[k].rows[i].item.platform, m.topic)
    ensures b[k].rows[i].item.id == i
  {
    var s := b[k];
    InvAlways(b, k);
    assert RowMarked(s, i);
    var run :| run in s.marked && run in s.read && s.rows[i].item in s.read[run].batch;
    assert Complete(s, run);
    assert s.rows[i].item in multiset(s.read[run].batch);
    InItems(MessagesOf(s.sent, run), s.rows[i].item);
    var m :| m in MessagesOf(s.sent, run) && s.rows[i].item in m.items;
    MessagesOfIn(s.sent, run);
    assert MessageOk(s, m);
  }

  /** The messages of a run whose update took effect are a permutation of its batch, one per platform and client. */
  lemma MessagesAreTheBatch(b: seq<State>, k: nat, run: nat)
    requires Behaviour(b) && k < |b| && run in b[k].marked
    ensures run in b[k].read && Items(MessagesOf(b[k].sent, run)) == multiset(b[k].read[run].batch)
    ensures OnePerClient(MessagesOf(b[k].sent, run))
  {
    InvAlways(b, k);
    assert Complete(b[k], run);
  }

  /** A row changes its status only by the update of a run that fetched it and has sent all its messages;
      a run that ends otherwise changes none. */
  lemma StatusChangedByUpdate(s: State, s': State, i: nat)
    requires Inv(s) && Next(s, s') && i < |s.rows|
    ensures i < |s'.rows| && s'.rows[i].item == s.rows[i].item
    ensures s'.rows[i].status != s.rows[i].status ==>
              exists run :: Marked(s, s', run) && s.rows[i].item in s.read[run].batch
  {
    if run: nat :| Marked(s, s', run) {
      if i in IdsOf(s.read[run].batch) {
        var x :| x in s.read[run].batch && x.id == i;
        assert s.rows[i].item == x;
      }
    }
  }

  // ---------------------------------------------------------------- the job

  /** The batch is the first 500 READY rows by id: they ascend, and a READY row that is left out has a greater
      id than all of 500. */
  ghost predicate FirstReady(rows: seq<Row>, batch: seq<Item>) {
    && |batch| <= 500 && (forall x :: x in batch ==> x.id < |rows| && rows[x.id] == Row(x, READY))
    && (forall j, k :: 0 <= j < k < |batch| ==> batch[j].id < batch[k].id)
    && (forall i: nat :: i < |rows| && rows[i].status == READY && rows[i].item !in batch ==>
          |batch| == 500 && forall x :: x in batch ==> x.id < i)
  }

  lemma {:induction false} ItemsAtAre(rows: seq<Row>, ids: seq<nat>)
    requires InRange(ids, |rows|)
    ensures |ItemsAt(rows, ids)| == |ids| && forall k :: 0 <= k < |ids| ==> ItemsAt(rows, ids)[k] == rows[ids[k]].item
  {
    if ids != [] { ItemsAtAre(rows, ids[..|ids| - 1]); }
  }

  lemma {:induction false} FirstIds(rows: seq<Row>, ids: seq<nat>, n: nat)
    requires (forall i :: 0 <= i < |rows| ==> rows[i].item.id == i) && InRange(ids, |rows|) && |ids| <= n == 500
    requires forall k :: 0 <= k < |ids| ==> rows[ids[k]].status == READY
    requires forall j, k :: 0 <= j < k < |ids| ==> ids[j] < ids[k]
    requires forall i: nat :: i < |rows| && rows[i].status == READY && i !in ids ==>
               |ids| == n && forall k :: 0 <= k < |ids| ==> ids[k] < i
    ensures FirstReady(rows, ItemsAt(rows, ids))
  {
    ItemsAtAre(rows, ids);
    var batch := ItemsAt(rows, ids);
    forall i: nat | i < |rows| && i in ids ensures rows[i].item in batch {
      var k :| 0 <= k < |ids| && ids[k] == i;
      assert batch[k] == rows[i].item;
    }
  }

  lemma {:induction false} BatchIsFirst(rows: seq<Row>)
    requires forall i :: 0 <= i < |rows| ==> rows[i].item.id == i
    ensures FirstReady(rows, ItemsAt(rows, Batch(rows)))
  {
    var ids := Batch(rows);
    ReadyAreReady(rows, TAKE);
    FirstIds(rows, ids, TAKE);
  }

  /** The log, Kafka and the runs in flight. Each method is what happens between two awaits. */
  class PushLog {
    /** The log, in id order. */
    var rows: seq<Row>
    var sent: seq<Message>
    var sending: map<nat, seq<Message>>
    var read: map<nat, Read>
    ghost var marked: set<nat>

    ghost function Now(): State
      reads this
    {
      State(rows, sent, sending, read, marked)
    }

    ghost predicate Valid()
      reads this
    {
      Inv(Now())
    }

    constructor ()
      ensures Valid() && Now() == Empty()
    {
      rows, sent, sending, read, marked := [], [], map[], map[], {};
    }

    /** A new row of the log. */
    method Insert(platform: string, clientId: string, track: Track)
      requires Valid()
      modifies this
      ensures Valid() && Inserted(old(Now()), Now(), Item(|old(rows)|, platform, clientId, track))
      ensures rows == old(rows) + [Row(Item(|old(rows)|, platform, clientId, track), READY)]
    {
      var item := Item(|rows|, platform, clientId, track);
      rows := rows + [Row(item, READY)];
      InsertedKeeps(old(Now()), Now(), item);
    }

    /** `handle`, past its two queries: the loops over platforms and clients decide the messages. */
    method Fetch(run: nat, trackingPushes: seq<Config>)
      requires Valid() && run !in read
      modifies this
      ensures Valid() && run in sending && Fetched(old(Now()), Now(), run, trackingPushes, sending[run])
      ensures rows == old(rows) && sent == old(sent)
      ensures run in read && read[run].configs == trackingPushes && FirstReady(rows, read[run].batch)
    {
      var needSyncTracking := ItemsAt(rows, Batch(rows));
      var ms := PlanAll(run, needSyncTracking, trackingPushes);
      sending, read := sending[run := ms], read[run := Read(trackingPushes, needSyncTracking)];
      BatchIsFirst(rows);
      FetchedKeeps(old(Now()), Now(), run, trackingPushes, ms);
    }

    /** One `kafkaEnqueue` took effect. */
    method Enqueue(run: nat)
      requires Valid() && run in sending && sending[run] != []
      modifies this
      ensures Valid() && Sent(old(Now()), Now(), run) && rows == old(rows)
      ensures sent == old(sent) + [old(sending[run])[0]] && sending == old(sending)[run := old(sending[run])[1..]]
    {
      sent := sent + [sending[run][0]];
      sending := sending[run := sending[run][1..]];
      SentKeeps(old(Now()), Now(), run);
    }

    /** The update took effect. */
    method Update(run: nat)
      requires Valid() && run in sending && sending[run] == [] && run in read
               && AllConfigured(read[run].batch, read[run].configs)
      modifies this
      ensures Valid() && Marked(old(Now()), Now(), run) && sent == old(sent) && |rows| == |old(rows)|
      ensures forall i :: 0 <= i < |rows| ==>
                && rows[i].item == old(rows)[i].item
                && rows[i].status == if old(rows)[i].item in old(read[run].batch) then SUCCESS else old(rows)[i].status
    {
      var ids := IdsOf(read[run].batch);
      rows := Pushed(rows, ids);
      sending := sending - {run};
      marked := marked + {run};
      MarkedKeeps(old(Now()), Now(), run);
    }

    /** The run is done, or something in it throws. */
    method End(run: nat)
      requires Valid() && run in sending
      modifies this
      ensures Valid() && Ended(old(Now()), Now(), run) && rows == old(rows) && sent == old(sent)
    {
      sending := sending - {run};
      EndedKeeps(old(Now()), Now(), run);
    }
  }
}
