/** The tracking-file pipeline as a machine of awaited steps.

    Five extract jobs move files from an SFTP source folder to S3 and to the SFTP extracted folder,
    one parse job turns extracted files into tracks, and the clear jobs delete parsed files from
    SFTP. Any number of their runs interleave; each awaited call is one step; a run may die at
    any step, and all of them may die together. */
module TrackingFilePipeline {
  import opened Options
  import opened Chunks

  datatype Carrier = COLISSIMO | COLISPRIVE | MONDIAL_RELAY | DISPEO

  /** One SFTP account per extract job. */
  datatype Server = CM | CM_ESD | CP | MR_ESD | DISPEO_ESD

  function CarrierOf(server: Server): Carrier {
    match server
    case CM => COLISSIMO
    case CM_ESD => COLISSIMO
    case CP => COLISPRIVE
    case MR_ESD => MONDIAL_RELAY
    case DISPEO_ESD => DISPEO
  }

  datatype Folder = Source | Extracted
  datatype Loc = Loc(server: Server, folder: Folder, name: string)

  type Row = seq<string>
  datatype File = File(carrier: Carrier, size: nat, rows: seq<Row>)

  /** The S3 path of a file; `ignores` counts the inserted `ignore/` segments. */
  datatype Key = Key(name: string, ignores: nat)

  datatype Event = EXTRACTED | IGNORED | PARSED | ARCHIVED
  datatype Record = Record(
    name: string, size: nat, fileUrl: Key, event: Event, carrier: Carrier, account: string)

  /** One call of a carrier's track handler. */
  datatype Delivery = Delivery(carrier: Carrier, name: string, chunk: seq<Row>)

  /** `arrived` remembers every file that was ever put into a source folder. */
  datatype Tables = Tables(
    arrived: map<string, File>,
    sftp: map<Loc, File>,
    s3: map<Key, File>,
    records: map<nat, Record>,
    delivered: set<Delivery>)

  datatype FtpSetting = FtpSetting(carrier: Carrier, platform: string, accounts: seq<string>)

  /** What a parse run reads once: the platform of each account and the enabled settings. */
  datatype Settings = Settings(platforms: map<string, string>, ftp: seq<FtpSetting>)

  /** A record as a run read it. */
  datatype Entry = Entry(id: nat, record: Record)
  datatype Parse = Parse(entry: Entry, todo: seq<Entry>, settings: Settings)

  /** A run, by the awaited call it is about to make. */
  datatype Proc =
    | GetFile(loc: Loc)
    | UploadFile(loc: Loc, file: File)
    | FindRecord(loc: Loc, file: File)
    | UpdateRecord(loc: Loc, file: File, id: nat)
    | CreateRecord(loc: Loc, file: File)
    | RenameFile(loc: Loc)
    | NextRecord(todo: seq<Entry>, settings: Settings)
    | CopyIgnored(p: Parse)
    | DeleteOriginal(p: Parse)
    | MarkIgnored(p: Parse)
    | Download(p: Parse)
    | HandleChunks(p: Parse, chunks: seq<seq<Row>>)
    | MarkParsed(p: Parse)
    | ListFolder(server: Server, entry: Entry)
    | CheckStored(server: Server, entry: Entry, found: nat)
    | DeleteFromSftp(server: Server, entry: Entry)
    | MarkArchived(server: Server, entry: Entry)

  datatype State = State(tables: Tables, procs: map<nat, Proc>)

  // ---------------------------------------------------------------- pure decisions

  /** `fileUrl.replace(name, 'ignore/' + name)`. */
  function IgnoreTarget(url: Key): Key { Key(url.name, url.ignores + 1) }

  /** `name.split(stop)[0]`. */
  function Before(name: string, stop: char): (part: string)
    ensures part <= name && stop !in part && (|part| < |name| ==> name[|part|] == stop)
  {
    if name == "" || name[0] == stop then "" else [name[0]] + Before(name[1..], stop)
  }

  function NewRecord(loc: Loc, file: File): Record {
    var carrier := CarrierOf(loc.server);
    Record(loc.name, file.size, Key(loc.name, 0), EXTRACTED, carrier,
           match carrier
           case COLISSIMO => Before(loc.name, '.')
           case COLISPRIVE => Before(loc.name, '_')
           case _ => "")
  }

  predicate FtpEnabled(settings: Settings, r: Record)
    requires r.account in settings.platforms
  {
    exists s :: s in settings.ftp && s.carrier == r.carrier
      && (s.platform == settings.platforms[r.account] || s.platform == "*")
      && (r.account in s.accounts || "*" in s.accounts)
  }

  predicate Known(t: Tables, name: string, size: nat) {
    exists id :: id in t.records && t.records[id].name == name && t.records[id].size == size
  }

  function SetRecord(t: Tables, id: nat, r: Record): Tables { t.(records := t.records[id := r]) }

  // ---------------------------------------------------------------- steps of one run

  /** One awaited call of an extract run: its effect on the tables and its next call, if any. */
  ghost predicate ExtractStep(t: Tables, p: Proc, t': Tables, p': Option<Proc>) {
    match p
    case GetFile(loc) =>
      loc in t.sftp && t' == t && p' == Some(UploadFile(loc, t.sftp[loc]))
    case UploadFile(loc, file) =>
      t' == t.(s3 := t.s3[Key(loc.name, 0) := file]) && p' == Some(FindRecord(loc, file))
    case FindRecord(loc, file) =>
      t' == t && p'.Some? &&
      if Known(t, loc.name, file.size)
      then && p'.value.UpdateRecord? && p'.value == UpdateRecord(loc, file, p'.value.id) && p'.value.id in t.records
           && t.records[p'.value.id].name == loc.name && t.records[p'.value.id].size == file.size
      else p'.value == CreateRecord(loc, file)
    case UpdateRecord(loc, file, id) =>
      t' == (if id in t.records then SetRecord(t, id, NewRecord(loc, file)) else t) && p' == Some(RenameFile(loc))
    case CreateRecord(loc, file) =>
      && !Known(t, loc.name, file.size) && p' == Some(RenameFile(loc))
      && exists id :: id !in t.records && t' == SetRecord(t, id, NewRecord(loc, file))
    case RenameFile(loc) =>
      var target := Loc(loc.server, Extracted, loc.name);
      && loc in t.sftp && target !in t.sftp && p' == None
      && t' == t.(sftp := (t.sftp - {loc})[target := t.sftp[loc]])
    case _ => false
  }

  /** One awaited call of a parse run. Moving an S3 object swallows the errors of both its calls;
      a copy succeeds when its source exists. */
  ghost predicate ParseStep(t: Tables, p: Proc, t': Tables, p': Option<Proc>) {
    match p
    case NextRecord(todo, settings) =>
      t' == t &&
      if todo == [] then p' == None
      else
        var q, r := Parse(todo[0], todo[1..], settings), todo[0].record;
        if r.carrier == COLISSIMO
        then r.account in settings.platforms
          && p' == Some(if FtpEnabled(settings, r) then Download(q) else CopyIgnored(q))
        else p' == Some(Download(q))
    case CopyIgnored(q) =>
      var url := q.entry.record.fileUrl;
      && t' == (if url in t.s3 then t.(s3 := t.s3[IgnoreTarget(url) := t.s3[url]]) else t)
      && p' == Some(DeleteOriginal(q))
    case DeleteOriginal(q) =>
      (t' == t.(s3 := t.s3 - {q.entry.record.fileUrl}) || t' == t) && p' == Some(MarkIgnored(q))
    case MarkIgnored(q) =>
      var id, target := q.entry.id, IgnoreTarget(q.entry.record.fileUrl);
      && t' == (if id in t.records then SetRecord(t, id, t.records[id].(fileUrl := target, event := IGNORED)) else t)
      && p' == Some(NextRecord(q.todo, q.settings))
    case Download(q) =>
      var url := q.entry.record.fileUrl;
      url in t.s3 && t' == t && p' == Some(HandleChunks(q, Chunk(t.s3[url].rows, 1000)))
    case HandleChunks(q, chunks) =>
      if chunks == [] then t' == t && p' == Some(MarkParsed(q))
      else
        var r := q.entry.record;
        && t' == t.(delivered := t.delivered + {Delivery(r.carrier, r.name, chunks[0])})
        && p' == Some(HandleChunks(q, chunks[1..]))
    case MarkParsed(q) =>
      var id := q.entry.id;
      && t' == (if id in t.records then SetRecord(t, id, t.records[id].(event := PARSED)) else t)
      && p' == Some(NextRecord(q.todo, q.settings))
    case _ => false
  }

  /** One awaited call of a clear run, for one record. */
  ghost predicate ClearStep(t: Tables, p: Proc, t': Tables, p': Option<Proc>) {
    match p
    case ListFolder(server, entry) =>
      && t' == t && p'.Some? && p'.value.CheckStored? && p'.value == CheckStored(server, entry, p'.value.found)
      && (p'.value.found > 0 <==> Loc(server, Extracted, entry.record.name) in t.sftp)
    case CheckStored(server, entry, found) =>
      && t' == t
      && p' == if entry.record.fileUrl in t.s3 && found == 1 then Some(DeleteFromSftp(server, entry))
               else if entry.record.fileUrl in t.s3 && found == 0 then Some(MarkArchived(server, entry))
               else None
    case DeleteFromSftp(server, entry) =>
      var loc := Loc(server, Extracted, entry.record.name);
      loc in t.sftp && t' == t.(sftp := t.sftp - {loc}) && p' == Some(MarkArchived(server, entry))
    case MarkArchived(server, entry) =>
      var id := entry.id;
      && t' == (if id in t.records then SetRecord(t, id, t.records[id].(event := ARCHIVED)) else t)
      && p' == None
    case _ => false
  }

  ghost predicate ProcStep(t: Tables, p: Proc, t': Tables, p': Option<Proc>) {
    ExtractStep(t, p, t', p') || ParseStep(t, p, t', p') || ClearStep(t, p, t', p')
  }

  ghost predicate Reads(t: Tables, entry: Entry, event: Event) {
    entry.id in t.records && t.records[entry.id] == entry.record && entry.record.event == event
  }

  /** The first call of a run: what it lists or reads decides what it works on. */
  ghost predicate Start(t: Tables, p: Proc) {
    match p
    case GetFile(loc) => loc in t.sftp && loc.folder == Source
    case NextRecord(todo, _) => forall e :: e in todo ==> Reads(t, e, EXTRACTED)
    case ListFolder(server, entry) => Reads(t, entry, PARSED) && entry.record.carrier == CarrierOf(server)
    case _ => false
  }

  /** A new file, whose name was never used before, is put into a source folder. */
  ghost predicate Arrive(t: Tables, t': Tables) {
    exists loc: Loc, file: File ::
      loc.folder == Source && loc.name !in t.arrived && file.carrier == CarrierOf(loc.server)
      && t' == t.(arrived := t.arrived[loc.name := file], sftp := t.sftp[loc := file])
  }

  // ---------------------------------------------------------------- all interleavings

  function After(procs: map<nat, Proc>, pid: nat, p': Option<Proc>): map<nat, Proc> {
    if p'.Some? then procs[pid := p'.value] else procs - {pid}
  }

  /** A run makes its call. */
  ghost predicate Run(s: State, s': State, pid: nat, p': Option<Proc>) {
    && pid in s.procs && ProcStep(s.tables, s.procs[pid], s'.tables, p')
    && s'.procs == After(s.procs, pid, p')
  }

  ghost predicate Spawn(s: State, s': State, pid: nat, p: Proc) {
    pid !in s.procs && Start(s.tables, p) && s' == State(s.tables, s.procs[pid := p])
  }

  /** Some runs throw or die, one or all of them, before or between their calls. */
  ghost predicate Die(s: State, s': State, pids: set<nat>) { s' == State(s.tables, s.procs - pids) }

  ghost predicate Next(s: State, s': State) {
    || (Arrive(s.tables, s'.tables) && s'.procs == s.procs)
    || (exists pid: nat, p: Proc :: Spawn(s, s', pid, p))
    || (exists pids: set<nat> :: Die(s, s', pids))
    || (exists pid: nat, p': Option<Proc> :: Run(s, s', pid, p'))
  }

  ghost predicate Init(s: State) { s == State(Tables(map[], map[], map[], map[], {}), map[]) }

  ghost predicate StepAt(b: seq<State>, k: nat) { 0 < k < |b| ==> Next(b[k - 1], b[k]) }

  ghost predicate Behaviour(b: seq<State>) { |b| > 0 && Init(b[0]) && forall k: nat :: StepAt(b, k) }

  // ---------------------------------------------------------------- the invariant

  predicate OnSftp(t: Tables, name: string) { exists loc :: loc in t.sftp && loc.name == name }

  predicate InS3(t: Tables, name: string) { Key(name, 0) in t.s3 || Key(name, 1) in t.s3 }

  /** Every 1000-row chunk of the file went to the handler of its carrier. */
  ghost predicate Handled(t: Tables, name: string) {
    name in t.arrived
    && forall c :: c in Chunk(t.arrived[name].rows, 1000) ==> Delivery(t.arrived[name].carrier, name, c) in t.delivered
  }

  ghost predicate Placed(t: Tables, name: string) { OnSftp(t, name) || (InS3(t, name) && Handled(t, name)) }

  ghost predicate SftpOk(t: Tables) {
    forall loc :: loc in t.sftp ==> FileOk(t, loc, t.sftp[loc])
  }

  ghost predicate S3Ok(t: Tables) {
    forall key :: key in t.s3 ==> key.name in t.arrived && t.s3[key] == t.arrived[key.name]
  }

  ghost predicate RecordOk(t: Tables, r: Record) {
    && r.name in t.arrived && r.size == t.arrived[r.name].size && r.carrier == t.arrived[r.name].carrier
    && InS3(t, r.name)
    && r.fileUrl.name == r.name && r.fileUrl.ignores <= 1
    && (r.fileUrl.ignores == 1 ==> r.fileUrl in t.s3)
    && (r.event == EXTRACTED ==> r.fileUrl.ignores == 0)
    && (r.event == PARSED || r.event == ARCHIVED ==> Handled(t, r.name))
  }

  ghost predicate AllPlaced(t: Tables) { forall name :: name in t.arrived ==> Placed(t, name) }

  ghost predicate RecordsOk(t: Tables) { forall id :: id in t.records ==> RecordOk(t, t.records[id]) }

  ghost predicate TablesOk(t: Tables) { SftpOk(t) && S3Ok(t) && AllPlaced(t) && RecordsOk(t) }

  ghost predicate FileOk(t: Tables, loc: Loc, file: File) {
    loc.name in t.arrived && file == t.arrived[loc.name] && file.carrier == CarrierOf(loc.server)
  }

  /** What a run remembers of a record it read with the given event. */
  ghost predicate EntryOk(t: Tables, e: Entry, event: Event) {
    e.id in t.records && t.records[e.id].name == e.record.name && e.record.event == event && RecordOk(t, e.record)
  }

  ghost predicate EntriesOk(t: Tables, es: seq<Entry>) { forall e :: e in es ==> EntryOk(t, e, EXTRACTED) }

  ghost predicate ParseOk(t: Tables, q: Parse) { EntryOk(t, q.entry, EXTRACTED) && EntriesOk(t, q.todo) }

  ghost predicate ProcOk(t: Tables, p: Proc) {
    match p
    case UploadFile(loc, file) => FileOk(t, loc, file)
    case FindRecord(loc, file) => FileOk(t, loc, file) && InS3(t, loc.name)
    case UpdateRecord(loc, file, id) =>
      FileOk(t, loc, file) && InS3(t, loc.name) && id in t.records && t.records[id].name == loc.name
    case CreateRecord(loc, file) => FileOk(t, loc, file) && InS3(t, loc.name)
    case NextRecord(todo, _) => EntriesOk(t, todo)
    case CopyIgnored(q) => ParseOk(t, q)
    case DeleteOriginal(q) => ParseOk(t, q) && Key(q.entry.record.name, 1) in t.s3
    case MarkIgnored(q) => ParseOk(t, q) && Key(q.entry.record.name, 1) in t.s3
    case Download(q) => ParseOk(t, q)
    case HandleChunks(q, chunks) =>
      var r := q.entry.record;
      ParseOk(t, q) && forall c :: c in Chunk(t.arrived[r.name].rows, 1000) ==>
        c in chunks || Delivery(r.carrier, r.name, c) in t.delivered
    case MarkParsed(q) => ParseOk(t, q) && Handled(t, q.entry.record.name)
    case ListFolder(_, e) => EntryOk(t, e, PARSED)
    case CheckStored(_, e, _) => EntryOk(t, e, PARSED)
    case DeleteFromSftp(_, e) => EntryOk(t, e, PARSED)
    case MarkArchived(_, e) => EntryOk(t, e, PARSED)
    case _ => true
  }

  ghost predicate Inv(s: State) {
    TablesOk(s.tables) && forall pid :: pid in s.procs ==> ProcOk(s.tables, s.procs[pid])
  }

  // ---------------------------------------------------------------- what never goes away

  /** Facts a run may rely on across an await: none of them is ever undone. */
  ghost predicate Grows(t: Tables, t': Tables) {
    && (forall name :: name in t.arrived ==> name in t'.arrived && t'.arrived[name] == t.arrived[name])
    && (forall name :: InS3(t, name) ==> InS3(t', name))
    && (forall name :: Key(name, 1) in t.s3 ==> Key(name, 1) in t'.s3)
    && t.delivered <= t'.delivered
    && (forall id :: id in t.records ==> id in t'.records && t'.records[id].name == t.records[id].name)
  }

  lemma HandledStable(t: Tables, t': Tables, name: string)
    requires Grows(t, t') && Handled(t, name)
    ensures Handled(t', name)
  {
  }

  lemma RecordStable(t: Tables, t': Tables, r: Record)
    requires Grows(t, t') && RecordOk(t, r)
    ensures RecordOk(t', r)
  {
    if Handled(t, r.name) { HandledStable(t, t', r.name); }
  }

  lemma EntryStable(t: Tables, t': Tables, e: Entry, event: Event)
    requires Grows(t, t') && EntryOk(t, e, event)
    ensures EntryOk(t', e, event)
  {
    RecordStable(t, t', e.record);
  }

  lemma EntriesStable(t: Tables, t': Tables, es: seq<Entry>)
    requires Grows(t, t') && EntriesOk(t, es)
    ensures EntriesOk(t', es)
  {
    forall e | e in es ensures EntryOk(t', e, EXTRACTED) { EntryStable(t, t', e, EXTRACTED); }
  }

  lemma ParseStable(t: Tables, t': Tables, q: Parse)
    requires Grows(t, t') && ParseOk(t, q)
    ensures ParseOk(t', q)
  {
    EntryStable(t, t', q.entry, EXTRACTED);
    EntriesStable(t, t', q.todo);
  }

  /** What a run relies on survives every growth of the tables. */
  lemma ProcStable(t: Tables, t': Tables, p: Proc)
    requires Grows(t, t') && ProcOk(t, p)
    ensures ProcOk(t', p)
  {
    match p
    case NextRecord(todo, _) => EntriesStable(t, t', todo);
    case CopyIgnored(q) => ParseStable(t, t', q);
    case DeleteOriginal(q) => ParseStable(t, t', q);
    case MarkIgnored(q) => ParseStable(t, t', q);
    case Download(q) => ParseStable(t, t', q);
    case HandleChunks(q, _) => ParseStable(t, t', q);
    case MarkParsed(q) => ParseStable(t, t', q); HandledStable(t, t', q.entry.record.name);
    case ListFolder(_, e) => EntryStable(t, t', e, PARSED);
    case CheckStored(_, e, _) => EntryStable(t, t', e, PARSED);
    case DeleteFromSftp(_, e) => EntryStable(t, t', e, PARSED);
    case MarkArchived(_, e) => EntryStable(t, t', e, PARSED);
    case _ =>
  }

  /** Growth keeps each file placed, unless the step took it off SFTP. */
  lemma PlacedStable(t: Tables, t': Tables, name: string)
    requires Grows(t, t') && Placed(t, name)
    requires OnSftp(t, name) ==> OnSftp(t', name)
    ensures Placed(t', name)
  {
    if Handled(t, name) { HandledStable(t, t', name); }
  }

  lemma AllPlacedStable(t: Tables, t': Tables)
    requires Grows(t, t') && AllPlaced(t) && t'.arrived == t.arrived && t'.sftp == t.sftp
    ensures AllPlaced(t')
  {
    forall name | name in t'.arrived ensures Placed(t', name) {
      if OnSftp(t, name) {
        var loc :| loc in t.sftp && loc.name == name;
        assert loc in t'.sftp;
      }
      PlacedStable(t, t', name);
    }
  }

  lemma RecordsStable(t: Tables, t': Tables)
    requires Grows(t, t') && RecordsOk(t) && t'.records == t.records
    ensures RecordsOk(t')
  {
    forall id | id in t'.records ensures RecordOk(t', t'.records[id]) { RecordStable(t, t', t.records[id]); }
  }

  // ---------------------------------------------------------------- the four kinds of effect

  lemma RecordWritten(t: Tables, t': Tables, id: nat, r: Record)
    requires Grows(t, t') && RecordsOk(t) && t'.records == t.records[id := r] && RecordOk(t, r)
    ensures RecordsOk(t')
  {
    forall i | i in t'.records ensures RecordOk(t', t'.records[i]) {
      RecordStable(t, t', if i == id then r else t.records[i]);
    }
  }

  /** One good record is written. */
  lemma WriteKeeps(t: Tables, t': Tables, id: nat, r: Record)
    requires TablesOk(t) && t' == SetRecord(t, id, r) && RecordOk(t, r)
    requires id in t.records ==> t.records[id].name == r.name
    ensures Grows(t, t') && TablesOk(t')
  {
    assert Grows(t, t');
    AllPlacedStable(t, t');
    RecordWritten(t, t', id, r);
  }

  /** S3 or the deliveries change, and grow. */
  lemma StoreKeeps(t: Tables, t': Tables)
    requires TablesOk(t) && Grows(t, t') && S3Ok(t') && t' == t.(s3 := t'.s3, delivered := t'.delivered)
    ensures TablesOk(t')
  {
    AllPlacedStable(t, t');
    RecordsStable(t, t');
  }

  /** Files move on SFTP, or leave it when they are stored and handled. */
  lemma SftpKeeps(t: Tables, t': Tables)
    requires TablesOk(t) && SftpOk(t') && t' == t.(sftp := t'.sftp)
    requires forall name :: OnSftp(t, name) ==> OnSftp(t', name) || (InS3(t, name) && Handled(t, name))
    ensures Grows(t, t') && TablesOk(t')
  {
    assert Grows(t, t');
    forall name | name in t'.arrived ensures Placed(t', name) {
      if OnSftp(t, name) && !OnSftp(t', name) { HandledStable(t, t', name); } else { PlacedStable(t, t', name); }
    }
    RecordsStable(t, t');
  }

  lemma ArrivedPlaced(t: Tables, t': Tables, loc: Loc, file: File)
    requires AllPlaced(t) && Grows(t, t')
    requires t'.arrived == t.arrived[loc.name := file] && t'.sftp == t.sftp[loc := file]
    ensures AllPlaced(t')
  {
    assert loc in t'.sftp;
    forall name | name in t'.arrived && name != loc.name ensures Placed(t', name) {
      if OnSftp(t, name) {
        var l :| l in t.sftp && l.name == name;
        assert l in t'.sftp;
      }
      PlacedStable(t, t', name);
    }
  }

  lemma ArrivedGrows(t: Tables, t': Tables, loc: Loc, file: File)
    requires SftpOk(t) && S3Ok(t) && loc.name !in t.arrived && file.carrier == CarrierOf(loc.server)
    requires t' == t.(arrived := t.arrived[loc.name := file], sftp := t.sftp[loc := file])
    ensures Grows(t, t') && SftpOk(t') && S3Ok(t')
  {
  }

  lemma ArriveKeeps(t: Tables, t': Tables)
    requires TablesOk(t) && Arrive(t, t')
    ensures Grows(t, t') && TablesOk(t')
  {
    var loc: Loc, file: File :|
      loc.folder == Source && loc.name !in t.arrived && file.carrier == CarrierOf(loc.server)
      && t' == t.(arrived := t.arrived[loc.name := file], sftp := t.sftp[loc := file]);
    ArrivedGrows(t, t', loc, file);
    ArrivedPlaced(t, t', loc, file);
    RecordsStable(t, t');
  }

  // ---------------------------------------------------------------- every step keeps the invariant

  /** The step left the tables good, and the run knows what its next call needs. */
  ghost predicate Kept(t: Tables, t': Tables, p': Option<Proc>) {
    Grows(t, t') && TablesOk(t') && (p'.Some? ==> ProcOk(t', p'.value))
  }

  lemma UploadKeeps(t: Tables, t': Tables, loc: Loc, file: File)
    requires TablesOk(t) && FileOk(t, loc, file) && t' == t.(s3 := t.s3[Key(loc.name, 0) := file])
    ensures Kept(t, t', Some(FindRecord(loc, file)))
  {
    assert Key(loc.name, 0) in t'.s3;
    assert Grows(t, t');
    StoreKeeps(t, t');
  }

  lemma SaveKeeps(t: Tables, t': Tables, loc: Loc, file: File, id: nat)
    requires TablesOk(t) && FileOk(t, loc, file) && InS3(t, loc.name)
    requires id in t.records ==> t.records[id].name == loc.name
    requires t' == SetRecord(t, id, NewRecord(loc, file))
    ensures Kept(t, t', Some(RenameFile(loc)))
  {
    WriteKeeps(t, t', id, NewRecord(loc, file));
  }

  lemma RenameKeepsNames(t: Tables, t': Tables, loc: Loc)
    requires loc in t.sftp
    requires t'.sftp == (t.sftp - {loc})[Loc(loc.server, Extracted, loc.name) := t.sftp[loc]]
    ensures forall name :: OnSftp(t, name) ==> OnSftp(t', name)
  {
    var target := Loc(loc.server, Extracted, loc.name);
    forall name | OnSftp(t, name) ensures OnSftp(t', name) {
      var l :| l in t.sftp && l.name == name;
      assert (if l == loc then target else l) in t'.sftp;
    }
  }

  lemma RenameKeeps(t: Tables, t': Tables, loc: Loc)
    requires TablesOk(t) && loc in t.sftp
    requires t' == t.(sftp := (t.sftp - {loc})[Loc(loc.server, Extracted, loc.name) := t.sftp[loc]])
    ensures Kept(t, t', None)
  {
    RenameKeepsNames(t, t', loc);
    SftpKeeps(t, t');
  }

  lemma ExtractKeeps(t: Tables, p: Proc, t': Tables, p': Option<Proc>)
    requires TablesOk(t) && ProcOk(t, p) && ExtractStep(t, p, t', p')
    ensures Kept(t, t', p')
  {
    match p
    case UploadFile(loc, file) => UploadKeeps(t, t', loc, file);
    case UpdateRecord(loc, file, id) => SaveKeeps(t, t', loc, file, id);
    case CreateRecord(loc, file) =>
      var id :| id !in t.records && t' == SetRecord(t, id, NewRecord(loc, file));
      SaveKeeps(t, t', loc, file, id);
    case RenameFile(loc) => RenameKeeps(t, t', loc);
    case _ =>
  }

  lemma CopyStores(t: Tables, t': Tables, name: string)
    requires S3Ok(t) && InS3(t, name)
    requires t' == if Key(name, 0) in t.s3 then t.(s3 := t.s3[Key(name, 1) := t.s3[Key(name, 0)]]) else t
    ensures Grows(t, t') && S3Ok(t') && Key(name, 1) in t'.s3
  {
  }

  /** The copy is there even when another run already moved the original. */
  lemma CopyKeeps(t: Tables, t': Tables, q: Parse)
    requires TablesOk(t) && ParseOk(t, q)
    requires var url := q.entry.record.fileUrl;
             t' == if url in t.s3 then t.(s3 := t.s3[IgnoreTarget(url) := t.s3[url]]) else t
    ensures Kept(t, t', Some(DeleteOriginal(q)))
  {
    assert q.entry.record.fileUrl == Key(q.entry.record.name, 0);
    CopyStores(t, t', q.entry.record.name);
    StoreKeeps(t, t');
    ParseStable(t, t', q);
  }

  /** Deleting the original is safe because the copy, once made, is never deleted. */
  lemma DeleteOriginalKeeps(t: Tables, t': Tables, q: Parse)
    requires TablesOk(t) && ParseOk(t, q) && Key(q.entry.record.name, 1) in t.s3
    requires t' == t.(s3 := t.s3 - {q.entry.record.fileUrl})
    ensures Kept(t, t', Some(MarkIgnored(q)))
  {
    assert q.entry.record.fileUrl == Key(q.entry.record.name, 0);
    assert Grows(t, t');
    StoreKeeps(t, t');
    ParseStable(t, t', q);
  }

  /** The record of a parse run gets a new event, and the run turns to its next record. */
  lemma MarkKeeps(t: Tables, t': Tables, q: Parse, r: Record)
    requires TablesOk(t) && ParseOk(t, q) && RecordOk(t, r) && r.name == q.entry.record.name
    requires t' == SetRecord(t, q.entry.id, r)
    ensures Kept(t, t', Some(NextRecord(q.todo, q.settings)))
  {
    WriteKeeps(t, t', q.entry.id, r);
    EntriesStable(t, t', q.todo);
  }

  lemma DeliverKeeps(t: Tables, t': Tables, q: Parse, chunks: seq<seq<Row>>)
    requires TablesOk(t) && ProcOk(t, HandleChunks(q, chunks)) && chunks != []
    requires t' == t.(delivered := t.delivered + {Delivery(q.entry.record.carrier, q.entry.record.name, chunks[0])})
    ensures Kept(t, t', Some(HandleChunks(q, chunks[1..])))
  {
    assert Grows(t, t');
    StoreKeeps(t, t');
    ParseStable(t, t', q);
    assert chunks == [chunks[0]] + chunks[1..];
  }

  ghost predicate ParseCall(t: Tables, p: Proc, t': Tables, p': Option<Proc>) {
    TablesOk(t) && ProcOk(t, p) && ParseStep(t, p, t', p')
  }

  lemma NextRecordKeeps(t: Tables, p: Proc, t': Tables, p': Option<Proc>)
    requires ParseCall(t, p, t', p') && p.NextRecord?
    ensures Kept(t, t', p')
  {
    if p.todo != [] {
      assert EntriesOk(t, p.todo[1..]) && EntryOk(t, p.todo[0], EXTRACTED);
    }
  }

  lemma CopyIgnoredKeeps(t: Tables, p: Proc, t': Tables, p': Option<Proc>)
    requires ParseCall(t, p, t', p') && p.CopyIgnored?
    ensures Kept(t, t', p')
  {
    CopyKeeps(t, t', p.p);
  }

  lemma DropKeeps(t: Tables, p: Proc, t': Tables, p': Option<Proc>)
    requires ParseCall(t, p, t', p') && p.DeleteOriginal?
    ensures Kept(t, t', p')
  {
    if t' != t { DeleteOriginalKeeps(t, t', p.p); }
  }

  lemma IgnoredKeeps(t: Tables, p: Proc, t': Tables, p': Option<Proc>)
    requires ParseCall(t, p, t', p') && p.MarkIgnored?
    ensures Kept(t, t', p')
  {
    var e := p.p.entry;
    MarkKeeps(t, t', p.p, t.records[e.id].(fileUrl := IgnoreTarget(e.record.fileUrl), event := IGNORED));
  }

  lemma DownloadKeeps(t: Tables, p: Proc, t': Tables, p': Option<Proc>)
    requires ParseCall(t, p, t', p') && p.Download?
    ensures Kept(t, t', p')
  {
    assert t.s3[p.p.entry.record.fileUrl] == t.arrived[p.p.entry.record.name];
  }

  lemma HandleKeeps(t: Tables, p: Proc, t': Tables, p': Option<Proc>)
    requires ParseCall(t, p, t', p') && p.HandleChunks?
    ensures Kept(t, t', p')
  {
    if p.chunks != [] { DeliverKeeps(t, t', p.p, p.chunks); }
  }

  lemma ParsedKeeps(t: Tables, p: Proc, t': Tables, p': Option<Proc>)
    requires ParseCall(t, p, t', p') && p.MarkParsed?
    ensures Kept(t, t', p')
  {
    MarkKeeps(t, t', p.p, t.records[p.p.entry.id].(event := PARSED));
  }

  lemma ParseKeeps(t: Tables, p: Proc, t': Tables, p': Option<Proc>)
    requires ParseCall(t, p, t', p')
    ensures Kept(t, t', p')
  {
    if p.NextRecord? { NextRecordKeeps(t, p, t', p'); }
    else if p.CopyIgnored? { CopyIgnoredKeeps(t, p, t', p'); }
    else if p.DeleteOriginal? { DropKeeps(t, p, t', p'); }
    else if p.MarkIgnored? { IgnoredKeeps(t, p, t', p'); }
    else if p.Download? { DownloadKeeps(t, p, t', p'); }
    else if p.HandleChunks? { HandleKeeps(t, p, t', p'); }
    else { ParsedKeeps(t, p, t', p'); }
  }

  lemma DeleteKeeps(t: Tables, t': Tables, server: Server, e: Entry)
    requires TablesOk(t) && EntryOk(t, e, PARSED)
    requires t' == t.(sftp := t.sftp - {Loc(server, Extracted, e.record.name)})
    ensures Kept(t, t', Some(MarkArchived(server, e)))
  {
    forall name | OnSftp(t, name) && name != e.record.name ensures OnSftp(t', name) {
      var l :| l in t.sftp && l.name == name;
      assert l in t'.sftp;
    }
    SftpKeeps(t, t');
    EntryStable(t, t', e, PARSED);
  }

  lemma ArchiveKeeps(t: Tables, t': Tables, e: Entry)
    requires TablesOk(t) && EntryOk(t, e, PARSED) && t' == SetRecord(t, e.id, t.records[e.id].(event := ARCHIVED))
    ensures Kept(t, t', None)
  {
    WriteKeeps(t, t', e.id, t.records[e.id].(event := ARCHIVED));
  }

  lemma ClearKeeps(t: Tables, p: Proc, t': Tables, p': Option<Proc>)
    requires TablesOk(t) && ProcOk(t, p) && ClearStep(t, p, t', p')
    ensures Kept(t, t', p')
  {
    match p
    case DeleteFromSftp(server, e) => DeleteKeeps(t, t', server, e);
    case MarkArchived(server, e) => ArchiveKeeps(t, t', e);
    case _ =>
  }

  lemma RunKeeps(s: State, s': State, pid: nat, p': Option<Proc>)
    requires Inv(s) && Run(s, s', pid, p')
    ensures Inv(s')
  {
    var t, t', p := s.tables, s'.tables, s.procs[pid];
    if ExtractStep(t, p, t', p') { ExtractKeeps(t, p, t', p'); }
    else if ParseStep(t, p, t', p') { ParseKeeps(t, p, t', p'); }
    else { ClearKeeps(t, p, t', p'); }
    forall q | q in s'.procs ensures ProcOk(t', s'.procs[q]) {
      if q != pid { ProcStable(t, t', s.procs[q]); }
    }
  }

  lemma NextKeeps(s: State, s': State)
    requires Inv(s) && Next(s, s')
    ensures Inv(s')
  {
    if Arrive(s.tables, s'.tables) && s'.procs == s.procs {
      ArriveKeeps(s.tables, s'.tables);
      forall q | q in s'.procs ensures ProcOk(s'.tables, s'.procs[q]) { ProcStable(s.tables, s'.tables, s.procs[q]); }
    } else if pid: nat, p: Proc :| Spawn(s, s', pid, p) {
    } else if pids: set<nat> :| Die(s, s', pids) {
    } else {
      var pid: nat, p': Option<Proc> :| Run(s, s', pid, p');
      RunKeeps(s, s', pid, p');
    }
  }

  lemma {:induction false} InvAlways(b: seq<State>, k: nat)
    requires Behaviour(b) && k < |b|
    ensures Inv(b[k])
  {
    if k > 0 {
      InvAlways(b, k - 1);
      assert StepAt(b, k);
      NextKeeps(b[k - 1], b[k]);
    }
  }

  // ---------------------------------------------------------------- over whole runs

  /** At every moment of every interleaving, crashes included, each file that ever arrived is on
      SFTP or in S3, S3 holds its own contents, and once it is off SFTP all its chunks were handled. */
  lemma NoFileLost(b: seq<State>, k: nat, name: string)
    requires Behaviour(b) && k < |b| && name in b[k].tables.arrived
    ensures OnSftp(b[k].tables, name) || Key(name, 0) in b[k].tables.s3 || Key(name, 1) in b[k].tables.s3
    ensures (forall loc :: loc in b[k].tables.sftp ==> loc.name != name) ==>
              var t, file := b[k].tables, b[k].tables.arrived[name];
              forall c :: c in Chunk(file.rows, 1000) ==> Delivery(file.carrier, name, c) in t.delivered
    ensures forall key :: key in b[k].tables.s3 && key.name == name ==> b[k].tables.s3[key] == b[k].tables.arrived[name]
  {
    InvAlways(b, k);
    assert Placed(b[k].tables, name);
  }

  /** A record is PARSED or ARCHIVED only after every 1000-row chunk of its file was handled;
      it exists only when its file is in S3, and an ignore path always resolves. */
  lemma EventsMeanWork(b: seq<State>, k: nat, id: nat)
    requires Behaviour(b) && k < |b| && id in b[k].tables.records
    ensures var t, r := b[k].tables, b[k].tables.records[id];
            && r.name in t.arrived && (Key(r.name, 0) in t.s3 || Key(r.name, 1) in t.s3)
            && (r.fileUrl.ignores == 1 ==> r.fileUrl in t.s3)
            && (r.event == PARSED || r.event == ARCHIVED ==>
                  var file := t.arrived[r.name];
                  forall c :: c in Chunk(file.rows, 1000) ==> Delivery(file.carrier, r.name, c) in t.delivered)
  {
    InvAlways(b, k);
    assert RecordOk(b[k].tables, b[k].tables.records[id]);
  }

  /** The record was read as PARSED at some moment up to k. */
  ghost predicate WasRead(b: seq<State>, k: nat, e: Entry)
    requires k < |b|
  {
    exists i :: 0 <= i <= k && Reads(b[i].tables, e, PARSED)
  }

  /** The record was read as PARSED and, after that, an object existed at its fileUrl. */
  ghost predicate WasReadThenSeen(b: seq<State>, k: nat, e: Entry)
    requires k < |b|
  {
    exists i, j :: 0 <= i <= j <= k && Reads(b[i].tables, e, PARSED) && e.record.fileUrl in b[j].tables.s3
  }

  predicate Clearing(p: Proc) { p.ListFolder? || p.CheckStored? || p.DeleteFromSftp? }

  lemma OthersNeverClear(t: Tables, p: Proc, t': Tables, p': Option<Proc>)
    requires (ExtractStep(t, p, t', p') || ParseStep(t, p, t', p')) && p'.Some?
    ensures !Clearing(p'.value)
  {
  }

  /** A clear run keeps its record, and reaches the deletion only past a successful S3 check. */
  lemma ClearAdvances(t: Tables, p: Proc, t': Tables, p': Option<Proc>)
    requires ProcStep(t, p, t', p') && p'.Some? && Clearing(p'.value)
    ensures Clearing(p) && p'.value.entry == p.entry
    ensures p'.value.DeleteFromSftp? ==> p.entry.record.fileUrl in t.s3
  {
    if ExtractStep(t, p, t', p') || ParseStep(t, p, t', p') {
      OthersNeverClear(t, p, t', p');
    }
  }

  /** A clear run about to make a call was just started, was there before, or made its previous call. */
  lemma ClearingOrigin(s: State, s': State, pid: nat)
    requires Next(s, s') && pid in s'.procs && Clearing(s'.procs[pid])
    ensures var p' := s'.procs[pid];
            || (Reads(s.tables, p'.entry, PARSED) && p'.ListFolder?)
            || (pid in s.procs && s.procs[pid] == p')
            || (pid in s.procs && Clearing(s.procs[pid]) && p'.entry == s.procs[pid].entry
                && (p'.DeleteFromSftp? ==> p'.entry.record.fileUrl in s.tables.s3))
  {
    if !(pid in s.procs && s.procs[pid] == s'.procs[pid]) && !(exists q: nat, p: Proc :: Spawn(s, s', q, p)) {
      var q: nat, p': Option<Proc> :| Run(s, s', q, p');
      ClearAdvances(s.tables, s.procs[pid], s'.tables, p');
    }
  }

  lemma SeenLater(b: seq<State>, k: nat, e: Entry)
    requires 0 < k < |b| && WasRead(b, k - 1, e)
    ensures WasRead(b, k, e)
    ensures WasReadThenSeen(b, k - 1, e) || e.record.fileUrl in b[k - 1].tables.s3 ==> WasReadThenSeen(b, k, e)
  {
    var i :| 0 <= i <= k - 1 && Reads(b[i].tables, e, PARSED);
  }

  lemma {:induction false} ClearRunsJustified(b: seq<State>, k: nat, pid: nat)
    requires Behaviour(b) && k < |b| && pid in b[k].procs && Clearing(b[k].procs[pid])
    ensures WasRead(b, k, b[k].procs[pid].entry)
    ensures b[k].procs[pid].DeleteFromSftp? ==> WasReadThenSeen(b, k, b[k].procs[pid].entry)
  {
    if k > 0 {
      assert StepAt(b, k);
      ClearingOrigin(b[k - 1], b[k], pid);
      var e := b[k].procs[pid].entry;
      if !(b[k].procs[pid].ListFolder? && Reads(b[k - 1].tables, e, PARSED)) {
        ClearRunsJustified(b, k - 1, pid);
        SeenLater(b, k, e);
      }
    }
  }

  lemma DeletionKeepsOthers(t: Tables, t': Tables, gone: Loc, name: string)
    requires t'.sftp == t.sftp - {gone} && OnSftp(t, name) && name != gone.name
    ensures OnSftp(t', name)
  {
    var loc :| loc in t.sftp && loc.name == name;
    assert loc in t'.sftp;
  }

  /** Only the clear jobs' deletion takes a name off SFTP. */
  lemma OnlyDeletionRemoves(t: Tables, p: Proc, t': Tables, p': Option<Proc>, name: string)
    requires ProcStep(t, p, t', p') && OnSftp(t, name)
    requires !(p.DeleteFromSftp? && p.entry.record.name == name)
    ensures OnSftp(t', name)
  {
    if p.RenameFile? {
      RenameKeepsNames(t, t', p.loc);
    } else if p.DeleteFromSftp? {
      DeletionKeepsOthers(t, t', Loc(p.server, Extracted, p.entry.record.name), name);
    } else {
      var loc :| loc in t.sftp && loc.name == name;
      SftpUntouched(t, p, t', p');
    }
  }

  lemma SftpUntouched(t: Tables, p: Proc, t': Tables, p': Option<Proc>)
    requires ProcStep(t, p, t', p') && !p.RenameFile? && !p.DeleteFromSftp?
    ensures t'.sftp == t.sftp
  {
  }

  /** A file leaves SFTP only if its record was read as PARSED and, after that read, an object
      existed at the record's fileUrl. */
  lemma DeletionJustified(b: seq<State>, k: nat, name: string)
    requires Behaviour(b) && k + 1 < |b| && OnSftp(b[k].tables, name) && !OnSftp(b[k + 1].tables, name)
    ensures exists e: Entry :: e.record.name == name && WasReadThenSeen(b, k, e)
  {
    var s, s' := b[k], b[k + 1];
    assert StepAt(b, k + 1);
    var loc :| loc in s.tables.sftp && loc.name == name;
    if loc !in s'.tables.sftp {
      var pid: nat, p': Option<Proc> :| Run(s, s', pid, p');
      if !(s.procs[pid].DeleteFromSftp? && s.procs[pid].entry.record.name == name) {
        OnlyDeletionRemoves(s.tables, s.procs[pid], s'.tables, p', name);
      }
      ClearRunsJustified(b, k, pid);
    }
  }
}
