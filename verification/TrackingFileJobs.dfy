/** The jobs of the tracking-file pipeline in their own form: loops of awaited calls on the SFTP
    servers, S3 and the record table.

    A job run by itself, without failures, makes a run of the machine in TrackingFilePipeline and
    ends in the state stated here. What other runs do between its calls, and what a crash leaves
    behind, is the machine's business. */
module TrackingFileJobs {
  import opened Options
  import opened Chunks
  import opened TrackingFilePipeline

  // ---------------------------------------------------------------- runs of the machine

  /** A run between two awaited calls: the tables, and the call it is about to make. */
  datatype Conf = Conf(tables: Tables, next: Option<Proc>)

  ghost predicate Calls(c: Conf, c': Conf) { c.next.Some? && ProcStep(c.tables, c.next.value, c'.tables, c'.next) }

  ghost predicate Path(c: Conf, c': Conf, n: nat)
    decreases n, 1
  {
    if n == 0 then c == c' else exists m: Conf :: PathThen(c, m, c', n)
  }

  ghost predicate PathThen(c: Conf, m: Conf, c': Conf, n: nat)
    decreases n, 0
  {
    n > 0 && Path(c, m, n - 1) && Calls(m, c')
  }

  /** Undisturbed, the run gets from c to c'. */
  ghost predicate Runs(c: Conf, c': Conf) { exists n: nat :: Path(c, c', n) }

  lemma RunsNowhere(c: Conf)
    ensures Runs(c, c)
  {
    assert Path(c, c, 0);
  }

  lemma RunsOn(c: Conf, m: Conf, c': Conf)
    requires Runs(c, m) && Calls(m, c')
    ensures Runs(c, c')
  {
    var n: nat :| Path(c, m, n);
    assert PathThen(c, m, c', n + 1);
    assert Path(c, c', n + 1);
  }

  lemma {:induction false} PathsJoin(c: Conf, m: Conf, c': Conf, n: nat)
    requires Runs(c, m) && Path(m, c', n)
    ensures Runs(c, c')
    decreases n
  {
    if n > 0 {
      var l: Conf :| PathThen(m, l, c', n);
      PathsJoin(c, m, l, n - 1);
      RunsOn(c, l, c');
    }
  }

  lemma RunsJoin(c: Conf, m: Conf, c': Conf)
    requires Runs(c, m) && Runs(m, c')
    ensures Runs(c, c')
  {
    var n: nat :| Path(m, c', n);
    PathsJoin(c, m, c', n);
  }

  ghost predicate Fine(c: Conf) { TablesOk(c.tables) && (c.next.Some? ==> ProcOk(c.tables, c.next.value)) }

  lemma GrowsJoin(t: Tables, t': Tables, t'': Tables)
    requires Grows(t, t') && Grows(t', t'')
    ensures Grows(t, t'')
  {
  }

  lemma CallKeeps(c: Conf, c': Conf)
    requires Fine(c) && Calls(c, c')
    ensures Fine(c') && Grows(c.tables, c'.tables)
  {
    var t, p, t', p' := c.tables, c.next.value, c'.tables, c'.next;
    if ExtractStep(t, p, t', p') { ExtractKeeps(t, p, t', p'); }
    else if ParseStep(t, p, t', p') { ParseKeeps(t, p, t', p'); }
    else { ClearKeeps(t, p, t', p'); }
  }

  lemma {:induction false} PathKeeps(c: Conf, c': Conf, n: nat)
    requires Fine(c) && Path(c, c', n)
    ensures Fine(c') && Grows(c.tables, c'.tables)
    decreases n
  {
    if n > 0 {
      var m: Conf :| PathThen(c, m, c', n);
      PathKeeps(c, m, n - 1);
      CallKeeps(m, c');
      GrowsJoin(c.tables, m.tables, c'.tables);
    }
  }

  /** A run keeps the invariant of the pipeline, and undoes nothing that others rely on. */
  lemma RunKeepsTables(c: Conf, c': Conf)
    requires Fine(c) && Runs(c, c')
    ensures Fine(c') && Grows(c.tables, c'.tables)
  {
    var n: nat :| Path(c, c', n);
    PathKeeps(c, c', n);
  }

  // ---------------------------------------------------------------- the services

  function Uploaded(t: Tables, key: Key, file: File): Tables { t.(s3 := t.s3[key := file]) }

  function Copied(t: Tables, source: Key, target: Key): Tables {
    if source in t.s3 then t.(s3 := t.s3[target := t.s3[source]]) else t
  }

  function Dropped(t: Tables, key: Key): Tables { t.(s3 := t.s3 - {key}) }

  function Renamed(t: Tables, loc: Loc, target: Loc): Tables
    requires loc in t.sftp
  {
    t.(sftp := (t.sftp - {loc})[target := t.sftp[loc]])
  }

  function Deleted(t: Tables, loc: Loc): Tables { t.(sftp := t.sftp - {loc}) }

  function Updated(t: Tables, id: nat, r: Record): Tables {
    if id in t.records then SetRecord(t, id, r) else t
  }

  function Delivered(t: Tables, d: Delivery): Tables { t.(delivered := t.delivered + {d}) }

  class Services {
    var tables: Tables

    /** `head` turns every error into a result without ETag. */
    method Exists(key: Key) returns (found: bool)
      ensures found <==> key in tables.s3
    {
      found := key in tables.s3;
    }

    method UploadFile(key: Key, file: File)
      modifies this
      ensures tables == old(tables).(s3 := old(tables).s3[key := file])
    {
      tables := tables.(s3 := tables.s3[key := file]);
    }

    /** A missing source is an error, and errors are swallowed. */
    method CopyObject(source: Key, target: Key)
      modifies this
      ensures source in old(tables).s3 ==>
                tables == old(tables).(s3 := old(tables).s3[target := old(tables).s3[source]])
      ensures source !in old(tables).s3 ==> tables == old(tables)
    {
      if source in tables.s3 {
        tables := tables.(s3 := tables.s3[target := tables.s3[source]]);
      }
    }

    method DeleteObjects(keyArray: seq<Key>)
      modifies this
      ensures tables == old(tables).(s3 := old(tables).s3 - (set k | k in keyArray))
    {
      tables := tables.(s3 := tables.s3 - (set k | k in keyArray));
    }

    /** The object ends up at the target, and only there; a missing object changes nothing; an object
        moved onto itself is lost. */
    method MoveObjects(source: Key, target: Key)
      modifies this
      ensures tables == Dropped(Copied(old(tables), source, target), source)
      ensures source in old(tables).s3 && source != target ==>
                tables.s3 == (old(tables).s3 - {source})[target := old(tables).s3[source]]
      ensures source !in old(tables).s3 ==> tables.s3 == old(tables).s3
      ensures source == target ==> source !in tables.s3
    {
      CopyObject(source, target);
      DeleteObjects([source]);
      assert (set k | k in [source]) == {source};
    }

    method Rename(loc: Loc, target: Loc) returns (ok: bool)
      modifies this
      ensures ok <==> loc in old(tables).sftp && target !in old(tables).sftp
      ensures ok ==> tables == old(tables).(sftp := (old(tables).sftp - {loc})[target := old(tables).sftp[loc]])
      ensures !ok ==> tables == old(tables)
    {
      ok := loc in tables.sftp && target !in tables.sftp;
      if ok { tables := tables.(sftp := (tables.sftp - {loc})[target := tables.sftp[loc]]); }
    }

    method Delete(loc: Loc) returns (ok: bool)
      modifies this
      ensures ok <==> loc in old(tables).sftp
      ensures tables == old(tables).(sftp := old(tables).sftp - {loc})
    {
      ok := loc in tables.sftp;
      tables := tables.(sftp := tables.sftp - {loc});
    }

    method FindRecord(name: string, size: nat) returns (found: Option<nat>)
      ensures found.None? ==> forall id :: id in tables.records ==>
                tables.records[id].name != name || tables.records[id].size != size
      ensures found.Some? ==> found.value in tables.records
                              && tables.records[found.value].name == name && tables.records[found.value].size == size
    {
      if id :| id in tables.records && tables.records[id].name == name && tables.records[id].size == size {
        found := Some(id);
      } else {
        found := None;
      }
    }

    method Update(id: nat, r: Record)
      modifies this
      ensures id in old(tables).records ==> tables == old(tables).(records := old(tables).records[id := r])
      ensures id !in old(tables).records ==> tables == old(tables)
    {
      if id in tables.records { tables := SetRecord(tables, id, r); }
    }

    /** The table assigns an unused id. */
    method Create(id: nat, r: Record)
      requires id !in tables.records
      modifies this
      ensures tables == old(tables).(records := old(tables).records[id := r])
    {
      tables := SetRecord(tables, id, r);
    }

    /** The track handler of the carrier; what it does with the chunk is its own business. */
    method HandleTracks(d: Delivery)
      modifies this
      ensures tables == old(tables).(delivered := old(tables).delivered + {d})
    {
      tables := tables.(delivered := tables.delivered + {d});
    }
  }

  // ---------------------------------------------------------------- extraction

  function ExtractedLoc(loc: Loc): Loc { Loc(loc.server, Extracted, loc.name) }

  /** The record of a file as extracted: its name and size, the S3 path of that name, the carrier of the server,
      and the account that its name starts with. */
  ghost predicate FreshRecord(r: Record, loc: Loc, file: File) {
    && r.name == loc.name && r.size == file.size && r.fileUrl == Key(loc.name, 0) && r.event == EXTRACTED
    && (loc.server == CM || loc.server == CM_ESD ==> r.carrier == COLISSIMO && Leads(r.account, loc.name, '.'))
    && (loc.server == CP ==> r.carrier == COLISPRIVE && Leads(r.account, loc.name, '_'))
    && (loc.server == MR_ESD ==> r.carrier == MONDIAL_RELAY && r.account == "")
    && (loc.server == DISPEO_ESD ==> r.carrier == DISPEO && r.account == "")
  }

  /** The part of the name before the first stop, or all of it. */
  predicate Leads(part: string, name: string, stop: char) {
    stop !in part && (part == name || part + [stop] <= name)
  }

  /** The record of the file exists once more as freshly extracted, under the id of a record with its name and
      size, or a new one if there is none; no other record changed. */
  ghost predicate RecordSaved(t: Tables, t': Tables, loc: Loc, file: File) {
    exists id: nat :: SavedUnder(t, t', loc, file, id)
  }

  ghost predicate SavedUnder(t: Tables, t': Tables, loc: Loc, file: File, id: nat) {
    && id in t'.records && FreshRecord(t'.records[id], loc, file)
    && t' == t.(records := t.records[id := t'.records[id]])
    && (id in t.records ==> t.records[id].name == loc.name && t.records[id].size == file.size)
    && (id !in t.records ==>
          forall i :: i in t.records ==> t.records[i].name != loc.name || t.records[i].size != file.size)
  }

  ghost predicate SavedAt(t: Tables, id: nat, loc: Loc, file: File) {
    if id in t.records then t.records[id].name == loc.name && t.records[id].size == file.size
    else !Known(t, loc.name, file.size)
  }

  lemma SavedAtIsSaved(t: Tables, id: nat, loc: Loc, file: File)
    requires SavedAt(t, id, loc, file)
    ensures SavedUnder(t, SetRecord(t, id, NewRecord(loc, file)), loc, file, id)
  {
    var part := Before(loc.name, if loc.server == CP then '_' else '.');
    if |part| < |loc.name| {
      assert loc.name[..|part| + 1] == part + [loc.name[|part|]];
    }
  }

  lemma SaveRuns(t: Tables, t': Tables, loc: Loc, file: File, id: nat)
    requires t' == SetRecord(t, id, NewRecord(loc, file)) && SavedAt(t, id, loc, file)
    ensures Runs(Conf(t, Some(FindRecord(loc, file))), Conf(t', Some(RenameFile(loc))))
  {
    var c, c' := Conf(t, Some(FindRecord(loc, file))), Conf(t', Some(RenameFile(loc)));
    var m := Conf(t, Some(if id in t.records then UpdateRecord(loc, file, id) else CreateRecord(loc, file)));
    RunsNowhere(c);
    assert ExtractStep(t, c.next.value, t, m.next);
    RunsOn(c, c, m);
    assert ExtractStep(t, m.next.value, t', c'.next);
    RunsOn(c, m, c');
  }

  /** `saveFileRecord`: a record with the same name and size is reset, otherwise one is created. */
  method SaveFileRecord(services: Services, loc: Loc, file: File, newId: nat)
    requires newId !in services.tables.records
    modifies services
    ensures RecordSaved(old(services.tables), services.tables, loc, file)
    ensures Runs(Conf(old(services.tables), Some(FindRecord(loc, file))), Conf(services.tables, Some(RenameFile(loc))))
  {
    var found := services.FindRecord(loc.name, file.size);
    if found.Some? {
      services.Update(found.value, NewRecord(loc, file));
      SaveRuns(old(services.tables), services.tables, loc, file, found.value);
      SavedAtIsSaved(old(services.tables), found.value, loc, file);
    } else {
      services.Create(newId, NewRecord(loc, file));
      SaveRuns(old(services.tables), services.tables, loc, file, newId);
      SavedAtIsSaved(old(services.tables), newId, loc, file);
    }
  }

  lemma StoreRuns(t: Tables, t': Tables, loc: Loc)
    requires loc in t.sftp
    requires Runs(Conf(Uploaded(t, Key(loc.name, 0), t.sftp[loc]), Some(FindRecord(loc, t.sftp[loc]))),
                  Conf(t', Some(RenameFile(loc))))
    ensures Runs(Conf(t, Some(GetFile(loc))), Conf(t', Some(RenameFile(loc))))
  {
    var c, file := Conf(t, Some(GetFile(loc))), t.sftp[loc];
    var got, stored := Conf(t, Some(UploadFile(loc, file))),
      Conf(Uploaded(t, Key(loc.name, 0), file), Some(FindRecord(loc, file)));
    RunsNowhere(c);
    assert ExtractStep(t, c.next.value, t, got.next);
    RunsOn(c, c, got);
    assert ExtractStep(t, got.next.value, stored.tables, stored.next);
    RunsOn(c, got, stored);
    RunsJoin(c, stored, Conf(t', Some(RenameFile(loc))));
  }

  lemma RenameRuns(c: Conf, t: Tables, loc: Loc)
    requires Runs(c, Conf(t, Some(RenameFile(loc)))) && loc in t.sftp && ExtractedLoc(loc) !in t.sftp
    ensures Runs(c, Conf(Renamed(t, loc, ExtractedLoc(loc)), None))
  {
    assert ExtractStep(t, RenameFile(loc), Renamed(t, loc, ExtractedLoc(loc)), None);
    RunsOn(c, Conf(t, Some(RenameFile(loc))), Conf(Renamed(t, loc, ExtractedLoc(loc)), None));
  }

  /** `extractTracking`: store, record, rename, in this order. It fails before doing anything when the
      file is gone, and after storing and recording when the extracted folder has a file of that name. */
  method ExtractTracking(services: Services, sftpAccount: string, loc: Loc, newId: nat)
    returns (ok: bool, ghost next: Option<Proc>)
    requires newId !in services.tables.records
    modifies services
    ensures ok <==>
            || sftpAccount == ""
            || (loc in old(services.tables).sftp && Loc(loc.server, Extracted, loc.name) !in old(services.tables).sftp)
    ensures sftpAccount == "" || loc !in old(services.tables).sftp ==> services.tables == old(services.tables)
    ensures sftpAccount != "" && loc in old(services.tables).sftp ==>
              var t := old(services.tables);
              var file := t.sftp[loc];
              && RecordSaved(t.(s3 := t.s3[Key(loc.name, 0) := file], sftp := services.tables.sftp), services.tables,
                             loc, file)
              && services.tables.sftp ==
                 if ok then (t.sftp - {loc})[Loc(loc.server, Extracted, loc.name) := file] else t.sftp
    ensures sftpAccount != "" ==>
            (ok <==> next == None) && Runs(Conf(old(services.tables), Some(GetFile(loc))), Conf(services.tables, next))
  {
    ghost var t := services.tables;
    ghost var c := Conf(t, Some(GetFile(loc)));
    next := c.next;
    RunsNowhere(c);
    if sftpAccount == "" { return true, next; }
    if loc !in services.tables.sftp { return false, next; }
    var file := services.tables.sftp[loc];
    services.UploadFile(Key(loc.name, 0), file);
    SaveFileRecord(services, loc, file, newId);
    StoreRuns(t, services.tables, loc);
    next := Some(RenameFile(loc));
    ghost var recorded := services.tables;
    ghost var id: nat :| SavedUnder(Uploaded(t, Key(loc.name, 0), file), recorded, loc, file, id);
    ok := services.Rename(loc, ExtractedLoc(loc));
    if ok {
      RenameRuns(c, recorded, loc);
      next := None;
    }
    assert SavedUnder(Uploaded(t, Key(loc.name, 0), file).(sftp := services.tables.sftp), services.tables, loc, file,
                      id);
  }

  // ---------------------------------------------------------------- parsing

  predicate NoPlatform(settings: Settings, r: Record) { r.carrier == COLISSIMO && r.account !in settings.platforms }

  /** A Colissimo file of an account for which no enabled setting applies. */
  predicate ToIgnore(settings: Settings, r: Record) {
    r.carrier == COLISSIMO && r.account in settings.platforms && !FtpEnabled(settings, r)
  }

  /** What a parse run makes of a record. */
  function Outcome(settings: Settings, r: Record): Record {
    if ToIgnore(settings, r) then r.(fileUrl := IgnoreTarget(r.fileUrl), event := IGNORED) else r.(event := PARSED)
  }

  /** The record is IGNORED and its file is where the record says, or it is PARSED and every chunk was delivered. */
  ghost predicate Done(t: Tables, settings: Settings, e: Entry) {
    && e.id in t.records && t.records[e.id] == Outcome(settings, e.record)
    && if ToIgnore(settings, e.record) then IgnoreTarget(e.record.fileUrl) in t.s3 else Handled(t, e.record.name)
  }

  lemma DoneStable(t: Tables, t': Tables, settings: Settings, e: Entry)
    requires Done(t, settings, e) && Grows(t, t') && t'.records[e.id] == t.records[e.id] && RecordOk(t, e.record)
             && e.record.event == EXTRACTED
    ensures Done(t', settings, e)
  {
    if !ToIgnore(settings, e.record) { HandledStable(t, t', e.record.name); }
    assert IgnoreTarget(e.record.fileUrl) == Key(e.record.name, 1);
  }

  function Enters(q: Parse): Proc { NextRecord([q.entry] + q.todo, q.settings) }

  lemma IgnoreRuns(t: Tables, q: Parse)
    requires ToIgnore(q.settings, q.entry.record) && q.entry.id in t.records && t.records[q.entry.id] == q.entry.record
    ensures var url := q.entry.record.fileUrl;
            Runs(Conf(t, Some(Enters(q))),
                 Conf(Updated(Dropped(Copied(t, url, IgnoreTarget(url)), url), q.entry.id,
                              Outcome(q.settings, q.entry.record)),
                 Some(NextRecord(q.todo, q.settings))))
  {
    var url := q.entry.record.fileUrl;
    var t1 := Copied(t, url, IgnoreTarget(url));
    var t2 := Dropped(t1, url);
    var t3 := Updated(t2, q.entry.id, Outcome(q.settings, q.entry.record));
    var c0, c1, c2, c3 := Conf(t, Some(Enters(q))), Conf(t, Some(CopyIgnored(q))), Conf(t1, Some(DeleteOriginal(q))),
      Conf(t2, Some(MarkIgnored(q)));
    RunsNowhere(c0);
    assert [q.entry] + q.todo != [] && ([q.entry] + q.todo)[1..] == q.todo;
    assert ParseStep(t, Enters(q), t, c1.next);
    RunsOn(c0, c0, c1);
    assert ParseStep(t, CopyIgnored(q), t1, c2.next);
    RunsOn(c0, c1, c2);
    assert ParseStep(t1, DeleteOriginal(q), t2, c3.next);
    RunsOn(c0, c2, c3);
    assert ParseStep(t2, MarkIgnored(q), t3, Some(NextRecord(q.todo, q.settings)));
    RunsOn(c0, c3, Conf(t3, Some(NextRecord(q.todo, q.settings))));
  }

  lemma DownloadRuns(t: Tables, q: Parse)
    requires !ToIgnore(q.settings, q.entry.record) && !NoPlatform(q.settings, q.entry.record)
    ensures Runs(Conf(t, Some(Enters(q))), Conf(t, Some(Download(q))))
    ensures var url := q.entry.record.fileUrl;
            url in t.s3 ==> Runs(Conf(t, Some(Enters(q))), Conf(t, Some(HandleChunks(q, Chunk(t.s3[url].rows, 1000)))))
  {
    var c0, c1 := Conf(t, Some(Enters(q))), Conf(t, Some(Download(q)));
    RunsNowhere(c0);
    assert [q.entry] + q.todo != [] && ([q.entry] + q.todo)[1..] == q.todo;
    assert ParseStep(t, Enters(q), t, c1.next);
    RunsOn(c0, c0, c1);
    if q.entry.record.fileUrl in t.s3 {
      var c2 := Conf(t, Some(HandleChunks(q, Chunk(t.s3[q.entry.record.fileUrl].rows, 1000))));
      assert ParseStep(t, Download(q), t, c2.next);
      RunsOn(c0, c1, c2);
    }
  }

  lemma DeliverRuns(c: Conf, t: Tables, q: Parse, chunks: seq<seq<Row>>)
    requires Runs(c, Conf(t, Some(HandleChunks(q, chunks))))
    ensures chunks == [] ==> Runs(c, Conf(t, Some(MarkParsed(q))))
    ensures chunks != [] ==>
              Runs(c, Conf(Delivered(t, Delivery(q.entry.record.carrier, q.entry.record.name, chunks[0])),
                           Some(HandleChunks(q, chunks[1..]))))
  {
    var m := Conf(t, Some(HandleChunks(q, chunks)));
    if chunks == [] {
      assert ParseStep(t, m.next.value, t, Some(MarkParsed(q)));
      RunsOn(c, m, Conf(t, Some(MarkParsed(q))));
    } else {
      var t' := Delivered(t, Delivery(q.entry.record.carrier, q.entry.record.name, chunks[0]));
      assert ParseStep(t, m.next.value, t', Some(HandleChunks(q, chunks[1..])));
      RunsOn(c, m, Conf(t', Some(HandleChunks(q, chunks[1..]))));
    }
  }

  /** The chunk loop: every chunk goes to the carrier's handler. */
  method HandleAllChunks(services: Services, q: Parse, chunks: seq<seq<Row>>)
    modifies services
    ensures services.tables == old(services.tables).(delivered := old(services.tables).delivered
                                 + (set c | c in chunks :: Delivery(q.entry.record.carrier, q.entry.record.name, c)))
    ensures Runs(Conf(old(services.tables), Some(HandleChunks(q, chunks))), Conf(services.tables, Some(MarkParsed(q))))
  {
    ghost var t := services.tables;
    ghost var c := Conf(t, Some(HandleChunks(q, chunks)));
    RunsNowhere(c);
    var i := 0;
    while i < |chunks|
      invariant 0 <= i <= |chunks|
      invariant services.tables == t.(delivered := t.delivered
                                   + (set c | c in chunks[..i] ::
                                      Delivery(q.entry.record.carrier, q.entry.record.name, c)))
      invariant Runs(c, Conf(services.tables, Some(HandleChunks(q, chunks[i..]))))
    {
      DeliverRuns(c, services.tables, q, chunks[i..]);
      assert chunks[i..][1..] == chunks[i + 1..];
      services.HandleTracks(Delivery(q.entry.record.carrier, q.entry.record.name, chunks[i]));
      assert chunks[..i + 1] == chunks[..i] + [chunks[i]];
      i := i + 1;
    }
    assert chunks[..i] == chunks && chunks[i..] == [];
    DeliverRuns(c, services.tables, q, []);
  }

  lemma ParsedRuns(c: Conf, t: Tables, q: Parse)
    requires Runs(c, Conf(t, Some(MarkParsed(q)))) && !ToIgnore(q.settings, q.entry.record)
    requires q.entry.id in t.records && t.records[q.entry.id] == q.entry.record
    ensures Runs(c,
                 Conf(Updated(t, q.entry.id, Outcome(q.settings, q.entry.record)),
                      Some(NextRecord(q.todo, q.settings))))
  {
    var t' := Updated(t, q.entry.id, Outcome(q.settings, q.entry.record));
    assert ParseStep(t, MarkParsed(q), t', Some(NextRecord(q.todo, q.settings)));
    RunsOn(c, Conf(t, Some(MarkParsed(q))), Conf(t', Some(NextRecord(q.todo, q.settings))));
  }

  /** The only record that changed. */
  predicate OnlyRecord(t: Tables, t': Tables, id: nat) {
    && t'.records.Keys == t.records.Keys && t'.arrived == t.arrived && t'.sftp == t.sftp
    && forall i :: i in t.records && i != id ==> t'.records[i] == t.records[i]
  }

  /** The record was read as EXTRACTED in good tables, together with the rest of the run's list. */
  ghost predicate Ready(t: Tables, q: Parse) {
    TablesOk(t) && EntriesOk(t, [q.entry] + q.todo) && Reads(t, q.entry, EXTRACTED)
  }

  lemma MovedAway(t: Tables, r: Record)
    requires S3Ok(t) && InS3(t, r.name) && r.fileUrl == Key(r.name, 0)
    ensures var t' := Dropped(Copied(t, r.fileUrl, IgnoreTarget(r.fileUrl)), r.fileUrl);
            IgnoreTarget(r.fileUrl) in t'.s3 && r.fileUrl !in t'.s3 && t' == t.(s3 := t'.s3)
  {
  }

  lemma IgnoreDone(t: Tables, q: Parse)
    requires Ready(t, q) && ToIgnore(q.settings, q.entry.record)
    ensures var url := q.entry.record.fileUrl;
            var t' := Updated(Dropped(Copied(t, url, IgnoreTarget(url)), url), q.entry.id,
                              Outcome(q.settings, q.entry.record));
            Done(t', q.settings, q.entry) && OnlyRecord(t, t', q.entry.id) && url !in t'.s3
  {
    assert q.entry in [q.entry] + q.todo;
    assert RecordOk(t, q.entry.record);
    MovedAway(t, q.entry.record);
  }

  lemma ParsedDone(t: Tables, t1: Tables, q: Parse)
    requires Ready(t, q) && !ToIgnore(q.settings, q.entry.record) && q.entry.record.fileUrl in t.s3
    requires t1 == t.(delivered := t.delivered + (set c | c in Chunk(t.s3[q.entry.record.fileUrl].rows, 1000)
                                     :: Delivery(q.entry.record.carrier, q.entry.record.name, c)))
    ensures var t' := Updated(t1, q.entry.id, Outcome(q.settings, q.entry.record));
            Done(t', q.settings, q.entry) && OnlyRecord(t, t', q.entry.id)
  {
    assert q.entry in [q.entry] + q.todo;
    assert RecordOk(t, q.entry.record);
    assert t.s3[q.entry.record.fileUrl] == t.arrived[q.entry.record.name];
  }

  /** No enabled setting of Colissimo is both for the platform of the record's account, or all, and for that
      account, or all. */
  ghost predicate NoneEnables(settings: Settings, r: Record) {
    r.account in settings.platforms &&
    forall s :: s in settings.ftp && s.carrier == COLISSIMO
                && (s.platform == settings.platforms[r.account] || s.platform == "*") ==>
      r.account !in s.accounts && "*" !in s.accounts
  }

  /** What parsing makes of a record: a Colissimo record that no setting enables is IGNORED and points below the
      ignore folder, and any other is PARSED. */
  ghost predicate Becomes(settings: Settings, r: Record, r': Record) {
    && (r.carrier == COLISSIMO && NoneEnables(settings, r) ==>
          r' == r.(fileUrl := Key(r.fileUrl.name, r.fileUrl.ignores + 1), event := IGNORED))
    && (r.carrier != COLISSIMO || !NoneEnables(settings, r) ==> r' == r.(event := PARSED))
  }

  /** What parsing a record makes of the other tables: an object that is ignored moves, one that is parsed has
      every chunk delivered. */
  ghost predicate Moves(t: Tables, t': Tables, settings: Settings, r: Record) {
    && t'.arrived == t.arrived && t'.sftp == t.sftp
    && (r.carrier == COLISSIMO && NoneEnables(settings, r) ==>
          && t'.delivered == t.delivered && r.fileUrl !in t'.s3
          && (r.fileUrl in t.s3 ==>
                t'.s3 == (t.s3 - {r.fileUrl})[Key(r.fileUrl.name, r.fileUrl.ignores + 1) := t.s3[r.fileUrl]])
          && (r.fileUrl !in t.s3 ==> t'.s3 == t.s3))
    && (r.carrier != COLISSIMO || !NoneEnables(settings, r) ==>
          && t'.s3 == t.s3 && r.fileUrl in t.s3
          && t'.delivered == t.delivered
             + set c | c in Chunk(t.s3[r.fileUrl].rows, 1000) :: Delivery(r.carrier, r.name, c))
  }

  lemma IgnoredExactly(settings: Settings, r: Record)
    ensures ToIgnore(settings, r) <==> r.carrier == COLISSIMO && NoneEnables(settings, r)
  {
  }

  /** One turn of the loop over records. It fails on an account without platform, and on a missing object. */
  method ParseRecord(services: Services, q: Parse) returns (ok: bool)
    requires Ready(services.tables, q)
    modifies services
    ensures !ok ==> services.tables == old(services.tables)
    ensures ok <==>
            var r, s3 := q.entry.record, old(services.tables).s3;
            if r.carrier == COLISSIMO
            then r.account in q.settings.platforms && (NoneEnables(q.settings, r) || r.fileUrl in s3)
            else r.fileUrl in s3
    ensures ok ==>
            Done(services.tables, q.settings, q.entry) && OnlyRecord(old(services.tables), services.tables, q.entry.id)
    ensures ok ==> Becomes(q.settings, q.entry.record, services.tables.records[q.entry.id])
    ensures ok ==> Moves(old(services.tables), services.tables, q.settings, q.entry.record)
    ensures ok ==>
            Runs(Conf(old(services.tables), Some(Enters(q))),
                 Conf(services.tables, Some(NextRecord(q.todo, q.settings))))
  {
    ghost var t := services.tables;
    var r := q.entry.record;
    IgnoredExactly(q.settings, r);
    if r.carrier == COLISSIMO {
      if r.account !in q.settings.platforms { return false; }
      if !FtpEnabled(q.settings, r) {
        IgnoreRuns(t, q);
        IgnoreDone(t, q);
        services.MoveObjects(r.fileUrl, IgnoreTarget(r.fileUrl));
        services.Update(q.entry.id, r.(fileUrl := IgnoreTarget(r.fileUrl), event := IGNORED));
        return true;
      }
    }
    if r.fileUrl !in services.tables.s3 { return false; }
    DownloadRuns(t, q);
    HandleAllChunks(services, q, Chunk(services.tables.s3[r.fileUrl].rows, 1000));
    RunsJoin(Conf(t, Some(Enters(q))), Conf(t, Some(HandleChunks(q, Chunk(t.s3[r.fileUrl].rows, 1000)))),
             Conf(services.tables, Some(MarkParsed(q))));
    ParsedRuns(Conf(t, Some(Enters(q))), services.tables, q);
    ParsedDone(t, services.tables, q);
    services.Update(q.entry.id, r.(event := PARSED));
    ok := true;
  }

  predicate DistinctIds(es: seq<Entry>) { forall i, j :: 0 <= i < j < |es| ==> es[i].id != es[j].id }

  predicate AllRead(t: Tables, es: seq<Entry>, event: Event) {
    forall k :: 0 <= k < |es| ==>
      es[k].id in t.records && t.records[es[k].id] == es[k].record && es[k].record.event == event
  }

  ghost predicate AllDone(t: Tables, settings: Settings, es: seq<Entry>) {
    forall k :: 0 <= k < |es| ==> Done(t, settings, es[k])
  }

  function Ids(es: seq<Entry>): set<nat> { set e | e in es :: e.id }

  /** Records outside the list are as before. */
  predicate OthersKept(t: Tables, t': Tables, es: seq<Entry>) {
    && t'.records.Keys == t.records.Keys && t'.arrived == t.arrived && t'.sftp == t.sftp
    && forall id :: id in t.records && id !in Ids(es) ==> t'.records[id] == t.records[id]
  }

  lemma ListReady(t: Tables, es: seq<Entry>, settings: Settings)
    requires TablesOk(t) && AllRead(t, es, EXTRACTED)
    ensures EntriesOk(t, es)
    ensures es != [] ==> Ready(t, Parse(es[0], es[1..], settings)) && es == [es[0]] + es[1..]
  {
    forall e | e in es ensures EntryOk(t, e, EXTRACTED) {
      var k :| 0 <= k < |es| && es[k] == e;
      assert RecordOk(t, t.records[e.id]);
    }
    if es != [] {
      assert es == [es[0]] + es[1..];
      assert Reads(t, es[0], EXTRACTED);
    }
  }

  /** The state of the loop after the first i records. */
  ghost predicate ParsedUpTo(t0: Tables, t: Tables, todo: seq<Entry>, i: nat, settings: Settings)
    requires i <= |todo|
  {
    && TablesOk(t) && Grows(t0, t) && AllDone(t, settings, todo[..i]) && AllRead(t, todo[i..], EXTRACTED)
    && OthersKept(t0, t, todo[..i])
    && Runs(Conf(t0, Some(NextRecord(todo, settings))), Conf(t, Some(NextRecord(todo[i..], settings))))
  }

  lemma OneMoreDone(t: Tables, settings: Settings, todo: seq<Entry>, i: nat)
    requires i < |todo| && AllDone(t, settings, todo[..i]) && Done(t, settings, todo[i])
    ensures AllDone(t, settings, todo[..i + 1])
  {
    var front := todo[..i + 1];
    forall k | 0 <= k < |front| ensures Done(t, settings, front[k]) {
      if k < i { assert front[k] == todo[..i][k]; }
    }
  }

  lemma StillDone(t0: Tables, t: Tables, t': Tables, done: seq<Entry>, settings: Settings, id: nat)
    requires TablesOk(t0) && AllRead(t0, done, EXTRACTED) && id !in Ids(done)
    requires Grows(t0, t) && Grows(t, t') && OnlyRecord(t, t', id) && AllDone(t, settings, done)
    ensures AllDone(t', settings, done)
  {
    forall k | 0 <= k < |done| ensures Done(t', settings, done[k]) {
      assert done[k].id in Ids(done) && Done(t, settings, done[k]);
      assert RecordOk(t0, t0.records[done[k].id]);
      RecordStable(t0, t, done[k].record);
      DoneStable(t, t', settings, done[k]);
    }
  }

  lemma OneMoreId(todo: seq<Entry>, i: nat)
    requires i < |todo|
    ensures Ids(todo[..i + 1]) == Ids(todo[..i]) + {todo[i].id}
    ensures DistinctIds(todo) ==> todo[i].id !in Ids(todo[..i]) && todo[i].id !in Ids(todo[i + 1..])
  {
    assert todo[..i + 1] == todo[..i] + [todo[i]];
  }

  lemma StillKept(t0: Tables, t: Tables, t': Tables, todo: seq<Entry>, i: nat)
    requires i < |todo| && OnlyRecord(t, t', todo[i].id) && OthersKept(t0, t, todo[..i])
    ensures OthersKept(t0, t', todo[..i + 1])
  {
    OneMoreId(todo, i);
  }

  lemma StillRead(t: Tables, t': Tables, es: seq<Entry>)
    requires es != [] && OnlyRecord(t, t', es[0].id) && AllRead(t, es, EXTRACTED) && es[0].id !in Ids(es[1..])
    ensures AllRead(t', es[1..], EXTRACTED)
  {
    var rest := es[1..];
    forall k | 0 <= k < |rest|
      ensures rest[k].id in t'.records && t'.records[rest[k].id] == rest[k].record && rest[k].record.event == EXTRACTED
    {
      assert rest[k] == es[1 + k] && rest[k].id in Ids(rest);
    }
  }

  /** One loop turn, as the run and as its effect. */
  ghost predicate Turn(t: Tables, t': Tables, todo: seq<Entry>, i: nat, settings: Settings)
    requires i < |todo|
  {
    && Done(t', settings, todo[i]) && OnlyRecord(t, t', todo[i].id)
    && Runs(Conf(t, Some(NextRecord(todo[i..], settings))), Conf(t', Some(NextRecord(todo[i + 1..], settings))))
  }

  lemma TurnKeeps(t: Tables, t': Tables, todo: seq<Entry>, i: nat, settings: Settings)
    requires i < |todo| && TablesOk(t) && AllRead(t, todo[i..], EXTRACTED) && Turn(t, t', todo, i, settings)
    ensures TablesOk(t') && Grows(t, t')
  {
    ListReady(t, todo[i..], settings);
    RunKeepsTables(Conf(t, Some(NextRecord(todo[i..], settings))), Conf(t', Some(NextRecord(todo[i + 1..], settings))));
  }

  lemma AllReadFront(t: Tables, es: seq<Entry>, n: nat)
    requires n <= |es| && AllRead(t, es, EXTRACTED)
    ensures AllRead(t, es[..n], EXTRACTED)
  {
  }

  lemma NextTurn(t0: Tables, t: Tables, t': Tables, todo: seq<Entry>, i: nat, settings: Settings)
    requires i < |todo| && DistinctIds(todo) && AllRead(t0, todo, EXTRACTED) && TablesOk(t0)
    requires ParsedUpTo(t0, t, todo, i, settings) && Turn(t, t', todo, i, settings)
    ensures ParsedUpTo(t0, t', todo, i + 1, settings)
  {
    TurnKeeps(t, t', todo, i, settings);
    RunsJoin(Conf(t0, Some(NextRecord(todo, settings))), Conf(t, Some(NextRecord(todo[i..], settings))),
             Conf(t', Some(NextRecord(todo[i + 1..], settings))));
    GrowsJoin(t0, t, t');
    OneMoreId(todo, i);
    AllReadFront(t0, todo, i);
    StillDone(t0, t, t', todo[..i], settings, todo[i].id);
    OneMoreDone(t', settings, todo, i);
    StillKept(t0, t, t', todo, i);
    assert todo[i..][1..] == todo[i + 1..];
    StillRead(t, t', todo[i..]);
  }

  lemma ListsMean(t0: Tables, t: Tables, es: seq<Entry>, i: nat, settings: Settings)
    requires i <= |es| && ParsedUpTo(t0, t, es, i, settings)
    ensures forall k :: 0 <= k < i ==> es[k].id in t.records && Becomes(settings, es[k].record, t.records[es[k].id])
    ensures forall k :: i <= k < |es| ==> es[k].id in t.records && t.records[es[k].id] == es[k].record
  {
    forall k | 0 <= k < i ensures es[k].id in t.records && Becomes(settings, es[k].record, t.records[es[k].id]) {
      assert es[..i][k] == es[k] && Done(t, settings, es[..i][k]);
      IgnoredExactly(settings, es[k].record);
    }
    forall k | i <= k < |es| ensures es[k].id in t.records && t.records[es[k].id] == es[k].record {
      assert es[i..][k - i] == es[k];
    }
  }

  /** `handle` of the parse job. It stops at the first record that fails and leaves that one and the rest
      as they were. */
  method ParseFileRecords(services: Services, fileRecords: seq<Entry>, settings: Settings) returns (done: nat)
    requires TablesOk(services.tables) && AllRead(services.tables, fileRecords, EXTRACTED) && DistinctIds(fileRecords)
    modifies services
    ensures done <= |fileRecords| && ParsedUpTo(old(services.tables), services.tables, fileRecords, done, settings)
    ensures forall k :: 0 <= k < done ==>
              && fileRecords[k].id in services.tables.records
              && Becomes(settings, fileRecords[k].record, services.tables.records[fileRecords[k].id])
    ensures forall k :: done <= k < |fileRecords| ==>
              fileRecords[k].id in services.tables.records
              && services.tables.records[fileRecords[k].id] == fileRecords[k].record
    ensures done < |fileRecords| ==>
              var r := fileRecords[done].record;
              if r.carrier == COLISSIMO
              then r.account !in settings.platforms || (!NoneEnables(settings, r) && r.fileUrl !in services.tables.s3)
              else r.fileUrl !in services.tables.s3
  {
    ghost var t0 := services.tables;
    done := 0;
    assert fileRecords[0..] == fileRecords;
    RunsNowhere(Conf(t0, Some(NextRecord(fileRecords, settings))));
    while done < |fileRecords|
      invariant done <= |fileRecords| && ParsedUpTo(t0, services.tables, fileRecords, done, settings)
    {
      var q := Parse(fileRecords[done..][0], fileRecords[done..][1..], settings);
      ghost var t := services.tables;
      ListReady(t, fileRecords[done..], settings);
      var ok := ParseRecord(services, q);
      if !ok {
        ListsMean(t0, services.tables, fileRecords, done, settings);
        return;
      }
      assert fileRecords[done..][1..] == fileRecords[done + 1..];
      NextTurn(t0, t, services.tables, fileRecords, done, settings);
      done := done + 1;
    }
    ListsMean(t0, services.tables, fileRecords, done, settings);
  }

  // ---------------------------------------------------------------- clearing

  function At(server: Server, e: Entry): Loc { Loc(server, Extracted, e.record.name) }

  function Archived(t: Tables, e: Entry): Tables {
    if e.id in t.records then SetRecord(t, e.id, t.records[e.id].(event := ARCHIVED)) else t
  }

  lemma CheckRuns(t: Tables, server: Server, e: Entry, found: nat, next: Option<Proc>)
    requires ClearStep(t, CheckStored(server, e, found), t, next)
    ensures Runs(Conf(t, Some(CheckStored(server, e, found))), Conf(t, next))
  {
    var c := Conf(t, Some(CheckStored(server, e, found)));
    RunsNowhere(c);
    RunsOn(c, c, Conf(t, next));
  }

  lemma DeleteRuns(c: Conf, t: Tables, server: Server, e: Entry)
    requires Runs(c, Conf(t, Some(DeleteFromSftp(server, e)))) && At(server, e) in t.sftp
    ensures Runs(c, Conf(Deleted(t, At(server, e)), Some(MarkArchived(server, e))))
  {
    var c' := Conf(Deleted(t, At(server, e)), Some(MarkArchived(server, e)));
    assert ClearStep(t, DeleteFromSftp(server, e), c'.tables, c'.next);
    RunsOn(c, Conf(t, Some(DeleteFromSftp(server, e))), c');
  }

  lemma ArchiveRuns(c: Conf, t: Tables, server: Server, e: Entry)
    requires Runs(c, Conf(t, Some(MarkArchived(server, e))))
    ensures Runs(c, Conf(Archived(t, e), None))
  {
    assert ClearStep(t, MarkArchived(server, e), Archived(t, e), None);
    RunsOn(c, Conf(t, Some(MarkArchived(server, e))), Conf(Archived(t, e), None));
  }

  /** The callback for one record, given how many listed files have its name. It throws, and is caught,
      when a listed file is gone by now. */
  method ClearRecord(services: Services, server: Server, fileRecord: Entry, foundCount: nat)
    returns (archived: bool, ghost next: Option<Proc>)
    modifies services
    ensures archived <==> fileRecord.record.fileUrl in old(services.tables).s3
                          && (foundCount == 0
                              || (foundCount == 1
                                  && Loc(server, Extracted, fileRecord.record.name) in old(services.tables).sftp))
    ensures services.tables == if !archived then old(services.tables)
                               else if foundCount == 0 then Archived(old(services.tables), fileRecord)
                               else Archived(Deleted(old(services.tables), At(server, fileRecord)), fileRecord)
    ensures var t, id := old(services.tables), fileRecord.id;
            services.tables == t.(
              sftp := if archived && foundCount == 1 then t.sftp - {Loc(server, Extracted, fileRecord.record.name)}
                      else t.sftp,
              records := if archived && id in t.records then t.records[id := t.records[id].(event := ARCHIVED)]
                         else t.records)
    ensures Runs(Conf(old(services.tables), Some(CheckStored(server, fileRecord, foundCount))),
                 Conf(services.tables, next))
    ensures archived ==> next == None
  {
    ghost var t := services.tables;
    ghost var c := Conf(t, Some(CheckStored(server, fileRecord, foundCount)));
    archived, next := false, None;
    var judge := services.Exists(fileRecord.record.fileUrl);
    if judge && foundCount > 0 {
      if foundCount == 1 {
        next := Some(DeleteFromSftp(server, fileRecord));
        CheckRuns(t, server, fileRecord, foundCount, next);
        var ok := services.Delete(At(server, fileRecord));
        if ok {
          DeleteRuns(c, t, server, fileRecord);
          ArchiveRuns(c, services.tables, server, fileRecord);
          Archive(services, fileRecord);
          archived, next := true, None;
        } else {
          assert services.tables.sftp == t.sftp;
        }
      } else {
        CheckRuns(t, server, fileRecord, foundCount, next);
      }
    } else if judge {
      CheckRuns(t, server, fileRecord, foundCount, Some(MarkArchived(server, fileRecord)));
      ArchiveRuns(c, t, server, fileRecord);
      Archive(services, fileRecord);
      archived := true;
    } else {
      CheckRuns(t, server, fileRecord, foundCount, next);
    }
  }

  method Archive(services: Services, e: Entry)
    modifies services
    ensures services.tables == Archived(old(services.tables), e)
  {
    if e.id in services.tables.records {
      services.Update(e.id, services.tables.records[e.id].(event := ARCHIVED));
    }
  }

  predicate Stored(t: Tables, e: Entry) { e.record.fileUrl in t.s3 }

  /** An earlier record of the list has the same name and its file is stored. */
  predicate TakenBefore(t: Tables, es: seq<Entry>, k: nat)
    requires k < |es|
  {
    exists j :: 0 <= j < k && es[j].record.name == es[k].record.name && Stored(t, es[j])
  }

  /** Record k will be archived. */
  predicate Clears(t: Tables, server: Server, es: seq<Entry>, k: nat)
    requires k < |es|
  {
    Stored(t, es[k]) && (At(server, es[k]) in t.sftp ==> !TakenBefore(t, es, k))
  }

  /** A file of the list whose object is stored. */
  predicate Cleared(t: Tables, server: Server, es: seq<Entry>, loc: Loc) {
    exists k :: 0 <= k < |es| && Stored(t, es[k]) && loc == At(server, es[k])
  }

  ghost predicate FilesCleared(t0: Tables, t: Tables, server: Server, es: seq<Entry>) {
    && (forall loc :: loc in t.sftp <==> loc in t0.sftp && !Cleared(t0, server, es, loc))
    && (forall loc :: loc in t.sftp ==> t.sftp[loc] == t0.sftp[loc])
  }

  ghost predicate RecordsCleared(t0: Tables, t: Tables, server: Server, es: seq<Entry>, i: nat)
    requires i <= |es|
  {
    t.records.Keys == t0.records.Keys && forall k :: 0 <= k < i && es[k].id in t0.records ==>
      t.records[es[k].id] ==
        if Clears(t0, server, es, k) then t0.records[es[k].id].(event := ARCHIVED) else t0.records[es[k].id]
  }

  /** The tables after the first i records of the list. */
  ghost predicate ClearedUpTo(t0: Tables, t: Tables, server: Server, es: seq<Entry>, i: nat)
    requires i <= |es|
  {
    && t == t0.(sftp := t.sftp, records := t.records)
    && FilesCleared(t0, t, server, es[..i]) && RecordsCleared(t0, t, server, es, i)
    && (forall id :: id in t0.records && id !in Ids(es[..i]) ==> t.records[id] == t0.records[id])
  }

  lemma OneMoreCleared(t0: Tables, server: Server, es: seq<Entry>, i: nat)
    requires i < |es|
    ensures forall loc :: Cleared(t0, server, es[..i + 1], loc) <==>
                          Cleared(t0, server, es[..i], loc) || (Stored(t0, es[i]) && loc == At(server, es[i]))
  {
    var es' := es[..i + 1];
    forall loc
      ensures Cleared(t0, server, es', loc) <==>
              Cleared(t0, server, es[..i], loc) || (Stored(t0, es[i]) && loc == At(server, es[i]))
    {
      if Cleared(t0, server, es', loc) {
        var k :| 0 <= k < |es'| && Stored(t0, es'[k]) && loc == At(server, es'[k]);
        if k < i { assert es[..i][k] == es[k]; }
      }
      if Cleared(t0, server, es[..i], loc) {
        var k :| 0 <= k < i && Stored(t0, es[..i][k]) && loc == At(server, es[..i][k]);
        assert es'[k] == es[k];
      }
      if Stored(t0, es[i]) && loc == At(server, es[i]) { assert es'[i] == es[i]; }
    }
  }

  lemma TakenIsCleared(t0: Tables, server: Server, es: seq<Entry>, i: nat)
    requires i < |es|
    ensures TakenBefore(t0, es, i) <==> Cleared(t0, server, es[..i], At(server, es[i]))
  {
    if TakenBefore(t0, es, i) {
      var j :| 0 <= j < i && es[j].record.name == es[i].record.name && Stored(t0, es[j]);
      assert es[..i][j] == es[j];
    }
    if Cleared(t0, server, es[..i], At(server, es[i])) {
      var j :| 0 <= j < i && Stored(t0, es[..i][j]) && At(server, es[i]) == At(server, es[..i][j]);
      assert es[..i][j] == es[j];
    }
  }

  /** The callback for a record, in terms of the tables at its start and of the earlier listing. */
  function Callback(t0: Tables, t: Tables, server: Server, e: Entry): Tables {
    var loc := At(server, e);
    if !(Stored(t, e) && (loc in t0.sftp ==> loc in t.sftp)) then t
    else if loc !in t0.sftp then Archived(t, e) else Archived(Deleted(t, loc), e)
  }

  lemma FilesTurn(t0: Tables, t: Tables, server: Server, es: seq<Entry>, i: nat)
    requires i < |es| && t.s3 == t0.s3 && FilesCleared(t0, t, server, es[..i])
    ensures FilesCleared(t0, Callback(t0, t, server, es[i]), server, es[..i + 1])
  {
    OneMoreCleared(t0, server, es, i);
  }

  lemma RecordsTurn(t0: Tables, t: Tables, server: Server, es: seq<Entry>, i: nat)
    requires i < |es| && t.s3 == t0.s3 && DistinctIds(es) && FilesCleared(t0, t, server, es[..i])
    requires RecordsCleared(t0, t, server, es, i)
             && (es[i].id in t0.records ==> t.records[es[i].id] == t0.records[es[i].id])
    ensures RecordsCleared(t0, Callback(t0, t, server, es[i]), server, es, i + 1)
  {
    TakenIsCleared(t0, server, es, i);
    var t' := Callback(t0, t, server, es[i]);
    assert forall id :: id in t0.records && id != es[i].id ==> t'.records[id] == t.records[id];
  }

  lemma ClearTurn(t0: Tables, t: Tables, server: Server, es: seq<Entry>, i: nat)
    requires i < |es| && DistinctIds(es) && ClearedUpTo(t0, t, server, es, i)
    ensures ClearedUpTo(t0, Callback(t0, t, server, es[i]), server, es, i + 1)
  {
    OneMoreId(es, i);
    FilesTurn(t0, t, server, es, i);
    RecordsTurn(t0, t, server, es, i);
  }

  lemma ClearedMeans(t0: Tables, t: Tables, server: Server, es: seq<Entry>)
    requires ClearedUpTo(t0, t, server, es, |es|)
    ensures forall loc :: loc in t.sftp <==>
              loc in t0.sftp
              && !(loc.server == server && loc.folder == Extracted
                   && exists e :: e in es && e.record.name == loc.name && e.record.fileUrl in t0.s3)
    ensures forall id :: id in t0.records ==>
              && id in t.records
              && (t.records[id] == t0.records[id] || t.records[id] == t0.records[id].(event := ARCHIVED))
  {
    assert es[..|es|] == es;
    forall loc
      ensures Cleared(t0, server, es, loc) <==>
              loc.server == server && loc.folder == Extracted
              && exists e :: e in es && e.record.name == loc.name && e.record.fileUrl in t0.s3
    {
      if e :| e in es && e.record.name == loc.name && e.record.fileUrl in t0.s3 {
        var k :| 0 <= k < |es| && es[k] == e;
        assert Stored(t0, es[k]);
      }
    }
    forall id | id in t0.records
      ensures t.records[id] == t0.records[id] || t.records[id] == t0.records[id].(event := ARCHIVED)
    {
      if id in Ids(es) {
        var e :| e in es && e.id == id;
        var k :| 0 <= k < |es| && es[k] == e;
      }
    }
  }

  /** `handle` of a clear job: exactly the stored files leave the extracted folder, exactly their records
      are archived (of several with one name, the first), and nothing else changes. */
  method ClearFileRecords(services: Services, server: Server, fileRecords: seq<Entry>)
    requires DistinctIds(fileRecords)
    modifies services
    ensures ClearedUpTo(old(services.tables), services.tables, server, fileRecords, |fileRecords|)
    ensures forall loc :: loc in services.tables.sftp <==>
              loc in old(services.tables).sftp
              && !(loc.server == server && loc.folder == Extracted
                   && exists e :: e in fileRecords && e.record.name == loc.name
                                  && e.record.fileUrl in old(services.tables).s3)
    ensures forall id :: id in old(services.tables).records ==>
              id in services.tables.records
              && (services.tables.records[id] == old(services.tables).records[id]
                  || services.tables.records[id] == old(services.tables).records[id].(event := ARCHIVED))
  {
    ghost var t0 := services.tables;
    var files := services.tables.sftp.Keys;
    var i := 0;
    assert fileRecords[..0] == [];
    while i < |fileRecords|
      invariant i <= |fileRecords| && ClearedUpTo(t0, services.tables, server, fileRecords, i)
    {
      var foundCount := if At(server, fileRecords[i]) in files then 1 else 0;
      ghost var t := services.tables;
      ghost var next;
      var archived;
      archived, next := ClearRecord(services, server, fileRecords[i], foundCount);
      ClearTurn(t0, t, server, fileRecords, i);
      i := i + 1;
    }
    assert fileRecords[..i] == fileRecords;
    ClearedMeans(t0, services.tables, server, fileRecords);
  }
}
