/**
 * The export run: resolve the arguments, choose the users, write the byte
 * order mark, the header and one record per user, and mark each user of a
 * partial export as exported in the metadata store.
 */
module Export {
  import opened Wrappers
  import opened Users
  import opened ExportArgs
  import opened FieldFilter
  import opened Columns
  import opened Rows

  /** The UTF-8 byte order mark written before the first record. */
  const Bom: seq<bv8> := [0xEF, 0xBB, 0xBF]

  /** What the export writes to its output: raw bytes, or one CSV record. */
  datatype Chunk = Bytes(bytes: seq<bv8>) | Record(cells: seq<string>)

  /** The output stream, as the sequence of writes made to it. */
  class Sink {
    var written: seq<Chunk>

    constructor ()
      ensures written == []
    {
      written := [];
    }

    method Put(bytes: seq<bv8>)
      modifies this
      ensures written == old(written) + [Bytes(bytes)]
    {
      written := written + [Bytes(bytes)];
    }

    method PutCsv(cells: seq<string>)
      modifies this
      ensures written == old(written) + [Record(cells)]
    {
      written := written + [Record(cells)];
    }
  }

  /** The per-user metadata store, which the export both reads and writes. */
  class MetaStore {
    var values: Meta

    constructor (initial: Meta)
      ensures values == initial
    {
      values := initial;
    }

    method Update(id: UserId, key: string, value: string)
      modifies this
      ensures values == old(values)[(id, key) := value]
    {
      values := values[(id, key) := value];
    }
  }

  /** What the site supplies: the field catalog, the settings, and the user directory with its listing. */
  datatype Site = Site(catalog: seq<Field>, settings: Settings, directory: map<UserId, User>, allUsers: seq<UserId>)

  /**
   * The users to export: the whole listing when the scope is "all", otherwise
   * the caller's list, and nothing when the caller gave no list.
   */
  function TargetUsers(scope: string, users: Option<seq<UserId>>, allUsers: seq<UserId>): seq<UserId> {
    if scope == ExportAll then allUsers
    else if users.Some? then users.value
    else []
  }

  /** Marking one user as exported, which only a partial export does. */
  function MarkOne(partial: bool, meta: Meta, id: UserId): Meta {
    if partial then meta[(id, "exported") := "1"] else meta
  }

  /** The metadata store after marking each user of `list`, front to back. */
  function MarkAll(partial: bool, meta: Meta, list: seq<UserId>): Meta
    decreases |list|
  {
    if |list| == 0 then meta else MarkAll(partial, MarkOne(partial, meta, list[0]), list[1..])
  }

  /**
   * The data records of the export: user k's record is read from the store
   * as it stands after the users before k were marked.
   */
  function ExportRecords(cols: seq<Column>, dir: map<UserId, User>, partial: bool, meta: Meta, list: seq<UserId>): (rows: seq<seq<string>>)
    requires forall u :: u in list ==> u in dir
    ensures |rows| == |list|
    ensures forall k :: 0 <= k < |rows| ==> |rows[k]| == |cols|
    decreases |list|
  {
    if |list| == 0 then []
    else [RowCells(cols, list[0], dir[list[0]], meta)] + ExportRecords(cols, dir, partial, MarkOne(partial, meta, list[0]), list[1..])
  }

  function AsRecords(rows: seq<seq<string>>): seq<Chunk> {
    seq(|rows|, i requires 0 <= i < |rows| => Record(rows[i]))
  }

  lemma AsRecordsAppend(a: seq<seq<string>>, b: seq<seq<string>>)
    ensures AsRecords(a + b) == AsRecords(a) + AsRecords(b)
  {
  }

  lemma {:induction false} MarkAllSnoc(partial: bool, meta: Meta, xs: seq<UserId>, x: UserId)
    ensures MarkAll(partial, meta, xs + [x]) == MarkOne(partial, MarkAll(partial, meta, xs), x)
    decreases |xs|
  {
    if |xs| > 0 {
      assert (xs + [x])[1..] == xs[1..] + [x];
      MarkAllSnoc(partial, MarkOne(partial, meta, xs[0]), xs[1..], x);
    }
  }

  lemma {:induction false} ExportRecordsSnoc(cols: seq<Column>, dir: map<UserId, User>, partial: bool, meta: Meta, xs: seq<UserId>, x: UserId)
    requires forall u :: u in xs ==> u in dir
    requires x in dir
    ensures ExportRecords(cols, dir, partial, meta, xs + [x])
      == ExportRecords(cols, dir, partial, meta, xs) + [RowCells(cols, x, dir[x], MarkAll(partial, meta, xs))]
    decreases |xs|
  {
    if |xs| == 0 {
      assert xs + [x] == [x];
    } else {
      assert (xs + [x])[1..] == xs[1..] + [x];
      assert (xs + [x])[0] == xs[0];
      ExportRecordsSnoc(cols, dir, partial, MarkOne(partial, meta, xs[0]), xs[1..], x);
    }
  }

  /**
   * After a partial export, "exported" reads "1" for every listed user, and
   * every other (user, key) reads what it read before.
   */
  lemma {:induction false} MarkAllLookup(meta: Meta, list: seq<UserId>, id: UserId, key: string)
    ensures Lookup(MarkAll(true, meta, list), id, key)
      == if key == "exported" && id in list then "1" else Lookup(meta, id, key)
    decreases |list|
  {
    if |list| > 0 {
      MarkAllLookup(MarkOne(true, meta, list[0]), list[1..], id, key);
      assert id in list <==> id == list[0] || id in list[1..];
    }
  }

  /** A partial export adds exactly the listed users' "exported" entries to the store. */
  lemma {:induction false} MarkAllKeys(meta: Meta, list: seq<UserId>)
    ensures MarkAll(true, meta, list).Keys == meta.Keys + (set u | u in list :: (u, "exported"))
    decreases |list|
  {
    if |list| > 0 {
      MarkAllKeys(MarkOne(true, meta, list[0]), list[1..]);
      assert (set u | u in list :: (u, "exported"))
        == {(list[0], "exported")} + (set u | u in list[1..] :: (u, "exported")) by {
        assert forall u :: u in list <==> u == list[0] || u in list[1..];
      }
    }
  }

  /** An export of every user leaves the store as it was. */
  lemma {:induction false} MarkAllFull(meta: Meta, list: seq<UserId>)
    ensures MarkAll(false, meta, list) == meta
    decreases |list|
  {
    if |list| > 0 {
      MarkAllFull(meta, list[1..]);
    }
  }

  /**
   * When no column reads the "exported" key, marking does not show in the
   * output: every record is the user's row over the store as it was before
   * the export.
   */
  lemma {:induction false} RecordsIgnoreMarks(cols: seq<Column>, dir: map<UserId, User>, partial: bool, meta: Meta, list: seq<UserId>)
    requires forall u :: u in list ==> u in dir
    requires forall c :: c in cols ==> !ReadsKey(c, "exported")
    ensures var rows := ExportRecords(cols, dir, partial, meta, list);
      forall k :: 0 <= k < |list| ==> rows[k] == RowCells(cols, list[k], dir[list[k]], meta)
    decreases |list|
  {
    if |list| > 0 {
      var m1 := MarkOne(partial, meta, list[0]);
      RecordsIgnoreMarks(cols, dir, partial, m1, list[1..]);
      forall k | 1 <= k < |list|
        ensures RowCells(cols, list[k], dir[list[k]], m1) == RowCells(cols, list[k], dir[list[k]], meta)
      {
        forall c, key | c in cols && ReadsKey(c, key)
          ensures Lookup(m1, list[k], key) == Lookup(meta, list[k], key)
        {
          assert key != "exported";
        }
        RowCellsFrame(cols, list[k], dir[list[k]], m1, meta);
      }
      var rows := ExportRecords(cols, dir, partial, meta, list);
      assert forall k :: 1 <= k < |list| ==> rows[k] == ExportRecords(cols, dir, partial, m1, list[1..])[k - 1];
    }
  }

  /**
   * The loop over the target users: writes each user's record in list order
   * and, on a partial export, marks that user as exported after its record.
   */
  method WriteRecords(fields: seq<Field>, settings: Settings, dir: map<UserId, User>, list: seq<UserId>,
                      partial: bool, store: MetaStore, sink: Sink)
    requires forall u :: u in list ==> u in dir
    modifies store, sink
    ensures sink.written == old(sink.written)
      + AsRecords(ExportRecords(Layout(fields, settings), dir, partial, old(store.values), list))
    ensures store.values == MarkAll(partial, old(store.values), list)
  {
    ghost var cols := Layout(fields, settings);
    ghost var meta0 := store.values;
    ghost var start := sink.written;
    var i := 0;
    while i < |list|
      invariant 0 <= i <= |list|
      invariant store.values == MarkAll(partial, meta0, list[..i])
      invariant sink.written == start + AsRecords(ExportRecords(cols, dir, partial, meta0, list[..i]))
    {
      var id := list[i];
      var row := BuildRow(fields, settings, id, dir[id], store.values);
      sink.PutCsv(row);
      if partial {
        store.Update(id, "exported", "1");
      }
      assert list[..i + 1] == list[..i] + [id];
      assert store.values == MarkAll(partial, meta0, list[..i + 1]) by {
        MarkAllSnoc(partial, meta0, list[..i], id);
      }
      assert sink.written == start + AsRecords(ExportRecords(cols, dir, partial, meta0, list[..i + 1])) by {
        ExportRecordsSnoc(cols, dir, partial, meta0, list[..i], id);
        AsRecordsAppend(ExportRecords(cols, dir, partial, meta0, list[..i]), [row]);
      }
      i := i + 1;
    }
    assert list[..i] == list;
  }

  /**
   * The whole export. Writes the byte order mark, the header record, and one
   * record per target user in list order; a partial export marks each of
   * those users as exported once its record is written. Returns the name the
   * download is offered under.
   */
  method ExportUsers(args: CallerArgs, users: Option<seq<UserId>>, hook: CallerArgs -> CallerArgs, today: string,
                     site: Site, store: MetaStore, sink: Sink) returns (filename: string)
    requires var a := Resolve(args, hook, site.catalog, today);
      forall u :: u in TargetUsers(a.scope, users, site.allUsers) ==> u in site.directory
    modifies store, sink
    ensures var a := Resolve(args, hook, site.catalog, today);
      var list := TargetUsers(a.scope, users, site.allUsers);
      var cols := Layout(EffectiveFields(a.exportFields, a.excludeFields), site.settings);
      var partial := a.scope != ExportAll;
      filename == a.filename &&
      sink.written == old(sink.written) + [Bytes(Bom), Record(HeaderCells(cols))]
        + AsRecords(ExportRecords(cols, site.directory, partial, old(store.values), list)) &&
      store.values == MarkAll(partial, old(store.values), list)
  {
    var a := Resolve(args, hook, site.catalog, today);
    filename := a.filename;
    var list := TargetUsers(a.scope, users, site.allUsers);
    var fields := EffectiveFields(a.exportFields, a.excludeFields);
    ghost var before := sink.written;
    sink.Put(Bom);
    var header := BuildHeader(fields, site.settings);
    sink.PutCsv(header);
    assert sink.written == before + [Bytes(Bom), Record(header)];
    ghost var preamble := sink.written;
    WriteRecords(fields, site.settings, site.directory, list, a.scope != ExportAll, store, sink);
    assert sink.written == preamble + AsRecords(ExportRecords(Layout(fields, site.settings), site.directory,
                                                              a.scope != ExportAll, old(store.values), list));
  }
}
