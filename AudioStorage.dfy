/**
 * File-based audio storage: a session index (sessions by id plus lookup
 * indexes by lower-cased name, by tag and by start date), a file manager
 * that decides where a session's audio goes, a compression engine with one
 * mock encoder per compressed format, and the storage backend that stores,
 * lists, deletes, summarises and cleans up sessions.
 *
 * The file system is a map from path to byte count; the index file, its
 * JSON encoding, checksums (whose text is a parameter), fresh file
 * identifiers and the current time are parameters.
 */
module AudioStorage {
  import opened Common
  import opened AudioArchive

  // ---------------------------------------------------------------------
  // Data model
  // ---------------------------------------------------------------------

  /** `CompressionInfo`; the compression time is in milliseconds. */
  datatype CompressionInfo = CompressionInfo(
    original_size: nat, compressed_size: nat, compression_ratio: real, format: AudioFormat,
    compression_time: nat, checksum: Option<string>)

  /** `SessionMetadata`: what the index keeps about one stored session. */
  datatype SessionMetadata = SessionMetadata(
    id: SessionId, name: string, start_time: int, end_time: Option<int>, duration: nat,
    file_path: string, file_size: nat, format_info: AudioFormatInfo, tags: seq<string>,
    transcript_count: nat, checksum: Option<string>, compression_info: Option<CompressionInfo>)

  /** One `(start_time, session_id)` entry of the date index. */
  datatype DateEntry = DateEntry(date: int, id: SessionId)

  /** A name or tag index: each key lists the sessions filed under it, in the order they were added. */
  type Index = map<string, seq<SessionId>>

  /** `BackupConfig`; the interval is in milliseconds. */
  datatype BackupConfig = BackupConfig(
    enabled: bool, backup_path: string, backup_interval: nat, max_backups: nat, compress_backups: bool)

  /** `StorageConfig`; the index update interval is in milliseconds. */
  datatype StorageConfig = StorageConfig(
    max_file_size_mb: nat, auto_compress: bool, preferred_format: AudioFormat, enable_checksums: bool,
    index_update_interval: nat, backup_config: Option<BackupConfig>)

  /** `StorageConfig::default`: compress to FLAC, keep checksums, no backups. */
  function DefaultStorageConfig(): (c: StorageConfig)
    ensures c.max_file_size_mb == 100 && c.auto_compress && c.preferred_format == FLAC
    ensures c.enable_checksums && c.index_update_interval == 60000 && c.backup_config.None?
  {
    StorageConfig(100, true, FLAC, true, 60000, None)
  }

  // ---------------------------------------------------------------------
  // Name and tag indexes
  // ---------------------------------------------------------------------

  /** `entry(key).or_insert_with(Vec::new).push(id)`. */
  function Push(m: Index, key: string, id: SessionId): (r: Index)
    ensures r.Keys == m.Keys + {key}
    ensures r[key] == (if key in m then m[key] else []) + [id]
    ensures forall k :: k in m && k != key ==> r[k] == m[k]
  {
    m[key := (if key in m then m[key] else []) + [id]]
  }

  /** Pushing `id` under each key in turn. */
  function PushAll(m: Index, keys: seq<string>, id: SessionId): Index
    decreases |keys|
  {
    if |keys| == 0 then m else Push(PushAll(m, keys[..|keys| - 1], id), keys[|keys| - 1], id)
  }

  /** Every list of the index is non-empty. */
  predicate NonEmptyLists(m: Index)
  {
    forall k :: k in m ==> |m[k]| > 0
  }

  /**
   * After pushing under `keys`: a key is present iff it was or is one of
   * `keys`, `id` is listed under every one of `keys`, other keys keep their
   * lists, and every old list survives as a prefix of the new one.
   */
  lemma {:induction false} PushAllSpec(m: Index, keys: seq<string>, id: SessionId)
    ensures var r := PushAll(m, keys, id);
      && (forall k :: k in r <==> k in m || k in keys)
      && (forall k :: k in keys ==> id in r[k])
      && (forall k :: k in m && k !in keys ==> r[k] == m[k])
      && (forall k :: k in m ==> m[k] <= r[k])
      && (NonEmptyLists(m) ==> NonEmptyLists(r))
    decreases |keys|
  {
    if |keys| > 0 {
      var init := keys[..|keys| - 1];
      var last := keys[|keys| - 1];
      PushAllSpec(m, init, id);
      assert forall k :: k in keys <==> k in init || k == last;
      var p := PushAll(m, init, id);
      forall k | k in m ensures m[k] <= PushAll(m, keys, id)[k] {
        if k == last {
          assert m[k] <= p[k] <= p[k] + [id];
        }
      }
    }
  }

  /**
   * `get_mut(key)`, `retain(|&x| x != id)` and removal of the key once its
   * list is empty.
   */
  function Dropped(m: Index, key: string, id: SessionId): (r: Index)
  {
    if key in m then
      var rest := DropAll(m[key], id);
      if |rest| == 0 then m - {key} else m[key := rest]
    else m
  }

  /** Dropping `id` under each key in turn. */
  function DroppedAll(m: Index, keys: seq<string>, id: SessionId): Index
    decreases |keys|
  {
    if |keys| == 0 then m else Dropped(DroppedAll(m, keys[..|keys| - 1], id), keys[|keys| - 1], id)
  }

  /**
   * After dropping under one key: no key appears, the lists stay non-empty,
   * every other session stays listed where it was, `id` is gone from the
   * key's list, and other keys are untouched.
   */
  lemma DroppedSpec(m: Index, key: string, id: SessionId)
    requires NonEmptyLists(m)
    ensures var r := Dropped(m, key, id);
      && NonEmptyLists(r)
      && (forall k :: k in r ==> k in m)
      && (forall k, x :: k in m && x in m[k] && x != id ==> k in r && x in r[k])
      && (key in r ==> id !in r[key])
      && (forall k :: k in r && k != key ==> r[k] == m[k])
  {
    if key in m {
      DropAllSpec(m[key], id);
    }
  }

  /** `DroppedSpec` for a sequence of keys; `id` is gone from the lists of all of them. */
  lemma {:induction false} DroppedAllSpec(m: Index, keys: seq<string>, id: SessionId)
    requires NonEmptyLists(m)
    ensures var r := DroppedAll(m, keys, id);
      && NonEmptyLists(r)
      && (forall k :: k in r ==> k in m)
      && (forall k, x :: k in m && x in m[k] && x != id ==> k in r && x in r[k])
      && (forall k :: k in keys && k in r ==> id !in r[k])
      && (forall k :: k in r && k !in keys ==> r[k] == m[k])
    decreases |keys|
  {
    if |keys| > 0 {
      var init := keys[..|keys| - 1];
      var last := keys[|keys| - 1];
      DroppedAllSpec(m, init, id);
      var p := DroppedAll(m, init, id);
      DroppedSpec(p, last, id);
      assert forall k :: k in keys <==> k in init || k == last;
      var r := DroppedAll(m, keys, id);
      forall k | k in keys && k in r ensures id !in r[k] {
        if k != last {
          assert r[k] == p[k];
        }
      }
    }
  }

  // ---------------------------------------------------------------------
  // Date index
  // ---------------------------------------------------------------------

  /** The key that orders the date index oldest first (a descending sort on the negated date). */
  function DateKey(e: DateEntry): real
  {
    -(e.date as real)
  }

  /** `sort_by_key(|(date, _)| *date)`, stable. */
  function SortByDate(d: seq<DateEntry>): (r: seq<DateEntry>)
    ensures multiset(r) == multiset(d)
  {
    SortDesc(d, DateKey)
  }

  /** Oldest first. */
  predicate DatesInOrder(d: seq<DateEntry>)
  {
    forall i, j :: 0 <= i < j < |d| ==> d[i].date <= d[j].date
  }

  lemma SortByDateInOrder(d: seq<DateEntry>)
    ensures DatesInOrder(SortByDate(d))
  {
    SortDescSorted(d, DateKey);
    var r := SortByDate(d);
    forall i, j | 0 <= i < j < |r| ensures r[i].date <= r[j].date {
      assert DateKey(r[i]) >= DateKey(r[j]);
    }
  }

  /** `retain(|(_, x)| *x != id)`. */
  function Retained(d: seq<DateEntry>, id: SessionId): (r: seq<DateEntry>)
    ensures |r| <= |d|
  {
    if |d| == 0 then [] else (if d[0].id == id then [] else [d[0]]) + Retained(d[1..], id)
  }

  /** Retaining drops exactly the entries of `id` and keeps the order of the rest. */
  lemma {:induction false} RetainedSpec(d: seq<DateEntry>, id: SessionId)
    ensures forall e :: e in Retained(d, id) <==> e in d && e.id != id
    ensures Subseq(Retained(d, id), d)
    decreases |d|
  {
    if |d| > 0 {
      RetainedSpec(d[1..], id);
      var rest := Retained(d[1..], id);
      assert [d[0]] + d[1..] == d;
      SubseqCons(d[0], rest, d[1..]);
      if d[0].id == id {
        assert Retained(d, id) == rest;
      } else {
        assert Retained(d, id) == [d[0]] + rest;
      }
    }
  }

  /** Retaining keeps the date index oldest first. */
  lemma RetainedInOrder(d: seq<DateEntry>, id: SessionId)
    requires DatesInOrder(d)
    ensures DatesInOrder(Retained(d, id))
  {
    RetainedSpec(d, id);
    var r := Retained(d, id);
    assert SortedDesc(d, DateKey) by {
      forall i, j | 0 <= i < j < |d| ensures DateKey(d[i]) >= DateKey(d[j]) {
        assert d[i].date <= d[j].date;
      }
    }
    SubseqSortedDesc(r, d, DateKey);
    forall i, j | 0 <= i < j < |r| ensures r[i].date <= r[j].date {
      assert DateKey(r[i]) >= DateKey(r[j]);
    }
  }

  // ---------------------------------------------------------------------
  // The index invariant
  // ---------------------------------------------------------------------

  /** Every session is stored under its own id. */
  predicate KeysMatch(sessions: map<SessionId, SessionMetadata>)
  {
    forall id :: id in sessions ==> sessions[id].id == id
  }

  /** Every session can be found by its lower-cased name, by each of its tags and by its start date. */
  predicate Indexed(sessions: map<SessionId, SessionMetadata>, names: Index, tags: Index, dates: seq<DateEntry>)
  {
    forall id :: id in sessions ==>
      && ToLower(sessions[id].name) in names && id in names[ToLower(sessions[id].name)]
      && (forall t :: t in sessions[id].tags ==> t in tags && id in tags[t])
      && DateEntry(sessions[id].start_time, id) in dates
  }

  /** `add_session` keeps every session findable, the new one included. */
  lemma AddKeepsIndexed(sessions: map<SessionId, SessionMetadata>, names: Index, tags: Index,
                        dates: seq<DateEntry>, m: SessionMetadata)
    requires Indexed(sessions, names, tags, dates)
    ensures Indexed(sessions[m.id := m], Push(names, ToLower(m.name), m.id), PushAll(tags, m.tags, m.id),
                    SortByDate(dates + [DateEntry(m.start_time, m.id)]))
  {
    var names' := Push(names, ToLower(m.name), m.id);
    var tags' := PushAll(tags, m.tags, m.id);
    var dates' := SortByDate(dates + [DateEntry(m.start_time, m.id)]);
    PushAllSpec(tags, m.tags, m.id);
    var s' := sessions[m.id := m];
    forall id | id in s'
      ensures ToLower(s'[id].name) in names' && id in names'[ToLower(s'[id].name)]
      ensures forall t :: t in s'[id].tags ==> t in tags' && id in tags'[t]
      ensures DateEntry(s'[id].start_time, id) in dates'
    {
      var e := DateEntry(s'[id].start_time, id);
      assert e in dates + [DateEntry(m.start_time, m.id)] by {
        if id != m.id {
          assert e in dates;
        }
      }
      InMultisetMembers(dates + [DateEntry(m.start_time, m.id)], dates', e);
      if id != m.id {
        var key := ToLower(sessions[id].name);
        assert names[key] <= names'[key];
        forall t | t in s'[id].tags ensures t in tags' && id in tags'[t] {
          assert tags[t] <= tags'[t];
        }
      }
    }
  }

  /** Removing a session and its index entries keeps every other session findable, and `id` is gone. */
  lemma RemoveKeepsIndexed(sessions: map<SessionId, SessionMetadata>, names: Index, tags: Index,
                           dates: seq<DateEntry>, id: SessionId)
    requires Indexed(sessions, names, tags, dates) && NonEmptyLists(names) && NonEmptyLists(tags)
    requires id in sessions
    ensures var m := sessions[id];
      var names' := Dropped(names, ToLower(m.name), id);
      var tags' := DroppedAll(tags, m.tags, id);
      var dates' := Retained(dates, id);
      && Indexed(sessions - {id}, names', tags', dates')
      && NonEmptyLists(names') && NonEmptyLists(tags')
      && (ToLower(m.name) in names' ==> id !in names'[ToLower(m.name)])
      && (forall t :: t in m.tags && t in tags' ==> id !in tags'[t])
      && (forall e :: e in dates' ==> e.id != id)
  {
    var m := sessions[id];
    DroppedSpec(names, ToLower(m.name), id);
    DroppedAllSpec(tags, m.tags, id);
    RetainedSpec(dates, id);
    forall e | e in Retained(dates, id) ensures e.id != id {
    }
  }

  // ---------------------------------------------------------------------
  // Session index
  // ---------------------------------------------------------------------

  /** `SessionIndex`. */
  class SessionIndex {
    var sessions: map<SessionId, SessionMetadata>
    var name_index: Index
    var tag_index: Index
    var date_index: seq<DateEntry>
    const version: nat

    /** Sessions keyed by their ids, no empty lists, dates oldest first, every session indexed. */
    predicate Valid()
      reads this
    {
      && KeysMatch(sessions)
      && NonEmptyLists(name_index) && NonEmptyLists(tag_index)
      && DatesInOrder(date_index)
      && Indexed(sessions, name_index, tag_index, date_index)
    }

    /** `SessionIndex::new`. */
    constructor ()
      ensures Valid() && version == 1
      ensures sessions == map[] && name_index == map[] && tag_index == map[] && date_index == []
    {
      sessions := map[];
      name_index := map[];
      tag_index := map[];
      date_index := [];
      version := 1;
    }

    /**
     * `add_session`: (re)place the metadata under its id and file the id
     * under its lower-cased name, under every tag and by its start date.
     */
    method AddSession(metadata: SessionMetadata) returns (r: Result<(), AudioError>)
      requires Valid()
      modifies this
      ensures Valid() && r.Ok?
      ensures sessions == old(sessions)[metadata.id := metadata]
      ensures name_index == Push(old(name_index), ToLower(metadata.name), metadata.id)
      ensures tag_index == PushAll(old(tag_index), metadata.tags, metadata.id)
      ensures date_index == SortByDate(old(date_index) + [DateEntry(metadata.start_time, metadata.id)])
    {
      var id := metadata.id;
      var entry := DateEntry(metadata.start_time, id);
      AddKeepsIndexed(sessions, name_index, tag_index, date_index, metadata);
      PushAllSpec(tag_index, metadata.tags, id);
      SortByDateInOrder(date_index + [entry]);
      sessions := sessions[id := metadata];
      name_index := Push(name_index, ToLower(metadata.name), id);
      PushTags(metadata.tags, id);
      date_index := SortByDate(date_index + [entry]);
      r := Ok(());
    }

    /**
     * `remove_from_indexes`: take the session's id out of the lists under
     * its name and its tags (dropping lists that become empty) and out of
     * the date index. The session map itself is not touched.
     */
    method RemoveFromIndexes(metadata: SessionMetadata)
      modifies this
      ensures name_index == Dropped(old(name_index), ToLower(metadata.name), metadata.id)
      ensures tag_index == DroppedAll(old(tag_index), metadata.tags, metadata.id)
      ensures date_index == Retained(old(date_index), metadata.id)
      ensures sessions == old(sessions)
    {
      var id := metadata.id;
      name_index := Dropped(name_index, ToLower(metadata.name), id);
      DropTags(metadata.tags, id);
      date_index := Retained(date_index, id);
    }

    /** The tag loop of `add_session`. */
    method PushTags(tags: seq<string>, id: SessionId)
      modifies this
      ensures tag_index == PushAll(old(tag_index), tags, id)
      ensures sessions == old(sessions) && name_index == old(name_index) && date_index == old(date_index)
    {
      var i := 0;
      while i < |tags|
        invariant 0 <= i <= |tags|
        invariant tag_index == PushAll(old(tag_index), tags[..i], id)
        invariant sessions == old(sessions) && name_index == old(name_index) && date_index == old(date_index)
      {
        assert tags[..i + 1][..i] == tags[..i];
        tag_index := Push(tag_index, tags[i], id);
        i := i + 1;
      }
      assert tags[..i] == tags;
    }

    /** The tag loop of `remove_from_indexes`. */
    method DropTags(tags: seq<string>, id: SessionId)
      modifies this
      ensures tag_index == DroppedAll(old(tag_index), tags, id)
      ensures sessions == old(sessions) && name_index == old(name_index) && date_index == old(date_index)
    {
      var i := 0;
      while i < |tags|
        invariant 0 <= i <= |tags|
        invariant tag_index == DroppedAll(old(tag_index), tags[..i], id)
        invariant sessions == old(sessions) && name_index == old(name_index) && date_index == old(date_index)
      {
        assert tags[..i + 1][..i] == tags[..i];
        tag_index := Dropped(tag_index, tags[i], id);
        i := i + 1;
      }
      assert tags[..i] == tags;
    }
  }

  // ---------------------------------------------------------------------
  // File manager
  // ---------------------------------------------------------------------

  /** `FileOrganization`: the directory a session's file goes into. */
  datatype FileOrganization = Flat | ByDate | ByName | ByTags | CustomDir(pattern: string)

  /** `FileNaming`: the stem of a session's file name. */
  datatype FileNaming = BySessionId | BySessionName | ByTimestamp | CustomName(pattern: string)

  /** `AudioFileManager`. */
  datatype AudioFileManager = AudioFileManager(base_path: string, organization: FileOrganization, naming: FileNaming)

  /** The characters a file name keeps: letters, digits, `-` and `_`. */
  predicate SafeChar(c: char)
  {
    IsAlnum(c) || c == '-' || c == '_'
  }

  /** `sanitize_filename`: every other character becomes `_`. */
  function SanitizeFilename(name: string): (r: string)
    ensures |r| == |name|
    ensures forall i :: 0 <= i < |r| ==> SafeChar(r[i])
    ensures forall i :: 0 <= i < |r| ==> (r[i] == name[i] <==> SafeChar(name[i]))
    ensures forall i :: 0 <= i < |r| && !SafeChar(name[i]) ==> r[i] == '_'
  {
    seq(|name|, i requires 0 <= i < |name| => if SafeChar(name[i]) then name[i] else '_')
  }

  /** Sanitising twice changes nothing more, and a safe name is kept as it is. */
  lemma SanitizeIdempotent(name: string)
    ensures SanitizeFilename(SanitizeFilename(name)) == SanitizeFilename(name)
    ensures (forall i :: 0 <= i < |name| ==> SafeChar(name[i])) ==> SanitizeFilename(name) == name
  {
  }

  /** The directory part of `generate_path`: the base path or a sub-directory of it. */
  function SessionDir(fm: AudioFileManager, session: RecordingSession, date_dir: string): (dir: string)
    ensures dir == fm.base_path || StartsWith(dir, fm.base_path + "/")
  {
    var base := fm.base_path;
    match fm.organization
    case Flat => base
    case ByDate => JoinPath(base, date_dir)
    case ByName => JoinPath(base, SanitizeFilename(session.name))
    case ByTags => if |session.tags| > 0 then JoinPath(base, SanitizeFilename(session.tags[0])) else base
    case CustomDir(pattern) => JoinPath(base, pattern)
  }

  /** The file-name stem part of `generate_path`. */
  function SessionStem(fm: AudioFileManager, session: RecordingSession, stamp: string): string
  {
    match fm.naming
    case BySessionId => NatToString(session.id)
    case BySessionName => SanitizeFilename(session.name)
    case ByTimestamp => stamp
    case CustomName(pattern) => pattern
  }

  /**
   * `generate_path`: the directory the organisation picks under the base
   * path, then the stem the naming picks with `.wav` appended. The date
   * directory (`%Y/%m/%d`) and the timestamp stem (`%Y%m%d_%H%M%S`) are the
   * formatted start time, given as text; a session id is written in
   * decimal.
   */
  function GeneratePath(fm: AudioFileManager, session: RecordingSession, date_dir: string, stamp: string): (r: string)
    ensures StartsWith(r, fm.base_path + "/") && EndsWith(r, ".wav")
  {
    var dir := SessionDir(fm, session, date_dir);
    var r := JoinPath(dir, SessionStem(fm, session, stamp) + ".wav");
    var n := |fm.base_path| + 1;
    assert r[|r| - 4..] == ".wav";
    assert r[..n] == fm.base_path + "/" by {
      if dir == fm.base_path {
        assert r[..n] == (dir + "/")[..n];
      } else {
        assert r[..n] == dir[..n];
      }
    }
    r
  }

  /** The storage's own layout: `<base>/<date>/<id>.wav`, and distinct sessions of one day never share a file. */
  lemma StoragePathLayout(base: string, s1: RecordingSession, s2: RecordingSession, date_dir: string, stamp: string)
    ensures GeneratePath(AudioFileManager(base, ByDate, BySessionId), s1, date_dir, stamp)
      == base + "/" + date_dir + "/" + NatToString(s1.id) + ".wav"
    ensures s1.id != s2.id ==>
      GeneratePath(AudioFileManager(base, ByDate, BySessionId), s1, date_dir, stamp)
      != GeneratePath(AudioFileManager(base, ByDate, BySessionId), s2, date_dir, stamp)
  {
    var fm := AudioFileManager(base, ByDate, BySessionId);
    var head := base + "/" + date_dir + "/";
    var a := NatToString(s1.id);
    var b := NatToString(s2.id);
    var p1 := GeneratePath(fm, s1, date_dir, stamp);
    var p2 := GeneratePath(fm, s2, date_dir, stamp);
    assert p1 == head + (a + ".wav");
    assert p2 == head + (b + ".wav");
    if s1.id != s2.id && p1 == p2 {
      CancelPrefix(head, a + ".wav", b + ".wav");
      CancelSuffix(a, b, ".wav");
    }
  }

  // ---------------------------------------------------------------------
  // Compression engine
  // ---------------------------------------------------------------------

  /** `CompressionConfig`; the quality level is 0 to 10. */
  datatype CompressionConfig = CompressionConfig(
    quality_level: nat, enable_parallel: bool, chunk_size: nat, preserve_metadata: bool)

  /** `FormatStats`; the average time is in milliseconds. */
  datatype FormatStats = FormatStats(
    files_processed: nat, total_original_size: nat, total_compressed_size: nat, average_ratio: real,
    average_time: nat)

  /** The engine's `CompressionStats`: overall totals and totals per format. */
  datatype EngineStats = EngineStats(
    total_files_processed: nat, total_original_size: nat, total_compressed_size: nat,
    average_compression_ratio: real, total_compression_time: nat, format_stats: map<AudioFormat, FormatStats>)

  /** `CompressionStats::new`. */
  function NewEngineStats(): (s: EngineStats)
    ensures s.total_files_processed == 0 && s.total_original_size == 0 && s.total_compressed_size == 0
    ensures s.format_stats == map[]
  {
    EngineStats(0, 0, 0, 0.0, 0, map[])
  }

  /** A format's totals, all zero before its first file. */
  function StatsFor(s: EngineStats, f: AudioFormat): FormatStats
  {
    if f in s.format_stats then s.format_stats[f] else FormatStats(0, 0, 0, 0.0, 0)
  }

  /** `update_compression_stats`: one more file in the totals and in its format's totals. */
  function UpdateCompressionStats(s: EngineStats, format: AudioFormat, original: nat, compressed: nat): (r: EngineStats)
  {
    var o := s.total_original_size + original;
    var c := s.total_compressed_size + compressed;
    var f := StatsFor(s, format);
    var fo := f.total_original_size + original;
    var fc := f.total_compressed_size + compressed;
    EngineStats(s.total_files_processed + 1, o, c, Ratio(c, o), s.total_compression_time,
      s.format_stats[format := FormatStats(f.files_processed + 1, fo, fc, Ratio(fc, fo), f.average_time)])
  }

  /** The overall totals are the sums of the per-format totals. */
  predicate Balanced(s: EngineStats)
  {
    && s.total_files_processed
       == StatsFor(s, WAV).files_processed + StatsFor(s, FLAC).files_processed
          + StatsFor(s, Opus).files_processed + StatsFor(s, MP3).files_processed
    && s.total_original_size
       == StatsFor(s, WAV).total_original_size + StatsFor(s, FLAC).total_original_size
          + StatsFor(s, Opus).total_original_size + StatsFor(s, MP3).total_original_size
    && s.total_compressed_size
       == StatsFor(s, WAV).total_compressed_size + StatsFor(s, FLAC).total_compressed_size
          + StatsFor(s, Opus).total_compressed_size + StatsFor(s, MP3).total_compressed_size
  }

  /**
   * Recording a file adds it to the overall totals and to its format's,
   * leaves the other formats alone and so keeps the totals balanced; the
   * averages are the ratios of the new totals.
   */
  lemma UpdateKeepsBalanced(s: EngineStats, format: AudioFormat, original: nat, compressed: nat)
    ensures var r := UpdateCompressionStats(s, format, original, compressed);
      && r.total_files_processed == s.total_files_processed + 1
      && r.total_original_size == s.total_original_size + original
      && r.total_compressed_size == s.total_compressed_size + compressed
      && StatsFor(r, format).files_processed == StatsFor(s, format).files_processed + 1
      && StatsFor(r, format).total_original_size == StatsFor(s, format).total_original_size + original
      && StatsFor(r, format).total_compressed_size == StatsFor(s, format).total_compressed_size + compressed
      && (forall f :: f != format ==> StatsFor(r, f) == StatsFor(s, f))
      && (r.total_original_size > 0 ==>
            r.average_compression_ratio * r.total_original_size as real == r.total_compressed_size as real)
      && (Balanced(s) ==> Balanced(r))
  {
  }

  /** `CompressionEngine`: mock encoders for FLAC, Opus and MP3, and their statistics. */
  class CompressionEngine {
    const compressors: set<AudioFormat>
    var stats: EngineStats
    const config: CompressionConfig

    constructor (config: CompressionConfig)
      ensures compressors == {FLAC, Opus, MP3} && stats == NewEngineStats() && this.config == config
    {
      compressors := {FLAC, Opus, MP3};
      stats := NewEngineStats();
      this.config := config;
    }

    /**
     * `compress_audio`: a format without an encoder (WAV) is an error and
     * changes nothing; otherwise the encoded size, with the file counted
     * at its raw size of four bytes per sample.
     */
    method CompressAudio(data: seq<real>, info: AudioFormatInfo) returns (r: Result<nat, AudioError>)
      modifies this
      ensures info.format !in compressors ==> r == Err(CompressionError("Unsupported format")) && stats == old(stats)
      ensures info.format in compressors ==>
        && r == Ok(EncodedSize(info.format, |data|))
        && stats == UpdateCompressionStats(old(stats), info.format, 4 * |data|, r.value)
    {
      if info.format !in compressors {
        return Err(CompressionError("Unsupported format"));
      }
      var compressed := EncodedSize(info.format, |data|);
      stats := UpdateCompressionStats(stats, info.format, 4 * |data|, compressed);
      r := Ok(compressed);
    }
  }

  // ---------------------------------------------------------------------
  // Listing
  // ---------------------------------------------------------------------

  /** The `RecordingSession` `list_sessions` builds from stored metadata: no description, no extra metadata. */
  function ToSession(m: SessionMetadata): (s: RecordingSession)
  {
    RecordingSession(m.id, m.name, None, m.start_time, m.end_time, m.duration, m.file_path, m.file_size,
      m.format_info, m.tags, m.transcript_count, map[])
  }

  /**
   * A session passes every bound the criteria set: the name contains the
   * pattern ignoring case, it has one of the tags, it started within the
   * date range (both ends included) and its duration is within the bounds.
   */
  predicate Matches(s: RecordingSession, c: SearchCriteria)
  {
    && (c.name_pattern.None? || Contains(ToLower(s.name), ToLower(c.name_pattern.value)))
    && (|c.tags| == 0 || exists t :: t in c.tags && t in s.tags)
    && (c.date_range.None? || c.date_range.value.0 <= s.start_time <= c.date_range.value.1)
    && (c.min_duration.None? || s.duration >= c.min_duration.value)
    && (c.max_duration.None? || s.duration <= c.max_duration.value)
  }

  /** The matching sessions, converted, in the order the index is visited. */
  function Matching(sessions: map<SessionId, SessionMetadata>, order: seq<SessionId>, c: SearchCriteria): seq<RecordingSession>
    requires forall id :: id in order ==> id in sessions
  {
    if |order| == 0 then []
    else
      var s := ToSession(sessions[order[|order| - 1]]);
      Matching(sessions, order[..|order| - 1], c) + if Matches(s, c) then [s] else []
  }

  lemma {:induction false} MatchingMembers(sessions: map<SessionId, SessionMetadata>, order: seq<SessionId>, c: SearchCriteria)
    requires forall id :: id in order ==> id in sessions
    ensures forall x :: x in Matching(sessions, order, c) <==>
      exists id :: id in order && x == ToSession(sessions[id]) && Matches(x, c)
    decreases |order|
  {
    if |order| > 0 {
      var init := order[..|order| - 1];
      MatchingMembers(sessions, init, c);
      assert order == init + [order[|order| - 1]];
      forall x | x in Matching(sessions, order, c)
        ensures exists id :: id in order && x == ToSession(sessions[id]) && Matches(x, c)
      {
        if x in Matching(sessions, init, c) {
          var id :| id in init && x == ToSession(sessions[id]) && Matches(x, c);
          assert id in order;
        } else {
          assert x == ToSession(sessions[order[|order| - 1]]);
        }
      }
      forall x | exists id :: id in order && x == ToSession(sessions[id]) && Matches(x, c)
        ensures x in Matching(sessions, order, c)
      {
        var id :| id in order && x == ToSession(sessions[id]) && Matches(x, c);
        if id in init {
          assert x in Matching(sessions, init, c);
        }
      }
    }
  }

  /** Newest first. */
  function StartKey(s: RecordingSession): real
  {
    s.start_time as real
  }

  /** `truncate(limit)` when there is a limit. */
  function LimitTo<T>(s: seq<T>, limit: Option<nat>): (r: seq<T>)
  {
    if limit.Some? then Take(s, limit.value) else s
  }

  /** What `list_sessions` returns: the matches, newest first (ties in index order), then limited. */
  function Listing(sessions: map<SessionId, SessionMetadata>, order: seq<SessionId>, c: SearchCriteria): seq<RecordingSession>
    requires forall id :: id in order ==> id in sessions
  {
    LimitTo(SortDesc(Matching(sessions, order, c), StartKey), c.limit)
  }

  /**
   * The listing holds only stored sessions that match, newest first, no
   * more than the limit; without a limit it holds every match, and with
   * one, every match left out is no newer than any session listed.
   */
  lemma ListingSpec(sessions: map<SessionId, SessionMetadata>, order: seq<SessionId>, c: SearchCriteria)
    requires IsOrderOf(order, sessions.Keys)
    ensures var r := Listing(sessions, order, c);
      && (forall x :: x in r ==> Matches(x, c) && exists id :: id in sessions && x == ToSession(sessions[id]))
      && (forall i, j :: 0 <= i < j < |r| ==> r[i].start_time >= r[j].start_time)
      && (c.limit.Some? ==> |r| <= c.limit.value)
      && (c.limit.None? ==> forall id :: id in sessions && Matches(ToSession(sessions[id]), c) ==> ToSession(sessions[id]) in r)
      && (forall id :: id in sessions && Matches(ToSession(sessions[id]), c) && ToSession(sessions[id]) !in r ==>
            forall y :: y in r ==> y.start_time >= sessions[id].start_time)
  {
    var m := Matching(sessions, order, c);
    var sorted := SortDesc(m, StartKey);
    var r := Listing(sessions, order, c);
    MatchingMembers(sessions, order, c);
    SortDescSorted(m, StartKey);
    assert r == sorted[..|r|];
    forall x | x in r ensures x in m {
      InMultisetMembers(sorted, m, x);
    }
    forall i, j | 0 <= i < j < |r| ensures r[i].start_time >= r[j].start_time {
      assert StartKey(sorted[i]) >= StartKey(sorted[j]);
    }
    forall id | id in sessions && Matches(ToSession(sessions[id]), c)
      ensures ToSession(sessions[id]) in sorted
      ensures ToSession(sessions[id]) !in r ==> forall y :: y in r ==> y.start_time >= sessions[id].start_time
    {
      var x := ToSession(sessions[id]);
      assert x in m;
      InMultisetMembers(sorted, m, x);
      var k :| 0 <= k < |sorted| && sorted[k] == x;
      if x !in r {
        forall y | y in r ensures y.start_time >= sessions[id].start_time {
          var q :| 0 <= q < |r| && r[q] == y;
          assert StartKey(sorted[q]) >= StartKey(sorted[k]);
        }
      }
    }
  }

  // ---------------------------------------------------------------------
  // Storage statistics
  // ---------------------------------------------------------------------

  function Sizes(sessions: map<SessionId, SessionMetadata>): (m: map<SessionId, nat>)
    ensures m.Keys == sessions.Keys
  {
    map id | id in sessions :: sessions[id].file_size
  }

  function Durations(sessions: map<SessionId, SessionMetadata>): (m: map<SessionId, nat>)
    ensures m.Keys == sessions.Keys
  {
    map id | id in sessions :: sessions[id].duration
  }

  /** Sizes before compression; a session without compression information counts 0. */
  function OriginalSizes(sessions: map<SessionId, SessionMetadata>): (m: map<SessionId, nat>)
    ensures m.Keys == sessions.Keys
  {
    map id | id in sessions :: if sessions[id].compression_info.Some? then sessions[id].compression_info.value.original_size else 0
  }

  /** Sizes after compression; a session without compression information counts 0. */
  function CompressedSizes(sessions: map<SessionId, SessionMetadata>): (m: map<SessionId, nat>)
    ensures m.Keys == sessions.Keys
  {
    map id | id in sessions :: if sessions[id].compression_info.Some? then sessions[id].compression_info.value.compressed_size else 0
  }

  /** `min_by_key(start_time)` over the sessions visited. */
  function OldestStart(sessions: map<SessionId, SessionMetadata>, order: seq<SessionId>): (r: Option<int>)
    requires forall id :: id in order ==> id in sessions
    ensures r.Some? <==> |order| > 0
    ensures r.Some? ==> (exists id :: id in order && sessions[id].start_time == r.value)
                        && forall id :: id in order ==> r.value <= sessions[id].start_time
  {
    if |order| == 0 then None
    else
      var last := order[|order| - 1];
      var t := sessions[last].start_time;
      var rest := OldestStart(sessions, order[..|order| - 1]);
      assert order == order[..|order| - 1] + [last];
      assert last in order && forall id :: id in order ==> id == last || id in order[..|order| - 1];
      if rest.Some? && rest.value <= t then rest else Some(t)
  }

  /** `max_by_key(start_time)` over the sessions visited. */
  function NewestStart(sessions: map<SessionId, SessionMetadata>, order: seq<SessionId>): (r: Option<int>)
    requires forall id :: id in order ==> id in sessions
    ensures r.Some? <==> |order| > 0
    ensures r.Some? ==> (exists id :: id in order && sessions[id].start_time == r.value)
                        && forall id :: id in order ==> r.value >= sessions[id].start_time
  {
    if |order| == 0 then None
    else
      var last := order[|order| - 1];
      var t := sessions[last].start_time;
      var rest := NewestStart(sessions, order[..|order| - 1]);
      assert order == order[..|order| - 1] + [last];
      assert last in order && forall id :: id in order ==> id == last || id in order[..|order| - 1];
      if rest.Some? && rest.value > t then rest else Some(t)
  }

  /** `get_storage_stats`, visiting the sessions in `order`. */
  function StorageStatsOf(sessions: map<SessionId, SessionMetadata>, order: seq<SessionId>): (st: StorageStats)
    requires forall id :: id in order ==> id in sessions
  {
    var total := SeqSum(Sizes(sessions), order);
    var original := SeqSum(OriginalSizes(sessions), order);
    var compressed := SeqSum(CompressedSizes(sessions), order);
    var anyCompressed := exists id :: id in order && sessions[id].compression_info.Some?;
    var ratio :=
      if total > 0 && anyCompressed && original > 0 then compressed as real / original as real else 1.0;
    StorageStats(|order|, total, SeqSum(Durations(sessions), order), ratio,
      OldestStart(sessions, order), NewestStart(sessions, order))
  }

  /**
   * The statistics count every stored session once, the totals are the
   * sums over all sessions whatever the visiting order, the ratio is 1 when
   * nothing is stored or nothing is compressed, and the oldest and newest
   * starts bound every session's start.
   */
  lemma StorageStatsSpec(sessions: map<SessionId, SessionMetadata>, order: seq<SessionId>)
    requires IsOrderOf(order, sessions.Keys)
    ensures var st := StorageStatsOf(sessions, order);
      && st.total_sessions == |sessions|
      && st.total_size_bytes == MapSum(Sizes(sessions))
      && st.total_duration == MapSum(Durations(sessions))
      && ((st.total_size_bytes == 0 || forall id :: id in sessions ==> sessions[id].compression_info.None?)
          ==> st.compression_ratio == 1.0)
      && (st.oldest_session.Some? <==> |sessions| > 0) && (st.newest_session.Some? <==> |sessions| > 0)
      && (st.oldest_session.Some? ==> forall id :: id in sessions ==> st.oldest_session.value <= sessions[id].start_time)
      && (st.newest_session.Some? ==> forall id :: id in sessions ==> st.newest_session.value >= sessions[id].start_time)
  {
    OrderCard(order, sessions.Keys);
    SeqSumAll(Sizes(sessions), order);
    SeqSumAll(Durations(sessions), order);
  }

  /** The oldest and newest starts do not depend on the visiting order. */
  lemma ExtremesOrderFree(sessions: map<SessionId, SessionMetadata>, o1: seq<SessionId>, o2: seq<SessionId>)
    requires IsOrderOf(o1, sessions.Keys) && IsOrderOf(o2, sessions.Keys)
    ensures OldestStart(sessions, o1) == OldestStart(sessions, o2)
    ensures NewestStart(sessions, o1) == NewestStart(sessions, o2)
  {
    if |o1| > 0 {
      assert o1[0] in o2;
      OldestAgree(sessions, o1, o2);
      OldestAgree(sessions, o2, o1);
      NewestAgree(sessions, o1, o2);
      NewestAgree(sessions, o2, o1);
    }
  }

  lemma OldestAgree(sessions: map<SessionId, SessionMetadata>, o1: seq<SessionId>, o2: seq<SessionId>)
    requires forall id :: id in o1 ==> id in sessions
    requires forall id :: id in o2 ==> id in o1
    requires |o1| > 0 && |o2| > 0
    ensures OldestStart(sessions, o1).value <= OldestStart(sessions, o2).value
  {
    var b := OldestStart(sessions, o2).value;
    var j :| j in o2 && sessions[j].start_time == b;
    assert j in o1;
  }

  lemma NewestAgree(sessions: map<SessionId, SessionMetadata>, o1: seq<SessionId>, o2: seq<SessionId>)
    requires forall id :: id in o1 ==> id in sessions
    requires forall id :: id in o2 ==> id in o1
    requires |o1| > 0 && |o2| > 0
    ensures NewestStart(sessions, o1).value >= NewestStart(sessions, o2).value
  {
    var b := NewestStart(sessions, o2).value;
    var j :| j in o2 && sessions[j].start_time == b;
    assert j in o1;
  }

  /** The statistics do not depend on the order in which the index is visited. */
  lemma StorageStatsOrderFree(sessions: map<SessionId, SessionMetadata>, o1: seq<SessionId>, o2: seq<SessionId>)
    requires IsOrderOf(o1, sessions.Keys) && IsOrderOf(o2, sessions.Keys)
    ensures StorageStatsOf(sessions, o1) == StorageStatsOf(sessions, o2)
  {
    StorageStatsSpec(sessions, o1);
    StorageStatsSpec(sessions, o2);
    SeqSumAll(OriginalSizes(sessions), o1);
    SeqSumAll(OriginalSizes(sessions), o2);
    SeqSumAll(CompressedSizes(sessions), o1);
    SeqSumAll(CompressedSizes(sessions), o2);
    ExtremesOrderFree(sessions, o1, o2);
    assert (exists id :: id in o1 && sessions[id].compression_info.Some?)
       <==> (exists id :: id in o2 && sessions[id].compression_info.Some?);
  }

  // ---------------------------------------------------------------------
  // Cleanup
  // ---------------------------------------------------------------------

  const DayMillis := 86400000
  const GiB := 1073741824
  const U64Max := 18446744073709551615

  /** Sessions that started before this instant are past the age limit. */
  function Cutoff(policy: RetentionPolicy, now: int): int
  {
    now - policy.max_age_days * DayMillis
  }

  /**
   * `(gb * 1024.0 * 1024.0 * 1024.0) as u64`: truncated toward zero, with
   * a negative limit giving 0 and a huge one the largest `u64`.
   */
  function SizeCap(gb: real): (cap: nat)
    ensures cap <= U64Max
    ensures gb <= 0.0 ==> cap == 0
    ensures 0.0 <= gb && gb * GiB as real < U64Max as real ==> cap as real <= gb * GiB as real < cap as real + 1.0
  {
    if gb <= 0.0 then 0
    else
      var t := (gb * GiB as real).Floor;
      if t > U64Max then U64Max else t
  }

  /** The sessions past the age limit, in the order the index is visited. */
  function Aged(sessions: map<SessionId, SessionMetadata>, order: seq<SessionId>, cutoff: int): seq<SessionId>
  {
    Filter(order, OlderThan(sessions, cutoff))
  }

  function OlderThan(sessions: map<SessionId, SessionMetadata>, cutoff: int): SessionId -> bool
  {
    id => id in sessions && sessions[id].start_time < cutoff
  }

  /** The aged sessions are exactly the visited ones that started before the cutoff, each once. */
  lemma AgedSpec(sessions: map<SessionId, SessionMetadata>, order: seq<SessionId>, cutoff: int)
    ensures forall id :: id in Aged(sessions, order, cutoff) <==> id in order && id in sessions && sessions[id].start_time < cutoff
    ensures NoDuplicates(order) ==> NoDuplicates(Aged(sessions, order, cutoff))
  {
    FilterSpec(order, OlderThan(sessions, cutoff));
  }

  /** The sessions of a map that are not listed. */
  function Without(sessions: map<SessionId, SessionMetadata>, ids: seq<SessionId>): (r: map<SessionId, SessionMetadata>)
  {
    sessions - (set id | id in ids)
  }

  /** Removing no session leaves the map as it was. */
  lemma WithoutNothing(sessions: map<SessionId, SessionMetadata>)
    ensures Without(sessions, []) == sessions
  {
    assert (set id: SessionId | id in []) == {};
  }

  /** The visiting order of the sessions that are left (a hash map keeps the order of the others on removal). */
  function Survivors(order: seq<SessionId>, sessions: map<SessionId, SessionMetadata>): seq<SessionId>
  {
    Filter(order, Present(sessions))
  }

  function Present(sessions: map<SessionId, SessionMetadata>): SessionId -> bool
  {
    id => id in sessions
  }

  /** Visiting the sessions left in the old order visits each of them once. */
  lemma SurvivorsSpec(order: seq<SessionId>, before: set<SessionId>, sessions: map<SessionId, SessionMetadata>)
    requires IsOrderOf(order, before) && sessions.Keys <= before
    ensures IsOrderOf(Survivors(order, sessions), sessions.Keys)
  {
    FilterSpec(order, Present(sessions));
  }

  /** The key of `sort_by_key(|s| s.start_time)`: oldest first, as a descending sort on the negated start. */
  function AgeKey(sessions: map<SessionId, SessionMetadata>): SessionId -> real
  {
    id => if id in sessions then -(sessions[id].start_time as real) else 0.0
  }

  /** The sessions oldest first, ties in visiting order. */
  function ByAge(sessions: map<SessionId, SessionMetadata>, ids: seq<SessionId>): (r: seq<SessionId>)
    ensures multiset(r) == multiset(ids) && forall id :: id in r <==> id in ids
  {
    var r := SortDesc(ids, AgeKey(sessions));
    assert forall id :: id in r <==> id in ids by {
      forall id ensures id in r <==> id in ids {
        InMultisetMembers(r, ids, id);
      }
    }
    r
  }

  /**
   * How many of the oldest sessions the size phase may delete: all but the
   * `keep` newest, and none when there are no more than `keep`.
   */
  function Fence(len: nat, keep: nat): nat
  {
    if keep >= len then 0 else len - keep
  }

  /**
   * The size phase: going from the oldest, delete while the remaining
   * total exceeds the cap and fewer than `fence` have been deleted.
   */
  function Victims(sizes: map<SessionId, nat>, ids: seq<SessionId>, cap: nat, fence: nat): (r: seq<SessionId>)
    requires forall id :: id in ids ==> id in sizes
    ensures |r| <= |ids| && r == ids[..|r|] && forall id :: id in r ==> id in sizes
    decreases |ids|
  {
    if |ids| == 0 || SeqSum(sizes, ids) <= cap || fence == 0 then []
    else [ids[0]] + Victims(sizes, ids[1..], cap, fence - 1)
  }

  /**
   * The victims are a prefix of the sessions oldest first, no more than the
   * fence; each was deleted while the remaining total still exceeded the
   * cap; and deleting stopped only at the cap, at the fence or with
   * nothing left.
   */
  lemma {:induction false} VictimsSpec(sizes: map<SessionId, nat>, ids: seq<SessionId>, cap: nat, fence: nat)
    requires forall id :: id in ids ==> id in sizes
    ensures var v := Victims(sizes, ids, cap, fence);
      && |v| <= fence && |v| <= |ids| && v == ids[..|v|]
      && (forall k :: 0 <= k < |v| ==> SeqSum(sizes, ids[k..]) > cap)
      && (|v| == |ids| || |v| == fence || SeqSum(sizes, ids[|v|..]) <= cap)
    decreases |ids|
  {
    var v := Victims(sizes, ids, cap, fence);
    if |ids| > 0 && SeqSum(sizes, ids) > cap && fence > 0 {
      var rest := ids[1..];
      var w := Victims(sizes, rest, cap, fence - 1);
      VictimsSpec(sizes, rest, cap, fence - 1);
      assert v == [ids[0]] + w;
      VictimsStep(sizes, ids, cap, |v|);
    } else {
      assert v == [];
      assert ids[0..] == ids;
    }
  }

  /** The slices of `ids` after its head are the slices of its tail. */
  lemma VictimsStep(sizes: map<SessionId, nat>, ids: seq<SessionId>, cap: nat, n: nat)
    requires forall id :: id in ids ==> id in sizes
    requires 0 < n <= |ids| && SeqSum(sizes, ids) > cap
    requires forall k :: 0 <= k < n - 1 ==> SeqSum(sizes, ids[1..][k..]) > cap
    ensures forall k :: 0 <= k < n ==> SeqSum(sizes, ids[k..]) > cap
    ensures ids[n..] == ids[1..][n - 1..]
  {
    forall k | 0 <= k < n ensures SeqSum(sizes, ids[k..]) > cap {
      if k > 0 {
        assert ids[k..] == ids[1..][k - 1..];
      } else {
        assert ids[0..] == ids;
      }
    }
  }

  /** With the corrected fence the `keep` newest sessions are never deleted for size. */
  lemma KeepsNewest(sizes: map<SessionId, nat>, ids: seq<SessionId>, cap: nat, keep: nat)
    requires forall id :: id in ids ==> id in sizes
    requires NoDuplicates(ids)
    ensures var v := Victims(sizes, ids, cap, Fence(|ids|, keep));
      forall k :: 0 <= k < |ids| && k + keep >= |ids| ==> ids[k] !in v
  {
    var v := Victims(sizes, ids, cap, Fence(|ids|, keep));
    VictimsSpec(sizes, ids, cap, Fence(|ids|, keep));
  }

  /** Deleting the next listed session: it is still there, and the sums and the map move by one. */
  lemma DeletionStep(s0: map<SessionId, SessionMetadata>, ids: seq<SessionId>, i: nat)
    requires NoDuplicates(ids) && i < |ids| && forall id :: id in ids ==> id in s0
    ensures ids[i] in Without(s0, ids[..i])
    ensures Without(s0, ids[..i + 1]) == Without(s0, ids[..i]) - {ids[i]}
    ensures Without(s0, ids[..i])[ids[i]] == s0[ids[i]]
    ensures SeqSum(Sizes(s0), ids[..i + 1]) == SeqSum(Sizes(s0), ids[..i]) + s0[ids[i]].file_size
  {
    var id := ids[i];
    assert id !in ids[..i] by {
      forall k | 0 <= k < i ensures ids[..i][k] != id {
        assert ids[..i][k] == ids[k];
      }
    }
    assert ids[..i + 1] == ids[..i] + [id];
    assert ids[..i + 1][..i] == ids[..i];
  }

  /** One more step of the size phase: the remaining sum loses the head, the plan advances by one. */
  lemma OldestStep(sizes: map<SessionId, nat>, ids: seq<SessionId>, i: nat, j: nat, cap: nat, fence: nat,
                   plan: seq<SessionId>)
    requires j == i + 1 && i < |ids| && i < fence && forall id :: id in ids ==> id in sizes
    requires SeqSum(sizes, ids[i..]) > cap
    requires plan == ids[..i] + Victims(sizes, ids[i..], cap, fence - i)
    ensures SeqSum(sizes, ids[i..]) == sizes[ids[i]] + SeqSum(sizes, ids[j..])
    ensures plan == ids[..j] + Victims(sizes, ids[j..], cap, fence - j)
  {
    var tail, next := ids[i..], ids[i + 1..];
    assert tail == [ids[i]] + next && tail[1..] == next;
    SeqSumCons(sizes, ids[i], next);
    VictimsUnfold(sizes, tail, cap, fence - i);
    PrefixGrows(ids, i, Victims(sizes, next, cap, fence - (i + 1)));
  }

  /** Over the cap and short of the fence, the size phase deletes the head. */
  lemma VictimsUnfold(sizes: map<SessionId, nat>, ids: seq<SessionId>, cap: nat, fence: nat)
    requires |ids| > 0 && fence > 0 && forall id :: id in ids ==> id in sizes
    requires SeqSum(sizes, ids) > cap
    ensures Victims(sizes, ids, cap, fence) == [ids[0]] + Victims(sizes, ids[1..], cap, fence - 1)
  {
  }

  lemma PrefixGrows<T>(s: seq<T>, i: nat, w: seq<T>)
    requires i < |s|
    ensures s[..i] + ([s[i]] + w) == s[..i + 1] + w
  {
    assert s[..i + 1] == s[..i] + [s[i]];
  }

  /** Where the size phase stops, what is left of the plan is empty. */
  lemma OldestDone(sizes: map<SessionId, nat>, ids: seq<SessionId>, i: nat, cap: nat, fence: nat, current: nat,
                   plan: seq<SessionId>)
    requires i <= |ids| && i <= fence && forall id :: id in ids ==> id in sizes
    requires current == SeqSum(sizes, ids[i..])
    requires i == |ids| || current <= cap || i >= fence
    requires plan == ids[..i] + Victims(sizes, ids[i..], cap, fence - i)
    ensures plan == ids[..i] && |plan| == i
  {
    assert Victims(sizes, ids[i..], cap, fence - i) == [];
    assert ids[..i] + [] == ids[..i];
  }

  /** Which sessions `cleanup_old_files` removes: first those past the age limit, then the oldest for size. */
  datatype CleanupPlan = CleanupPlan(aged: seq<SessionId>, victims: seq<SessionId>)

  function PlanCleanup(sessions: map<SessionId, SessionMetadata>, order: seq<SessionId>, policy: RetentionPolicy,
                       now: int): (p: CleanupPlan)
    ensures forall id :: id in p.aged ==> id in sessions
    ensures forall id :: id in p.victims ==> id in Without(sessions, p.aged)
  {
    var aged := Aged(sessions, order, Cutoff(policy, now));
    var rest := Without(sessions, aged);
    AgedSpec(sessions, order, Cutoff(policy, now));
    FilterSpec(order, Present(rest));
    CleanupPlan(aged, SizeVictims(rest, Survivors(order, rest), policy))
  }

  /** The sessions the size phase deletes with a given fence: none unless the total is over the cap. */
  function OldestVictims(sessions: map<SessionId, SessionMetadata>, order: seq<SessionId>, cap: nat, fence: nat): (v: seq<SessionId>)
    requires forall id :: id in order ==> id in sessions
    ensures forall id :: id in v ==> id in sessions
  {
    if SeqSum(Sizes(sessions), order) > cap then Victims(Sizes(sessions), ByAge(sessions, order), cap, fence) else []
  }

  /** Arithmetic on `usize` is modulo this. */
  const USizeModulus := 0x1_0000_0000_0000_0000

  /**
   * `sessions_by_age.len() - sessions_to_keep` as a release build computes
   * it: the `usize` subtraction wraps around when more sessions are to be
   * kept than there are, and the fence then lies past the last session.
   */
  function WrappedFence(len: nat, keep: nat): (f: nat)
    ensures keep <= len < USizeModulus ==> f == len - keep
    ensures len < keep < USizeModulus ==> f > len
  {
    (len - keep) % USizeModulus
  }

  /** The size phase of `cleanup_old_files` as written, visiting `order`. */
  function SizeVictims(sessions: map<SessionId, SessionMetadata>, order: seq<SessionId>, policy: RetentionPolicy): (v: seq<SessionId>)
    requires forall id :: id in order ==> id in sessions
    ensures forall id :: id in v ==> id in sessions
  {
    OldestVictims(sessions, order, SizeCap(policy.max_total_size_gb), WrappedFence(|order|, policy.keep_recent_count))
  }

  /** The size phase as intended: the fence spares the `keep_recent_count` newest, all of them when there are fewer. */
  function SizeVictimsIntended(sessions: map<SessionId, SessionMetadata>, order: seq<SessionId>, policy: RetentionPolicy): (v: seq<SessionId>)
    requires forall id :: id in order ==> id in sessions
    ensures forall id :: id in v ==> id in sessions
  {
    OldestVictims(sessions, order, SizeCap(policy.max_total_size_gb), Fence(|order|, policy.keep_recent_count))
  }

  /** Visiting the sessions in hash order or oldest first adds up the same total, with no session twice. */
  lemma SizePhaseTotals(sessions: map<SessionId, SessionMetadata>, order: seq<SessionId>, cap: nat, fence: nat)
    requires IsOrderOf(order, sessions.Keys)
    ensures var byAge := ByAge(sessions, order);
      && SeqSum(Sizes(sessions), byAge) == MapSum(Sizes(sessions))
      && NoDuplicates(byAge) && (forall id :: id in byAge ==> id in sessions) && |byAge| == |order|
    ensures OldestVictims(sessions, order, cap, fence) ==
      if MapSum(Sizes(sessions)) > cap then Victims(Sizes(sessions), ByAge(sessions, order), cap, fence) else []
  {
    var byAge := ByAge(sessions, order);
    SeqSumAll(Sizes(sessions), order);
    NoDuplicatesPermutation(order, byAge);
    SeqSumAll(Sizes(sessions), byAge);
  }

  /** The size phase visits the sessions oldest first. */
  lemma ByAgeOldestFirst(sessions: map<SessionId, SessionMetadata>, ids: seq<SessionId>)
    requires forall id :: id in ids ==> id in sessions
    ensures var r := ByAge(sessions, ids);
      forall i, j :: 0 <= i < j < |r| ==> sessions[r[i]].start_time <= sessions[r[j]].start_time
  {
    var r := ByAge(sessions, ids);
    SortDescSorted(ids, AgeKey(sessions));
    forall i, j | 0 <= i < j < |r| ensures sessions[r[i]].start_time <= sessions[r[j]].start_time {
      assert AgeKey(sessions)(r[i]) >= AgeKey(sessions)(r[j]);
    }
  }

  /**
   * The size phase with a fence, on the sessions `order` visits: nothing
   * unless they exceed the cap, and then a prefix of them oldest first (see
   * `ByAgeOldestFirst`), no more than the fence, each removed while the
   * remaining total still exceeded the cap, stopping at the cap, at the
   * fence or when none is left.
   */
  lemma OldestVictimsSpec(sessions: map<SessionId, SessionMetadata>, order: seq<SessionId>, cap: nat, fence: nat)
    requires IsOrderOf(order, sessions.Keys)
    ensures var v := OldestVictims(sessions, order, cap, fence);
      var byAge := ByAge(sessions, order);
      && (MapSum(Sizes(sessions)) <= cap ==> v == [])
      && (MapSum(Sizes(sessions)) > cap ==>
            && v == byAge[..|v|] && |v| <= fence
            && (forall k :: 0 <= k < |v| ==> SeqSum(Sizes(sessions), byAge[k..]) > cap)
            && (|v| == |byAge| || |v| == fence || SeqSum(Sizes(sessions), byAge[|v|..]) <= cap))
  {
    SizePhaseTotals(sessions, order, cap, fence);
    if MapSum(Sizes(sessions)) > cap {
      VictimsSpec(Sizes(sessions), ByAge(sessions, order), cap, fence);
    }
  }

  /**
   * The size phase as written spares the `keep_recent_count` newest only
   * when there are at least that many sessions; with fewer the wrapped
   * fence never stops it, and it deletes down to the cap whatever their age.
   */
  lemma SizeVictimsSpec(sessions: map<SessionId, SessionMetadata>, order: seq<SessionId>, policy: RetentionPolicy)
    requires IsOrderOf(order, sessions.Keys) && |order| < USizeModulus
    ensures var v := SizeVictims(sessions, order, policy);
      var byAge := ByAge(sessions, order);
      var cap := SizeCap(policy.max_total_size_gb);
      var keep := policy.keep_recent_count;
      && (keep <= |byAge| ==> forall k :: 0 <= k < |byAge| && k + keep >= |byAge| ==> byAge[k] !in v)
      && (|byAge| < keep < USizeModulus && MapSum(Sizes(sessions)) > cap ==>
            |v| == |byAge| || SeqSum(Sizes(sessions), byAge[|v|..]) <= cap)
  {
    var keep := policy.keep_recent_count;
    var cap := SizeCap(policy.max_total_size_gb);
    var fence := WrappedFence(|order|, keep);
    SizePhaseTotals(sessions, order, cap, fence);
    OldestVictimsSpec(sessions, order, cap, fence);
    if keep <= |order| && MapSum(Sizes(sessions)) > cap {
      KeepsNewest(Sizes(sessions), ByAge(sessions, order), cap, keep);
    }
  }

  /** As intended the size phase never deletes one of the `keep_recent_count` newest sessions. */
  lemma SizeVictimsIntendedSpec(sessions: map<SessionId, SessionMetadata>, order: seq<SessionId>, policy: RetentionPolicy)
    requires IsOrderOf(order, sessions.Keys)
    ensures var v := SizeVictimsIntended(sessions, order, policy);
      var byAge := ByAge(sessions, order);
      var keep := policy.keep_recent_count;
      && |v| <= Fence(|byAge|, keep)
      && forall k :: 0 <= k < |byAge| && k + keep >= |byAge| ==> byAge[k] !in v
  {
    var keep := policy.keep_recent_count;
    var cap := SizeCap(policy.max_total_size_gb);
    SizePhaseTotals(sessions, order, cap, Fence(|order|, keep));
    OldestVictimsSpec(sessions, order, cap, Fence(|order|, keep));
    if MapSum(Sizes(sessions)) > cap {
      KeepsNewest(Sizes(sessions), ByAge(sessions, order), cap, keep);
    }
  }

  /**
   * What `cleanup_old_files` removes for age is exactly the sessions that
   * started before the cutoff, each once; the size phase then visits each
   * remaining session once, and removes none of the aged ones.
   */
  lemma PlanCleanupSpec(sessions: map<SessionId, SessionMetadata>, order: seq<SessionId>, policy: RetentionPolicy, now: int)
    requires IsOrderOf(order, sessions.Keys)
    ensures var p := PlanCleanup(sessions, order, policy, now);
      && NoDuplicates(p.aged)
      && (forall id :: id in p.aged <==> id in sessions && sessions[id].start_time < Cutoff(policy, now))
    ensures var p := PlanCleanup(sessions, order, policy, now);
      var rest := Without(sessions, p.aged);
      && IsOrderOf(Survivors(order, rest), rest.Keys)
      && (forall id :: id in rest <==> id in sessions && sessions[id].start_time >= Cutoff(policy, now))
      && p.victims == SizeVictims(rest, Survivors(order, rest), policy)
      && (forall id :: id in p.victims ==> id !in p.aged)
  {
    AgedSpec(sessions, order, Cutoff(policy, now));
    var p := PlanCleanup(sessions, order, policy, now);
    SurvivorsSpec(order, sessions.Keys, Without(sessions, p.aged));
  }

  /**
   * The archive's cleanup policy under the default configuration keeps ten
   * sessions and caps the store at 10 GiB. A store holding one 11 GiB
   * session: as written the fence wraps around and that session, the
   * newest, is deleted; with the intended fence it is kept.
   */
  lemma CleanupWrapExample()
    ensures var policy := CleanupPolicy(DefaultArchiveConfig());
      var cap := SizeCap(policy.max_total_size_gb);
      && policy.keep_recent_count == 10
      && cap == 10 * GiB
      && Victims(map[7 := 11 * GiB], [7], cap, WrappedFence(1, policy.keep_recent_count)) == [7]
      && Victims(map[7 := 11 * GiB], [7], cap, Fence(1, policy.keep_recent_count)) == []
  {
    var policy := CleanupPolicy(DefaultArchiveConfig());
    assert 10.0 * GiB as real == (10 * GiB) as real;
    var sizes := map[7 := 11 * GiB];
    assert SeqSum(sizes, [7]) == SeqSum(sizes, []) + sizes[7];
    assert [7][1..] == [];
  }

  // ---------------------------------------------------------------------
  // File-based storage
  // ---------------------------------------------------------------------

  /** The bytes `store_audio` writes for `samples` samples: encoded when compressing, else four per sample. */
  function StoredSize(config: StorageConfig, format: AudioFormat, samples: nat): nat
  {
    if config.auto_compress then EncodedSize(format, samples) else 4 * samples
  }

  /**
   * The metadata `store_audio` files: the session's own fields, the path
   * and size written, the checksum when enabled, and the compression
   * information when compressing. The information names the preferred
   * format, whereas the encoder used was the session's.
   */
  function StoredMetadata(config: StorageConfig, session: RecordingSession, path: string, size: nat, samples: nat,
                          checksum_text: string): (m: SessionMetadata)
    ensures m.id == session.id && m.name == session.name && m.start_time == session.start_time
    ensures m.tags == session.tags && m.duration == session.duration && m.file_path == path && m.file_size == size
    ensures m.checksum.Some? <==> config.enable_checksums
    ensures m.compression_info.Some? <==> config.auto_compress
    ensures m.compression_info.Some? ==>
      m.compression_info.value.original_size == 4 * samples && m.compression_info.value.compressed_size == size
  {
    var checksum := if config.enable_checksums then Some(checksum_text) else None;
    SessionMetadata(session.id, session.name, session.start_time, session.end_time, session.duration, path, size,
      session.format_info, session.tags, session.transcript_count, checksum,
      if config.auto_compress then
        Some(CompressionInfo(4 * samples, size, Ratio(size, 4 * samples), config.preferred_format, 10, checksum))
      else None)
  }

  /** `FileAudioStorage`; `files` stands for the audio files on disk, by path, with their byte counts. */
  class FileAudioStorage {
    const storage_path: string
    const session_index: SessionIndex
    const file_manager: AudioFileManager
    const compression_engine: CompressionEngine
    const config: StorageConfig
    var files: map<string, nat>

    predicate Valid()
      reads this, session_index
    {
      session_index.Valid() && compression_engine.compressors == {FLAC, Opus, MP3}
    }

    /**
     * `FileAudioStorage::new` on a directory without an index file: an
     * empty index, files organised by date and named by session id, and a
     * compression engine at quality 7 in chunks of 4096.
     */
    constructor (storage_path: string, config: StorageConfig)
      ensures Valid() && fresh(session_index) && fresh(compression_engine)
      ensures this.storage_path == storage_path && this.config == config && files == map[]
      ensures session_index.sessions == map[]
      ensures file_manager == AudioFileManager(storage_path, ByDate, BySessionId)
      ensures compression_engine.config == CompressionConfig(7, true, 4096, true)
      ensures compression_engine.stats == NewEngineStats()
    {
      this.storage_path := storage_path;
      session_index := new SessionIndex();
      file_manager := AudioFileManager(storage_path, ByDate, BySessionId);
      compression_engine := new CompressionEngine(CompressionConfig(7, true, 4096, true));
      this.config := config;
      files := map[];
    }

    /**
     * `store_audio`: encode (when compressing), write the file at the
     * generated path and file the metadata in the index. With compression
     * on, a WAV session has no encoder and nothing is stored. The file
     * identifier is the caller's fresh `file_id`; the formatted start time
     * and the checksum text are parameters.
     */
    method StoreAudio(session: RecordingSession, data: seq<real>, file_id: nat, date_dir: string, stamp: string,
                      checksum_text: string) returns (r: Result<nat, AudioError>)
      requires Valid()
      modifies this, session_index, compression_engine
      ensures Valid()
      ensures config.auto_compress && session.format_info.format == WAV ==>
        && r == Err(CompressionError("Unsupported format"))
        && files == old(files) && session_index.sessions == old(session_index.sessions)
        && compression_engine.stats == old(compression_engine.stats)
      ensures !(config.auto_compress && session.format_info.format == WAV) ==>
        var path := GeneratePath(file_manager, session, date_dir, stamp);
        var size := StoredSize(config, session.format_info.format, |data|);
        var m := StoredMetadata(config, session, path, size, |data|, checksum_text);
        && r == Ok(file_id)
        && files == old(files)[path := size]
        && session_index.sessions == old(session_index.sessions)[session.id := m]
        && session_index.name_index == Push(old(session_index.name_index), ToLower(session.name), session.id)
        && session_index.tag_index == PushAll(old(session_index.tag_index), session.tags, session.id)
        && compression_engine.stats
           == if config.auto_compress
              then UpdateCompressionStats(old(compression_engine.stats), session.format_info.format, 4 * |data|, size)
              else old(compression_engine.stats)
    {
      var path := GeneratePath(file_manager, session, date_dir, stamp);
      var size;
      if config.auto_compress {
        var c := compression_engine.CompressAudio(data, session.format_info);
        if c.Err? {
          return Err(c.error);
        }
        size := c.value;
      } else {
        size := 4 * |data|;
      }
      files := files[path := size];
      var metadata := StoredMetadata(config, session, path, size, |data|, checksum_text);
      var _ := session_index.AddSession(metadata);
      r := Ok(file_id);
    }

    /**
     * `delete_session`: an unknown id is `SessionNotFound` and changes
     * nothing; otherwise the session leaves the index and its indexes and
     * its file is removed.
     */
    method DeleteSession(id: SessionId) returns (r: Result<(), AudioError>)
      requires Valid()
      modifies this, session_index
      ensures Valid()
      ensures id !in old(session_index.sessions) ==>
        && r == Err(SessionNotFound(id)) && files == old(files)
        && session_index.sessions == old(session_index.sessions)
        && session_index.name_index == old(session_index.name_index)
        && session_index.tag_index == old(session_index.tag_index)
        && session_index.date_index == old(session_index.date_index)
      ensures id in old(session_index.sessions) ==>
        var m := old(session_index.sessions[id]);
        && r.Ok?
        && session_index.sessions == old(session_index.sessions) - {id}
        && files == old(files) - {m.file_path}
        && session_index.name_index == Dropped(old(session_index.name_index), ToLower(m.name), id)
        && session_index.tag_index == DroppedAll(old(session_index.tag_index), m.tags, id)
        && session_index.date_index == Retained(old(session_index.date_index), id)
        && (forall e :: e in session_index.date_index ==> e.id != id)
    {
      if id !in session_index.sessions {
        return Err(SessionNotFound(id));
      }
      var metadata := session_index.sessions[id];
      RemoveKeepsIndexed(session_index.sessions, session_index.name_index, session_index.tag_index,
                         session_index.date_index, id);
      RetainedInOrder(session_index.date_index, id);
      session_index.sessions := session_index.sessions - {id};
      if metadata.file_path in files {
        files := files - {metadata.file_path};
      }
      session_index.RemoveFromIndexes(metadata);
      r := Ok(());
    }

    /** `list_sessions`, visiting the index in `order`. */
    method ListSessions(criteria: SearchCriteria, order: seq<SessionId>) returns (r: Result<seq<RecordingSession>, AudioError>)
      requires IsOrderOf(order, session_index.sessions.Keys)
      ensures r == Ok(Listing(session_index.sessions, order, criteria))
    {
      var matching: seq<RecordingSession> := [];
      var i := 0;
      while i < |order|
        invariant 0 <= i <= |order|
        invariant matching == Matching(session_index.sessions, order[..i], criteria)
      {
        var candidate := ToSession(session_index.sessions[order[i]]);
        if Matches(candidate, criteria) {
          matching := matching + [candidate];
        }
        assert order[..i + 1][..i] == order[..i];
        i := i + 1;
      }
      assert order[..i] == order;
      var listed := SortDesc(matching, StartKey);
      if criteria.limit.Some? {
        listed := Take(listed, criteria.limit.value);
      }
      r := Ok(listed);
    }

    /** `get_storage_stats`, visiting the index in `order`. */
    function GetStorageStats(order: seq<SessionId>): (st: StorageStats)
      reads this, session_index
      requires IsOrderOf(order, session_index.sessions.Keys)
      ensures st.total_sessions == |session_index.sessions|
      ensures st.total_size_bytes == MapSum(Sizes(session_index.sessions))
      ensures st.total_duration == MapSum(Durations(session_index.sessions))
      ensures st.oldest_session.Some? <==> |session_index.sessions| > 0
      ensures st.newest_session.Some? <==> |session_index.sessions| > 0
    {
      StorageStatsSpec(session_index.sessions, order);
      StorageStatsOf(session_index.sessions, order)
    }

    /**
     * `cleanup_old_files`, visiting the index in `order` at time `now`:
     * first every session past the age limit is deleted, then, while the
     * store is over the size cap, the oldest sessions, sparing the most
     * recent `keep_recent_count`. The result counts and sizes what went.
     */
    method CleanupOldFiles(policy: RetentionPolicy, now: int, order: seq<SessionId>) returns (r: Result<CleanupResult, AudioError>)
      requires Valid() && IsOrderOf(order, session_index.sessions.Keys)
      modifies this, session_index
      ensures Valid()
      ensures var p := PlanCleanup(old(session_index.sessions), order, policy, now);
        var rest := Without(old(session_index.sessions), p.aged);
        var n := |p.aged| + |p.victims|;
        && session_index.sessions == Without(rest, p.victims)
        && r.Ok? && r.value.files_deleted == n && r.value.sessions_removed == n
        && r.value.space_freed == SeqSum(Sizes(old(session_index.sessions)), p.aged) + SeqSum(Sizes(rest), p.victims)
        && files.Keys <= old(files).Keys
    {
      ghost var s0 := session_index.sessions;
      ghost var p := PlanCleanup(s0, order, policy, now);
      var aged := Aged(session_index.sessions, order, Cutoff(policy, now));
      AgedSpec(s0, order, Cutoff(policy, now));
      var freed, removed := DeleteAged(aged);
      assert aged == p.aged && session_index.sessions == Without(s0, p.aged);
      ghost var rest := session_index.sessions;
      SurvivorsSpec(order, s0.Keys, rest);
      var more, n := DeleteForSize(policy, Survivors(order, session_index.sessions));
      assert p.victims == SizeVictims(rest, Survivors(order, rest), policy);
      assert freed == SeqSum(Sizes(s0), p.aged) && more == SeqSum(Sizes(rest), p.victims);
      assert removed + n == |p.aged| + |p.victims|;
      ghost var total := SeqSum(Sizes(s0), p.aged) + SeqSum(Sizes(Without(s0, p.aged)), p.victims);
      assert freed + more == total;
      r := Ok(CleanupResult(removed + n, freed + more, removed + n));
    }

    /** The size phase of `cleanup_old_files`, visiting the sessions left in `order`. */
    method DeleteForSize(policy: RetentionPolicy, order: seq<SessionId>) returns (freed: nat, removed: nat)
      requires Valid() && IsOrderOf(order, session_index.sessions.Keys)
      modifies this, session_index
      ensures Valid()
      ensures var rest := old(session_index.sessions);
        var v := SizeVictims(rest, order, policy);
        && session_index.sessions == Without(rest, v)
        && freed == SeqSum(Sizes(rest), v) && removed == |v|
      ensures files.Keys <= old(files).Keys
    {
      ghost var rest := session_index.sessions;
      var total := GetStorageStats(order).total_size_bytes;
      var cap := SizeCap(policy.max_total_size_gb);
      SizePhaseTotals(rest, order, cap, WrappedFence(|order|, policy.keep_recent_count));
      if total > cap {
        var byAge := ByAge(session_index.sessions, order);
        freed, removed := DeleteOldest(byAge, total, cap, policy.keep_recent_count);
      } else {
        freed, removed := 0, 0;
        WithoutNothing(rest);
      }
    }

    /** The age phase of `cleanup_old_files`: delete each listed session, adding up what goes. */
    method DeleteAged(aged: seq<SessionId>) returns (freed: nat, removed: nat)
      requires Valid() && NoDuplicates(aged) && forall id :: id in aged ==> id in session_index.sessions
      modifies this, session_index
      ensures Valid()
      ensures session_index.sessions == Without(old(session_index.sessions), aged)
      ensures freed == SeqSum(Sizes(old(session_index.sessions)), aged) && removed == |aged|
      ensures files.Keys <= old(files).Keys
    {
      ghost var s0 := session_index.sessions;
      freed, removed := 0, 0;
      var i := 0;
      assert aged[..0] == [];
      while i < |aged|
        invariant 0 <= i <= |aged| && Valid()
        invariant session_index.sessions == Without(s0, aged[..i])
        invariant freed == SeqSum(Sizes(s0), aged[..i]) && removed == i
        invariant files.Keys <= old(files).Keys
      {
        var id := aged[i];
        DeletionStep(s0, aged, i);
        if id in session_index.sessions {
          freed := freed + session_index.sessions[id].file_size;
          removed := removed + 1;
        }
        DeleteKnown(id);
        i := i + 1;
      }
      assert aged[..i] == aged;
    }

    /**
     * The size phase of `cleanup_old_files` on the sessions oldest first,
     * whose sizes add up to `total`: stop once the remaining total is
     * within the cap or only the `keep` newest are left.
     */
    method DeleteOldest(byAge: seq<SessionId>, total: nat, cap: nat, keep: nat) returns (freed: nat, removed: nat)
      requires Valid() && NoDuplicates(byAge) && forall id :: id in byAge ==> id in session_index.sessions
      requires total == SeqSum(Sizes(session_index.sessions), byAge)
      modifies this, session_index
      ensures Valid()
      ensures var v := Victims(Sizes(old(session_index.sessions)), byAge, cap, WrappedFence(|byAge|, keep));
        && session_index.sessions == Without(old(session_index.sessions), v)
        && freed == SeqSum(Sizes(old(session_index.sessions)), v) && removed == |v|
      ensures files.Keys <= old(files).Keys
    {
      ghost var s0 := session_index.sessions;
      ghost var sizes := Sizes(s0);
      ghost var fence := WrappedFence(|byAge|, keep);
      var current := total;
      freed, removed := 0, 0;
      var i := 0;
      assert byAge[0..] == byAge && byAge[..0] == [];
      ghost var plan := Victims(sizes, byAge, cap, fence);
      // The loop stops at the source's two `break`s: within the cap, or at the fence.
      while i < |byAge| && current > cap && i < WrappedFence(|byAge|, keep)
        invariant 0 <= i <= |byAge| && i <= fence && Valid()
        invariant session_index.sessions == Without(s0, byAge[..i])
        invariant current == SeqSum(sizes, byAge[i..])
        invariant freed == SeqSum(sizes, byAge[..i]) && removed == i
        invariant plan == byAge[..i] + Victims(sizes, byAge[i..], cap, fence - i)
        invariant files.Keys <= old(files).Keys
      {
        var j := i + 1;
        current, freed := DeleteNext(s0, byAge, i, j, cap, fence, plan, current, freed);
        removed := j;
        i := j;
      }
      OldestDone(sizes, byAge, i, cap, fence, current, plan);
    }

    /** One turn of the size phase: the `i`-th oldest goes, its size moves from what is left to what is freed. */
    method DeleteNext(ghost s0: map<SessionId, SessionMetadata>, byAge: seq<SessionId>, i: nat, j: nat, cap: nat,
                      ghost fence: nat, ghost plan: seq<SessionId>, current: nat, freed: nat)
      returns (current': nat, freed': nat)
      requires j == i + 1
      requires Valid() && NoDuplicates(byAge) && i < |byAge| && i < fence && forall id :: id in byAge ==> id in s0
      requires session_index.sessions == Without(s0, byAge[..i])
      requires current == SeqSum(Sizes(s0), byAge[i..]) && current > cap
      requires freed == SeqSum(Sizes(s0), byAge[..i])
      requires plan == byAge[..i] + Victims(Sizes(s0), byAge[i..], cap, fence - i)
      modifies this, session_index
      ensures Valid() && session_index.sessions == Without(s0, byAge[..j])
      ensures current' == SeqSum(Sizes(s0), byAge[j..])
      ensures freed' == SeqSum(Sizes(s0), byAge[..j])
      ensures plan == byAge[..j] + Victims(Sizes(s0), byAge[j..], cap, fence - j)
      ensures files.Keys <= old(files).Keys
    {
      OldestStep(Sizes(s0), byAge, i, j, cap, fence, plan);
      var size := DeleteNth(s0, byAge, i);
      current', freed' := current - size, freed + size;
    }

    /** The size phase deletes the `i`-th oldest session, which is still stored, and frees its size. */
    method DeleteNth(ghost s0: map<SessionId, SessionMetadata>, byAge: seq<SessionId>, i: nat) returns (size: nat)
      requires Valid() && NoDuplicates(byAge) && i < |byAge| && forall id :: id in byAge ==> id in s0
      requires session_index.sessions == Without(s0, byAge[..i])
      modifies this, session_index
      ensures Valid() && session_index.sessions == Without(s0, byAge[..i + 1])
      ensures size == Sizes(s0)[byAge[i]]
      ensures SeqSum(Sizes(s0), byAge[..i + 1]) == SeqSum(Sizes(s0), byAge[..i]) + size
      ensures files.Keys <= old(files).Keys
    {
      DeletionStep(s0, byAge, i);
      size := session_index.sessions[byAge[i]].file_size;
      DeleteKnown(byAge[i]);
    }

    /** `delete_session` on a stored session, which cannot fail. */
    method DeleteKnown(id: SessionId)
      requires Valid() && id in session_index.sessions
      modifies this, session_index
      ensures Valid() && session_index.sessions == old(session_index.sessions) - {id}
      ensures files.Keys <= old(files).Keys
    {
      var _ := DeleteSession(id);
    }
  }
}
