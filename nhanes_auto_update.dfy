/**
 * The update tracker of nhanes_auto_update.py. The data directory is a map
 * from file name to the MD5 digest of the file's contents (a name that is
 * not a key is a missing file); the HTTP download is a function from URL
 * to the digest and size of what it wrote, or `None` when it failed; the
 * current time is a parameter. Saving the configuration to JSON is not
 * modelled: `config` is the dict that would be written.
 */
module NhanesAutoUpdate {
  import opened Common

  /** One item of `NHANES_KEY_FILES`. */
  datatype KeyFile = KeyFile(fileId: string, name: string, url: string, category: string, importance: string)

  const NhanesKeyFiles: seq<KeyFile> := [
    KeyFile("PBCD_L", "Blood Lead, Cadmium, Mercury, Selenium, Manganese",
      "https://wwwn.cdc.gov/Nchs/Data/Nhanes/Public/2021/DataFiles/PBCD_L.xpt", "laboratory", "high"),
    KeyFile("IHGEM_L", "Inorganic Mercury & Methylmercury",
      "https://wwwn.cdc.gov/Nchs/Data/Nhanes/Public/2021/DataFiles/IHGEM_L.xpt", "laboratory", "high"),
    KeyFile("CBC_L", "Complete Blood Count",
      "https://wwwn.cdc.gov/Nchs/Data/Nhanes/Public/2021/DataFiles/CBC_L.xpt", "laboratory", "medium"),
    KeyFile("GHB_L", "Glycohemoglobin",
      "https://wwwn.cdc.gov/Nchs/Data/Nhanes/Public/2021/DataFiles/GHB_L.xpt", "laboratory", "medium"),
    KeyFile("HDL_L", "High-Density Lipoprotein",
      "https://wwwn.cdc.gov/Nchs/Data/Nhanes/Public/2021/DataFiles/HDL_L.xpt", "laboratory", "medium"),
    KeyFile("TRIGLY_L", "LDL & Triglycerides",
      "https://wwwn.cdc.gov/Nchs/Data/Nhanes/Public/2021/DataFiles/TRIGLY_L.xpt", "laboratory", "medium"),
    KeyFile("BPX_L", "Blood Pressure",
      "https://wwwn.cdc.gov/Nchs/Data/Nhanes/Public/2021/DataFiles/BPX_L.xpt", "examination", "high"),
    KeyFile("BMX_L", "Body Measures",
      "https://wwwn.cdc.gov/Nchs/Data/Nhanes/Public/2021/DataFiles/BMX_L.xpt", "examination", "medium"),
    KeyFile("DEMO_L", "Demographics",
      "https://wwwn.cdc.gov/Nchs/Data/Nhanes/Public/2021/DataFiles/DEMO_L.xpt", "questionnaire", "high"),
    KeyFile("MCQ_L", "Medical Conditions",
      "https://wwwn.cdc.gov/Nchs/Data/Nhanes/Public/2021/DataFiles/MCQ_L.xpt", "questionnaire", "medium")
  ]

  /** `f"{file_id}.xpt"` */
  function FileName(fileId: string): string { fileId + ".xpt" }

  lemma FileNameInjective(a: string, b: string)
    requires FileName(a) == FileName(b)
    ensures a == b
  {
    assert a == FileName(a)[..|a|];
    assert b == FileName(b)[..|b|];
  }

  /** `"new"`, or `"updated"` with the stored and the current digest. */
  datatype Status = New | Updated(oldHash: Option<string>, newHash: string)

  /** One dict of `updates`. */
  datatype Update = Update(fileId: string, filename: string, status: Status, info: KeyFile)

  /** One dict of `downloaded`. */
  datatype Downloaded = Downloaded(fileId: string, filename: string, sizeKb: real, status: Status)

  /** One record of `download_history`. */
  datatype HistoryEntry = HistoryEntry(date: string, downloaded: seq<Downloaded>)

  /** The configuration dict. A stored digest may be JSON `null`, hence `Option`. */
  datatype Config = Config(
    lastCheck: Option<string>, lastUpdate: Option<string>, fileHashes: map<string, Option<string>>,
    downloadHistory: seq<HistoryEntry>, notificationEmail: Option<string>)

  /** The configuration `load_config` returns when there is no file yet. */
  const InitialConfig: Config := Config(None, None, map[], [], None)

  /** What a successful download wrote: the digest of the new file and its size in KB. */
  datatype Download = Download(hash: string, sizeKb: real)

  /** `self.config["file_hashes"].get(file_id)`. */
  function StoredHash(hashes: map<string, Option<string>>, fileId: string): Option<string> {
    if fileId in hashes then hashes[fileId] else None
  }

  /** The entry `check_updates` records for one key file, if any. */
  function Classify(f: KeyFile, disk: map<string, string>, hashes: map<string, Option<string>>): (r: Option<Update>)
    ensures r.Some? ==> r.value.fileId == f.fileId && r.value.info == f && r.value.filename == FileName(f.fileId)
  {
    var filename := FileName(f.fileId);
    if filename !in disk then Some(Update(f.fileId, filename, New, f))
    else if Some(disk[filename]) != StoredHash(hashes, f.fileId) then
      Some(Update(f.fileId, filename, Updated(StoredHash(hashes, f.fileId), disk[filename]), f))
    else None
  }

  /**
   * A missing file is new; a present file whose digest differs from the stored
   * one, or has none stored, is updated with both digests; a file whose
   * digest equals the stored one gives no entry.
   */
  lemma ClassifyCases(f: KeyFile, disk: map<string, string>, hashes: map<string, Option<string>>)
    ensures FileName(f.fileId) !in disk ==> Classify(f, disk, hashes) == Some(Update(f.fileId, FileName(f.fileId), New, f))
    ensures FileName(f.fileId) in disk && StoredHash(hashes, f.fileId) != Some(disk[FileName(f.fileId)]) ==>
      Classify(f, disk, hashes).Some?
      && Classify(f, disk, hashes).value.status == Updated(StoredHash(hashes, f.fileId), disk[FileName(f.fileId)])
    ensures Classify(f, disk, hashes).None? <==>
      (FileName(f.fileId) in disk && StoredHash(hashes, f.fileId) == Some(disk[FileName(f.fileId)]))
  {
  }

  /** The entries of the loop over the key files, in table order. */
  function Updates(files: seq<KeyFile>, disk: map<string, string>, hashes: map<string, Option<string>>): seq<Update> {
    if files == [] then []
    else
      var c := Classify(files[|files| - 1], disk, hashes);
      Updates(files[..|files| - 1], disk, hashes) + (if c.Some? then [c.value] else [])
  }

  function FileIds(files: seq<KeyFile>): (r: seq<string>)
    ensures |r| == |files|
  {
    seq(|files|, k requires 0 <= k < |files| => files[k].fileId)
  }

  function UpdateIds(us: seq<Update>): (r: seq<string>)
    ensures |r| == |us|
  {
    seq(|us|, k requires 0 <= k < |us| => us[k].fileId)
  }

  /** Every entry is about one of the files, and there are no more entries than files. */
  lemma {:induction false} UpdatesFrom(files: seq<KeyFile>, disk: map<string, string>, hashes: map<string, Option<string>>)
    ensures |Updates(files, disk, hashes)| <= |files|
    ensures forall k :: 0 <= k < |Updates(files, disk, hashes)| ==> Updates(files, disk, hashes)[k].fileId in FileIds(files)
  {
    if files != [] {
      var init := files[..|files| - 1];
      UpdatesFrom(init, disk, hashes);
      var a := Updates(init, disk, hashes);
      var c := Classify(files[|files| - 1], disk, hashes);
      var u := Updates(files, disk, hashes);
      assert u == a + (if c.Some? then [c.value] else []);
      forall k | 0 <= k < |u| ensures u[k].fileId in FileIds(files) {
        if k < |a| {
          var j :| 0 <= j < |init| && FileIds(init)[j] == a[k].fileId;
          assert FileIds(files)[j] == a[k].fileId;
        } else {
          assert FileIds(files)[|files| - 1] == u[k].fileId;
        }
      }
    }
  }

  /** With distinct file ids, each key file has at most one entry. */
  lemma {:induction false} UpdatesDistinct(files: seq<KeyFile>, disk: map<string, string>, hashes: map<string, Option<string>>)
    requires Distinct(FileIds(files))
    ensures Distinct(UpdateIds(Updates(files, disk, hashes)))
  {
    if files != [] {
      var init := files[..|files| - 1];
      var last := files[|files| - 1];
      LastIdFresh(files);
      UpdatesDistinct(init, disk, hashes);
      var a := Updates(init, disk, hashes);
      var c := Classify(last, disk, hashes);
      if c.Some? {
        assert Updates(files, disk, hashes) == a + [c.value];
        FreshUpdateId(init, disk, hashes, last.fileId);
        assert UpdateIds(a + [c.value]) == UpdateIds(a) + [last.fileId];
        DistinctSnoc(UpdateIds(a), last.fileId);
      } else {
        assert Updates(files, disk, hashes) == a;
      }
    }
  }

  /** The last file's id is not among the earlier ones, which stay distinct. */
  lemma LastIdFresh(files: seq<KeyFile>)
    requires Distinct(FileIds(files)) && files != []
    ensures Distinct(FileIds(files[..|files| - 1]))
    ensures files[|files| - 1].fileId !in FileIds(files[..|files| - 1])
  {
    var init := files[..|files| - 1];
    assert forall k :: 0 <= k < |init| ==> FileIds(init)[k] == FileIds(files)[k];
    forall j | 0 <= j < |init| ensures FileIds(init)[j] != files[|files| - 1].fileId {
      assert FileIds(files)[|files| - 1] == files[|files| - 1].fileId;
    }
  }

  /** An id that no file has is the id of no entry. */
  lemma FreshUpdateId(files: seq<KeyFile>, disk: map<string, string>, hashes: map<string, Option<string>>, id: string)
    requires id !in FileIds(files)
    ensures id !in ToSet(UpdateIds(Updates(files, disk, hashes)))
  {
    UpdatesFrom(files, disk, hashes);
    var ids := UpdateIds(Updates(files, disk, hashes));
    forall k | 0 <= k < |ids| ensures ids[k] != id {
      assert Updates(files, disk, hashes)[k].fileId in FileIds(files);
    }
  }

  /** The key files have distinct ids. */
  lemma KeyFileIdsDistinct()
    ensures Distinct(FileIds(NhanesKeyFiles))
  {
  }

  /** The history record and new hashes after downloading `updates` in order. */
  function DownloadedFrom(updates: seq<Update>, fetch: string -> Option<Download>): seq<Downloaded> {
    if updates == [] then []
    else
      var u := updates[|updates| - 1];
      var d := fetch(u.info.url);
      DownloadedFrom(updates[..|updates| - 1], fetch)
        + (if d.Some? then [Downloaded(u.fileId, FileName(u.fileId), d.value.sizeKb, u.status)] else [])
  }

  /** `file_hashes` after the downloads: a successful one stores the digest of the file it wrote. */
  function HashesAfter(hashes: map<string, Option<string>>, updates: seq<Update>, fetch: string -> Option<Download>): map<string, Option<string>> {
    if updates == [] then hashes
    else
      var u := updates[|updates| - 1];
      var d := fetch(u.info.url);
      var h := HashesAfter(hashes, updates[..|updates| - 1], fetch);
      if d.Some? then h[u.fileId := Some(d.value.hash)] else h
  }

  /** The data directory after the downloads. */
  function DiskAfter(disk: map<string, string>, updates: seq<Update>, fetch: string -> Option<Download>): map<string, string> {
    if updates == [] then disk
    else
      var u := updates[|updates| - 1];
      var d := fetch(u.info.url);
      var m := DiskAfter(disk, updates[..|updates| - 1], fetch);
      if d.Some? then m[FileName(u.fileId) := d.value.hash] else m
  }

  /** At most one record per update, each for a successful download, in update order. */
  lemma {:induction false} DownloadedBound(updates: seq<Update>, fetch: string -> Option<Download>)
    ensures |DownloadedFrom(updates, fetch)| <= |updates|
  {
    if updates != [] {
      DownloadedBound(updates[..|updates| - 1], fetch);
    }
  }

  /** The positions in `updates` of the successful downloads, in order. */
  function Origins(updates: seq<Update>, fetch: string -> Option<Download>): seq<int> {
    if updates == [] then []
    else
      var o := Origins(updates[..|updates| - 1], fetch);
      if fetch(updates[|updates| - 1].info.url).Some? then o + [|updates| - 1] else o
  }

  /**
   * Record `k` comes from the update at position `Origins[k]`, these positions
   * increase strictly, and every successful download has its record.
   */
  lemma {:induction false} DownloadedOrder(updates: seq<Update>, fetch: string -> Option<Download>)
    ensures |Origins(updates, fetch)| == |DownloadedFrom(updates, fetch)|
    ensures forall k :: 0 <= k < |Origins(updates, fetch)| ==>
      var i := Origins(updates, fetch)[k];
      && 0 <= i < |updates| && fetch(updates[i].info.url).Some?
      && DownloadedFrom(updates, fetch)[k]
         == Downloaded(updates[i].fileId, FileName(updates[i].fileId), fetch(updates[i].info.url).value.sizeKb, updates[i].status)
    ensures forall k, m :: 0 <= k < m < |Origins(updates, fetch)| ==> Origins(updates, fetch)[k] < Origins(updates, fetch)[m]
    ensures forall i :: 0 <= i < |updates| && fetch(updates[i].info.url).Some? ==> i in Origins(updates, fetch)
  {
    if updates != [] {
      var init := updates[..|updates| - 1];
      DownloadedOrder(init, fetch);
      var o := Origins(init, fetch);
      var n := |updates| - 1;
      assert forall k :: 0 <= k < |o| ==> o[k] < n;
      forall i | 0 <= i < n ensures updates[i] == init[i] { }
    }
  }

  /** Some download of `fileId` among `updates` succeeded. */
  predicate Succeeded(updates: seq<Update>, fetch: string -> Option<Download>, fileId: string) {
    exists k :: 0 <= k < |updates| && updates[k].fileId == fileId && fetch(updates[k].info.url).Some?
  }

  /** A file without a successful download keeps its stored digest. */
  lemma {:induction false} FailedKeepsHash(hashes: map<string, Option<string>>, updates: seq<Update>, fetch: string -> Option<Download>, fileId: string)
    requires !Succeeded(updates, fetch, fileId)
    ensures StoredHash(HashesAfter(hashes, updates, fetch), fileId) == StoredHash(hashes, fileId)
  {
    if updates != [] {
      var init := updates[..|updates| - 1];
      assert forall k :: 0 <= k < |init| ==> init[k] == updates[k];
      FailedKeepsHash(hashes, init, fetch, fileId);
    }
  }

  /** The stored digest of `fileId` is that of its file on disk. */
  predicate InSync(hashes: map<string, Option<string>>, disk: map<string, string>, fileId: string) {
    FileName(fileId) in disk && StoredHash(hashes, fileId) == Some(disk[FileName(fileId)])
  }

  /** After a successful download the stored digest matches the file, and later downloads of other files keep it so. */
  lemma {:induction false} SucceededInSync(hashes: map<string, Option<string>>, disk: map<string, string>,
                                           updates: seq<Update>, fetch: string -> Option<Download>, fileId: string)
    requires Succeeded(updates, fetch, fileId)
    ensures InSync(HashesAfter(hashes, updates, fetch), DiskAfter(disk, updates, fetch), fileId)
  {
    var init := updates[..|updates| - 1];
    var u := updates[|updates| - 1];
    var d := fetch(u.info.url);
    if d.Some? && u.fileId == fileId {
    } else {
      assert Succeeded(init, fetch, fileId) by {
        var k :| 0 <= k < |updates| && updates[k].fileId == fileId && fetch(updates[k].info.url).Some?;
        assert k < |init| && init[k] == updates[k];
      }
      SucceededInSync(hashes, disk, init, fetch, fileId);
      if d.Some? {
        if FileName(u.fileId) == FileName(fileId) {
          FileNameInjective(u.fileId, fileId);
        }
      }
    }
  }

  /** A file whose stored digest matches its file gives no entry in a later check. */
  lemma InSyncQuiet(f: KeyFile, hashes: map<string, Option<string>>, disk: map<string, string>)
    requires InSync(hashes, disk, f.fileId)
    ensures Classify(f, disk, hashes).None?
  {
  }

  /** A file downloaded successfully is not reported by the next check. */
  lemma DownloadedQuiet(f: KeyFile, hashes: map<string, Option<string>>, disk: map<string, string>,
                        updates: seq<Update>, fetch: string -> Option<Download>)
    requires Succeeded(updates, fetch, f.fileId)
    ensures Classify(f, DiskAfter(disk, updates, fetch), HashesAfter(hashes, updates, fetch)).None?
  {
    SucceededInSync(hashes, disk, updates, fetch, f.fileId);
  }

  /** What `notify` does with the list. */
  datatype Notice = NoNotice | Printed(items: seq<Downloaded>) | Emailed(items: seq<Downloaded>)

  /** The configured address is truthy: present and not the empty string. */
  predicate HasEmail(config: Config) {
    config.notificationEmail.Some? && config.notificationEmail.value != ""
  }

  /** `notify`: nothing for an empty list; printing, or e-mail when an address is configured. */
  function Notify(downloaded: seq<Downloaded>, via: string, config: Config): (n: Notice)
    ensures downloaded == [] ==> n == NoNotice
    ensures n.Printed? <==> downloaded != [] && via == "print"
    ensures n.Emailed? <==> downloaded != [] && via == "email" && HasEmail(config)
    ensures n != NoNotice ==> n.items == downloaded
  {
    if downloaded == [] then NoNotice
    else if via == "print" then Printed(downloaded)
    else if via == "email" && HasEmail(config) then Emailed(downloaded)
    else NoNotice
  }

  /** `NHANESUpdater`, with its data directory and its configuration. */
  class NhanesUpdater {
    var outputDir: string
    var disk: map<string, string>
    var config: Config

    /** `__init__`: the stored configuration when there is one, the initial one otherwise. */
    constructor (outputDir': string, stored: Option<Config>, disk': map<string, string>)
      ensures outputDir == outputDir' && disk == disk'
      ensures config == stored.GetOr(InitialConfig)
    {
      outputDir := outputDir';
      disk := disk';
      config := if stored.Some? then stored.value else InitialConfig;
    }

    /** `check_updates`: one entry per new or changed key file, then `last_check` is set. */
    method CheckUpdates(now: string) returns (updates: seq<Update>)
      modifies this
      ensures updates == Updates(NhanesKeyFiles, disk, config.fileHashes)
      ensures config == old(config).(lastCheck := Some(now))
      ensures disk == old(disk) && outputDir == old(outputDir)
    {
      updates := [];
      for i := 0 to |NhanesKeyFiles|
        invariant updates == Updates(NhanesKeyFiles[..i], disk, config.fileHashes)
      {
        var f := NhanesKeyFiles[i];
        var filename := FileName(f.fileId);
        assert NhanesKeyFiles[..i + 1][..i] == NhanesKeyFiles[..i];
        if filename !in disk {
          updates := updates + [Update(f.fileId, filename, New, f)];
          continue;
        }
        var currentHash := disk[filename];
        var storedHash := StoredHash(config.fileHashes, f.fileId);
        if Some(currentHash) != storedHash {
          updates := updates + [Update(f.fileId, filename, Updated(storedHash, currentHash), f)];
        }
      }
      assert NhanesKeyFiles[..|NhanesKeyFiles|] == NhanesKeyFiles;
      config := config.(lastCheck := Some(now));
    }

    /** The body of the download loop for one update. */
    method DownloadOne(u: Update, fetch: string -> Option<Download>, downloaded: seq<Downloaded>)
      returns (downloaded': seq<Downloaded>)
      modifies this
      ensures var d := fetch(u.info.url);
        && downloaded' == downloaded + (if d.Some? then [Downloaded(u.fileId, FileName(u.fileId), d.value.sizeKb, u.status)] else [])
        && disk == (if d.Some? then old(disk)[FileName(u.fileId) := d.value.hash] else old(disk))
        && config == (if d.Some? then old(config).(fileHashes := old(config).fileHashes[u.fileId := Some(d.value.hash)]) else old(config))
      ensures outputDir == old(outputDir)
    {
      var filename := FileName(u.fileId);
      var result := fetch(u.info.url);
      downloaded' := downloaded;
      if result.Some? {
        disk := disk[filename := result.value.hash];
        var newHash := if filename in disk then Some(disk[filename]) else None;
        config := config.(fileHashes := config.fileHashes[u.fileId := newHash]);
        downloaded' := downloaded' + [Downloaded(u.fileId, filename, result.value.sizeKb, u.status)];
      }
    }

    /**
     * `download_updates`: nothing at all for an empty list; otherwise each
     * successful download stores the new digest and is listed, and one
     * history record is appended.
     */
    method DownloadUpdates(updates: seq<Update>, fetch: string -> Option<Download>, now: string)
      returns (downloaded: seq<Downloaded>)
      modifies this
      ensures downloaded == DownloadedFrom(updates, fetch)
      ensures updates == [] ==> config == old(config) && disk == old(disk)
      ensures updates != [] ==>
        && disk == DiskAfter(old(disk), updates, fetch)
        && config == old(config).(
             fileHashes := HashesAfter(old(config).fileHashes, updates, fetch),
             lastUpdate := Some(now),
             downloadHistory := old(config).downloadHistory + [HistoryEntry(now, downloaded)])
      ensures outputDir == old(outputDir)
    {
      if updates == [] {
        return [];
      }
      downloaded := [];
      ghost var c0 := config;
      ghost var d0 := disk;
      for i := 0 to |updates|
        invariant downloaded == DownloadedFrom(updates[..i], fetch)
        invariant disk == DiskAfter(d0, updates[..i], fetch)
        invariant config == c0.(fileHashes := HashesAfter(c0.fileHashes, updates[..i], fetch))
        invariant outputDir == old(outputDir)
      {
        assert updates[..i + 1][..i] == updates[..i];
        downloaded := DownloadOne(updates[i], fetch, downloaded);
      }
      assert updates[..|updates|] == updates;
      config := config.(lastUpdate := Some(now));
      config := config.(downloadHistory := config.downloadHistory + [HistoryEntry(now, downloaded)]);
    }
  }
}
