/**
 * The client's scan with its CRC cache, which outlives the session (proto_add_file_item and proto_receive_download,
 * client/proto.c): which CRCs a scan reports, and what scan and actions leave in the cache.
 */
module ClientScan {
  import opened Wrappers
  import opened Ordering
  import opened Crc32
  import opened Manifests
  import opened Planner
  import opened Rounds
  import opened Delivery
  import CrcCache

  // ---------------------------------------------------------------- the scan

  /** One file is listed: the clock at the lookup, and after hashing. */
  datatype Glance = Glance(path: Path, tick: u32, hashedTick: u32)

  /**
   * One session as far as the client decides it: its settings, the order in which its scan comes upon the files, the
   * clock at its actions, and the length of the root with its separator.
   */
  datatype Visit = Visit(crcOn: bool, recheck: bool, glances: seq<Glance>, ticks: seq<u32>, base: nat)

  /** The cache after a part of the scan, and the answers it has given. */
  datatype Scan = Scan(cache: CrcCache.Cache, hits: map<Path, Word>)

  function LookAt(visit: Visit, glance: Glance): CrcCache.Look {
    CrcCache.Look(!visit.crcOn, visit.recheck, glance.tick, glance.hashedTick)
  }

  function ScanOne(disk: Disk, before: Scan, visit: Visit, glance: Glance): Scan {
    if glance.path !in disk || !ClientSees(glance.path, disk[glance.path]) then before
    else
      var path, file, look := glance.path, disk[glance.path], LookAt(visit, glance);
      var found := CrcCache.FoundFor(before.cache, path, file, look);
      Scan(CrcCache.AfterItem(before.cache, path, file, look),
           if visit.crcOn && found.Some? then before.hits[path := found.value] else before.hits)
  }

  function ScanUpTo(disk: Disk, cache: CrcCache.Cache, visit: Visit, n: nat): Scan
    requires n <= |visit.glances|
  {
    if n == 0 then Scan(cache, map[])
    else ScanOne(disk, ScanUpTo(disk, cache, visit, n - 1), visit, visit.glances[n - 1])
  }

  function WholeScan(disk: Disk, cache: CrcCache.Cache, visit: Visit): Scan {
    ScanUpTo(disk, cache, visit, |visit.glances|)
  }

  function CrcsOf(disk: Disk, cache: CrcCache.Cache, visit: Visit): Crcs {
    if visit.crcOn then CrcsOn(WholeScan(disk, cache, visit).hits) else CrcsOff
  }

  predicate OncePerPath(glances: seq<Glance>) {
    forall i, j :: 0 <= i < j < |glances| ==> glances[i].path != glances[j].path
  }

  /** A path not come upon keeps what was answered before. */
  lemma {:induction false} HitsElsewhere(disk: Disk, cache: CrcCache.Cache, visit: Visit, from: nat, n: nat, path: Path)
    requires from <= n <= |visit.glances|
    requires forall i :: from <= i < n ==> visit.glances[i].path != path
    ensures Get(ScanUpTo(disk, cache, visit, n).hits, path) == Get(ScanUpTo(disk, cache, visit, from).hits, path)
  {
    if from < n {
      HitsElsewhere(disk, cache, visit, from, n - 1, path);
    }
  }

  /** The CRC a scan reports for a file is what the cache gives at that moment, or the file's own. */
  lemma ReportIsCached(disk: Disk, cache: CrcCache.Cache, visit: Visit, k: nat)
    requires OncePerPath(visit.glances) && k < |visit.glances|
    requires var path := visit.glances[k].path; path in disk && ClientSees(path, disk[path])
    ensures var glance := visit.glances[k];
      ReportedCrc(CrcsOf(disk, cache, visit), glance.path, disk[glance.path]) ==
        CrcCache.Reported(ScanUpTo(disk, cache, visit, k).cache, glance.path, disk[glance.path], LookAt(visit, glance))
  {
    var path := visit.glances[k].path;
    HitsElsewhere(disk, cache, visit, 0, k, path);
    HitsElsewhere(disk, cache, visit, k + 1, |visit.glances|, path);
  }

  // ---------------------------------------------------------------- the actions

  function TickAt(ticks: seq<u32>, i: nat): u32 {
    if i < |ticks| then ticks[i] else 0
  }

  function ActionCache(action: SyncAction, cache: CrcCache.Cache, crcOn: bool, tick: u32): CrcCache.Cache {
    match action
    case Download(item) =>
      if crcOn then
        CrcCache.Remember(cache, item.path, CrcCache.Known(item.fingerprint.size, item.fingerprint.crc32, item.dosTime, tick))
      else CrcCache.Forget(cache, item.path)
    case DeleteLocal(path) => CrcCache.Forget(cache, path)
    case _ => cache
  }

  function ActionsCache(actions: seq<SyncAction>, cache: CrcCache.Cache, visit: Visit): CrcCache.Cache {
    if actions == [] then cache
    else
      var n := |actions| - 1;
      ActionCache(actions[n], ActionsCache(actions[..n], cache, visit), visit.crcOn, TickAt(visit.ticks, n))
  }

  /** How many actions the client has answered with OK: one more if it has cut the last download. */
  function Answers(a: Attempt, total: nat): (n: nat)
    ensures a.done <= total ==> n <= total
  {
    if a.result.OutOfStep? && a.done < total then a.done + 1 else a.done
  }

  /** The last action answered: a download is remembered as announced, or with CRCs off forgotten, as a deleted file is. */
  lemma LastAnswerIsCached(actions: seq<SyncAction>, cache: CrcCache.Cache, visit: Visit)
    requires actions != [] && ActionPath(actions[|actions| - 1]) != ""
    ensures var last, after := actions[|actions| - 1], ActionsCache(actions, cache, visit).entries;
      var path := ActionPath(last);
      && (last.Download? && visit.crcOn ==>
            && path in after && after[path].known.size == last.item.fingerprint.size
            && after[path].known.crc == last.item.fingerprint.crc32 && after[path].known.stamp == last.item.dosTime)
      && ((last.Download? && !visit.crcOn) || last.DeleteLocal? ==> path !in after)
  {
  }

  // ---------------------------------------------------------------- what the cache remembers

  datatype Standing = Standing(path: Path, file: File)

  function StandingOn(disk: Disk): set<Standing> {
    set path | path in disk :: Standing(path, disk[path])
  }

  ghost predicate LikeOne(known: CrcCache.Known, path: Path, stood: set<Standing>) {
    exists file :: Standing(path, file) in stood && CrcCache.LooksLike(known, file)
  }

  /** Every cached CRC is that of a file that once stood at its path. */
  ghost predicate Recalled(cache: CrcCache.Cache, stood: set<Standing>) {
    forall path :: path in cache.entries ==> LikeOne(cache.entries[path].known, path, stood)
  }

  ghost predicate HitRecalled(crc: Word, path: Path, file: File, stood: set<Standing>) {
    exists other :: Standing(path, other) in stood && |other.content| == |file.content|
      && other.dosTime == file.dosTime && ClientCrc(other.content) == crc
  }

  ghost predicate HitsRecalled(hits: map<Path, Word>, disk: Disk, stood: set<Standing>) {
    forall path :: path in hits ==> path in disk && HitRecalled(hits[path], path, disk[path], stood)
  }

  lemma RecalledLater(cache: CrcCache.Cache, stood: set<Standing>, later: set<Standing>)
    requires Recalled(cache, stood) && stood <= later
    ensures Recalled(cache, later)
  {
    forall path | path in cache.entries
      ensures LikeOne(cache.entries[path].known, path, later)
    {
      var file :| Standing(path, file) in stood && CrcCache.LooksLike(cache.entries[path].known, file);
      assert Standing(path, file) in later;
    }
  }

  lemma RememberRecalls(cache: CrcCache.Cache, path: Path, known: CrcCache.Known, stood: set<Standing>)
    requires Recalled(cache, stood) && LikeOne(known, path, stood)
    ensures Recalled(CrcCache.Remember(cache, path, known), stood)
  {
    var after := CrcCache.Remember(cache, path, known);
    forall p | p in after.entries
      ensures LikeOne(after.entries[p].known, p, stood)
    {
      CrcCache.RememberKeeps(cache, path, known, p);
    }
  }

  lemma ForgetRecalls(cache: CrcCache.Cache, path: Path, stood: set<Standing>)
    requires Recalled(cache, stood)
    ensures Recalled(CrcCache.Forget(cache, path), stood)
  {
  }

  lemma ItemRecalls(disk: Disk, before: Scan, visit: Visit, glance: Glance, stood: set<Standing>)
    requires StandingOn(disk) <= stood && Recalled(before.cache, stood) && HitsRecalled(before.hits, disk, stood)
    ensures var after := ScanOne(disk, before, visit, glance);
      Recalled(after.cache, stood) && HitsRecalled(after.hits, disk, stood)
  {
    if glance.path in disk && ClientSees(glance.path, disk[glance.path]) {
      var path, file, look := glance.path, disk[glance.path], LookAt(visit, glance);
      assert Standing(path, file) in StandingOn(disk);
      ForgetRecalls(before.cache, path, stood);
      RememberRecalls(before.cache, path, CrcCache.KnownOf(file, look.hashedTick), stood);
      if CrcCache.FoundFor(before.cache, path, file, look).Some? {
        var other :| Standing(path, other) in stood && CrcCache.LooksLike(before.cache.entries[path].known, other);
        assert HitRecalled(before.cache.entries[path].known.crc, path, file, stood);
      }
    }
  }

  lemma {:induction false} ScanRecalls(disk: Disk, cache: CrcCache.Cache, visit: Visit, n: nat, stood: set<Standing>)
    requires n <= |visit.glances| && StandingOn(disk) <= stood && Recalled(cache, stood)
    ensures var scan := ScanUpTo(disk, cache, visit, n);
      Recalled(scan.cache, stood) && HitsRecalled(scan.hits, disk, stood)
  {
    if n > 0 {
      ScanRecalls(disk, cache, visit, n - 1, stood);
      ItemRecalls(disk, ScanUpTo(disk, cache, visit, n - 1), visit, visit.glances[n - 1], stood);
    }
  }

  /** Size and stamp tell the CRCs of the files apart that ever stood at one path. */
  predicate Distinguishing(stood: set<Standing>) {
    forall s, t :: s in stood && t in stood && s.path == t.path
      && |s.file.content| == |t.file.content| && s.file.dosTime == t.file.dosTime
      ==> ClientCrc(s.file.content) == ClientCrc(t.file.content)
  }

  predicate AllTrue(disk: Disk, crcs: Crcs) {
    forall path :: path in disk ==> ReportsTruly(crcs, path, disk[path])
  }

  /** Where size and stamp distinguish, whatever is in the cache, a scan reports the files' own CRCs. */
  lemma DistinguishedScanIsTrue(disk: Disk, cache: CrcCache.Cache, visit: Visit, stood: set<Standing>)
    requires StandingOn(disk) <= stood && Recalled(cache, stood) && Distinguishing(stood)
    ensures AllTrue(disk, CrcsOf(disk, cache, visit))
  {
    ScanRecalls(disk, cache, visit, |visit.glances|, stood);
    var hits := WholeScan(disk, cache, visit).hits;
    forall path | path in disk
      ensures ReportsTruly(CrcsOf(disk, cache, visit), path, disk[path])
    {
      if path in hits {
        var other :| Standing(path, other) in stood && |other.content| == |disk[path].content|
          && other.dosTime == disk[path].dosTime && ClientCrc(other.content) == hits[path];
        assert Standing(path, disk[path]) in StandingOn(disk);
      }
    }
  }

  /** Such a report is the scan of a client without cache. */
  lemma TrueListIsScan(disk: Disk, crcs: Crcs)
    requires AllTrue(disk, crcs)
    ensures ListClient(disk, crcs) == ScanClient(disk, crcs.CrcsOn?)
  {
    forall path
      ensures Get(ListClient(disk, crcs), path) == Get(ScanClient(disk, crcs.CrcsOn?), path)
    {
      ListIsPathwise(disk, crcs, path);
      ScansArePathwise(disk, disk, crcs.CrcsOn?, path);
      TrueViewIsScanned(path, Get(disk, path), crcs);
    }
    SameLookups(ListClient(disk, crcs), ScanClient(disk, crcs.CrcsOn?));
  }

  /** So what is proved of rounds and sessions whose scans report the files' own CRCs holds of it. */
  lemma TrueReportIsScan(w: World, manifest: Manifest, crcs: Crcs, base: nat)
    requires AllTrue(w.client, crcs)
    ensures var crcOn := crcs.CrcsOn?;
      && PlanFor(w, manifest, crcs) == PlanOf(w, manifest, crcOn)
      && RoundFor(w, manifest, crcs) == RoundFrom(w, manifest, crcOn)
      && SessionFrom(w, manifest, crcs, base) == SessionFrom(w, manifest, Computed(crcOn), base)
  {
    TrueListIsScan(w.client, crcs);
  }

  // ---------------------------------------------------------------- downloads are remembered as they stand

  predicate StandsAs(file: Option<File>, item: ManifestItem, crcOn: bool) {
    && file.Some? && |file.value.content| == item.fingerprint.size && file.value.dosTime == item.dosTime
    && (crcOn ==> ClientCrc(file.value.content) == item.fingerprint.crc32)
  }

  /** The first n actions' downloads stand on the client's disk. */
  predicate DownloadsStand(actions: seq<SyncAction>, n: nat, client: Disk, crcOn: bool) {
    forall i :: 0 <= i < n <= |actions| && actions[i].Download? ==>
      StandsAs(Get(client, actions[i].item.path), actions[i].item, crcOn)
  }

  lemma EffectElsewhere(action: SyncAction, p: Progress, crcOn: bool, base: nat, path: Path)
    requires path != ActionPath(action)
    ensures Get(EffectOf(action, p, crcOn, base).client, path) == Get(p.client, path)
  {
  }

  lemma DownloadStands(action: SyncAction, p: Progress, crcOn: bool, base: nat)
    requires action.Download?
    requires var result := ResultOf(action, p, crcOn, base); result.Done? || result.OutOfStep?
    ensures StandsAs(Get(EffectOf(action, p, crcOn, base).client, action.item.path), action.item, crcOn)
  {
    WholeFile(p.server[action.item.path].content, action.item.fingerprint.size);
  }

  lemma StandingKept(actions: seq<SyncAction>, n: nat, p: Progress, crcOn: bool, base: nat)
    requires DistinctPaths(actions) && n < |actions| && DownloadsStand(actions, n, p.client, crcOn)
    ensures DownloadsStand(actions, n, EffectOf(actions[n], p, crcOn, base).client, crcOn)
    ensures var result := ResultOf(actions[n], p, crcOn, base);
      result.Done? || result.OutOfStep? ==>
        DownloadsStand(actions, n + 1, EffectOf(actions[n], p, crcOn, base).client, crcOn)
  {
    var after := EffectOf(actions[n], p, crcOn, base);
    forall i | 0 <= i < n && actions[i].Download?
      ensures StandsAs(Get(after.client, actions[i].item.path), actions[i].item, crcOn)
    {
      EffectElsewhere(actions[n], p, crcOn, base, ActionPath(actions[i]));
    }
    var result := ResultOf(actions[n], p, crcOn, base);
    if actions[n].Download? && (result.Done? || result.OutOfStep?) {
      DownloadStands(actions[n], p, crcOn, base);
    }
  }

  lemma {:induction false} TryLeavesDownloads(actions: seq<SyncAction>, start: Progress, crcOn: bool, base: nat)
    requires DistinctPaths(actions)
    ensures var a := Try(actions, start, crcOn, base);
      DownloadsStand(actions, Answers(a, |actions|), a.progress.client, crcOn)
  {
    if actions != [] {
      var n := |actions| - 1;
      var fewer := actions[..n];
      var before, a := Try(fewer, start, crcOn, base), Try(actions, start, crcOn, base);
      TryLeavesDownloads(fewer, start, crcOn, base);
      forall i | 0 <= i < Answers(before, n) && actions[i].Download?
        ensures StandsAs(Get(before.progress.client, actions[i].item.path), actions[i].item, crcOn)
      {
        assert fewer[i] == actions[i];
      }
      if before.done == n {
        assert DownloadsStand(actions, n, before.progress.client, crcOn);
        StandingKept(actions, n, before.progress, crcOn, base);
      }
    }
  }

  /** Whatever a run of actions leaves in the cache was there before, or stands on the client's disk as downloaded. */
  lemma {:induction false} ActionsRecall(actions: seq<SyncAction>, cache: CrcCache.Cache, visit: Visit, client: Disk,
                                         stood: set<Standing>)
    requires Recalled(cache, stood) && StandingOn(client) <= stood
    requires DownloadsStand(actions, |actions|, client, visit.crcOn)
    ensures Recalled(ActionsCache(actions, cache, visit), stood)
  {
    if actions != [] {
      var n := |actions| - 1;
      var before, action := actions[..n], actions[n];
      forall i | 0 <= i < n && before[i].Download?
        ensures StandsAs(Get(client, before[i].item.path), before[i].item, visit.crcOn)
      {
        assert before[i] == actions[i];
      }
      ActionsRecall(before, cache, visit, client, stood);
      var kept := ActionsCache(before, cache, visit);
      ForgetRecalls(kept, ActionPath(action), stood);
      if action.Download? && visit.crcOn {
        var item := action.item;
        assert Standing(item.path, client[item.path]) in StandingOn(client);
        var known := CrcCache.Known(item.fingerprint.size, item.fingerprint.crc32, item.dosTime, TickAt(visit.ticks, n));
        assert CrcCache.LooksLike(known, client[item.path]);
        RememberRecalls(kept, item.path, known, stood);
      }
    }
  }
}
