/** AppService: an upload writes the object, then the row, and takes the object back if the row fails; a
    delete removes the row, then the object. */
module AppService {
  import opened Wrappers
  import opened Tables
  import opened ObjectKeys
  import opened Pipeline
  import opened Invariants
  import opened ApiCalls
  import opened Theorems
  import opened Repository
  import opened World

  datatype AppError =
    | UnsupportedFileType | FileTooLarge | MissingPackageInfo | ReadFailed | PutFailed | SaveFailed
    | NoSuchApp | CheckFailed | HasActiveHardening | RemoveFailed

  datatype AppResult = Done(app: nat) | Failure(error: AppError)

  /** A multipart upload: its header, what the digest and the manifest parser make of the bytes, and which
      calls fail. */
  datatype Upload = Upload(
    fileName: string, size: int, manualPackage: string, manualVersion: string,
    digest: string, parsed: Option<(string, string)>,
    readFault: bool, seekFault: bool, putFault: bool, putLanded: bool, saveFault: bool,
    undoFault: bool, undoLanded: bool)

  /** strings.ToLower as far as it can spell an accepted extension: beside A to Z only the Kelvin sign
      becomes one of the letters of ".apk" and ".aab". */
  function LowerChar(c: char): char {
    if 'A' <= c <= 'Z' then (c as int + 32) as char else if c as int == 0x212A then 'k' else c
  }

  function ToLower(s: string): (r: string)
    ensures |r| == |s| && forall i :: 0 <= i < |s| ==> r[i] == LowerChar(s[i])
  {
    if s == "" then "" else [LowerChar(s[0])] + ToLower(s[1..])
  }

  predicate IsDigest(s: string) { |s| == 64 && forall i :: 0 <= i < 64 ==> IsHex(s[i]) }

  function Extension(u: Upload): string { ToLower(Ext(u.fileName)) }

  /** The character is the small letter or its capital; a Kelvin sign passes for a k. */
  predicate Spells(c: char, letter: char) {
    c == letter || ('a' <= letter <= 'z' && c as int + 32 == letter as int) || (letter == 'k' && c as int == 0x212A)
  }

  /** The name ends in a dot and three letters, small or capital. */
  predicate EndsIn(name: string, letters: string)
    requires |letters| == 3
  {
    && |name| >= 4 && name[|name| - 4] == '.'
    && forall i :: 0 <= i < 3 ==> Spells(name[|name| - 3 + i], letters[i])
  }

  /** The file types that are let through, told from the end of the name alone. */
  lemma ExtensionEndsName(u: Upload, letters: string)
    requires |letters| == 3 && forall i :: 0 <= i < 3 ==> 'a' <= letters[i] <= 'z'
    ensures Extension(u) == "." + letters <==> EndsIn(u.fileName, letters)
  {
    hide Ext;
    hide EndsIn;
    hide ToLower;
    if Extension(u) == "." + letters {
      ExtensionSpells(u.fileName, letters);
    }
    if EndsIn(u.fileName, letters) {
      SpelledExtension(u.fileName, letters);
    }
  }

  lemma ExtensionSpells(name: string, letters: string)
    requires |letters| == 3 && forall i :: 0 <= i < 3 ==> 'a' <= letters[i] <= 'z'
    requires ToLower(Ext(name)) == "." + letters
    ensures EndsIn(name, letters)
  {
    hide Ext;
    var e := Ext(name);
    ExtIsSuffix(name);
    assert |e| == 4 && e == name[|name| - 4..] && e[0] == '.';
    forall i | 0 <= i < 3 ensures Spells(name[|name| - 3 + i], letters[i]) {
      assert name[|name| - 3 + i] == e[i + 1] && ToLower(e)[i + 1] == letters[i];
    }
  }

  lemma SpelledExtension(name: string, letters: string)
    requires |letters| == 3 && forall i :: 0 <= i < 3 ==> 'a' <= letters[i] <= 'z'
    requires EndsIn(name, letters)
    ensures ToLower(Ext(name)) == "." + letters
  {
    hide Ext;
    hide ArtifactExt;
    var front, suffix := name[..|name| - 4], name[|name| - 3..];
    assert name == front + "." + suffix;
    forall i | 0 <= i < 3 ensures Spells(suffix[i], letters[i]) {
      assert suffix[i] == name[|name| - 3 + i];
    }
    ExtFromLastDot(front, suffix);
    LowerSpelled(suffix, letters);
  }

  lemma LowerSpelled(suffix: string, letters: string)
    requires |suffix| == |letters| && forall i :: 0 <= i < |letters| ==> 'a' <= letters[i] <= 'z'
    requires forall i :: 0 <= i < |letters| ==> Spells(suffix[i], letters[i])
    ensures ToLower("." + suffix) == "." + letters
  {
    forall i | 0 <= i < |letters| ensures ToLower("." + suffix)[i + 1] == letters[i] {
      assert ("." + suffix)[i + 1] == suffix[i];
    }
  }

  lemma {:induction false} ExtIsSuffix(path: string)
    ensures |Ext(path)| <= |path| && Ext(path) == path[|path| - |Ext(path)|..]
  {
    if path != "" && path[|path| - 1] != '/' && path[|path| - 1] != '.' {
      ExtIsSuffix(path[..|path| - 1]);
    }
  }

  /** What was typed in wins; the manifest fills the gaps, for .apk files only. */
  function PackageOf(u: Upload): string {
    if u.manualPackage == "" && Extension(u) == ".apk" && u.parsed.Some? then u.parsed.value.0 else u.manualPackage
  }

  /** Package and version as the manifest gives them; only an .apk has one that is read. */
  function Manifest(u: Upload): (string, string) {
    if EndsIn(u.fileName, "apk") && u.parsed.Some? then u.parsed.value else ("", "")
  }

  function VersionOf(u: Upload): string {
    if u.manualVersion == "" && Extension(u) == ".apk" && u.parsed.Some? then u.parsed.value.1 else u.manualVersion
  }

  function KeyOf(u: Upload): string
    requires IsDigest(u.digest)
  {
    SourceKey(PackageOf(u), u.digest[..12], u.fileName)
  }

  /** Names and key of an upload, told from what was typed in and from the manifest. */
  lemma NamesOf(u: Upload)
    requires IsDigest(u.digest)
    ensures PackageOf(u) == if u.manualPackage != "" then u.manualPackage else Manifest(u).0
    ensures VersionOf(u) == if u.manualVersion != "" then u.manualVersion else Manifest(u).1
    ensures KeyOf(u) == PackageOf(u) + ("/" + (u.digest[..12] + ("/" + u.fileName)))
  {
    hide EndsIn;
    hide Extension;
    ExtensionEndsName(u, "apk");
  }

  predicate Acceptable(u: Upload, maxUploadSizeMB: int) {
    && (Extension(u) == ".apk" || Extension(u) == ".aab")
    && u.size <= maxUploadSizeMB * 1024 * 1024
    && PackageOf(u) != "" && VersionOf(u) != ""
  }

  /** Undoing the put leaves the object only if the delete fails for good. */
  predicate Undone(u: Upload) { !u.undoFault || u.undoLanded }

  /** The put, and then its undoing. */
  function AfterFailedSave(u: Upload, objects: set<string>): set<string>
    requires IsDigest(u.digest)
  {
    if Undone(u) then objects - {KeyOf(u)} else objects + {KeyOf(u)}
  }

  class AppService {
    const repo: HardeningRepository
    const storage: ObjectStorage
    const maxUploadSizeMB: int

    constructor (repo: HardeningRepository, storage: ObjectStorage, maxUploadSizeMB: int)
      ensures this.repo == repo && this.storage == storage && this.maxUploadSizeMB == maxUploadSizeMB
    {
      this.repo, this.storage, this.maxUploadSizeMB := repo, storage, maxUploadSizeMB;
    }

    /** The part of an upload before the object store: what is refused, and the package name it goes under. */
    method Inspect(u: Upload) returns (refused: Option<AppError>, packageName: string)
      ensures refused == Some(UnsupportedFileType) <==> !EndsIn(u.fileName, "apk") && !EndsIn(u.fileName, "aab")
      ensures refused == Some(FileTooLarge) <==>
        (EndsIn(u.fileName, "apk") || EndsIn(u.fileName, "aab")) && u.size > maxUploadSizeMB * 1024 * 1024
      ensures refused == Some(MissingPackageInfo) <==>
        && (EndsIn(u.fileName, "apk") || EndsIn(u.fileName, "aab")) && u.size <= maxUploadSizeMB * 1024 * 1024 && !u.readFault
        && (PackageOf(u) == "" || VersionOf(u) == "")
      ensures refused == Some(ReadFailed) <==>
        (EndsIn(u.fileName, "apk") || EndsIn(u.fileName, "aab")) && u.size <= maxUploadSizeMB * 1024 * 1024 && u.readFault
      ensures refused.None? <==> Acceptable(u, maxUploadSizeMB) && !u.readFault
      ensures refused.None? ==> packageName == PackageOf(u) != ""
      ensures refused.Some? ==> refused.value in {UnsupportedFileType, FileTooLarge, MissingPackageInfo, ReadFailed}
    {
      hide Ext;
      hide EndsIn;
      hide ToLower;
      ExtensionEndsName(u, "apk");
      ExtensionEndsName(u, "aab");
      var ext := ToLower(Ext(u.fileName));
      if ext != ".apk" && ext != ".aab" {
        return Some(UnsupportedFileType), "";
      }
      if u.size > maxUploadSizeMB * 1024 * 1024 {
        return Some(FileTooLarge), "";
      }
      if u.readFault {
        return Some(ReadFailed), "";
      }
      packageName := u.manualPackage;
      var version := u.manualVersion;
      if ext == ".apk" && u.parsed.Some? {
        if packageName == "" {
          packageName := u.parsed.value.0;
        }
        if version == "" {
          version := u.parsed.value.1;
        }
      }
      if packageName == "" || version == "" {
        return Some(MissingPackageInfo), "";
      }
      refused := None;
    }

    /** The multipart reader strips directories, so a file name has no slash. */
    method Upload(u: Upload) returns (r: AppResult)
      requires IsDigest(u.digest) && '/' !in u.fileName
      modifies repo, storage
      ensures r.Done? ==>
        && Acceptable(u, maxUploadSizeMB) && r.app == old(repo.nextApp) && IsSourceKey(KeyOf(u))
        && storage.objects == old(storage.objects) + {KeyOf(u)}
        && repo.Contents() == old(repo.Contents()).(
             apps := old(repo.apps)[r.app := AppRow(PackageOf(u), KeyOf(u), AppUnprotected, None)],
             nextApp := old(repo.nextApp) + 1)
      // the names: what was typed in, or else the manifest of an .apk; the object is filed under them
      ensures r.Done? ==>
        && r.app in repo.apps
        && var row := repo.apps[r.app];
           && row.packageName == (if u.manualPackage != "" then u.manualPackage else Manifest(u).0) && row.packageName != ""
           && row.objectKey == row.packageName + ("/" + (u.digest[..12] + ("/" + u.fileName)))
           && row.objectKey in storage.objects && row.status == AppUnprotected && row.risk == None
      ensures r.Failure? ==> repo.Contents() == old(repo.Contents())
      ensures r.Failure? && r.error != SaveFailed ==>
        && storage.deleteLog == old(storage.deleteLog)
        && storage.objects ==
           if r.error == PutFailed && u.putLanded then old(storage.objects) + {KeyOf(u)} else old(storage.objects)
      // a failed save undoes the put, but not onto an object that was there before
      ensures r == Failure(SaveFailed) ==>
        && storage.objects == AfterFailedSave(u, old(storage.objects))
        && (storage.objects == old(storage.objects) <==> (KeyOf(u) in old(storage.objects) <==> !Undone(u)))
      ensures !u.readFault && !u.seekFault && !u.putFault && !u.saveFault ==>
        (r.Done? <==> Acceptable(u, maxUploadSizeMB))
      ensures r == Failure(UnsupportedFileType) <==> !EndsIn(u.fileName, "apk") && !EndsIn(u.fileName, "aab")
      ensures r == Failure(FileTooLarge) <==>
        (EndsIn(u.fileName, "apk") || EndsIn(u.fileName, "aab")) && u.size > maxUploadSizeMB * 1024 * 1024
      ensures r == Failure(MissingPackageInfo) <==>
        && (EndsIn(u.fileName, "apk") || EndsIn(u.fileName, "aab")) && u.size <= maxUploadSizeMB * 1024 * 1024 && !u.readFault
        && (PackageOf(u) == "" || VersionOf(u) == "")
      ensures r == Failure(SaveFailed) <==>
        Acceptable(u, maxUploadSizeMB) && !u.readFault && !u.seekFault && !u.putFault && u.saveFault
    {
      hide IsSourceKey;
      hide SourceKey;
      hide Acceptable;
      hide PackageOf;
      hide EndsIn;
      hide Manifest;
      NamesOf(u);
      var refused, packageName := Inspect(u);
      if refused.Some? {
        return Failure(refused.value);
      }
      var objectKey := SourceKey(packageName, u.digest[..12], u.fileName);
      if u.seekFault {
        return Failure(ReadFailed);
      }
      var put := storage.PutObject(objectKey, u.putFault, u.putLanded);
      if !put {
        return Failure(PutFailed);
      }
      UploadedKeyIsSourceKey(packageName, u.digest[..12], u.fileName);
      if u.saveFault {
        var undone := storage.DeleteObject(objectKey, u.undoFault, u.undoLanded);
        return Failure(SaveFailed);
      }
      r := Done(repo.nextApp);
      repo.apps := repo.apps[repo.nextApp := AppRow(packageName, objectKey, AppUnprotected, None)];
      repo.nextApp := repo.nextApp + 1;
    }

    /** A lookup that fails counts as a missing app; what the object store says is ignored. */
    method Delete(id: nat, findFault: bool, checkFault: bool, rowFault: bool, objectFault: bool, objectLanded: bool)
      returns (r: AppResult)
      modifies repo, storage
      ensures r.Failure? ==>
        repo.Contents() == old(repo.Contents()) && storage.objects == old(storage.objects)
        && storage.deleteLog == old(storage.deleteLog)
      ensures r.Done? ==>
        && r.app == id && id in old(repo.apps) && !HasActiveTask(old(repo.Contents()), id)
        && repo.Contents() == old(repo.Contents()).(apps := old(repo.apps) - {id})
        && storage.deleteLog == old(storage.deleteLog) + [old(repo.apps)[id].objectKey]
        && storage.objects ==
           if objectFault && !objectLanded then old(storage.objects)
           else old(storage.objects) - {old(repo.apps)[id].objectKey}
      ensures r == Failure(NoSuchApp) <==> findFault || id !in old(repo.apps)
      ensures r == Failure(HasActiveHardening) ==> HasActiveTask(old(repo.Contents()), id)
      ensures !findFault && !checkFault && !rowFault ==>
        (r.Done? <==> id in old(repo.apps) && !HasActiveTask(old(repo.Contents()), id))
    {
      if findFault || id !in repo.apps {
        return Failure(NoSuchApp);
      }
      var app := repo.apps[id];
      var active := repo.HasActiveTaskForApp(id, checkFault);
      if active.None? {
        return Failure(CheckFailed);
      }
      if active.value {
        return Failure(HasActiveHardening);
      }
      if rowFault {
        return Failure(RemoveFailed);
      }
      repo.apps := repo.apps - {id};
      var removed := storage.DeleteObject(app.objectKey, objectFault, objectLanded);
      r := Done(id);
    }
  }

  // ---------------------------------------------------------------- in the pipeline

  /** A successful upload and a successful delete are two calls of the pipeline each. */
  lemma UploadRunsInThePipeline(run: seq<Action>, packageName: string, key: string) returns (run': seq<Action>)
    requires ValidRun(INIT, run) && IsSourceKey(key)
    ensures ValidRun(INIT, run') && run' == run + [Api(PutSource(key))] + [Api(InsertApp(packageName, key))]
    ensures var s, s' := Exec(INIT, run), Exec(INIT, run');
      && s'.objects == s.objects + {key} && s'.txs == s.txs
      && s'.db == s.db.(apps := s.db.apps[s.db.nextApp := AppRow(packageName, key, AppUnprotected, None)],
                        nextApp := s.db.nextApp + 1)
  {
    hide ValidRun;
    hide Exec;
    hide IsSourceKey;
    Extend(INIT, run, Api(PutSource(key)));
    run' := run + [Api(PutSource(key))];
    Extend(INIT, run', Api(InsertApp(packageName, key)));
    run' := run' + [Api(InsertApp(packageName, key))];
  }

  lemma DeleteRunsInThePipeline(run: seq<Action>, app: nat) returns (run': seq<Action>)
    requires ValidRun(INIT, run)
    requires var s := Exec(INIT, run); app in s.db.apps && app !in s.txs && !HasActiveTask(s.db, app)
    ensures ValidRun(INIT, run') && run <= run'
    ensures var s, s' := Exec(INIT, run), Exec(INIT, run');
      && s'.db == s.db.(apps := s.db.apps - {app}) && s'.objects == s.objects - {s.db.apps[app].objectKey}
      && forall t :: t in s.db.tasks ==> forall i :: 0 <= i < |Keys(s.db.tasks[t].artifacts)| ==>
        (Keys(s.db.tasks[t].artifacts)[i] in s.objects <==> Keys(s.db.tasks[t].artifacts)[i] in s'.objects)
  {
    hide ValidRun;
    hide Exec;
    hide Inv;
    hide IsSourceKey;
    hide Keys;
    hide HasActiveTask;
    hide RowsOk;
    var s := Exec(INIT, run);
    var key := s.db.apps[app].objectKey;
    InitInv();
    RunsKeepInv(INIT, run);
    AppKeyIsSource(s, app);
    Extend(INIT, run, Api(DeleteApp(app)));
    run' := run + [Api(DeleteApp(app))];
    Extend(INIT, run', Api(RemoveSource(key)));
    run' := run' + [Api(RemoveSource(key))];
    forall t | t in s.db.tasks
      ensures forall i :: 0 <= i < |Keys(s.db.tasks[t].artifacts)| ==>
        (Keys(s.db.tasks[t].artifacts)[i] in s.objects <==> Keys(s.db.tasks[t].artifacts)[i] in Exec(INIT, run').objects)
    {
      SourceLeavesRow(s.db, s.objects, s.objects - {key}, key, t);
    }
  }

  lemma AppKeyIsSource(s: State, app: nat)
    requires Inv(s) && app in s.db.apps
    ensures RowsOk(s.db) && IsSourceKey(s.db.apps[app].objectKey)
  {
    hide IsSourceKey;
    hide RowOk;
    hide TxsOk;
    hide Coherent;
    hide PcOk;
    hide ObjectsOk;
    hide RiskOk;
  }

  // ---------------------------------------------------------------- shared source objects

  /** Every app's source object is there. */
  predicate SourcesExist(apps: map<nat, AppRow>, objects: set<string>) {
    forall a :: a in apps ==> apps[a].objectKey in objects
  }

  /** Deleting an app keeps the sources of all other apps exactly when none of them shares its key. */
  lemma DeleteSparesOthersIff(apps: map<nat, AppRow>, objects: set<string>, app: nat)
    requires SourcesExist(apps, objects) && app in apps
    ensures SourcesExist(apps - {app}, objects - {apps[app].objectKey}) <==>
      forall b :: b in apps && b != app ==> apps[b].objectKey != apps[app].objectKey
  {
    var rest, left := apps - {app}, objects - {apps[app].objectKey};
    if SourcesExist(rest, left) {
      forall b | b in apps && b != app ensures apps[b].objectKey != apps[app].objectKey {
        assert b in rest && rest[b].objectKey in left;
      }
    }
  }

  /** Two apps with their sources, of which a later delete of one app takes the other's. */
  ghost predicate LosesSharedSource(uploaded: seq<Action>, deleted: seq<Action>) {
    && ValidRun(INIT, uploaded) && ValidRun(INIT, deleted) && uploaded <= deleted
    && var s, s' := Exec(INIT, uploaded), Exec(INIT, deleted);
       && 0 in s.db.apps && 1 in s.db.apps && SourcesExist(s.db.apps, s.objects)
       && 0 !in s'.db.apps && 1 in s'.db.apps && s'.db.apps[1].objectKey !in s'.objects
  }

  /** One history of two uploads of the same file and a delete: the app that is left has lost its source. */
  lemma SharedSourceIsLost() returns (uploaded: seq<Action>, deleted: seq<Action>)
    ensures LosesSharedSource(uploaded, deleted)
  {
    hide ValidRun;
    hide Exec;
    hide SourceKey;
    hide IsSourceKey;
    var key := SourceKey("p", "0123456789ab", "a.apk");
    UploadedKeyIsSourceKey("p", "0123456789ab", "a.apk");
    NothingYet();
    var once := UploadRunsInThePipeline([], "p", key);
    uploaded := UploadRunsInThePipeline(once, "p", key);
    assert Exec(INIT, uploaded).db.tasks == map[];
    deleted := DeleteRunsInThePipeline(uploaded, 0);
  }

  lemma NothingYet()
    ensures ValidRun(INIT, []) && Exec(INIT, []) == INIT
  {
  }

  /** A failed save keeps the sources of all apps exactly when its undo failed too or no app has its key. */
  lemma FailedSaveSparesOthersIff(apps: map<nat, AppRow>, objects: set<string>, u: Upload)
    requires SourcesExist(apps, objects) && IsDigest(u.digest)
    ensures SourcesExist(apps, AfterFailedSave(u, objects)) <==>
      !Undone(u) || forall a :: a in apps ==> apps[a].objectKey != KeyOf(u)
  {
    hide KeyOf;
  }

  /** Uploading any file twice is enough: if the second save fails, the first app's source goes with it. */
  lemma SecondUploadTakesTheSource(run: seq<Action>, u: Upload) returns (run': seq<Action>)
    requires ValidRun(INIT, run) && IsDigest(u.digest) && '/' !in u.fileName && Undone(u)
    ensures run <= run' && ValidRun(INIT, run')
    ensures var app, s := Exec(INIT, run).db.nextApp, Exec(INIT, run');
      && app in s.db.apps && s.db.apps[app].objectKey in s.objects
      && s.db.apps[app].objectKey !in AfterFailedSave(u, s.objects)
  {
    hide ValidRun;
    hide Exec;
    hide SourceKey;
    hide IsSourceKey;
    hide Ext;
    UploadedKeyIsSourceKey(PackageOf(u), u.digest[..12], u.fileName);
    run' := UploadRunsInThePipeline(run, PackageOf(u), KeyOf(u));
  }

  /** Such a file: it is accepted, and its second save fails. */
  lemma AnUploadThatTakes() returns (u: Upload)
    ensures IsDigest(u.digest) && '/' !in u.fileName && Acceptable(u, 1)
    ensures !u.readFault && !u.seekFault && !u.putFault && u.saveFault && Undone(u)
  {
    u := Upload.Upload("a.apk", 1, "p", "1", seq(64, _ => '0'), None, false, false, false, false, true, false, false);
    ApkExtension();
  }

  lemma ApkExtension()
    ensures ToLower(Ext("a.apk")) == ".apk"
  {
    assert "a.apk"[..4] == "a.ap" && "a.ap"[..3] == "a.a" && "a.a"[..2] == "a.";
    assert Ext("a.") == "." && Ext("a.a") == ".a" && Ext("a.ap") == ".ap" && Ext("a.apk") == ".apk";
    assert ToLower("") == "" && ToLower("k") == "k" && ToLower("pk") == "pk" && ToLower("apk") == "apk";
  }

  /** Two uploads share a key exactly when package, leading digest and file name all agree. */
  lemma SourceKeyInjective(p1: string, h1: string, f1: string, p2: string, h2: string, f2: string)
    requires IsHex12(h1) && IsHex12(h2) && '/' !in f1 && '/' !in f2
    ensures SourceKey(p1, h1, f1) == SourceKey(p2, h2, f2) <==> p1 == p2 && h1 == h2 && f1 == f2
  {
    if SourceKey(p1, h1, f1) == SourceKey(p2, h2, f2) {
      SourceKeyLast(p1, h1, f1);
      SourceKeyLast(p2, h2, f2);
      SourceKeyOwner(p1, h1, f1);
      SourceKeyOwner(p2, h2, f2);
      var tail := "/" + (h1 + ("/" + f1));
      assert SourceKey(p1, h1, f1)[..|p1|] == p1 && SourceKey(p2, h2, f2)[..|p2|] == p2;
      assert |SourceKey(p1, h1, f1)| == |p1| + |tail| && |SourceKey(p2, h2, f2)| == |p2| + |tail|;
    }
  }

  lemma SourceKeyLast(p: string, h: string, f: string)
    requires IsHex12(h) && '/' !in f
    ensures Split(SourceKey(p, h, f))[|Split(SourceKey(p, h, f))| - 1] == f
  {
    assert '/' !in h;
    SplitPlain(h);
    SplitPlain(f);
    SplitJoin(h, f);
    SplitJoin(p, h + ("/" + f));
  }
}
