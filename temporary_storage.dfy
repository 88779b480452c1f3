/**
 * The on-disk model store of temporary_storage.py. A model folder
 * `saved_models/<dataset>/<model>` holds version directories named
 * `v<N>-<timestamp>` or `v<N>-<timestamp>_temp`; the folder is modelled as a
 * map from entry names to what the rest of the worker reads from them. The
 * generic storage manager is a map from folder names to their contents.
 */
module TemporaryStorage {
  import opened Wrappers
  import opened Text

  /** What the `best_score` key of a version's assets.json holds. */
  datatype ScoreField =
    | Absent            // the key is missing
    | JsonNull          // JSON null
    | NullText          // the string "null"
    | Numeric(v: real)  // a number, or a string float() accepts
    | Malformed         // anything float() rejects

  /** assets.json as it is read back: unparsable, or a JSON object. */
  datatype Assets = Unreadable | AssetsJson(bestScore: ScoreField)

  /** One entry of a model folder: creation time, assets.json and labels.txt when present. */
  datatype VersionDir = VersionDir(ctime: int, assets: Option<Assets>, labels: Option<string>)

  /** The entry name matches the glob pattern `v*-*`. */
  predicate Globbed(name: string) {
    |name| >= 2 && name[0] == 'v' && exists i :: 1 <= i < |name| && name[i] == '-'
  }

  /** End of the run of digits in `s` that starts at `i`. */
  function DigitRunEnd(s: string, i: nat): (j: nat)
    requires i <= |s|
    ensures i <= j <= |s| && AllDigits(s[i..j])
    ensures j < |s| ==> !IsDigit(s[j])
    decreases |s| - i
  {
    if i < |s| && IsDigit(s[i]) then
      var j := DigitRunEnd(s, i + 1);
      assert s[i..j] == [s[i]] + s[i + 1..j];
      j
    else i
  }

  /** The regular expression `v(\d+)-` matched at the start of `s`. */
  function VersionMatchAt(s: string): Option<nat> {
    if |s| >= 1 && s[0] == 'v' then
      var j := DigitRunEnd(s, 1);
      if j > 1 && j < |s| && s[j] == '-' then Some(ParseNat(s[1..j])) else None
    else None
  }

  /** `re.search(r"v(\d+)-", name)`: the number of the leftmost match, if any. */
  function SearchVersion(s: string): Option<nat>
  {
    if s == [] then None
    else if VersionMatchAt(s).Some? then VersionMatchAt(s)
    else SearchVersion(s[1..])
  }

  /** The name save_model_path gives to version `n` (lines 178 and 181). */
  function VersionName(n: nat, timestamp: string, temp: bool): string {
    "v" + NatToString(n) + "-" + timestamp + (if temp then "_temp" else "")
  }

  lemma {:induction false} DigitRunStops(s: string, i: nat, k: nat)
    requires i <= k < |s| && AllDigits(s[i..k]) && !IsDigit(s[k])
    ensures DigitRunEnd(s, i) == k
    decreases k - i
  {
    if i < k {
      assert s[i] == s[i..k][0];
      assert s[i + 1..k] == s[i..k][1..];
      DigitRunStops(s, i + 1, k);
    }
  }

  /** A version name, temporary or not, parses back to its number and matches the glob. */
  lemma VersionNameParses(n: nat, timestamp: string, temp: bool)
    ensures SearchVersion(VersionName(n, timestamp, temp)) == Some(n)
    ensures Globbed(VersionName(n, timestamp, temp))
  {
    var digits := NatToString(n);
    var s := VersionName(n, timestamp, temp);
    assert s[1..1 + |digits|] == digits;
    assert s[1 + |digits|] == '-';
    DigitRunStops(s, 1, 1 + |digits|);
    ParseNatToString(n);
  }

  /** The version numbers parsed from the globbed entries. */
  ghost function ParsedVersions(names: set<string>): set<nat> {
    set name | name in names && Globbed(name) && SearchVersion(name).Some? :: SearchVersion(name).value
  }

  lemma ParsedVersionsAdd(names: set<string>, name: string)
    ensures ParsedVersions(names + {name}) == ParsedVersions(names) +
      (if Globbed(name) && SearchVersion(name).Some? then {SearchVersion(name).value} else {})
  {
  }

  /** One iteration of the loop of lines 132-135 followed by the max of line 137. */
  lemma VersionNumberStep(seen: set<string>, name: string, r: int)
    requires IsVersionNumber(true, seen, r)
    ensures var parsed := if Globbed(name) then SearchVersion(name) else None;
      IsVersionNumber(true, seen + {name}, if parsed.Some? && parsed.value > r then parsed.value else r)
  {
    ParsedVersionsAdd(seen, name);
  }

  /** `r` is what get_number_of_version returns for a folder that exists (or not) with these entries. */
  ghost predicate IsVersionNumber(present: bool, names: set<string>, r: int) {
    if !present || ParsedVersions(names) == {} then r == -1
    else r in ParsedVersions(names) && forall v :: v in ParsedVersions(names) ==> v <= r
  }

  /** The name of the next version is not in the folder yet, so creating it never clashes. */
  lemma NextVersionNameFresh(names: set<string>, r: int, timestamp: string, temp: bool)
    requires IsVersionNumber(true, names, r)
    ensures r + 1 >= 0 && VersionName(r + 1, timestamp, temp) !in names
  {
    var name := VersionName(r + 1, timestamp, temp);
    VersionNameParses(r + 1, timestamp, temp);
    assert name in names ==> r + 1 in ParsedVersions(names);
  }

  /** After the next version is created, the folder's version number is one higher. */
  lemma NextVersionAfterSave(names: set<string>, r: int, timestamp: string, temp: bool)
    requires IsVersionNumber(true, names, r)
    ensures r + 1 >= 0 && IsVersionNumber(true, names + {VersionName(r + 1, timestamp, temp)}, r + 1)
  {
    var name := VersionName(r + 1, timestamp, temp);
    VersionNameParses(r + 1, timestamp, temp);
    assert ParsedVersions(names + {name}) == ParsedVersions(names) + {r + 1};
  }

  /** A model folder under saved_models. */
  class ModelFolder {
    var present: bool
    var entries: map<string, VersionDir>

    ghost predicate Valid()
      reads this
    {
      !present ==> entries == map[]
    }

    constructor (present: bool, entries: map<string, VersionDir>)
      requires !present ==> entries == map[]
      ensures Valid() && this.present == present && this.entries == entries
    {
      this.present := present;
      this.entries := entries;
    }

    /** get_number_of_version: -1 for a missing folder or no `v(\d+)-` name, else the largest number. */
    method GetNumberOfVersion() returns (r: int)
      requires Valid()
      ensures IsVersionNumber(present, entries.Keys, r)
    {
      if !present {
        return -1;
      }
      r := -1;
      var rest := entries.Keys;
      ghost var seen: set<string> := {};
      while rest != {}
        invariant rest + seen == entries.Keys && rest !! seen
        invariant IsVersionNumber(true, seen, r)
        decreases |rest|
      {
        var name :| name in rest;
        var parsed := if Globbed(name) then SearchVersion(name) else None;
        VersionNumberStep(seen, name, r);
        if parsed.Some? && parsed.value > r {
          r := parsed.value;
        }
        rest := rest - {name};
        seen := seen + {name};
      }
    }

    /** get_next_version: the name the next version would get, without creating it. */
    method GetNextVersion(timestamp: string) returns (name: string)
      requires Valid()
      ensures exists r :: (IsVersionNumber(present, entries.Keys, r) && r + 1 >= 0 &&
                           name == VersionName(r + 1, timestamp, false))
    {
      var r := GetNumberOfVersion();
      name := VersionName(r + 1, timestamp, false);
    }

    /**
     * get_latest_model_path: creates the folder when missing; None stands for
     * "the folder itself" (no `v*-*` entry), otherwise the entry created last,
     * temporary ones included.
     */
    method GetLatestModelPath() returns (latest: Option<string>)
      requires Valid()
      modifies this
      ensures Valid() && present && entries == old(entries)
      ensures latest.None? <==> forall name :: name in entries ==> !Globbed(name)
      ensures latest.Some? ==> (latest.value in entries && Globbed(latest.value) &&
        forall name :: name in entries && Globbed(name) ==> entries[name].ctime <= entries[latest.value].ctime)
    {
      present := true;
      latest := None;
      var rest := entries.Keys;
      while rest != {}
        invariant rest <= entries.Keys
        invariant latest.None? ==> forall name :: name in entries && name !in rest ==> !Globbed(name)
        invariant latest.Some? ==> (latest.value in entries && Globbed(latest.value) &&
          forall name :: name in entries && name !in rest && Globbed(name) ==> entries[name].ctime <= entries[latest.value].ctime)
        decreases |rest|
      {
        var name :| name in rest;
        if Globbed(name) && (latest.None? || entries[name].ctime > entries[latest.value].ctime) {
          latest := Some(name);
        }
        rest := rest - {name};
      }
    }

    /**
     * save_model_path: creates the folder when missing, then the directory for
     * the next version number (with `_temp` when asked). The name never exists
     * already, so the retry of lines 194-201 cannot happen here.
     */
    method SaveModelPath(temp: bool, timestamp: string, now: int) returns (name: string, ghost version: nat)
      requires Valid()
      modifies this
      ensures Valid() && present
      ensures IsVersionNumber(old(present), old(entries).Keys, version - 1)
      ensures name == VersionName(version, timestamp, temp)
      ensures name !in old(entries)
      ensures entries == old(entries)[name := VersionDir(now, None, None)]
      ensures IsVersionNumber(true, entries.Keys, version)
    {
      present := true;
      var r := GetNumberOfVersion();
      assert IsVersionNumber(true, entries.Keys, r);
      NextVersionNameFresh(entries.Keys, r, timestamp, temp);
      NextVersionAfterSave(entries.Keys, r, timestamp, temp);
      version := r + 1;
      name := VersionName(r + 1, timestamp, temp);
      entries := entries[name := VersionDir(now, None, None)];
      assert entries.Keys == old(entries).Keys + {name};
    }
  }

  predicate IsImageFile(name: string) {
    var lower := Lower(name);
    EndsWith(lower, ".jpg") || EndsWith(lower, ".jpeg") || EndsWith(lower, ".png")
  }

  function CountImages(files: seq<string>): (n: nat)
    ensures n <= |files|
    ensures n == 0 <==> forall i :: 0 <= i < |files| ==> !IsImageFile(files[i])
  {
    if files == [] then 0
    else (if IsImageFile(files[0]) then 1 else 0) + CountImages(files[1..])
  }

  /** count_training_samples: the number of .jpg/.jpeg/.png names in any letter case; an error when there are none. */
  function CountTrainingSamples(files: seq<string>): (r: Result<nat>)
    ensures r.Err? <==> forall i :: 0 <= i < |files| ==> !IsImageFile(files[i])
    ensures r.Ok? ==> 1 <= r.value <= |files| && r.value == CountImages(files)
  {
    var n := CountImages(files);
    if n == 0 then Err("No training samples found") else Ok(n)
  }

  /** TemporaryStorageManager: folders under the storage root and the names they contain. */
  class StorageManager {
    var folders: map<string, set<string>>

    constructor (folders: map<string, set<string>>)
      ensures this.folders == folders
    {
      this.folders := folders;
    }

    /** create_storage: make the folder when it does not exist; an existing folder is left as it is. */
    method CreateStorage(folder: string)
      modifies this
      ensures folders == Created(old(folders), folder)
    {
      if folder !in folders {
        folders := folders[folder := {}];
      }
    }

    /** delete_storage: remove the folder and its contents when it exists. */
    method DeleteStorage(folder: string)
      modifies this
      ensures folders == old(folders) - {folder}
    {
      if folder in folders {
        folders := folders - {folder};
      }
    }

    /** list_contents: the names in the folder; an error when it does not exist. */
    method ListContents(folder: string) returns (r: Result<set<string>>)
      ensures r.Err? <==> folder !in folders
      ensures r.Ok? ==> r.value == folders[folder]
    {
      if folder !in folders {
        return Err("Storage folder not found");
      }
      return Ok(folders[folder]);
    }

    /** reset_directory: delete, then create; the folder exists and is empty, others are untouched. */
    method ResetDirectory(folder: string)
      modifies this
      ensures folders == old(folders)[folder := {}]
    {
      DeleteStorage(folder);
      CreateStorage(folder);
    }
  }

  /** The folders after create_storage. */
  function Created(folders: map<string, set<string>>, folder: string): (r: map<string, set<string>>)
    ensures folder in r && r[folder] == (if folder in folders then folders[folder] else {})
    ensures forall f :: f != folder ==> (f in r <==> f in folders) && (f in folders ==> r[f] == folders[f])
  {
    if folder in folders then folders else folders[folder := {}]
  }

  /** create_storage is idempotent. */
  lemma CreateIdempotent(folders: map<string, set<string>>, folder: string)
    ensures Created(Created(folders, folder), folder) == Created(folders, folder)
  {
  }
}
