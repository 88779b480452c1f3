/**
 * Version management of the detection model (dino_model_manager.py): whether
 * to start a fresh predictor, the score-gated promotion of a `_temp` version
 * to its final name, reading `best_score`, and the class-count consistency
 * check. Directories are entries of a TemporaryStorage.ModelFolder.
 */
module DinoModelManager {
  import opened Wrappers
  import opened Text
  import opened TemporaryStorage

  /** get_best_score: the float of `best_score` (0.0 when the key is missing); None for null, "null" or any failure. */
  function GetBestScore(file: Option<Assets>): (r: Option<real>)
    ensures file.None? || file == Some(Unreadable) ==> r.None?
    ensures file == Some(AssetsJson(Absent)) ==> r == Some(0.0)
    ensures file == Some(AssetsJson(JsonNull)) || file == Some(AssetsJson(NullText)) ==> r.None?
    ensures r.Some? ==> (file.Some? && file.value.AssetsJson? &&
      ((file.value.bestScore == Absent && r.value == 0.0) || file.value.bestScore == Numeric(r.value)))
  {
    match file
    case None => None
    case Some(Unreadable) => None
    case Some(AssetsJson(score)) =>
      match score
      case Absent => Some(0.0)
      case JsonNull => None
      case NullText => None
      case Numeric(v) => Some(v)
      case Malformed => None
  }

  /** The final name of a temporary version: every "_temp" removed (line 93). */
  function FinalName(temp: string): string {
    ReplaceAll(temp, "_temp", "")
  }

  /** For the names save_model_path makes (a timestamp without '_'), the final name is the non-temporary name. */
  lemma FinalNameOfTempVersion(n: nat, timestamp: string)
    requires '_' !in timestamp
    ensures FinalName(VersionName(n, timestamp, true)) == VersionName(n, timestamp, false)
    ensures VersionName(n, timestamp, true) != VersionName(n, timestamp, false)
  {
    var s := VersionName(n, timestamp, false);
    var digits := NatToString(n);
    assert '_' !in s by {
      assert s == "v" + digits + "-" + timestamp;
      forall k | 0 <= k < |s| ensures s[k] != '_' {
        if 1 <= k < 1 + |digits| {
          assert s[k] == digits[k - 1];
        } else if k >= 2 + |digits| {
          assert s[k] == timestamp[k - 2 - |digits|];
        }
      }
    }
    assert !Contains(s, "_temp") by {
      forall i: nat | i < |s| ensures !OccursAt(s, "_temp", i) {
        assert s[i] != '_';
      }
    }
    forall i: nat | i < |s| ensures !OccursAt(s + "_temp", "_temp", i) {
      assert (s + "_temp")[i] == s[i] != '_';
    }
    ReplaceAppendSuffix(s, "_temp", "");
    assert VersionName(n, timestamp, true) == s + "_temp";
  }

  /** Whether the temporary version replaces the final one (lines 102-121). */
  function Promotes(entries: map<string, VersionDir>, temp: string): bool {
    var final := FinalName(temp);
    var tempScore := GetBestScore(if temp in entries then entries[temp].assets else None);
    var finalHasAssets := final in entries && entries[final].assets.Some?;
    if finalHasAssets && tempScore.Some? then
      var versionScore := GetBestScore(entries[final].assets);
      tempScore.value > (if versionScore.Some? then versionScore.value else 0.0)
    else true
  }

  /** Scores decide only when both are known: a temporary version without a score always replaces the final one. */
  lemma PromotionRule(entries: map<string, VersionDir>, temp: string)
    ensures GetBestScore(if temp in entries then entries[temp].assets else None).None? ==> Promotes(entries, temp)
    ensures FinalName(temp) !in entries ==> Promotes(entries, temp)
    ensures (temp in entries && FinalName(temp) in entries &&
             entries[FinalName(temp)].assets.Some? &&
             GetBestScore(entries[temp].assets).Some? && GetBestScore(entries[FinalName(temp)].assets).None?) ==>
      (Promotes(entries, temp) <==> GetBestScore(entries[temp].assets).value > 0.0)
  {
  }

  /**
   * finalize_model_version. `classes` is what extract_classes_from_coco_json
   * reads from the training JSON (None when that raises). Returns the final
   * name, or None after an exception, in which case the temporary entry is
   * removed.
   */
  method FinalizeModelVersion(folder: ModelFolder, temp: string, classes: Option<seq<string>>)
    returns (result: Option<string>)
    requires folder.Valid() && folder.present
    requires Contains(temp, "_temp")
    modifies folder
    ensures folder.Valid() && folder.present
    ensures temp !in folder.entries
    ensures forall n :: n != temp && n != FinalName(temp) ==>
      (n in folder.entries <==> n in old(folder.entries)) &&
      (n in folder.entries ==> folder.entries[n] == old(folder.entries[n]))
    // success: the temporary version was there and the class list could be read
    ensures result.Some? <==> temp in old(folder.entries) && classes.Some?
    ensures result.Some? ==> result.value == FinalName(temp) && result.value in folder.entries
    ensures result.Some? ==> (folder.entries[result.value] ==
      (if Promotes(old(folder.entries), temp) then old(folder.entries[temp]) else old(folder.entries[FinalName(temp)]))
        .(labels := Some(Join(classes.value, "\n"))))
    // the class list failed after the promotion step: final is promoted or kept, without new labels
    ensures temp in old(folder.entries) && classes.None? ==> (FinalName(temp) in folder.entries &&
      folder.entries[FinalName(temp)] ==
        (if Promotes(old(folder.entries), temp) then old(folder.entries[temp]) else old(folder.entries[FinalName(temp)])))
    // no temporary version: the rename fails after the final version was deleted
    ensures temp !in old(folder.entries) ==> FinalName(temp) !in folder.entries
  {
    var final := FinalName(temp);
    assert final != temp by {
      FinalDiffers(temp);
    }
    var promote := Promotes(folder.entries, temp);
    if promote {
      if final in folder.entries {
        folder.entries := folder.entries - {final};
      }
      if temp !in folder.entries {
        // os.rename raises: nothing to delete in the handler
        return None;
      }
      folder.entries := (folder.entries - {temp})[final := folder.entries[temp]];
    }
    if classes.None? {
      // extract_classes_from_coco_json raised
      if temp in folder.entries {
        folder.entries := folder.entries - {temp};
      }
      return None;
    }
    folder.entries := folder.entries[final := folder.entries[final].(labels := Some(Join(classes.value, "\n")))];
    if temp in folder.entries {
      folder.entries := folder.entries - {temp};
    }
    return Some(final);
  }

  /** Removing "_temp" from a name that contains it changes the name. */
  lemma FinalDiffers(temp: string)
    requires Contains(temp, "_temp")
    ensures FinalName(temp) != temp
  {
    var i: nat :| i <= |temp| && OccursAt(temp, "_temp", i);
    ReplaceShrinks(temp, "_temp", i);
  }

  /** Replacing an occurring pattern by "" makes the string shorter. */
  lemma {:induction false} ReplaceShrinks(s: string, pat: string, i: nat)
    requires |pat| > 0 && OccursAt(s, pat, i)
    ensures |ReplaceAll(s, pat, "")| < |s|
    decreases |s|
  {
    ReplaceNotLonger(s, pat);
    if s[..|pat|] == pat {
      ReplaceNotLonger(s[|pat|..], pat);
    } else {
      assert i > 0;
      assert s[1..][i - 1..i - 1 + |pat|] == s[i..i + |pat|];
      ReplaceShrinks(s[1..], pat, i - 1);
    }
  }

  lemma {:induction false} ReplaceNotLonger(s: string, pat: string)
    requires |pat| > 0
    ensures |ReplaceAll(s, pat, "")| <= |s|
    decreases |s|
  {
    if |s| >= |pat| {
      if s[..|pat|] == pat {
        ReplaceNotLonger(s[|pat|..], pat);
      } else {
        ReplaceNotLonger(s[1..], pat);
      }
    }
  }

  /** Number of lines as `read().splitlines()` counts them. */
  function LineCount(text: string): nat {
    |SplitLines(text)|
  }

  /** `name` is an entry get_latest_model_path may return: a `v*-*` entry with the newest creation time. */
  ghost predicate IsLatest(entries: map<string, VersionDir>, name: string) {
    name in entries && Globbed(name) &&
    forall n :: n in entries && Globbed(n) ==> entries[n].ctime <= entries[name].ctime
  }

  /**
   * check_classes_consistency: false when the latest version has no labels.txt
   * (or there is no version), else whether it has as many lines as the
   * current labels.txt. Only counts are compared. Err when the current
   * labels.txt cannot be read.
   */
  method CheckClassesConsistency(folder: ModelFolder, current: Option<string>) returns (r: Result<bool>)
    requires folder.Valid()
    modifies folder
    ensures folder.Valid() && folder.present && folder.entries == old(folder.entries)
    ensures r == Ok(true) ==> current.Some? && exists n :: (IsLatest(folder.entries, n) &&
      folder.entries[n].labels.Some? && LineCount(folder.entries[n].labels.value) == LineCount(current.value))
    ensures r == Ok(false) ==> (forall n :: n in folder.entries ==> !Globbed(n)) || exists n :: (IsLatest(folder.entries, n) &&
      (folder.entries[n].labels.None? || (current.Some? && LineCount(folder.entries[n].labels.value) != LineCount(current.value))))
    ensures r.Err? ==> current.None? && exists n :: IsLatest(folder.entries, n) && folder.entries[n].labels.Some?
  {
    var latest := folder.GetLatestModelPath();
    if latest.None? || folder.entries[latest.value].labels.None? {
      // labels.txt of the model folder itself is never written: the "first initialization" case
      return Ok(false);
    }
    if current.None? {
      return Err("labels.txt of the training data not found");
    }
    var latestCount := LineCount(folder.entries[latest.value].labels.value);
    var currentCount := LineCount(current.value);
    return Ok(latestCount == currentCount);
  }

  /** Labels written by finalize and an alias file with the same number of classes always agree. */
  lemma WrittenLabelsAgree(written: seq<string>, current: seq<string>)
    requires forall i :: 0 <= i < |written| ==> NoLineBreak(written[i]) && written[i] != []
    requires forall i :: 0 <= i < |current| ==> NoLineBreak(current[i]) && current[i] != []
    ensures LineCount(Join(written, "\n")) == LineCount(Join(current, "\n")) <==> |written| == |current|
  {
    SplitJoinedLines(written);
    SplitJoinedLines(current);
  }

  /** Deleting an entry just added gives back the dictionary as it was. */
  lemma RemoveAdded<K, V>(m: map<K, V>, k: K, v: V)
    requires k !in m
    ensures m[k := v] - {k} == m
  {
  }

  /**
   * initialize_predictor: a fresh predictor when there is no version or the
   * class counts differ, otherwise one loaded from the latest version; both
   * allocate a new `_temp` version. `loadFails` stands for the predictor
   * library raising, after which the temporary entry is deleted and the
   * process exits (Err). Err also when the consistency check raises.
   */
  method InitializePredictor(folder: ModelFolder, current: Option<string>, timestamp: string, now: int, loadFails: bool)
    returns (r: Result<(bool, string)>)
    requires folder.Valid()
    modifies folder
    ensures folder.Valid()
    ensures r.Ok? ==> (!loadFails && EndsWith(r.value.1, "_temp") && r.value.1 !in old(folder.entries) &&
      folder.entries == old(folder.entries)[r.value.1 := VersionDir(now, None, None)])
    // loading from the latest version: it exists and its labels.txt has as many lines as the current one
    ensures r.Ok? && !r.value.0 ==> current.Some? && exists n :: (IsLatest(old(folder.entries), n) &&
      old(folder.entries[n]).labels.Some? && LineCount(old(folder.entries[n]).labels.value) == LineCount(current.value))
    // a fresh predictor: no version number, or the latest version's labels are missing or differ in count
    ensures r.Ok? && r.value.0 ==> (IsVersionNumber(old(folder.present), old(folder.entries).Keys, -1) ||
      exists n :: (IsLatest(old(folder.entries), n) && (old(folder.entries[n]).labels.None? ||
        (current.Some? && LineCount(old(folder.entries[n]).labels.value) != LineCount(current.value)))))
    ensures loadFails ==> r.Err? && folder.entries == old(folder.entries)
  {
    var version := folder.GetNumberOfVersion();
    var freshStart := true;
    if version != -1 {
      var consistent := CheckClassesConsistency(folder, current);
      if consistent.Err? {
        return Err(consistent.error);
      }
      freshStart := !consistent.value;
    }
    if !freshStart {
      var latest := folder.GetLatestModelPath();
    }
    var tempName, version' := folder.SaveModelPath(true, timestamp, now);
    if loadFails {
      ghost var before := old(folder.entries);
      folder.entries := folder.entries - {tempName};
      assert folder.entries == before by { RemoveAdded(before, tempName, VersionDir(now, None, None)); }
      return Err("Failed to initialize predictor");
    }
    return Ok((freshStart, tempName));
  }
}
