/**
 * The names the back end derives from the per-turn uuid: the two local
 * audio files, the transcription job, the job's result object in the bucket
 * and the URI of the uploaded audio; plus JavaScript's string `replace` with
 * a string pattern, which the upload step uses to find the `.webm` twin of
 * a `.wav` file.
 */
module Naming {
  import opened Results

  const WavExtension: string := ".wav"
  const WebmExtension: string := ".webm"
  const AudioFilePrefix: string := "audio-"
  const JobNamePrefix: string := "PrepifyTranscriptionJob-"
  const ResultExtension: string := ".json"

  /** `pat` occurs in `s` starting at index `i`. */
  predicate Occurs(s: string, pat: string, i: nat) {
    i + |pat| <= |s| && s[i..i + |pat|] == pat
  }

  ghost predicate Contains(s: string, pat: string) {
    exists i: nat :: Occurs(s, pat, i)
  }

  /** The first index at or after `i` where `pat` occurs in `s`. */
  function FindFrom(s: string, pat: string, i: nat): (r: Option<nat>)
    decreases |s| - i
    ensures r.Some? ==> i <= r.value && Occurs(s, pat, r.value)
    ensures r.Some? ==> forall j: nat :: i <= j < r.value ==> !Occurs(s, pat, j)
    ensures r.None? ==> forall j: nat :: i <= j ==> !Occurs(s, pat, j)
  {
    if i + |pat| > |s| then None
    else if s[i..i + |pat|] == pat then Some(i)
    else FindFrom(s, pat, i + 1)
  }

  /** `s.indexOf(pat)`, with `None` for -1. */
  function IndexOf(s: string, pat: string): Option<nat> {
    FindFrom(s, pat, 0)
  }

  /**
   * `s.replace(pat, rep)` for a string pattern: only the first occurrence is
   * replaced, and `s` is returned unchanged when `pat` does not occur.
   * (`rep` is taken literally; the replacement strings used here hold no `$`.)
   */
  function ReplaceFirst(s: string, pat: string, rep: string): string {
    match IndexOf(s, pat)
    case None => s
    case Some(k) => s[..k] + rep + s[k + |pat|..]
  }

  /** `audio-<uuid>.wav`, the converted clip (index.js line 69). */
  function WavFileName(uuid: string): string {
    AudioFilePrefix + uuid + WavExtension
  }

  /** `audio-<uuid>.webm`, the clip as received (index.js line 70). */
  function WebmFileName(uuid: string): string {
    AudioFilePrefix + uuid + WebmExtension
  }

  /** The file the upload step deletes besides `audioFile` (index.js line 143). */
  function TwinFileName(audioFile: string): string {
    ReplaceFirst(audioFile, WavExtension, WebmExtension)
  }

  /** `PrepifyTranscriptionJob-<uuid>` (index.js line 157). */
  function JobName(uuid: string): string {
    JobNamePrefix + uuid
  }

  /** `<jobName>.json`, the object the transcription job writes (index.js line 221). */
  function ResultKey(jobName: string): string {
    jobName + ResultExtension
  }

  /** `https://<bucket>.s3.amazonaws.com/<file>` (index.js line 165). */
  function MediaFileUri(bucket: string, audioFile: string): string {
    "https://" + bucket + ".s3.amazonaws.com/" + audioFile
  }

  /** No index before `n` starts an occurrence of `.wav` in the `.wav` name of `uuid`. */
  lemma NoWavBefore(uuid: string, j: nat)
    requires !Contains(uuid, WavExtension)
    requires j < |AudioFilePrefix + uuid|
    ensures !Occurs(WavFileName(uuid), WavExtension, j)
  {
    var s := WavFileName(uuid);
    var n := |AudioFilePrefix + uuid|;
    // A window starting in `audio-` begins with a letter or `-`; a window
    // overlapping the final `.wav` would need its `.` at one of positions 1
    // to 3; a window inside the uuid would be an occurrence in the uuid.
    assert Occurs(s, WavExtension, j) ==> s[j] == '.';
    assert j < |AudioFilePrefix| ==> s[j] == AudioFilePrefix[j];
    assert n < j + 4 ==> s[j..j + 4][n - j] == s[n] == '.';
    if Occurs(s, WavExtension, j) {
      if j < |AudioFilePrefix| || n < j + 4 {
        assert false;
      } else {
        var p := j - |AudioFilePrefix|;
        assert uuid[p..p + 4] == s[j..j + 4];
        assert Occurs(uuid, WavExtension, p);
      }
    }
  }

  /**
   * The upload step finds the `.webm` file written for the same uuid exactly
   * when the uuid itself does not contain `.wav`.
   */
  lemma {:induction false} TwinOfWavIsWebm(uuid: string)
    requires !Contains(uuid, WavExtension)
    ensures TwinFileName(WavFileName(uuid)) == WebmFileName(uuid)
  {
    var s := WavFileName(uuid);
    var n := |AudioFilePrefix + uuid|;
    assert s[n..n + 4] == WavExtension;
    assert Occurs(s, WavExtension, n);
    var r := IndexOf(s, WavExtension);
    match r {
      case None =>
        assert false;
      case Some(k) =>
        if k < n {
          NoWavBefore(uuid, k);
          assert false;
        }
        assert k == n;
        assert s[..n] == AudioFilePrefix + uuid;
        assert s[n + 4..] == [];
    }
  }

  /**
   * When the uuid does contain `.wav`, the first occurrence lies inside the
   * uuid, the name keeps its `.wav` ending, and the `.webm` file is missed.
   */
  lemma {:induction false} TwinMissesWebm(uuid: string)
    requires Contains(uuid, WavExtension)
    ensures TwinFileName(WavFileName(uuid)) != WebmFileName(uuid)
  {
    var s := WavFileName(uuid);
    var p: nat :| Occurs(uuid, WavExtension, p);
    var q := |AudioFilePrefix| + p;
    assert s[q..q + 4] == uuid[p..p + 4];
    assert Occurs(s, WavExtension, q);
    match IndexOf(s, WavExtension) {
      case None =>
        assert false;
      case Some(k) =>
        assert k <= q;
        var t := s[..k] + WebmExtension + s[k + 4..];
        assert t == TwinFileName(s);
        assert t[|t| - 1] == s[|s| - 1] == 'v';
        assert WebmFileName(uuid)[|WebmFileName(uuid)| - 1] == 'm';
    }
  }

  /** Distinct uuids give distinct converted files, and so distinct keys in the bucket. */
  lemma {:induction false} WavFileNameInjective(u1: string, u2: string)
    ensures WavFileName(u1) == WavFileName(u2) ==> u1 == u2
  {
    var s1, s2 := WavFileName(u1), WavFileName(u2);
    if s1 == s2 {
      assert u1 == s1[|AudioFilePrefix|..|s1| - |WavExtension|];
      assert u2 == s2[|AudioFilePrefix|..|s2| - |WavExtension|];
    }
  }

  /** Distinct uuids give distinct received clips. */
  lemma {:induction false} WebmFileNameInjective(u1: string, u2: string)
    ensures WebmFileName(u1) == WebmFileName(u2) ==> u1 == u2
  {
    var s1, s2 := WebmFileName(u1), WebmFileName(u2);
    if s1 == s2 {
      assert u1 == s1[|AudioFilePrefix|..|s1| - |WebmExtension|];
      assert u2 == s2[|AudioFilePrefix|..|s2| - |WebmExtension|];
    }
  }

  /** Distinct uuids give distinct job names. */
  lemma {:induction false} JobNameInjective(u1: string, u2: string)
    ensures JobName(u1) == JobName(u2) ==> u1 == u2
  {
    if JobName(u1) == JobName(u2) {
      assert u1 == JobName(u1)[|JobNamePrefix|..];
      assert u2 == JobName(u2)[|JobNamePrefix|..];
    }
  }

  /** Distinct uuids give distinct result objects in the bucket. */
  lemma {:induction false} ResultKeyInjective(u1: string, u2: string)
    ensures ResultKey(JobName(u1)) == ResultKey(JobName(u2)) ==> u1 == u2
  {
    var k1, k2 := ResultKey(JobName(u1)), ResultKey(JobName(u2));
    if k1 == k2 {
      assert |u1| == |u2|;
      assert JobName(u1) == k1[..|k1| - 5];
      assert JobName(u2) == k2[..|k2| - 5];
      JobNameInjective(u1, u2);
    }
  }

  /** The uploaded audio object and any job's result object never share a key. */
  lemma AudioKeyIsNeverResultKey(u1: string, u2: string)
    ensures WavFileName(u1) != ResultKey(JobName(u2))
  {
    assert WavFileName(u1)[0] == 'a';
    assert ResultKey(JobName(u2))[0] == 'P';
  }

  /** The two local files of one turn are different files. */
  lemma WavAndWebmDiffer(uuid: string)
    ensures WavFileName(uuid) != WebmFileName(uuid)
  {
    assert |WavFileName(uuid)| + 1 == |WebmFileName(uuid)|;
  }

  /** The job names of any number of turns with pairwise distinct uuids are pairwise distinct. */
  lemma {:induction false} JobNamesDistinct(uuids: seq<string>)
    requires forall i, j :: 0 <= i < j < |uuids| ==> uuids[i] != uuids[j]
    ensures forall i, j :: 0 <= i < j < |uuids| ==> JobName(uuids[i]) != JobName(uuids[j])
  {
    forall i, j | 0 <= i < j < |uuids|
      ensures JobName(uuids[i]) != JobName(uuids[j])
    {
      JobNameInjective(uuids[i], uuids[j]);
    }
  }

  /** Within one bucket, distinct files are given distinct media URIs. */
  lemma {:induction false} MediaFileUriInjective(bucket: string, f1: string, f2: string)
    ensures MediaFileUri(bucket, f1) == MediaFileUri(bucket, f2) ==> f1 == f2
  {
    var pre := "https://" + bucket + ".s3.amazonaws.com/";
    if MediaFileUri(bucket, f1) == MediaFileUri(bucket, f2) {
      assert f1 == MediaFileUri(bucket, f1)[|pre|..];
      assert f2 == MediaFileUri(bucket, f2)[|pre|..];
    }
  }
}
