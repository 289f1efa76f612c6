/** The audio extractor of apps/backend/src/services/ffmpeg.ts: the output path
    is the input path with its final extension replaced by `.mp3`, and the
    transcoder's completion or error settles the promise. */
module Ffmpeg {
  import opened Outcomes

  /** True when the pattern `\.[^/.]+$` matches `p` at `i`: a `.`, then one or
      more characters that are neither `/` nor `.`, up to the end of `p`. */
  predicate ExtensionAt(p: string, i: int)
  {
    0 <= i < |p| - 1 && p[i] == '.' &&
    forall j | i < j < |p| :: p[j] != '/' && p[j] != '.'
  }

  /** The pattern can match in at most one place: the last `.` of the path. */
  lemma ExtensionAtUnique(p: string, i: int, j: int)
    requires ExtensionAt(p, i) && ExtensionAt(p, j)
    ensures i == j
  {
  }

  /** Looks for the match, scanning back from `k` over a tail `p[k..]` already
      known to hold neither `/` nor `.`. */
  function ExtensionScan(p: string, k: nat): (r: Option<nat>)
    requires k <= |p|
    requires forall j | k <= j < |p| :: p[j] != '/' && p[j] != '.'
    ensures r.Some? ==> ExtensionAt(p, r.value)
    ensures r.None? ==> forall i :: !ExtensionAt(p, i)
    decreases k
  {
    if k == 0 then None
    else if p[k - 1] == '.' then (if k < |p| then Some(k - 1) else None)
    else if p[k - 1] == '/' then None
    else ExtensionScan(p, k - 1)
  }

  /** `inputPath.replace(/\.[^/.]+$/, '.mp3')`: the first (and only) match of
      the pattern is replaced by `.mp3`; without a match the path is kept. */
  function OutputPath(inputPath: string): (r: string)
    ensures |r| > 0 <==> |inputPath| > 0
  {
    match ExtensionScan(inputPath, |inputPath|)
    case Some(i) => inputPath[..i] + ".mp3"
    case None => inputPath
  }

  /** When the path has an extension, it is replaced by `.mp3` and everything
      before its `.` is kept, earlier dots included. */
  lemma OutputPathReplacesExtension(p: string, i: int)
    requires ExtensionAt(p, i)
    ensures OutputPath(p) == p[..i] + ".mp3"
  {
  }

  /** Only the final extension is replaced. */
  lemma OnlyFinalExtensionReplaced()
    ensures OutputPath("a.b.mp4") == "a.b.mp3"
  {
    assert ExtensionAt("a.b.mp4", 3);
    OutputPathReplacesExtension("a.b.mp4", 3);
  }

  /** A path without any `.` comes back unchanged. */
  lemma OutputPathUnchangedWithoutDot(p: string)
    requires forall k | 0 <= k < |p| :: p[k] != '.'
    ensures OutputPath(p) == p
  {
  }

  /** A path that ends in `.` comes back unchanged. */
  lemma OutputPathUnchangedTrailingDot(p: string)
    requires |p| > 0 && p[|p| - 1] == '.'
    ensures OutputPath(p) == p
  {
  }

  /** A path whose last `.` (at `dot`) is followed by a `/` (at `slash`) comes
      back unchanged: the dot belongs to a directory name, not to an extension. */
  lemma OutputPathUnchangedSlashAfterDot(p: string, dot: nat, slash: nat)
    requires dot < slash < |p| && p[dot] == '.' && p[slash] == '/'
    requires forall k | dot < k < |p| :: p[k] != '.'
    ensures OutputPath(p) == p
  {
  }

  /** Deriving the output path of an output path changes nothing. */
  lemma OutputPathIdempotent(p: string)
    ensures OutputPath(OutputPath(p)) == OutputPath(p)
  {
    var found := ExtensionScan(p, |p|);
    if found.Some? {
      var i := found.value;
      var q := p[..i] + ".mp3";
      assert ExtensionAt(q, i);
      OutputPathReplacesExtension(q, i);
      assert q[..i] == p[..i];
    }
  }

  /** Two inputs that differ only in their final extension share one output
      path: the stored file names `t-clip.mp4` and `t-clip.mov` would be
      transcoded to the same `.mp3`. */
  lemma DifferentExtensionsShareOutput(stem: string, ext1: string, ext2: string)
    requires ext1 != [] && ext2 != []
    requires forall k | 0 <= k < |ext1| :: ext1[k] != '/' && ext1[k] != '.'
    requires forall k | 0 <= k < |ext2| :: ext2[k] != '/' && ext2[k] != '.'
    ensures OutputPath(stem + "." + ext1) == OutputPath(stem + "." + ext2) == stem + ".mp3"
  {
    var p1, p2 := stem + "." + ext1, stem + "." + ext2;
    assert ExtensionAt(p1, |stem|);
    assert ExtensionAt(p2, |stem|);
    OutputPathReplacesExtension(p1, |stem|);
    OutputPathReplacesExtension(p2, |stem|);
    assert p1[..|stem|] == stem == p2[..|stem|];
  }

  /** How the transcoding run ended: its `end` event, or its `error` event
      carrying the tool's error message. */
  datatype ToolSignal = End | Error(message: string)

  /** `extractAudio(inputPath)`: resolves with the derived output path on `end`
      and rejects with the tool's error on `error`. */
  function ExtractAudio(inputPath: string, signal: ToolSignal): (r: Outcome<string>)
    ensures r.Resolved? <==> signal.End?
    ensures r.Resolved? ==> r.value == OutputPath(inputPath) && (r.value != "" <==> inputPath != "")
    ensures r.Rejected? ==> r.reason == signal.message
  {
    match signal
    case End => Resolved(OutputPath(inputPath))
    case Error(message) => Rejected(message)
  }
}
