/** The earlier shot record of the ingest pipeline: no naming fields, the
    shot name built inline, and a plates path instead of the version
    container. Its editorial, result and image-sequence records are the same
    as those of `Models` and are used from there. The handle sizes come from
    a configuration that is not part of this model, so they are parameters. */
module LegacyModels {
  import opened Values
  import opened Strings
  import opened Paths
  import Models
  import Naming

  datatype LegacyShotRecord = LegacyShotRecord(
    project: string,
    sequence: string,
    shot: string,
    editorialInfo: Models.EditorialCutInfo,
    firstFrame: int,
    lastFrame: int,
    totalFrames: Option<int>,
    sourceRawPath: Option<Path>,
    outputPlatesPath: Option<Path>,
    outputProxyPath: Option<Path>,
    processingStatus: Models.Status)
  {
    /** `{sequence}{shot}`, written out here rather than taken from the
        naming rules. */
    function ShotName(): string
    {
      sequence + shot
    }

    /** `{first}-{last}`. */
    function FrameRange(): string
    {
      IntToString(firstFrame) + "-" + IntToString(lastFrame)
    }
  }

  /** The frame layout on construction, for handles of `head` and `tail`
      frames: a given last frame is kept with the given total; otherwise the
      total is the duration plus both handles and the last frame closes that
      many frames from the first. */
  function LegacyPostInitFrames(firstFrame: int, lastFrame: Option<int>, totalFrames: Option<int>,
                                duration: int, head: int, tail: int): (r: (int, Option<int>))
    ensures lastFrame.Some? ==> r == (lastFrame.value, totalFrames)
    ensures lastFrame.None? ==> r.1 == Some(duration + head + tail) && r.0 - firstFrame + 1 == r.1.value
  {
    match lastFrame
    case Some(last) => (last, totalFrames)
    case None =>
      var total := duration + head + tail;
      (firstFrame + total - 1, Some(total))
  }

  /** The earlier shot class; `__post_init__` is folded into construction. */
  class LegacyShotInfo {
    var project: string
    var sequence: string
    var shot: string
    var editorialInfo: Models.EditorialCutInfo
    var firstFrame: int
    var lastFrame: int
    var totalFrames: Option<int>
    var sourceRawPath: Option<Path>
    var outputPlatesPath: Option<Path>
    var outputProxyPath: Option<Path>
    var processingStatus: Models.Status

    function Snapshot(): LegacyShotRecord
      reads this
    {
      LegacyShotRecord(project, sequence, shot, editorialInfo, firstFrame, lastFrame, totalFrames,
                       sourceRawPath, outputPlatesPath, outputProxyPath, processingStatus)
    }

    constructor (project: string, sequence: string, shot: string, editorialInfo: Models.EditorialCutInfo,
                 head: int, tail: int, firstFrame: int := 993, lastFrame: Option<int> := None,
                 totalFrames: Option<int> := None, sourceRawPath: Option<Path> := None,
                 outputPlatesPath: Option<Path> := None, outputProxyPath: Option<Path> := None)
      ensures var frames := LegacyPostInitFrames(firstFrame, lastFrame, totalFrames,
                                                 editorialInfo.DurationFrames(), head, tail);
        Snapshot() == LegacyShotRecord(project, sequence, shot, editorialInfo, firstFrame, frames.0,
                                       frames.1, sourceRawPath, outputPlatesPath, outputProxyPath,
                                       Models.Pending)
    {
      this.project := project;
      this.sequence := sequence;
      this.shot := shot;
      this.editorialInfo := editorialInfo;
      this.firstFrame := firstFrame;
      this.sourceRawPath := sourceRawPath;
      this.outputPlatesPath := outputPlatesPath;
      this.outputProxyPath := outputProxyPath;
      this.processingStatus := Models.Pending;
      if lastFrame.None? {
        var duration := editorialInfo.DurationFrames();
        var handles := head + tail;
        this.totalFrames := Some(duration + handles);
        this.lastFrame := firstFrame + (duration + handles) - 1;
      } else {
        this.totalFrames := totalFrames;
        this.lastFrame := lastFrame.value;
      }
    }
  }

  /** The inline shot name is the naming rules' shot name. */
  lemma LegacyShotNameAgrees(s: LegacyShotRecord)
    ensures s.ShotName() == Naming.FormatShotName(s.sequence, s.shot)
    ensures |s.ShotName()| == |s.sequence| + |s.shot| && s.sequence <= s.ShotName()
  {
    Naming.ShotNameIsConcatenation(s.sequence, s.shot);
  }

  /** The inline frame range is the current record's `{first}-{last}` for
      the same frames, so it splits back into the two numbers as that one
      does. */
  lemma LegacyFrameRangeAgrees(s: LegacyShotRecord, t: Models.ShotRecord)
    requires t.firstFrame == s.firstFrame && t.lastFrame == s.lastFrame
    ensures s.FrameRange() == t.FrameRange()
    ensures s.firstFrame >= 0 && s.lastFrame >= 0 ==>
      Split(s.FrameRange(), '-') == [IntToString(s.firstFrame), IntToString(s.lastFrame)]
  {
    if s.firstFrame >= 0 && s.lastFrame >= 0 {
      Models.FrameRangeSplits(t);
    }
  }

  /** With the current handles of 8 and 8 frames the earlier layout is the
      current one. */
  lemma LegacyLayoutAgrees(firstFrame: int, lastFrame: Option<int>, totalFrames: Option<int>, duration: int)
    ensures LegacyPostInitFrames(firstFrame, lastFrame, totalFrames, duration,
                                 Naming.HeadHandleFrames, Naming.TailHandleFrames)
         == Models.PostInitFrames(firstFrame, lastFrame, totalFrames, duration)
  {
  }
}
