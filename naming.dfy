/** The naming convention every stage uses to agree on file locations:
    `{shot}_{task}_{element}_v{version}_{rep}_{colorspace}.####.ext` files
    inside `root/{shot}/{task}/{shot}_{task}_{element}_v{version}/{rep}_{colorspace}`.
    Every name is a pure function of its arguments. */
module Naming {
  import opened Strings
  import opened Paths

  // Frame numbering
  const DigitalStartFrame: int := 1001
  const HeadHandleFrames: int := 8
  const TailHandleFrames: int := 8
  const SequenceStartFrame: int := DigitalStartFrame - HeadHandleFrames

  // Task types, elements, representations and colorspaces
  const TaskTypePlates := "pla"
  const TaskTypeOutput := "out"
  const TaskTypeRender := "rnd"
  const TaskTypeMaya := "mya"
  const TaskTypeAsset := "ast"
  const TaskTypeComp := "cmp"
  const TaskTypeReference := "ref"
  const ElementRawPlate := "rawPlate"
  const ElementCleanPlate := "cleanPlate"
  const ElementBgPlate := "bgPlate"
  const ElementFinalComp := "finalComp"
  const RepMain := "main"
  const RepProxy := "proxy"
  const ColorspaceAcescg := "ACEScg"
  const ColorspaceSrgb := "sRGB"

  // Padding widths
  const VersionPadding: int := 3
  const FramePadding: int := 4

  /** The root of the shot tree, `/mnt/projects`. */
  const ShotTreeRoot := Path(true, ["mnt", "projects"])

  /** The sequence of a conformed shot starts its head handle before the
      first digital frame: frame 993. */
  lemma SequenceStartIs993()
    ensures SequenceStartFrame == 993 && SequenceStartFrame + HeadHandleFrames == DigitalStartFrame
  {
  }

  // ---------------------------------------------------------------------------
  // Names
  // ---------------------------------------------------------------------------

  /** `{sequence}{shot}`: plain concatenation, no separator. */
  function FormatShotName(sequence: string, shot: string): string
  {
    sequence + shot
  }

  /** `v` followed by the version zero-padded to three digits. */
  function FormatVersion(version: int): string
  {
    "v" + ZeroPadded(version, VersionPadding)
  }

  /** The frame number zero-padded to four digits. */
  function FormatFrame(frame: int): string
  {
    ZeroPadded(frame, FramePadding)
  }

  /** `{shot}_{task}_{element}_{vNNN}`: the version container's name. */
  function VersionContainerName(shotName: string, task: string, element: string, version: int): string
  {
    shotName + "_" + task + "_" + element + "_" + FormatVersion(version)
  }

  /** `{shot}_{task}_{element}_{vNNN}_{rep}_{colorspace}`. */
  function BaseFilename(shotName: string, task: string, element: string, version: int,
                        rep: string, colorspace: string): string
  {
    shotName + "_" + task + "_" + element + "_" + FormatVersion(version) + "_" + rep + "_" + colorspace
  }

  /** `{base}.{frame}.{extension}` for one frame of an image sequence. */
  function SequenceFilename(shotName: string, task: string, element: string, version: int,
                            rep: string, colorspace: string, frame: int, extension: string): string
  {
    BaseFilename(shotName, task, element, version, rep, colorspace) + "." + FormatFrame(frame) + "." + extension
  }

  /** `{base}.{extension}` for a movie; the extension defaults to `mov`. */
  function MovieFilename(shotName: string, task: string, element: string, version: int,
                         rep: string, colorspace: string, extension: string := "mov"): string
  {
    BaseFilename(shotName, task, element, version, rep, colorspace) + "." + extension
  }

  /** The colorspace directory's own name, `{rep}_{colorspace}`. */
  function ColorspaceDirName(rep: string, colorspace: string): string
  {
    rep + "_" + colorspace
  }

  // ---------------------------------------------------------------------------
  // Directory tree
  // ---------------------------------------------------------------------------

  function ShotPath(shotName: string): Path
  {
    JoinPath(ShotTreeRoot, shotName)
  }

  function TaskPath(shotName: string, task: string): Path
  {
    JoinPath(ShotPath(shotName), task)
  }

  function VersionPath(shotName: string, task: string, element: string, version: int): Path
  {
    JoinPath(TaskPath(shotName, task), VersionContainerName(shotName, task, element, version))
  }

  function ColorspacePath(shotName: string, task: string, element: string, version: int,
                          rep: string, colorspace: string): Path
  {
    JoinPath(VersionPath(shotName, task, element, version), ColorspaceDirName(rep, colorspace))
  }

  // ---------------------------------------------------------------------------
  // Properties
  // ---------------------------------------------------------------------------

  /** The shot name is the sequence followed directly by the shot: nothing
      is inserted or normalised. */
  lemma ShotNameIsConcatenation(sequence: string, shot: string)
    ensures var r := FormatShotName(sequence, shot);
      |r| == |sequence| + |shot| && r[..|sequence|] == sequence && r[|sequence|..] == shot
  {
  }

  /** Without a separator two different sequence/shot pairs can name the
      same shot. */
  lemma ShotNameIsAmbiguous()
    ensures FormatShotName("sh", "t100") == FormatShotName("sht", "100")
  {
  }

  /** `v` and then at least three digits that read back as the version; a
      version wider than three digits keeps all of its digits. */
  lemma FormatVersionShape(version: nat)
    ensures var r := FormatVersion(version);
      r[0] == 'v'
      && AllDigits(r[1..])
      && |r| == 1 + (if |Digits(version)| >= 3 then |Digits(version)| else 3)
      && r[|r| - |Digits(version)|..] == Digits(version)
      && DecimalValue(r[1..]) == version
  {
    ZeroPaddedNatural(version, VersionPadding);
    var r := FormatVersion(version);
    assert r[1..] == ZeroPadded(version, VersionPadding);
  }

  /** Four or more digits that read back as the frame number. */
  lemma FormatFrameShape(frame: nat)
    ensures var r := FormatFrame(frame);
      AllDigits(r)
      && |r| == (if |Digits(frame)| >= 4 then |Digits(frame)| else 4)
      && r[|r| - |Digits(frame)|..] == Digits(frame)
      && DecimalValue(r) == frame
  {
    ZeroPaddedNatural(frame, FramePadding);
  }

  /** Different non-negative versions give different version strings. */
  lemma FormatVersionInjective(a: nat, b: nat)
    requires FormatVersion(a) == FormatVersion(b)
    ensures a == b
  {
    FormatVersionShape(a);
    FormatVersionShape(b);
  }

  /** The documented examples: version 1 is "v001" and frame 993 is "0993". */
  lemma PaddingExamples()
    ensures FormatVersion(1) == "v001"
    ensures FormatFrame(993) == "0993"
  {
    assert Digits(1) == "1";
    assert Digits(99) == "99" by { assert Digits(9) == "9"; }
    assert Digits(993) == "993";
  }

  /** The container name, then `_`, starts every base filename of the
      container. */
  lemma ContainerPrefixesBase(shotName: string, task: string, element: string, version: int,
                              rep: string, colorspace: string)
    ensures var c := VersionContainerName(shotName, task, element, version);
      BaseFilename(shotName, task, element, version, rep, colorspace) == c + "_" + rep + "_" + colorspace
  {
  }

  /** A sequence frame's name is the base filename, a dot, the padded frame,
      a dot and the extension; a movie's name is the base filename, a dot and
      the extension. So both begin with the version container's name. */
  lemma FilenamesExtendBase(shotName: string, task: string, element: string, version: int,
                            rep: string, colorspace: string, frame: int, extension: string)
    ensures var base := BaseFilename(shotName, task, element, version, rep, colorspace);
      var container := VersionContainerName(shotName, task, element, version);
      SequenceFilename(shotName, task, element, version, rep, colorspace, frame, extension)
        == base + "." + FormatFrame(frame) + "." + extension
      && MovieFilename(shotName, task, element, version, rep, colorspace) == base + ".mov"
      && container <= base
      && base <= SequenceFilename(shotName, task, element, version, rep, colorspace, frame, extension)
      && base <= MovieFilename(shotName, task, element, version, rep, colorspace, extension)
  {
    ContainerPrefixesBase(shotName, task, element, version, rep, colorspace);
  }

  /** The documented full example. */
  lemma SequenceFilenameExample()
    ensures SequenceFilename("sht100", "pla", "rawPlate", 1, "main", "ACEScg", 993, "exr")
         == "sht100_pla_rawPlate_v001_main_ACEScg.0993.exr"
  {
    PaddingExamples();
    var container := VersionContainerName("sht100", "pla", "rawPlate", 1);
    assert container == "sht100_pla_rawPlate_v001";
    ContainerPrefixesBase("sht100", "pla", "rawPlate", 1, "main", "ACEScg");
    var base := BaseFilename("sht100", "pla", "rawPlate", 1, "main", "ACEScg");
    assert base == "sht100_pla_rawPlate_v001_main_ACEScg";
  }

  /** With names that are single path components, each level of the tree is
      the level above with exactly one component appended: the shot name, the
      task, the version container's name, then `{rep}_{colorspace}`. */
  lemma TreeNestsOneLevelAtATime(shotName: string, task: string, element: string, version: int,
                                 rep: string, colorspace: string)
    requires IsComponent(shotName) && IsComponent(task)
    requires '/' !in element && '/' !in rep && '/' !in colorspace
    ensures ShotPath(shotName) == Path(true, ShotTreeRoot.parts + [shotName])
    ensures TaskPath(shotName, task) == Path(true, ShotPath(shotName).parts + [task])
    ensures VersionPath(shotName, task, element, version)
         == Path(true, TaskPath(shotName, task).parts + [VersionContainerName(shotName, task, element, version)])
    ensures ColorspacePath(shotName, task, element, version, rep, colorspace)
         == Path(true, VersionPath(shotName, task, element, version).parts + [ColorspaceDirName(rep, colorspace)])
  {
    JoinComponent(ShotTreeRoot, shotName);
    JoinComponent(ShotPath(shotName), task);
    var container := VersionContainerName(shotName, task, element, version);
    var v := ZeroPadded(version, VersionPadding);
    assert '/' !in v by {
      if version >= 0 {
        ZeroPaddedNatural(version, VersionPadding);
        assert forall i :: 0 <= i < |v| ==> IsDigit(v[i]);
      } else {
        var d := Digits(-version);
        var s := IntToString(version);
        assert s == "-" + d;
        assert forall i :: 0 <= i < |s| ==> s[i] == '-' || IsDigit(s[i]);
        assert forall i :: 0 <= i < |v| ==> v[i] == '-' || IsDigit(v[i]);
      }
    }
    assert container == shotName + "_" + task + "_" + element + "_" + ("v" + v);
    assert '/' !in container;
    assert container != "" && container != ".";
    JoinComponent(TaskPath(shotName, task), container);
    var dir := ColorspaceDirName(rep, colorspace);
    assert dir[|rep|] == '_';
    assert '/' !in dir && dir != "" && dir != ".";
    JoinComponent(VersionPath(shotName, task, element, version), dir);
  }

  /** With relative names, each level of the tree lies inside the previous
      one, under the same absolute root. */
  lemma TreeIsNested(shotName: string, task: string, element: string, version: int,
                     rep: string, colorspace: string)
    requires |shotName| == 0 || shotName[0] != '/'
    requires |task| == 0 || task[0] != '/'
    requires |rep| == 0 || rep[0] != '/'
    ensures var s := ShotPath(shotName);
      var t := TaskPath(shotName, task);
      var v := VersionPath(shotName, task, element, version);
      var c := ColorspacePath(shotName, task, element, version, rep, colorspace);
      s.absolute && t.absolute && v.absolute && c.absolute
      && ShotTreeRoot.parts <= s.parts && s.parts <= t.parts && t.parts <= v.parts && v.parts <= c.parts
  {
    assert VersionContainerName(shotName, task, element, version)[0] != '/' by {
      if |shotName| == 0 {
        assert VersionContainerName(shotName, task, element, version)[0] == '_';
      } else {
        assert VersionContainerName(shotName, task, element, version)[0] == shotName[0];
      }
    }
    assert ColorspaceDirName(rep, colorspace)[0] != '/' by {
      if |rep| == 0 {
        assert ColorspaceDirName(rep, colorspace)[0] == '_';
      } else {
        assert ColorspaceDirName(rep, colorspace)[0] == rep[0];
      }
    }
  }

  /** The full colorspace path: the root's components, then the four names. */
  lemma ColorspacePathParts(shotName: string, task: string, element: string, version: int,
                            rep: string, colorspace: string)
    requires IsComponent(shotName) && IsComponent(task)
    requires '/' !in element && '/' !in rep && '/' !in colorspace
    ensures ColorspacePath(shotName, task, element, version, rep, colorspace)
         == Path(true, ["mnt", "projects", shotName, task,
                        VersionContainerName(shotName, task, element, version),
                        ColorspaceDirName(rep, colorspace)])
  {
    TreeNestsOneLevelAtATime(shotName, task, element, version, rep, colorspace);
  }

  /** The documented colorspace directory,
      `/mnt/projects/sht100/pla/sht100_pla_rawPlate_v001/main_ACEScg`. */
  lemma ColorspacePathExample()
    ensures ColorspacePath("sht100", "pla", "rawPlate", 1, "main", "ACEScg")
         == Path(true, ["mnt", "projects", "sht100", "pla", "sht100_pla_rawPlate_v001", "main_ACEScg"])
  {
    PaddingExamples();
    var container := VersionContainerName("sht100", "pla", "rawPlate", 1);
    var dir := ColorspaceDirName("main", "ACEScg");
    assert container == "sht100_pla_rawPlate_v001";
    assert dir == "main_ACEScg";
    ColorspacePathParts("sht100", "pla", "rawPlate", 1, "main", "ACEScg");
    assert ["mnt", "projects", "sht100", "pla", container, dir]
        == ["mnt", "projects", "sht100", "pla", "sht100_pla_rawPlate_v001", "main_ACEScg"];
  }
}
