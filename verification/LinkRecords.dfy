/** What a share's journal record says about its symbolic link. */
module LinkRecords {
  import opened Options
  import opened Paths

  datatype FileId = FileId(volume: nat, index: nat)

  datatype LinkPhase = Unstaged | Staging | Ready | Published

  datatype Stage = Stage(path: Path, id: FileId)

  /** The part of a share's journal record that concerns its link. */
  datatype LinkRecord = LinkRecord(path: Path, source: string, phase: LinkPhase, link: Option<FileId>, stage: Option<Stage>)

  function Fresh(path: Path, source: string): LinkRecord { LinkRecord(path, source, Unstaged, None, None) }

  const StagePrefix := ".hcsguest-stage-"

  /** A staging directory is a sibling of the link, with a private name. */
  predicate ValidStage(r: LinkRecord) {
    && r.stage.Some?
    && var p := r.stage.value.path;
    && |p| > 0 && |r.path| > 0 && p[..|p| - 1] == r.path[..|r.path| - 1]
    && StagePrefix <= p[|p| - 1] && |p[|p| - 1]| == |StagePrefix| + 32
    && r.stage.value.id.index != 0
  }
}
