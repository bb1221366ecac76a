/**
  Naming of the checkpoint records written by the save task: the file
  `<step>.pth.tar` inside the checkpoint directory, holding a record with
  exactly a `model` entry and an `optimizer` entry.
 */
module Checkpoint {
  import opened Wrappers
  import Decimal

  const Extension: string := ".pth.tar"

  /** Keys of the saved record: model weights, then optimizer state. */
  const RecordKeys: seq<string> := ["model", "optimizer"]

  /** File name of the checkpoint saved at `step`. */
  function CheckpointName(step: int): string {
    Decimal.IntToString(step) + Extension
  }

  /** Recovers the step from a checkpoint file name, if it is one. */
  function ParseCheckpointName(name: string): Option<int> {
    if |name| >= |Extension| && name[|name| - |Extension|..] == Extension
    then Decimal.ParseInt(name[..|name| - |Extension|])
    else None
  }

  /** `posixpath.join(dir, name)` for two components. */
  function JoinPath(dir: string, name: string): string {
    if |name| > 0 && name[0] == '/' then name
    else if |dir| == 0 || dir[|dir| - 1] == '/' then dir + name
    else dir + "/" + name
  }

  /** `posixpath.basename`: everything after the last '/'. */
  function BaseName(path: string): string {
    if |path| == 0 || path[|path| - 1] == '/' then ""
    else BaseName(path[..|path| - 1]) + [path[|path| - 1]]
  }

  /** The name of the checkpoint saved at `step` decodes back to `step`. */
  lemma CheckpointNameRoundTrip(step: int)
    ensures ParseCheckpointName(CheckpointName(step)) == Some(step)
  {
    var name := CheckpointName(step);
    assert name[..|name| - |Extension|] == Decimal.IntToString(step);
    assert name[|name| - |Extension|..] == Extension;
    Decimal.IntRoundTrip(step);
  }

  /** Checkpoints of distinct steps have distinct file names. */
  lemma CheckpointNameInjective(a: int, b: int)
    ensures CheckpointName(a) == CheckpointName(b) ==> a == b
  {
    CheckpointNameRoundTrip(a);
    CheckpointNameRoundTrip(b);
  }

  lemma CheckpointNameHasNoSlash(step: int)
    ensures |CheckpointName(step)| > 0 && '/' !in CheckpointName(step)
  {
  }

  lemma {:induction false} BaseNameAppend(prefix: string, name: string)
    requires '/' !in name
    ensures BaseName(prefix + name) == BaseName(prefix) + name
  {
    if |name| > 0 {
      var p := prefix + name;
      assert p[..|p| - 1] == prefix + name[..|name| - 1];
      BaseNameAppend(prefix, name[..|name| - 1]);
    } else {
      assert prefix + name == prefix;
    }
  }

  /**
    Joining a directory with a slash-free name keeps the name as the last
    path component, whatever the directory looks like.
   */
  lemma JoinPathBaseName(dir: string, name: string)
    requires |name| > 0 && '/' !in name
    ensures BaseName(JoinPath(dir, name)) == name
  {
    if |dir| == 0 || dir[|dir| - 1] == '/' {
      BaseNameAppend(dir, name);
      if |dir| > 0 {
        assert dir[..|dir| - 1] + [dir[|dir| - 1]] == dir;
      }
    } else {
      BaseNameAppend(dir + "/", name);
      assert (dir + "/")[..|dir + "/"| - 1] == dir;
    }
  }

  /** `os.path.join(ckpt_path, "{}.pth.tar".format(step))`. */
  function SavePath(dir: string, step: int): string {
    JoinPath(dir, CheckpointName(step))
  }

  /**
    The checkpoint path written at `step` ends in a file name that decodes
    back to `step`, and different steps give different paths.
   */
  lemma SavePathIdentifiesStep(dir: string, step: int, other: int)
    ensures BaseName(SavePath(dir, step)) == CheckpointName(step)
    ensures ParseCheckpointName(BaseName(SavePath(dir, step))) == Some(step)
    ensures SavePath(dir, step) == SavePath(dir, other) ==> step == other
  {
    CheckpointNameHasNoSlash(step);
    CheckpointNameHasNoSlash(other);
    JoinPathBaseName(dir, CheckpointName(step));
    JoinPathBaseName(dir, CheckpointName(other));
    CheckpointNameRoundTrip(step);
    CheckpointNameRoundTrip(other);
  }
}
