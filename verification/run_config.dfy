/**
  The start-up checks and path suffixes of the training entry point: which
  model kinds are accepted, which checkpoint/log family a kind trains into,
  and how the optional path tag is appended.
 */
module RunConfig {
  import opened Wrappers

  datatype ConfigError =
    | RestoreBeforeAux(restoreStep: int, totalStepAux: int) // shallow must resume past the aux run
    | UnknownModel(model: string)                         // NotImplementedError

  /** The three directories the run writes to. */
  datatype Paths = Paths(ckptPath: string, logPath: string, resultPath: string)

  /** The training family a model kind belongs to: aux and shallow share one. */
  function TrainTag(model: string): Option<string> {
    if model == "aux" || model == "shallow" then Some("shallow")
    else if model == "naive" then Some("naive")
    else None
  }

  /** The user tag, with a separating underscore unless it is empty. */
  function PathTag(tag: string): string {
    if tag != "" then "_" + tag else tag
  }

  /** `"_{}{}".format(name, pathTag)`. */
  function Suffix(name: string, pathTag: string): string {
    "_" + name + PathTag(pathTag)
  }

  /**
    Checks the run settings and derives the run's directories from the
    configured base directories.
   */
  function Configure(model: string, restoreStep: int, totalStepAux: int, pathTag: string, base: Paths)
    : (r: Result<Paths, ConfigError>)
    ensures r.Success? <==>
      model == "naive" || model == "aux" || (model == "shallow" && restoreStep >= totalStepAux)
    ensures r.Failure? && r.error.RestoreBeforeAux? <==> model == "shallow" && restoreStep < totalStepAux
    ensures r.Success? ==>
      && base.ckptPath < r.value.ckptPath
      && base.logPath < r.value.logPath
      && base.resultPath < r.value.resultPath
  {
    if model == "shallow" && restoreStep < totalStepAux then Failure(RestoreBeforeAux(restoreStep, totalStepAux))
    else match TrainTag(model)
      case None => Failure(UnknownModel(model))
      case Some(tag) =>
        Success(Paths(
          base.ckptPath + Suffix(tag, pathTag),
          base.logPath + Suffix(tag, pathTag),
          base.resultPath + Suffix(model, pathTag)))
  }

  /**
    Reads a suffix back into the training-family name and the user tag. The
    family names contain no underscore, so the split is unambiguous.
   */
  function ParseSuffix(suffix: string): Option<(string, string)> {
    if |suffix| >= 8 && suffix[..8] == "_shallow" then ParseTail("shallow", suffix[8..])
    else if |suffix| >= 6 && suffix[..6] == "_naive" then ParseTail("naive", suffix[6..])
    else None
  }

  /** Reads what follows the family name back into the user tag. */
  function ParseTail(name: string, tail: string): Option<(string, string)> {
    if tail == "" then Some((name, ""))
    else if tail[0] == '_' && |tail| > 1 then Some((name, tail[1..]))
    else None
  }

  /** The checkpoint and log suffixes determine the family and the user tag. */
  lemma SuffixRoundTrip(name: string, pathTag: string)
    requires name == "shallow" || name == "naive"
    ensures ParseSuffix(Suffix(name, pathTag)) == Some((name, pathTag))
  {
    var s := Suffix(name, pathTag);
    var tail := PathTag(pathTag);
    var head := "_" + name;
    assert s == head + tail;
    assert s[..|head|] == head && s[|head|..] == tail;
    if pathTag != "" {
      assert tail == "_" + pathTag;
      assert tail[0] == '_' && tail[1..] == pathTag;
    }
    assert ParseTail(name, tail) == Some((name, pathTag));
  }

  /**
    The directories of an accepted run: checkpoints and logs carry the
    family and the tag, and can be decoded back to them; results carry the
    model kind itself.
   */
  lemma ConfigurePaths(model: string, restoreStep: int, totalStepAux: int, pathTag: string, base: Paths)
    ensures var r := Configure(model, restoreStep, totalStepAux, pathTag, base);
      r.Success? ==>
        var tag := TrainTag(model).value;
        && ParseSuffix(r.value.ckptPath[|base.ckptPath|..]) == Some((tag, pathTag))
        && ParseSuffix(r.value.logPath[|base.logPath|..]) == Some((tag, pathTag))
        && r.value.resultPath[|base.resultPath|..] == "_" + model + PathTag(pathTag)
  {
    var r := Configure(model, restoreStep, totalStepAux, pathTag, base);
    if r.Success? {
      var tag := TrainTag(model).value;
      SuffixRoundTrip(tag, pathTag);
      assert r.value.ckptPath[|base.ckptPath|..] == Suffix(tag, pathTag);
      assert r.value.logPath[|base.logPath|..] == Suffix(tag, pathTag);
      assert r.value.resultPath[|base.resultPath|..] == Suffix(model, pathTag);
    }
  }

  /**
    An accepted aux run and an accepted shallow run with the same tag train
    into the same checkpoint and log directories (so the shallow run can
    resume from the aux checkpoints) but write results apart.
   */
  lemma AuxAndShallowShareCheckpoints(restoreAux: int, restoreShallow: int, totalStepAux: int, pathTag: string, base: Paths)
    ensures var a := Configure("aux", restoreAux, totalStepAux, pathTag, base);
      var s := Configure("shallow", restoreShallow, totalStepAux, pathTag, base);
      a.Success? && s.Success? ==>
        && a.value.ckptPath == s.value.ckptPath
        && a.value.logPath == s.value.logPath
        && a.value.resultPath != s.value.resultPath
  {
    var a := Configure("aux", restoreAux, totalStepAux, pathTag, base);
    var s := Configure("shallow", restoreShallow, totalStepAux, pathTag, base);
    if a.Success? && s.Success? {
      var ra := a.value.resultPath;
      var rs := s.value.resultPath;
      var n := |base.resultPath|;
      assert ra[n + 1] == 'a' && rs[n + 1] == 's';
    }
  }
}
