/** The target-column search of the training script (`detect_target_column` in src/train.py). */
module Train {
  import opened Wrappers

  /** `config.TARGET_CANDIDATES` of src/config.py, the module the training script imports, in order of preference. */
  const TargetCandidates: seq<string> := ["MedHouseVal", "target"]

  /** The `KeyError` raised when no candidate is a column; it names the whole candidate list. */
  datatype KeyError = KeyError(candidates: seq<string>)

  /**
   * The loop of `detect_target_column` over the candidates: the index of the first candidate that
   * is a column, or `None` when the loop runs out.
   */
  function FirstPresent(candidates: seq<string>, columns: seq<string>): (r: Option<nat>)
    ensures r.Some? ==> r.value < |candidates| && candidates[r.value] in columns
    ensures r.Some? ==> forall j :: 0 <= j < r.value ==> candidates[j] !in columns
    ensures r.None? <==> forall j :: 0 <= j < |candidates| ==> candidates[j] !in columns
  {
    if |candidates| == 0 then None
    else if candidates[0] in columns then Some(0)
    else
      match FirstPresent(candidates[1..], columns)
      case Some(i) => Some(i + 1)
      case None => None
  }

  /** `detect_target_column`: the first candidate, in list order, that is among the frame's columns. */
  function DetectTargetColumn(candidates: seq<string>, columns: seq<string>): (r: Result<string, KeyError>)
    ensures r.Success? ==> r.value in candidates && r.value in columns
    ensures r.Success? ==> exists i :: 0 <= i < |candidates| && candidates[i] == r.value
                                       && forall j :: 0 <= j < i ==> candidates[j] !in columns
    ensures r.Failure? <==> forall c :: c in candidates ==> c !in columns
    ensures r.Failure? ==> r.error == KeyError(candidates)
  {
    match FirstPresent(candidates, columns)
    case Some(i) => Success(candidates[i])
    case None => Failure(KeyError(candidates))
  }

  /** Among the repository's candidates, "MedHouseVal" wins whenever it is a column, even when "target" is one too. */
  lemma PrefersMedHouseVal(columns: seq<string>)
    ensures "MedHouseVal" in columns ==> DetectTargetColumn(TargetCandidates, columns) == Success("MedHouseVal")
    ensures "MedHouseVal" !in columns && "target" in columns ==> DetectTargetColumn(TargetCandidates, columns) == Success("target")
    ensures "MedHouseVal" !in columns && "target" !in columns ==> DetectTargetColumn(TargetCandidates, columns).Failure?
  {
  }
}
