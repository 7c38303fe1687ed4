/** The ways a training run of serifs/gen/train.py can fail inside the modelled
    code, and the result types used to carry them. Python raises an exception;
    the model returns an `Err` and the caller stops, as the exception would. */
module Faults {

  datatype Fault =
    | EmptyTrainLoader    // avg_loss divides by len(train_loader)
    | EmptyValLoader      // evaluate divides by len(val_loader)
    | EmptyScoringBatch   // get_scores divides a batch sum by len(mol_list)
    | EmptyScoringLoader  // get_scores divides the batch-mean sums by len(scoring_loader)
    | MissingKey          // fp_score looks up a key row past the end of the key table
    | ZeroBitTotal        // fp_score divides by the sum of the fingerprint entries

  datatype Result<T> = Ok(value: T) | Err(fault: Fault)

  datatype Option<T> = None | Some(value: T)

  /** Evaluates a sequence of fallible steps in order: the values of all of
      them, or the fault of the first one that failed. */
  function Collect<T>(rs: seq<Result<T>>): (r: Result<seq<T>>)
    ensures r.Ok? ==> |r.value| == |rs| && forall i :: 0 <= i < |rs| ==> rs[i] == Ok(r.value[i])
  {
    if |rs| == 0 then Ok([])
    else
      var init := rs[..|rs| - 1];
      assert forall i :: 0 <= i < |init| ==> init[i] == rs[i];
      match Collect(init)
      case Err(f) => Err(f)
      case Ok(xs) =>
        match rs[|rs| - 1]
        case Err(f) => Err(f)
        case Ok(x) => Ok(xs + [x])
  }

  /** A failed collection carries the fault of the first step that failed. */
  lemma {:induction false} CollectFirstFault<T>(rs: seq<Result<T>>)
    requires Collect(rs).Err?
    ensures exists i :: 0 <= i < |rs| && rs[i] == Err(Collect(rs).fault) && forall j :: 0 <= j < i ==> rs[j].Ok?
  {
    var init := rs[..|rs| - 1];
    assert forall i :: 0 <= i < |init| ==> init[i] == rs[i];
    if Collect(init).Err? {
      CollectFirstFault(init);
    } else {
      assert rs[|rs| - 1] == Err(Collect(rs).fault);
    }
  }

  /** Once a prefix has failed, the whole sequence fails with the same fault:
      later steps are never run. */
  lemma {:induction false} CollectKeepsFirstFault<T>(rs: seq<Result<T>>, i: nat)
    requires i <= |rs| && Collect(rs[..i]).Err?
    ensures Collect(rs) == Collect(rs[..i])
  {
    if i < |rs| {
      var init := rs[..|rs| - 1];
      assert init[..i] == rs[..i];
      CollectKeepsFirstFault(init, i);
    } else {
      assert rs[..i] == rs;
    }
  }

  /** A sequence of steps that all succeed is collected without fault. */
  lemma CollectAllOk<T>(rs: seq<Result<T>>)
    requires forall i :: 0 <= i < |rs| ==> rs[i].Ok?
    ensures Collect(rs).Ok?
  {
  }

  /** One more step of a collection so far successful: a success extends
      the values by its value, a failure is the fault of the whole sequence. */
  lemma CollectStep<T>(rs: seq<Result<T>>, i: nat, xs: seq<T>, x: Result<T>)
    requires i < |rs| && Collect(rs[..i]) == Ok(xs) && rs[i] == x
    ensures x.Ok? ==> Collect(rs[..i + 1]) == Ok(xs + [x.value])
    ensures x.Err? ==> Collect(rs) == Err(x.fault)
  {
    assert rs[..i + 1][..i] == rs[..i];
    if x.Err? {
      CollectKeepsFirstFault(rs, i + 1);
    }
  }
}
