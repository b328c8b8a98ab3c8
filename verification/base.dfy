/** Failure-carrying results shared by every stage of the evaluation. */
module Base {

  /** The value of a lookup or a conversion that may have nothing to give. */
  datatype Option<+T> = None | Some(value: T)

  /** Every way a scoring run can stop early. */
  datatype Error =
    | MissingField(index: nat)        // a record has no field at this position
    | NotAnInteger(text: string)      // an offset field the integer parser rejects
    | UnknownDocument(doc: string)    // a prediction names a document absent from the gold file
    | DivisionByZero                  // a ratio whose denominator is empty

  /** Either the computed value or the error that stopped the computation. */
  datatype Result<+T> = Success(value: T) | Failure(error: Error)

  /** Gathers the values of a sequence of results in order, or gives the first failure. */
  function Collect<T>(items: seq<Result<T>>): (r: Result<seq<T>>)
    ensures r.Success? <==> forall m :: 0 <= m < |items| ==> items[m].Success?
    ensures r.Success? ==> |r.value| == |items| && forall m :: 0 <= m < |items| ==> items[m] == Success(r.value[m])
    ensures r.Failure? ==>
      exists m :: 0 <= m < |items| && items[m] == Failure(r.error) && (forall j :: 0 <= j < m ==> items[j].Success?)
  {
    if |items| == 0 then Success([])
    else
      var init := items[..|items| - 1];
      assert forall m :: 0 <= m < |init| ==> init[m] == items[m];
      match Collect(init)
      case Failure(e) =>
        var m :| 0 <= m < |init| && init[m] == Failure(e) && forall j :: 0 <= j < m ==> init[j].Success?;
        assert items[m] == Failure(e);
        Failure(e)
      case Success(vs) =>
        match items[|items| - 1]
        case Failure(e) => Failure(e)
        case Success(v) => Success(vs + [v])
  }
}
