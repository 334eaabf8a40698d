/** Input checks of the harvest-mouse calculator: every measurement must be
    strictly positive before its base-10 logarithm is taken, and the first
    offending field, in declaration order, is the one reported.

    The page passes each field through `Number(...)`, so a blank field arrives
    as 0; the source's extra test `x == ""` is then the same as `x == 0` and is
    already covered by `x <= 0`. Inputs are therefore plain reals here. */
module Validation {

  /** The measurement fields a check can reject. */
  datatype Field = TailDiameter | TailLength | BodyLength

  /** Outcome of a check: accepted, or rejected naming the first bad field. */
  datatype Verdict = Ok | Err(field: Field)

  /** One field of the form together with the number entered for it. */
  datatype Entry = Entry(field: Field, value: real)

  /** Every entry of the form holds a strictly positive value. */
  predicate AllPositive(entries: seq<Entry>) {
    forall i :: 0 <= i < |entries| ==> entries[i].value > 0.0
  }

  /** Reference definition of an ordered validator: walk the fields in the
      order given and stop at the first one that is not strictly positive. */
  function FirstInvalid(entries: seq<Entry>): (r: Verdict)
    ensures r.Ok? <==> AllPositive(entries)
    ensures r.Err? ==>
      exists i :: 0 <= i < |entries| && entries[i].field == r.field && entries[i].value <= 0.0
        && forall j :: 0 <= j < i ==> entries[j].value > 0.0
    decreases |entries|
  {
    if entries == [] then Ok
    else if entries[0].value <= 0.0 then Err(entries[0].field)
    else
      var rest := FirstInvalid(entries[1..]);
      assert AllPositive(entries[1..]) ==> AllPositive(entries) by {
        if AllPositive(entries[1..]) {
          forall i | 0 <= i < |entries| ensures entries[i].value > 0.0 {
            if i > 0 { assert entries[i] == entries[1..][i - 1]; }
          }
        }
      }
      assert rest.Err? ==>
        exists i :: 0 <= i < |entries| && entries[i].field == rest.field && entries[i].value <= 0.0
          && forall j :: 0 <= j < i ==> entries[j].value > 0.0 by {
        if rest.Err? {
          var k :| 0 <= k < |entries[1..]| && entries[1..][k].field == rest.field
            && entries[1..][k].value <= 0.0 && forall j :: 0 <= j < k ==> entries[1..][j].value > 0.0;
          assert entries[k + 1] == entries[1..][k];
          forall j | 0 <= j < k + 1 ensures entries[j].value > 0.0 {
            if j > 0 { assert entries[j] == entries[1..][j - 1]; }
          }
        }
      }
      rest
  }

  /** `verifyWithDiam`: tail diameter, then tail length, then body length must
      each be greater than zero; the first that is not is reported. */
  function VerifyWithDiam(tdiam: real, tlength: real, blength: real): (r: Verdict)
    ensures r == Ok <==> tdiam > 0.0 && tlength > 0.0 && blength > 0.0
    ensures tdiam <= 0.0 ==> r == Err(TailDiameter)
    ensures tdiam > 0.0 && tlength <= 0.0 ==> r == Err(TailLength)
    ensures tdiam > 0.0 && tlength > 0.0 && blength <= 0.0 ==> r == Err(BodyLength)
  {
    if tdiam <= 0.0 then Err(TailDiameter)
    else if tlength <= 0.0 then Err(TailLength)
    else if blength <= 0.0 then Err(BodyLength)
    else Ok
  }

  /** `verifyNoDiam`: tail length, then body length must each be greater than
      zero; the first that is not is reported. */
  function VerifyNoDiam(tlength: real, blength: real): (r: Verdict)
    ensures r == Ok <==> tlength > 0.0 && blength > 0.0
    ensures tlength <= 0.0 ==> r == Err(TailLength)
    ensures tlength > 0.0 && blength <= 0.0 ==> r == Err(BodyLength)
  {
    if tlength <= 0.0 then Err(TailLength)
    else if blength <= 0.0 then Err(BodyLength)
    else Ok
  }

  /** The form of the diameter page, fields in the order they are checked. */
  function WithDiamForm(tdiam: real, tlength: real, blength: real): seq<Entry> {
    [Entry(TailDiameter, tdiam), Entry(TailLength, tlength), Entry(BodyLength, blength)]
  }

  /** The form of the page without a diameter, fields in the order they are checked. */
  function NoDiamForm(tlength: real, blength: real): seq<Entry> {
    [Entry(TailLength, tlength), Entry(BodyLength, blength)]
  }

  /** `verifyWithDiam` is the ordered first-failure check over its three
      fields: it agrees with the reference definition on every input. */
  lemma {:induction false} VerifyWithDiamIsFirstInvalid(tdiam: real, tlength: real, blength: real)
    ensures VerifyWithDiam(tdiam, tlength, blength) == FirstInvalid(WithDiamForm(tdiam, tlength, blength))
  {
    var form := WithDiamForm(tdiam, tlength, blength);
    assert form[1..] == [Entry(TailLength, tlength), Entry(BodyLength, blength)];
    assert form[1..][1..] == [Entry(BodyLength, blength)];
    assert form[1..][1..][1..] == [];
    if tdiam > 0.0 && tlength > 0.0 {
      assert FirstInvalid(form) == FirstInvalid(form[1..][1..]);
    }
  }

  /** `verifyNoDiam` is the ordered first-failure check over its two fields. */
  lemma {:induction false} VerifyNoDiamIsFirstInvalid(tlength: real, blength: real)
    ensures VerifyNoDiam(tlength, blength) == FirstInvalid(NoDiamForm(tlength, blength))
  {
    var form := NoDiamForm(tlength, blength);
    assert form[1..] == [Entry(BodyLength, blength)];
    assert form[1..][1..] == [];
  }

  /** With the diameter left out, the two pages judge tail and body length
      alike: once the diameter is accepted, both checks give the same verdict. */
  lemma PagesAgreeOnLengths(tdiam: real, tlength: real, blength: real)
    requires tdiam > 0.0
    ensures VerifyWithDiam(tdiam, tlength, blength) == VerifyNoDiam(tlength, blength)
  {
  }
}
