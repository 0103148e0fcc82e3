/**
  The feature-vector builder of app.py:39-80: the feature dictionary of a
  form submission, reconciled against the training column manifest.
 */
module Encoder {
  import opened Values
  import opened OrderForm
  import opened OneHot
  import opened Features
  import opened Frame

  /**
    The row handed to the classifier. It has the manifest's shape and
    order, and a manifest column no form field populates is 0.
   */
  function Encode(o: RawOrder, manifest: seq<string>): (row: seq<Column>)
    ensures |row| == |manifest|
    ensures forall i :: 0 <= i < |row| ==> row[i].name == manifest[i]
    ensures forall i :: 0 <= i < |row| && manifest[i] !in GeneratedKeys() ==> row[i].value == Zero
  {
    Reconcile(Build(o), manifest)
  }

  /** A manifest column naming a numeric input carries that input unchanged. */
  lemma EncodeNumeric(o: RawOrder, manifest: seq<string>, i: nat, m: Measure)
    requires i < |manifest| && manifest[i] == Name(m)
    ensures Encode(o, manifest)[i].value == Reading(o, m)
  {
    NumericPassThrough(o, m);
  }

  /** A manifest column naming an indicator is 1 exactly when its category is selected. */
  lemma EncodeIndicator(o: RawOrder, manifest: seq<string>, i: nat, f: Field, c: string)
    requires i < |manifest| && c in Categories(f) && manifest[i] == Prefix(f) + c
    ensures Encode(o, manifest)[i].value == Flag(c == Selected(o, f))
  {
    IndicatorValues(o, f, c);
  }

  /**
    The derivation rule of a column name, stated independently of the
    loops: a numeric input's name carries that input, an indicator column
    carries 1 or 0 by its field's selection, any other name carries 0.
   */
  ghost function Derivation(o: RawOrder, k: string): Value {
    if exists m :: Name(m) == k then
      var m :| Name(m) == k; Reading(o, m)
    else if exists f, c :: c in Categories(f) && Prefix(f) + c == k then
      var f, c :| c in Categories(f) && Prefix(f) + c == k; Flag(c == Selected(o, f))
    else
      Zero
  }

  /** A numeric input's name derives that input. */
  lemma DerivationOfName(o: RawOrder, m: Measure)
    ensures Derivation(o, Name(m)) == Reading(o, m)
  {
  }

  /** An indicator column derives 1 or 0 by its own field's selection. */
  lemma DerivationOfIndicator(o: RawOrder, f: Field, c: string)
    requires c in Categories(f)
    ensures Derivation(o, Prefix(f) + c) == Flag(c == Selected(o, f))
  {
    GeneratedKeysDistinct();
    assert !exists m :: Name(m) == Prefix(f) + c;
  }

  /** Every cell of the row is what the derivation rule gives for its column. */
  lemma EncodeIsDerivation(o: RawOrder, manifest: seq<string>)
    ensures forall i :: 0 <= i < |manifest| ==>
      Encode(o, manifest)[i] == Column(manifest[i], Derivation(o, manifest[i]))
  {
    forall i | 0 <= i < |manifest|
      ensures Encode(o, manifest)[i] == Column(manifest[i], Derivation(o, manifest[i]))
    {
      var k := manifest[i];
      if exists m :: Name(m) == k {
        var m :| Name(m) == k;
        EncodeNumeric(o, manifest, i, m);
        DerivationOfName(o, m);
      } else if exists f, c :: c in Categories(f) && Prefix(f) + c == k {
        var f, c :| c in Categories(f) && Prefix(f) + c == k;
        EncodeIndicator(o, manifest, i, f, c);
        DerivationOfIndicator(o, f, c);
      } else {
        assert k !in GeneratedKeys();
      }
    }
  }

  /** For a submission within the widgets' bounds, every cell of the row is non-negative. */
  lemma EncodeNonNegative(o: RawOrder, manifest: seq<string>)
    requires Valid(o)
    ensures forall i :: 0 <= i < |manifest| ==> NonNegative(Encode(o, manifest)[i].value)
  {
    var d := Build(o);
    BuildNonNegative(o);
    var row := Encode(o, manifest);
    assert row == Reconcile(d, manifest);
    forall i | 0 <= i < |manifest| ensures NonNegative(row[i].value) {
      if manifest[i] in d {
        assert row[i].value == d[manifest[i]];
      }
    }
  }

  /**
    A pick-up order paid in cash on a Monday: the delivery indicator and all
    payment indicators are 0, Monday's indicator is 1 and every other day's is 0.
   */
  lemma PickUpMondayCash(o: RawOrder, manifest: seq<string>, i: nat, f: Field, c: string)
    requires o.deliveryType == "pick-up" && o.paymentMethod == "cash" && o.dayOfWeek == "Mon"
    requires i < |manifest| && c in Categories(f) && manifest[i] == Prefix(f) + c
    ensures f == DeliveryType ==> Encode(o, manifest)[i].value == Zero
    ensures f == PaymentMethod ==> Encode(o, manifest)[i].value == Zero
    ensures f == DayOfWeek ==> (Encode(o, manifest)[i].value == One <==> c == "Mon")
    ensures f == DayOfWeek ==> (Encode(o, manifest)[i].value == Zero <==> c != "Mon")
  {
    EncodeIndicator(o, manifest, i, f, c);
    ReferenceCategories(f);
  }
}
