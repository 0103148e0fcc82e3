/**
  The feature dictionary: the numeric inputs under their canonical names,
  followed by the one-hot indicators of each single-select input, written
  field by field.
 */
module Features {
  import opened Values
  import opened OrderForm
  import opened OneHot

  /** The numeric inputs, in the order of the dictionary literal. */
  const Measures: seq<Measure> :=
    [OrderAmount, NumberOfItems, DistanceKm, CustomerRating, PreviousCancellations, DeliveryDurationMin]

  /** The single-select inputs, in the order their indicators are written. */
  const WriteOrder: seq<Field> := [DeliveryType, PaymentMethod, DayOfWeek, Restaurant, City]

  /** The indicator columns of one field. */
  function FieldKeys(f: Field): set<string> {
    Columns(Prefix(f), Categories(f))
  }

  /** The canonical names of the numeric inputs. */
  function NumericKeys(): set<string> {
    set m | m in Measures :: Name(m)
  }

  /** The indicator columns of the fields in `fs`. */
  function IndicatorKeys(fs: seq<Field>): set<string> {
    set f, c | f in fs && c in Categories(f) :: Prefix(f) + c
  }

  /** Every column name the form's fields can populate. */
  function GeneratedKeys(): set<string> {
    NumericKeys() + IndicatorKeys(WriteOrder)
  }

  /**
    The dictionary literal holding the six numeric inputs: every numeric
    input under its canonical name, and nothing else.
   */
  function Numeric(o: RawOrder): (d: map<string, Value>)
    ensures d.Keys == NumericKeys()
    ensures forall m :: Name(m) in d && d[Name(m)] == Reading(o, m)
  {
    var d := map[
      "order_amount" := Float(o.orderAmount),
      "number_of_items" := Int(o.numberOfItems),
      "distance_km" := Float(o.distanceKm),
      "customer_rating" := Float(o.customerRating),
      "previous_cancellations" := Int(o.previousCancellations),
      "delivery_duration_min" := Int(o.deliveryDurationMin)];
    assert d[Name(OrderAmount)] == Reading(o, OrderAmount);
    assert d[Name(NumberOfItems)] == Reading(o, NumberOfItems);
    assert d[Name(DistanceKm)] == Reading(o, DistanceKm);
    assert d[Name(CustomerRating)] == Reading(o, CustomerRating);
    assert d[Name(PreviousCancellations)] == Reading(o, PreviousCancellations);
    assert d[Name(DeliveryDurationMin)] == Reading(o, DeliveryDurationMin);
    assert d.Keys == {Name(OrderAmount), Name(NumberOfItems), Name(DistanceKm),
      Name(CustomerRating), Name(PreviousCancellations), Name(DeliveryDurationMin)};
    d
  }

  /** Two names that differ at position `i` keep differing whatever follows them. */
  lemma ApartAt(p: string, q: string, i: nat)
    requires i < |p| && i < |q| && p[i] != q[i]
    ensures forall s, t :: p + s != q + t
  {
    forall s, t ensures p + s != q + t {
      assert (p + s)[i] == p[i] && (q + t)[i] == q[i];
    }
  }

  /**
    No two generated columns share a name: the numeric names are distinct,
    none of them is an indicator column, and an indicator column names
    exactly one field and one category.
   */
  lemma GeneratedKeysDistinct()
    ensures forall m, m' :: Name(m) == Name(m') ==> m == m'
    ensures forall m, f, c :: Name(m) != Prefix(f) + c
    ensures forall f, g, c, c' :: Prefix(f) + c == Prefix(g) + c' ==> f == g && c == c'
  {
    forall m, f, c ensures Name(m) != Prefix(f) + c {
      // Only "delivery_duration_min" and "delivery_type_" agree on their first two
      // characters; they first differ at position 9.
      var i := if Name(m)[0] != Prefix(f)[0] then 0 else if Name(m)[1] != Prefix(f)[1] then 1 else 9;
      ApartAt(Name(m), Prefix(f), i);
      assert Name(m) == Name(m) + [];
    }
    forall f, g, c, c' | Prefix(f) + c == Prefix(g) + c' ensures f == g && c == c' {
      if f != g {
        var i := if Prefix(f)[0] != Prefix(g)[0] then 0 else 1;
        ApartAt(Prefix(f), Prefix(g), i);
      } else {
        SamePrefixInjective(Prefix(f));
      }
    }
  }

  /**
    The indicator loops of app.py run one after another; each field's loop
    is `OneHot.Write` with that field's prefix, categories and selection.
   */
  function WriteFields(d: map<string, Value>, o: RawOrder, fs: seq<Field>): (r: map<string, Value>)
    ensures r.Keys == d.Keys + IndicatorKeys(fs)
    ensures forall k :: k in d && k !in IndicatorKeys(fs) ==> r[k] == d[k]
    decreases |fs|
  {
    if fs == [] then d
    else
      var f := fs[0];
      assert IndicatorKeys(fs) == FieldKeys(f) + IndicatorKeys(fs[1..]);
      WriteFields(Write(d, Prefix(f), Categories(f), Selected(o, f)), o, fs[1..])
  }

  /** A field's indicator column is not among the columns of fields other than it. */
  lemma OutsideOtherFields(f: Field, c: string, fs: seq<Field>)
    requires f !in fs
    ensures Prefix(f) + c !in IndicatorKeys(fs)
  {
    GeneratedKeysDistinct();
    forall h, c' | h in fs && c' in Categories(h) ensures Prefix(h) + c' != Prefix(f) + c {
      assert h != f;
    }
  }

  /**
    When no field is written twice, every indicator ends up reflecting its
    own field's selection: a later field's loop never overwrites it.
   */
  lemma {:induction false} WriteFieldsIndicator(
    d: map<string, Value>, o: RawOrder, fs: seq<Field>, f: Field, c: string)
    requires forall i, j :: 0 <= i < j < |fs| ==> fs[i] != fs[j]
    requires f in fs && c in Categories(f)
    ensures Prefix(f) + c in WriteFields(d, o, fs)
    ensures WriteFields(d, o, fs)[Prefix(f) + c] == Flag(c == Selected(o, f))
    decreases |fs|
  {
    var g := fs[0];
    var rest := fs[1..];
    var d' := Write(d, Prefix(g), Categories(g), Selected(o, g));
    assert WriteFields(d, o, fs) == WriteFields(d', o, rest);
    if f == g {
      assert f !in rest by {
        forall j | 0 <= j < |rest| ensures rest[j] != f {
          assert rest[j] == fs[j + 1];
        }
      }
      OutsideOtherFields(f, c, rest);
    } else {
      assert f in rest;
      assert forall i, j :: 0 <= i < j < |rest| ==> rest[i] != rest[j] by {
        forall i, j | 0 <= i < j < |rest| ensures rest[i] != rest[j] {
          assert rest[i] == fs[i + 1] && rest[j] == fs[j + 1];
        }
      }
      WriteFieldsIndicator(d', o, rest, f, c);
    }
  }

  /**
    The complete feature dictionary of app.py:39-67: it holds exactly the
    numeric names and every field's indicator columns.
   */
  function Build(o: RawOrder): (d: map<string, Value>)
    ensures d.Keys == GeneratedKeys()
  {
    WriteFields(Numeric(o), o, WriteOrder)
  }

  /** Each numeric input is found under its canonical name, unchanged. */
  lemma NumericPassThrough(o: RawOrder, m: Measure)
    ensures Name(m) in Build(o) && Build(o)[Name(m)] == Reading(o, m)
  {
    assert Name(m) !in IndicatorKeys(WriteOrder) by {
      GeneratedKeysDistinct();
    }
  }

  /** Each indicator column is 1 exactly when its category is the selection. */
  lemma IndicatorValues(o: RawOrder, f: Field, c: string)
    requires c in Categories(f)
    ensures Prefix(f) + c in Build(o) && Build(o)[Prefix(f) + c] == Flag(c == Selected(o, f))
  {
    WriteFieldsIndicator(Numeric(o), o, WriteOrder, f, c);
  }

  /**
    For a listed selection, exactly one of a field's indicators is 1,
    except that the reference categories "pick-up" and "cash" set none.
   */
  lemma ExactlyOneHot(o: RawOrder, f: Field)
    requires Selected(o, f) in Options(f)
    ensures FieldKeys(f) <= Build(o).Keys
    ensures HotCount(Build(o), Prefix(f), Categories(f)) == if Selected(o, f) in Categories(f) then 1 else 0
    ensures f in {DayOfWeek, Restaurant, City} ==> HotCount(Build(o), Prefix(f), Categories(f)) == 1
    ensures f == PaymentMethod ==>
      (HotCount(Build(o), Prefix(f), Categories(f)) == 0 <==> Selected(o, f) == "cash")
    ensures f == DeliveryType ==>
      (HotCount(Build(o), Prefix(f), Categories(f)) == 0 <==> Selected(o, f) == "pick-up")
  {
    ReferenceCategories(f);
    var d := Build(o);
    assert f in WriteOrder;
    forall c | c in Categories(f) ensures d[Prefix(f) + c] == Flag(c == Selected(o, f)) {
      IndicatorValues(o, f, c);
    }
    HotCountOfSelection(d, Prefix(f), Categories(f), Selected(o, f));
  }

  /** Within the widgets' bounds every numeric input is non-negative. */
  lemma ReadingNonNegative(o: RawOrder, m: Measure)
    requires Valid(o)
    ensures NonNegative(Reading(o, m))
  {
  }

  /** Within the widgets' bounds every entry of the dictionary is non-negative. */
  lemma BuildNonNegative(o: RawOrder)
    requires Valid(o)
    ensures forall k :: k in Build(o) ==> NonNegative(Build(o)[k])
  {
    var d := Build(o);
    forall k | k in d ensures NonNegative(d[k]) {
      if k in NumericKeys() {
        var m :| m in Measures && k == Name(m);
        NumericPassThrough(o, m);
        ReadingNonNegative(o, m);
      } else {
        var f, c :| f in WriteOrder && c in Categories(f) && k == Prefix(f) + c;
        IndicatorValues(o, f, c);
      }
    }
  }
}
