/**
  One-hot expansion of one categorical field into a name-to-value
  dictionary: for each category, in order, the column `prefix + category`
  is set to 1 when it is the selection and to 0 otherwise.
 */
module OneHot {
  import opened Values
  import opened OrderForm

  /** The column names a field's indicators occupy. */
  function Columns(prefix: string, categories: seq<string>): set<string> {
    set c | c in categories :: prefix + c
  }

  /**
    The expansion loop: writes one indicator per category, overwriting an
    existing entry of the same name. Columns outside the field's are left
    as they were.
   */
  function Write(d: map<string, Value>, prefix: string, categories: seq<string>, selected: string)
    : (r: map<string, Value>)
    ensures r.Keys == d.Keys + Columns(prefix, categories)
    ensures forall c {:trigger c in categories} :: c in categories ==> r[prefix + c] == Flag(c == selected)
    ensures forall k :: k in d && k !in Columns(prefix, categories) ==> r[k] == d[k]
    decreases |categories|
  {
    if categories == [] then d
    else
      var c := categories[0];
      var rest := categories[1..];
      SamePrefixInjective(prefix);
      var r := Write(d[prefix + c := Flag(c == selected)], prefix, rest, selected);
      assert forall c' {:trigger c' in categories} :: c' in categories ==> c' == c || c' in rest;
      r
  }

  /** Two columns of one field have the same name only for the same category. */
  lemma SamePrefixInjective(prefix: string)
    ensures forall a, b :: prefix + a == prefix + b ==> a == b
  {
    forall a, b | prefix + a == prefix + b ensures a == b {
      assert a == (prefix + a)[|prefix|..];
      assert b == (prefix + b)[|prefix|..];
    }
  }

  /** How many of the field's indicator columns hold 1. */
  function HotCount(m: map<string, Value>, prefix: string, categories: seq<string>): nat
    requires Columns(prefix, categories) <= m.Keys
    decreases |categories|
  {
    if categories == [] then 0
    else
      assert prefix + categories[0] in Columns(prefix, categories);
      (if m[prefix + categories[0]] == One then 1 else 0) + HotCount(m, prefix, categories[1..])
  }

  /**
    When every indicator of a field reflects the same selection, exactly
    one of them is 1 if the selection has a column, and none otherwise.
   */
  lemma {:induction false} HotCountOfSelection(
    m: map<string, Value>, prefix: string, categories: seq<string>, selected: string)
    requires Distinct(categories)
    requires Columns(prefix, categories) <= m.Keys
    requires forall c :: c in categories ==> m[prefix + c] == Flag(c == selected)
    ensures HotCount(m, prefix, categories) == if selected in categories then 1 else 0
    decreases |categories|
  {
    if categories != [] {
      var rest := categories[1..];
      assert Columns(prefix, rest) <= Columns(prefix, categories);
      assert Distinct(rest) by {
        forall i, j | 0 <= i < j < |rest| ensures rest[i] != rest[j] {
          assert rest[i] == categories[i + 1] && rest[j] == categories[j + 1];
        }
      }
      HotCountOfSelection(m, prefix, rest, selected);
      assert selected in categories <==> selected == categories[0] || selected in rest;
      if selected == categories[0] {
        assert selected !in rest by {
          forall j | 0 <= j < |rest| ensures rest[j] != selected {
            assert rest[j] == categories[j + 1];
          }
        }
      }
    }
  }
}
