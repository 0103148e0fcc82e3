/**
  Reconciliation of the feature dictionary with the training column
  manifest: every manifest column the dictionary lacks is added with value
  0, then the row is cut down to the manifest's columns in the manifest's
  order.
 */
module Frame {
  import opened Values

  /** A named cell of the single-row frame. */
  datatype Column = Column(name: string, value: Value)

  /** Column selection either yields the row or fails on a missing column, as pandas does. */
  datatype Selection = Row(columns: seq<Column>) | KeyError(missing: string)

  /**
    The zero-fill loop: walks the manifest and adds each column not yet
    present with value 0. Entries already present are never touched.
   */
  function FillMissing(m: map<string, Value>, manifest: seq<string>): (r: map<string, Value>)
    ensures r.Keys == m.Keys + set c | c in manifest
    ensures forall k :: k in m ==> r[k] == m[k]
    ensures forall k :: k in r && k !in m ==> r[k] == Zero
    decreases |manifest|
  {
    if manifest == [] then m
    else
      var c := manifest[0];
      FillMissing(if c in m then m else m[c := Zero], manifest[1..])
  }

  /**
    `frame[manifest]`: the manifest's columns in the manifest's order,
    extra entries dropped; a manifest column that is absent raises.
   */
  function Select(m: map<string, Value>, manifest: seq<string>): (r: Selection)
    ensures r.Row? <==> forall c :: c in manifest ==> c in m
    ensures r.Row? ==> |r.columns| == |manifest|
    ensures r.Row? ==> forall i :: 0 <= i < |manifest| ==> r.columns[i] == Column(manifest[i], m[manifest[i]])
    ensures r.KeyError? ==> r.missing in manifest && r.missing !in m
    decreases |manifest|
  {
    if manifest == [] then Row([])
    else if manifest[0] !in m then KeyError(manifest[0])
    else
      match Select(m, manifest[1..])
      case Row(rest) => Row([Column(manifest[0], m[manifest[0]])] + rest)
      case KeyError(missing) => KeyError(missing)
  }

  /**
    The reference row: position i holds the dictionary's value for
    manifest column i, or 0 when the dictionary has none.
   */
  function Project(m: map<string, Value>, manifest: seq<string>): seq<Column> {
    seq(|manifest|, i requires 0 <= i < |manifest| =>
      Column(manifest[i], if manifest[i] in m then m[manifest[i]] else Zero))
  }

  /**
    Zero-fill followed by selection (app.py:75-80). Selection never raises
    after the zero-fill; the row has the manifest's shape and order, keeps
    the dictionary's value for a column it has and 0 for one it lacks.
   */
  function Reconcile(m: map<string, Value>, manifest: seq<string>): (row: seq<Column>)
    ensures |row| == |manifest|
    ensures forall i :: 0 <= i < |row| ==> row[i].name == manifest[i]
    ensures forall i :: 0 <= i < |row| && manifest[i] in m ==> row[i].value == m[manifest[i]]
    ensures forall i :: 0 <= i < |row| && manifest[i] !in m ==> row[i].value == Zero
  {
    var filled := FillMissing(m, manifest);
    match Select(filled, manifest)
    case Row(columns) => columns
    case KeyError(_) => assert false; []
  }

  /** Reconciliation agrees with the reference row on every manifest and dictionary. */
  lemma ReconcileIsProjection(m: map<string, Value>, manifest: seq<string>)
    ensures Reconcile(m, manifest) == Project(m, manifest)
  {
  }

  /** A dictionary entry whose name is not in the manifest does not reach the row. */
  lemma ExtrasDropped(m: map<string, Value>, manifest: seq<string>, k: string)
    requires k in m && k !in manifest
    ensures forall col :: col in Reconcile(m, manifest) ==> col.name != k
  {
  }
}
