# Restaurant order cancellation: feature-vector builder

A Dafny model of the feature-vector builder of the restaurant order
cancellation predictor (`app.py`). A form submission, made of six numeric
inputs and five single-select inputs, becomes the single row that the
trained classifier consumes. This happens in three steps:

1. **Numeric pass-through.** Order amount, number of items, distance,
   customer rating, previous cancellations and delivery duration are copied
   unchanged into a name-to-value dictionary under their canonical names.
2. **One-hot expansion.** Each single-select input becomes
   `{field}_{category}` indicator columns set to 1 or 0. Delivery type has a
   single column, `delivery_type_home delivery`. Payment method drops "cash",
   the reference category of drop-first encoding. Day of week, restaurant
   and city get one column per option.
3. **Reconciliation with the training column manifest.** Every manifest
   column the dictionary lacks is added with value 0. The row is then cut
   down to the manifest's columns, in the manifest's order.

Modules, in dependency order:

- `Values` (values.dfy): cell values. Python ints and floats become
  `Int(int)` and `Float(real)`. It also defines the indicator `Flag`.
- `OrderForm` (order_form.dfy): the submission record, the widget bounds and
  option lists (`Valid`), and each field's prefix and indicator categories.
- `OneHot` (one_hot.dfy): one field's indicator loop, and the count of hot
  indicators.
- `Features` (features.dfy): the dictionary literal, the five loops in
  source order, and the proof that no generated name collides with another.
- `Frame` (frame.dfy): the zero-fill loop and the column selection. The
  selection raises `KeyError` on a missing column, as pandas does.
- `Encoder` (encoder.dfy): the whole builder. It also gives a declarative
  derivation rule per column name and proves that the row follows it.

The model is purely functional. The manifest is an arbitrary
`seq<string>` parameter. Nothing is assumed about its contents: not
uniqueness, and not that it names only columns the form produces.

All five single-select inputs are collected by the form, so the zero-fill
reaches only manifest columns that no rule produces. `Encoder.PickUpMondayCash`
fixes delivery type, payment method and day of week and leaves restaurant and
city free. "cash" is the only listed payment method that leaves every payment
indicator at 0, and "pick-up" is the only delivery type that leaves the
delivery indicator at 0.

## Model

| member | source | states |
|---|---|---|
| Values.Flag | app.py:51-67 | The indicator written by every one-hot assignment is 1 exactly when its condition holds and 0 exactly when it does not. |
| OrderForm.ReferenceCategories | app.py:30-67 | Option lists have no repeats. Every indicator category is an offered option. The only options without a column are "pick-up" for delivery type and "cash" for payment method. Day, restaurant and city have a column for every option. |
| OneHot.Write | app.py:50-67 | One field's loop adds exactly the `prefix + category` columns. Each is set to 1 iff its category is the selection, otherwise 0. Every other entry keeps its value. |
| OneHot.SamePrefixInjective | app.py:55 | Two columns of one field share a name only if they are for the same category. |
| OneHot.HotCountOfSelection | app.py:58-59 | If a field's indicators follow one selection, the number of indicators equal to 1 is 1 when the selection has a column and 0 otherwise. |
| Features.Numeric | app.py:39-46 | The dictionary literal holds exactly the six canonical names, each mapped to its input's value: a float for amount, distance and rating, an int for items, previous cancellations and duration. |
| Features.GeneratedKeysDistinct | app.py:39-67 | All generated names are pairwise distinct. Numeric names differ from one another and from every indicator column. An indicator column name fixes its field and its category. |
| Features.WriteFields | app.py:50-67 | The five loops in sequence add exactly the fields' indicator columns. Every entry outside them keeps its value. |
| Features.WriteFieldsIndicator | app.py:50-67 | If no field is written twice, each indicator ends up reflecting its own field's selection. Later loops never overwrite it. |
| Features.Build | app.py:39-67 | The finished dictionary's keys are exactly the numeric names plus every field's indicator columns. Its values are stated by Features.NumericPassThrough and Features.IndicatorValues. |
| Features.NumericPassThrough | app.py:39-46 | In the finished dictionary, each numeric input is found under its canonical name, unchanged. |
| Features.IndicatorValues | app.py:51-67 | In the finished dictionary, each indicator column is 1 iff its category is the field's selection, otherwise 0. |
| Features.ExactlyOneHot | app.py:51-67 | For a listed selection: day, restaurant and city have exactly one indicator equal to 1. Payment has none iff "cash" is selected, otherwise one. Delivery type has none iff "pick-up" is selected. |
| Features.BuildNonNegative | app.py:22-67 | For a submission within the widget bounds, every dictionary entry is non-negative. |
| Frame.FillMissing | app.py:75-77 | The zero-fill adds exactly the manifest columns that are missing, each with 0. It never changes an entry already present. |
| Frame.Select | app.py:80 | Selection succeeds iff every manifest column is present. It then yields one cell per manifest position, in manifest order, holding the dictionary's value. Otherwise it reports a missing manifest column. |
| Frame.Reconcile | app.py:75-80 | After zero-fill and selection, the row has the manifest's length and order. A present column keeps the dictionary's value and an absent one is 0. |
| Frame.ReconcileIsProjection | app.py:75-80 | Reconciliation equals the reference projection: cell i is the dictionary's value for manifest column i, or 0 when it has none. |
| Frame.ExtrasDropped | app.py:80 | A dictionary entry whose name is not in the manifest does not appear in the row. |
| Encoder.Encode | app.py:39-80 | The row has the manifest's length and column order. A manifest column that no form field produces is 0. |
| Encoder.EncodeNumeric | app.py:39-80 | A manifest column naming a numeric input carries that input unchanged. |
| Encoder.EncodeIndicator | app.py:51-80 | A manifest column naming an indicator is 1 iff its category is selected, otherwise 0. |
| Encoder.EncodeIsDerivation | app.py:39-80 | Every cell equals the independent per-name derivation rule. A numeric name carries its input. An indicator carries 1 or 0 by its field's selection. Any other name carries 0. |
| Encoder.EncodeNonNegative | app.py:22-80 | For a submission within the widget bounds, every cell of the row is non-negative. |
| Encoder.PickUpMondayCash | app.py:51-59 | For pick-up, cash and Monday: the delivery indicator and all payment indicators are 0. Among day indicators, only Monday's is 1. |

## Left out

- Streamlit widgets, titles and result rendering (app.py:13-34, 85-94). These are user interface. Only the bounds and option lists are kept, as the predicate `OrderForm.Valid`. Widget step sizes and default values are not modelled, because they do not constrain what the encoder receives.
- Loading the classifier and the column manifest with joblib (app.py:10-11). This is file input. The manifest is a parameter of `Encoder.Encode`.
- `model.predict`, `model.predict_proba` and the choice of label (app.py:85-92). These are calls into a pickled random forest whose behaviour is not visible here.
- Formatting the probability (app.py:94). This is floating-point presentation.
- pandas DataFrame mechanics (app.py:70, 80). The frame is a map plus a sequence of named cells, and column dtypes are not modelled.
- Frame.Select: on a missing column it reports only the first missing column. pandas lists all of them in its message.
- Idempotence and determinism of the encoder are not stated as lemmas. Every member is a pure function, so equal inputs give equal rows by construction.
