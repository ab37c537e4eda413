# ticklist core, modelled in Dafny

ticklist builds an editing form for a data-model class from the class's type
annotations. Each field's annotation is expanded into one or more field-data
records (one per alternative: a free-text `str` or `int`, a single enum
member, a single literal string, `None`, a boolean, a nested model). Every
record gets a value and an `active` flag, reconciled from the field's default
and a prior value. A field with one record becomes one widget. A field with
several becomes an option group. For a declaration without repeated
alternatives, at most one option starts checked (none when neither the
default nor the prior value matches). Once the user picks an option, exactly
that one is checked (`Forms.OptionGroup.Click`).
The form keeps a working dictionary `obj`, re-validates it after every
change, marks the labels of fields that have errors, and is dismissed with
the instance (OK) or with nothing (CANCEL).

The model has six modules:

- `Wrappers`: `Option` and `Result`.
- `Types`: the value universe. It has the `NO_VALUE` sentinel (`NoValue`),
  which is distinct from Python `None` (`NoneVal`).
- `Ticks` (tick_annotations.py): filtering `Annotated[...]` metadata into
  the `label` / `boolean_labels` dictionary. It is a loop proved against a
  recursive specification function.
- `Fields` (field_data.py): the field-data record kinds, the kind-specific
  checks, `_evaluate_values`, and one `Parse...` function per subclass.
- `Iterators` (annotation_iterators.py): the expander chain and the
  recursive walk over an annotation tree. It is written as mutually
  recursive functions over a size measure and is parametric in the list of
  expanders. Lemmas cover the standard chain one node shape at a time.
- `Forms` (form.py): the non-UI state of the form.
  - an `OptionGroup` class, with the per-option `checked`, `disabled` and
    value state held in arrays;
  - a `Form` class, with `obj` as a map and the label error marks as an
    array;
  - the handlers for value changes, buttons and nested forms.

Points where this model follows the code rather than its documentation:

- CANCEL dismisses with no result. The prior instance is not returned,
  although the docstring at form.py:374 says it is.
- `bool` expands to the strings `"True"` and `"False"`. These become
  LiteralValue records, not Boolean records. So no default or prior value
  that is not a string (a boolean, or the data-model library's no-default
  marker) activates either alternative (`Iterators.BoolFieldIgnoresBooleans`).
- The standard chain has no expander for `None` or `Annotated`. An optional
  field is therefore unresolvable (`Iterators.OptionalUnresolvable`).
- Metadata is not passed through. `Form.compose` passes a `metadata=`
  argument that `field_data_from_annotation` does not accept. The expanders
  call `parse` with four arguments, while `parse` declares five. The model
  parses every leaf with empty metadata, which is the only reading under
  which the chain yields records at all.

Instantiating the data model is a parameter of the form's methods,
`validate: map<string, Value> -> Instantiation`, which gives an instance or
a list of validation errors.

## Model

| member | source | states |
|---|---|---|
| Ticks.KeyOf | src/ticklist/tick_annotations.py:42-46 | a `Label` is filed under `label`, a `BooleanLabels` under `boolean_labels`, and exactly the other payloads are ignored |
| Ticks.TickAnnotationsOf | src/ticklist/tick_annotations.py:31-35 | the filtered map respects the typed dictionary: `label` holds a `Label`, `boolean_labels` a `BooleanLabels` |
| Ticks.ToTickAnnotations | src/ticklist/tick_annotations.py:38-47 | the loop builds exactly the specification map of the whole input; the result is well typed; no payloads give the empty dictionary |
| Ticks.KeyPresentIff | src/ticklist/tick_annotations.py:38-47 | a key is present iff some payload of its kind occurs, in both directions |
| Ticks.LastWins | src/ticklist/tick_annotations.py:41-46 | with several payloads of one kind, the map holds the last one |
| Ticks.ForeignIgnored | src/ticklist/tick_annotations.py:42-46 | deleting an unrecognised payload anywhere in the input leaves the result unchanged |
| Fields.FieldData.Widget | src/ticklist/field_data.py:175-394 | str records get the string widget, int records the int widget, model records the model widget, each exactly; the fixed-value widget is used exactly for enum-member, literal, None and boolean records |
| Fields.Check | src/ticklist/field_data.py:193-407 | the per-kind check (`isinstance` for str at 193-194, int at 225-226 and models at 406-407; `==` for enum members at 261-264 and literals at 298-301; `is` for `None` at 331-334 and booleans at 364-367) never accepts the `NO_VALUE` sentinel, and a single-value kind accepts exactly the value its record stores |
| Fields.EvaluateValues | src/ticklist/field_data.py:162-172 | a matching prior value wins and activates; otherwise a matching default supplies the value and activates only when there is no prior value; otherwise the result is (sentinel, inactive); `active` iff value matches or (default matches and value absent) |
| Fields.EvaluateValuesFollowsTable | src/ticklist/field_data.py:145-159 | the procedure agrees with the documented nine-row default/value table, stated independently, for every check that rejects the sentinel |
| Fields.BooleanLabel | src/ticklist/field_data.py:371-377 | the `boolean_labels` caption for True or False when that metadata is present, else `"True"` / `"False"` |
| Fields.ModelLabel | src/ticklist/field_data.py:409-412 | the `label` metadata's text when present, else `"define"` |
| Fields.ParseString | src/ticklist/field_data.py:185-204 | str record labelled "manual input"; value is the prior value if it is a string, else the default if it is, else the sentinel; active by the reconciliation rule |
| Fields.ParseInt | src/ticklist/field_data.py:217-236 | as for str, with `isinstance(_, int)`, which booleans also pass |
| Fields.ParseEnumValue | src/ticklist/field_data.py:253-273 | the record holds the member itself, labelled with the member's value; active iff the prior value is that member, or there is none and the default is |
| Fields.ParseLiteralValue | src/ticklist/field_data.py:290-310 | the record holds the literal string, labelled with it; active iff the prior value equals it, or there is none and the default does |
| Fields.ParseNoneValue | src/ticklist/field_data.py:323-343 | the record holds `None`, labelled "None"; active by identity with `None` |
| Fields.ParseBooleanValue | src/ticklist/field_data.py:356-385 | the record holds the boolean, labelled by `BooleanLabel`; active by identity with that boolean |
| Fields.ParseModel | src/ticklist/field_data.py:398-415 | model record labelled by `ModelLabel`; value is the prior value if it is an instance of the model, else such a default, else the sentinel; active by the reconciliation rule |
| Fields.ParseFor | src/ticklist/field_data.py:60-76 | every kind's `parse` keeps the terminal and key, and activates iff the value matches or (the default matches and no value was given) |
| Fields.SharedMatch | src/ticklist/annotation_iterators.py:23-38 | two different terminals can both accept one value only for str with a literal string, or int with a boolean |
| Iterators.EnumItems | src/ticklist/annotation_iterators.py:100-102 | an enum class yields one node per member, in declaration order |
| Iterators.Expand | src/ticklist/annotation_iterators.py:87-171 | each expander's children are strictly smaller than the node it was given; a finished record is expanded by none; records it builds are those of the field's context |
| Iterators.Resolve | src/ticklist/annotation_iterators.py:187-208 | a successful resolution yields at least one record, and every record built on the way is the `parse` of its kind in the field's context |
| Iterators.Dispatch | src/ticklist/annotation_iterators.py:198-208 | the same for the first-applicable-expander loop from any position |
| Iterators.ResolveSeq | src/ticklist/annotation_iterators.py:199-204 | resolving n children successfully yields at least n records, all from the field's context |
| Iterators.FieldDataFromAnnotation | src/ticklist/annotation_iterators.py:53-84 | propagates resolution errors; rejects a result with both a String and a LiteralValue record; otherwise returns the resolution, which is non-empty and never holds both kinds |
| Iterators.RecordYieldedAsIs | src/ticklist/annotation_iterators.py:194-195 | a finished record is yielded unchanged, whatever the expander list |
| Iterators.DispatchSkips | src/ticklist/annotation_iterators.py:199-206 | expanders that yield nothing are passed over |
| Iterators.FirstMatchWins | src/ticklist/annotation_iterators.py:199-206 | the first expander in list order that yields anything decides the node; later ones are never consulted |
| Iterators.NoMatchFails | src/ticklist/annotation_iterators.py:207-208 | a node no expander accepts is an error naming that node |
| Iterators.ResolveSeqAppend | src/ticklist/annotation_iterators.py:200-204 | resolving `a + b` is resolving `a` then `b`: sibling order is kept and the first failure wins |
| Iterators.ResolveSeqSingle | src/ticklist/annotation_iterators.py:200-204 | one child resolves as it does on its own |
| Iterators.ResolveLeaf | src/ticklist/annotation_iterators.py:105-171 | an enum member, `str`, `int`, a model or a literal string yields exactly one record of its kind, with the field's key, parsed in the field's context |
| Iterators.ResolveUnion | src/ticklist/annotation_iterators.py:129-146 | a union resolves to its branches resolved in argument order |
| Iterators.ResolveEnumItems | src/ticklist/annotation_iterators.py:105-110 | the member nodes resolve to one EnumValue record per member, in order |
| Iterators.ResolveEnum | src/ticklist/annotation_iterators.py:96-102 | an enum type yields one EnumValue record per member, in declaration order |
| Iterators.ResolveStrValues | src/ticklist/annotation_iterators.py:166-171 | literal strings resolve to one LiteralValue record each, in order |
| Iterators.ResolveLiteral | src/ticklist/annotation_iterators.py:157-163 | a literal type of strings yields one LiteralValue record per argument, in order |
| Iterators.ResolveBool | src/ticklist/annotation_iterators.py:87-93 | `bool` yields exactly the strings "True" then "False", which end as two LiteralValue records |
| Iterators.BoolFieldIgnoresBooleans | src/ticklist/annotation_iterators.py:87-93 | for a `bool` field, any default and prior value that are not strings, including a boolean, the sentinel and the data-model library's no-default marker, leave both alternatives inactive |
| Iterators.OptionalUnresolvable | src/ticklist/annotation_iterators.py:174-184 | no expander of the standard chain accepts `None`, so `T \| None` fails on the `None` branch |
| Iterators.LiteralOrStrRejected | src/ticklist/annotation_iterators.py:79-82 | `Literal[...] \| str` is rejected with the offending annotation, for every default and prior value |
| Iterators.AtMostOneActive | src/ticklist/annotation_iterators.py:23-38 | records built in one context with pairwise different terminals, and not both String and LiteralValue, have at most one active |
| Iterators.ResolvedAtMostOneActive | src/ticklist/annotation_iterators.py:75-84 | an accepted declaration without repeated terminals activates at most one alternative |
| Forms.ApplyValueChanged | src/ticklist/form.py:353-360 | the sentinel removes the key; any other value sets it; every other key is unchanged |
| Forms.FirstIndexOf | src/ticklist/form.py:297 | the position of the first occurrence, or the length when there is none |
| Forms.KeyOfLabelId | src/ticklist/form.py:297 | the text after the first underscore, or the whole id when there is none |
| Forms.LabelIdRoundTrip | src/ticklist/form.py:297 | splitting `label_<field>` (built at form.py:315) recovers the field, even when it contains underscores |
| Forms.PriorValue | src/ticklist/form.py:309-312 | the prior value is the sentinel when there is no instance, else the instance's attribute for the field |
| Forms.ComposeField | src/ticklist/form.py:308-329 | a field's records come from the annotation with the instance's attribute (or the sentinel) as prior value; one record gives one widget, otherwise an option group of at least two |
| Forms.OptionGroup.constructor | src/ticklist/form.py:183-190 | option i starts checked iff record i is active; widget i is disabled iff it is not, and holds record i's value |
| Forms.OptionGroup.OptionChecked | src/ticklist/form.py:192-208 | every other option is unchecked with its widget disabled; the chosen widget is enabled and re-emits its key and value |
| Forms.OptionGroup.Click | src/ticklist/form.py:116-134 | clicking a checked option changes nothing and emits nothing; otherwise exactly that option ends checked and enabled, and its value is emitted; at most one option stays checked |
| Forms.OptionGroup.WidgetInput | src/ticklist/field_widgets.py:96-118 | only an enabled string or int widget takes input (the others have no input handler); such a widget stores the input's text as a string, for the int widget too, and emits it under its key, and every other widget's value stays as it was |
| Forms.CloseCallback | src/ticklist/form.py:387-390 | no result emits nothing; a result is emitted as the model widget's new value |
| Forms.Form.constructor | src/ticklist/form.py:242-272 | the working object starts empty; the instance and the saved old instance are the one given; no label is marked |
| Forms.FindErrorFor | src/ticklist/form.py:298-303 | the scan reports an error for a key exactly when some error's location contains that key |
| Forms.Form.DisplayIssues | src/ticklist/form.py:289-303 | a field's label is marked exactly when some error's location contains that field's name |
| Forms.Form.Instantiate | src/ticklist/form.py:274-287 | success keeps the instance; failure resets it to the sentinel; the labels show the errors either way |
| Forms.Form.FieldWidgetValueChanged | src/ticklist/form.py:348-366 | `obj` is updated by the event, then instance and labels show the validation of the new `obj` |
| Forms.Form.ButtonPressed | src/ticklist/form.py:368-383 | both buttons re-validate; CANCEL dismisses with nothing; OK dismisses with the new instance, or fails the assertion when validation failed |
| Forms.Form.NestedFormClosed | src/ticklist/form.py:385-395 | a nested form closed without result leaves `obj`, instance and labels unchanged; a result is applied like any value change |
| Forms.EditNestedThenCancel | src/ticklist/form.py:376-395 | any edits in a nested form followed by CANCEL leave the parent's working object and instance as they were |
| Iterators.LiteralABResolves | src/ticklist/annotation_iterators.py:157-171 | `Literal["A", "B"]` yields the records for "A" then "B" |
| Iterators.ResolveLiteralOfEnumMembers | src/ticklist/annotation_iterators.py:157-163 | a `Literal` of enum members yields one EnumValue record per member, in argument order |
| Forms.SelectLiteralScenario | tests/test_field_widgets_module/test_simple_multiple_widgets.py:89-105 | for `Literal["A", "B"]` without default on a new form, no option starts checked, and clicking the first makes the working object `{"my_value": "A"}` |

## Left out

- Rendering, CSS, focus and the Textual message queue are not modelled. Handlers are called directly. A posted message is returned to the caller, which passes it on.
- The data-model library's validation is a parameter (`validate`). Field introspection (`model_fields`, `field_info.default`) is the caller's input to `Forms.ComposeField`.
- The debugging output (`model_info`, the `Pretty` widget, the `obj` label) and the `print` call are left out. They do not affect state.
- Metadata threading is left out. The sources call `parse` and `field_data_from_annotation` with mismatched arguments, so leaves are parsed with empty metadata. `Fields.BooleanLabel` and `Fields.ModelLabel` model what the labels would be if metadata arrived.
- `Fields.ParseNoneValue` and `Fields.ParseBooleanValue`: no expander of the standard chain reaches them. They are modelled on their own.
- `Fields.Check`: the value universe has no enum member that mixes in `int` or `str`, and no instance of a subclass of a model. In the source, such values pass the `isinstance` checks of the int, str and model kinds (field_data.py:193-194, 225-226, 406-407). The model's checks reject them.
- `Fields.SharedMatch`, `Iterators.AtMostOneActive`, `Iterators.ResolvedAtMostOneActive`: these hold for the value universe above, not for all Python values. For example, `x: MyIntEnum | int = MyIntEnum.A` activates both the EnumValue and the Int record in the source, and the string-and-literal rule does not catch it.
- Repeated alternatives are excluded by the requires of `Iterators.AtMostOneActive` and `Iterators.ResolvedAtMostOneActive`. A declaration can repeat an alternative, as in `Color | Literal[Color.RED]` with default `Color.RED`. Such a declaration activates every copy of the repeated alternative, so its option group starts with more than one option checked.
- Python subclass relations in dispatch are not modelled: `bool` as a subclass of `int`, and enums that also subclass `str`. In the chain's order, the bool and enum expanders run first. `Fields.Check` does model `isinstance(True, int)`.
- Enum members that compare equal to plain values are not modelled (the `==` checks of str-mixin enums).
- Old-style `typing.Union`/`Optional` and `X | Y` are both the single `Union` node. `Literal` arguments other than strings and enum members (ints, booleans, `None`, bytes) are `Other` nodes, which no expander accepts; enum-member arguments are `EnumItem` nodes.
- Only the nine expanders of the module are modelled. Arbitrary user-supplied expander callables are not.
- The model widget's own `value` state after a nested form closes is not modelled. Only the ValueChanged it emits is.
- The screen stack and `push_screen` are not modelled. `Forms.EditNestedThenCancel` passes the nested form's dismissal straight to the parent's callback.
- The messages emitted while widgets are first composed are not modelled, nor their order. This includes the suppression for fixed-value widgets (field_widgets.py:131-133) and the first `_instantiate` on show. The form's state before the first event is the constructor's.
- `Forms.OptionGroup.Click` covers clicks and the space/enter key, which set `checked` to true in the same way. The watcher fires only on a change.
- The `_old_instance` copy is kept (`Form.oldInstance`), but no code path reads it.
