/**
  The non-UI state logic of the form screen (src/ticklist/form.py): the
  working object `obj` that field widgets update, the option group that
  keeps one alternative of a field selected, field-label error marking, and
  the results of the OK / CANCEL buttons and of a nested model edit.
 */
module Forms {
  import opened Wrappers
  import opened Types
  import opened Fields
  import opened Iterators

  /** `FieldWidget.ValueChanged(key, value)`. */
  datatype ValueChanged = ValueChanged(key: string, value: Value)

  /** The working object after one ValueChanged: the sentinel removes the key
      (the user picked an alternative that has no value yet), any other value
      sets it, and every other key is left as it was. */
  function ApplyValueChanged(obj: map<string, Value>, event: ValueChanged): (r: map<string, Value>)
    ensures event.value == NoValue ==> event.key !in r
    ensures event.value != NoValue ==> event.key in r && r[event.key] == event.value
    ensures forall k :: k != event.key ==> (k in r <==> k in obj)
    ensures forall k :: k != event.key && k in r ==> r[k] == obj[k]
  {
    if event.value == NoValue then obj - {event.key} else obj[event.key := event.value]
  }

  // ---------------------------------------------------------------------
  // Validation errors and field labels

  /** One element of a validation error's `loc` path: a field name or a
      list index. */
  datatype LocItem = LocField(name: string) | LocIndex(index: int)

  datatype ErrorDetails = ErrorDetails(loc: seq<LocItem>, msg: string)

  /** What instantiating the model from `obj` gives: an instance, or the
      validation errors. The data-model library itself is not modelled. */
  datatype Instantiation = Instantiated(instance: Value) | ValidationFailed(errors: seq<ErrorDetails>)

  function ErrorsOf(outcome: Instantiation): (errors: seq<ErrorDetails>)
  {
    if outcome.Instantiated? then [] else outcome.errors
  }

  /** Some error's location names `key` (`_key in error["loc"]`). */
  predicate HasErrorFor(key: string, errors: seq<ErrorDetails>)
  {
    exists i :: 0 <= i < |errors| && LocField(key) in errors[i].loc
  }

  /** The inner loop of `_display_issues`: scan the errors in order and stop
      at the first whose location contains `key`. */
  method FindErrorFor(key: string, errors: seq<ErrorDetails>) returns (found: bool)
    ensures found == HasErrorFor(key, errors)
  {
    found := false;
    var j := 0;
    while j < |errors|
      invariant 0 <= j <= |errors|
      invariant forall k :: 0 <= k < j ==> LocField(key) !in errors[k].loc
    {
      if LocField(key) in errors[j].loc {
        found := true;
        break;
      }
      j := j + 1;
    }
  }

  /** The id of the label above a field, `f"label_{field}"`. */
  function LabelId(field: string): (id: string)
  {
    "label_" + field
  }

  /** The position of the first `c` in `s`, or `|s|` when there is none. */
  function FirstIndexOf(s: string, c: char): (i: nat)
    ensures i <= |s|
    ensures i < |s| ==> s[i] == c
    ensures forall j :: 0 <= j < i ==> s[j] != c
  {
    if s == [] then 0
    else if s[0] == c then 0
    else 1 + FirstIndexOf(s[1..], c)
  }

  /** `id.split("_", maxsplit=1)[-1]`: what follows the first underscore, or
      the whole id when it has none. */
  function KeyOfLabelId(id: string): (key: string)
    ensures '_' !in id ==> key == id
    ensures '_' in id ==> exists i :: 0 <= i < |id| && id[i] == '_' && '_' !in id[..i] && key == id[i + 1..]
  {
    var i := FirstIndexOf(id, '_');
    if i == |id| then id
    else
      assert '_' !in id[..i] by {
        forall j | 0 <= j < i ensures id[..i][j] != '_' { }
      }
      id[i + 1..]
  }

  /** Splitting a label id at its first underscore recovers the field name,
      even when the field name itself holds underscores. */
  lemma LabelIdRoundTrip(field: string)
    ensures KeyOfLabelId(LabelId(field)) == field
  {
    var id := LabelId(field);
    assert id[5] == '_';
    var i := FirstIndexOf(id, '_');
    assert id[0] != '_' && id[1] != '_' && id[2] != '_' && id[3] != '_' && id[4] != '_';
    assert i == 5;
    assert id[6..] == field;
  }

  // ---------------------------------------------------------------------
  // Composing one field

  /** How `Form.compose` renders a field: one widget, or an option group. */
  datatype FieldLayout = SingleWidget(record: FieldData) | OptionGroupOf(records: seq<FieldData>)

  function Records(layout: FieldLayout): (rs: seq<FieldData>)
  {
    match layout
    case SingleWidget(fd) => [fd]
    case OptionGroupOf(rs) => rs
  }

  /** The prior value of `field`: the sentinel when there is no instance,
      else the instance's attribute. */
  function PriorValue(instance: Value, field: string): (v: Value)
    requires instance == NoValue || (instance.ModelVal? && field in instance.fields)
    ensures instance == NoValue ==> v == NoValue
    ensures instance.ModelVal? ==> v == instance.fields[field]
  {
    if instance == NoValue then NoValue else instance.fields[field]
  }

  /** The body of `Form.compose`'s field loop, for one field. */
  function ComposeField(instance: Value, field: string, annotation: Node, default: Value,
                        its: seq<Expander>): (r: Result<FieldLayout, ResolveError>)
    requires instance == NoValue || (instance.ModelVal? && field in instance.fields)
    ensures var items := FieldDataFromAnnotation(annotation, field, PriorValue(instance, field), default, its);
            && (r.Err? <==> items.Err?)
            && (items.Err? ==> r.error == items.error)
            && (r.Ok? ==> Records(r.value) == items.value)
    ensures r.Ok? ==> (r.value.SingleWidget? <==> |Records(r.value)| == 1)
    ensures r.Ok? && r.value.OptionGroupOf? ==> |r.value.records| >= 2
    ensures r.Ok? && instance == NoValue && RecordsFrom(annotation, Context(field, NoValue, default)) ==>
              forall i :: 0 <= i < |Records(r.value)| ==>
                Produced(Records(r.value)[i], Context(field, NoValue, default))
  {
    var value := PriorValue(instance, field);
    match FieldDataFromAnnotation(annotation, field, value, default, its)
    case Err(e) => Err(e)
    case Ok(items) =>
      if |items| == 1 then Ok(SingleWidget(items[0])) else Ok(OptionGroupOf(items))
  }

  // ---------------------------------------------------------------------
  // The option group

  /** `_OptionGroup`: one option checkbox and one field widget per record,
      by position. */
  class OptionGroup {
    const records: seq<FieldData>
    /** `_Option.checked` of each option. */
    const checked: array<bool>
    /** `disabled` of each field widget. */
    const disabled: array<bool>
    /** `value` of each field widget. */
    const values: array<Value>

    ghost predicate Valid()
      reads this
    {
      && checked.Length == |records| && disabled.Length == |records| && values.Length == |records|
      && checked != disabled
    }

    /** At most one option is checked. */
    ghost predicate AtMostOneChecked()
      reads this, checked
    {
      forall i, j :: 0 <= i < checked.Length && 0 <= j < checked.Length && checked[i] && checked[j] ==> i == j
    }

    /** `compose`: each option starts checked exactly when its record is
        active, each widget disabled exactly when it is not, holding its
        record's value. */
    constructor (records: seq<FieldData>)
      ensures Valid() && this.records == records
      ensures fresh(checked) && fresh(disabled) && fresh(values)
      ensures forall i :: 0 <= i < |records| ==>
                checked[i] == records[i].active && disabled[i] == !records[i].active && values[i] == records[i].value
    {
      this.records := records;
      checked := new bool[|records|](i requires 0 <= i < |records| => records[i].active);
      disabled := new bool[|records|](i requires 0 <= i < |records| => !records[i].active);
      values := new Value[|records|](i requires 0 <= i < |records| => records[i].value);
    }

    /** `_option_checked`: option `idx` reported Changed. Every other option
        is unchecked and its widget disabled; widget `idx` is enabled and
        re-emits its value. */
    method OptionChecked(idx: nat) returns (event: ValueChanged)
      requires Valid() && idx < |records|
      modifies checked, disabled
      ensures !disabled[idx] && checked[idx] == old(checked[idx])
      ensures forall j :: 0 <= j < |records| && j != idx ==> !checked[j] && disabled[j]
      ensures event == ValueChanged(records[idx].key, values[idx])
    {
      var j := 0;
      while j < |records|
        invariant 0 <= j <= |records|
        invariant forall k :: 0 <= k < j && k != idx ==> !checked[k] && disabled[k]
        invariant idx < j ==> !disabled[idx]
        invariant checked[idx] == old(checked[idx])
      {
        if j == idx {
          disabled[j] := false;
        } else {
          checked[j] := false;
          disabled[j] := true;
        }
        j := j + 1;
      }
      event := ValueChanged(records[idx].key, values[idx]);
    }

    /** `_Option._on_click` (space and enter in `key_pressed` act alike, since
        the watcher only fires on a change): an already-checked option stays
        as it is and nothing happens; otherwise it becomes checked,
        `watch_checked` posts Changed, and `OptionChecked` runs. */
    method Click(idx: nat) returns (event: Option<ValueChanged>)
      requires Valid() && idx < |records|
      modifies checked, disabled
      ensures old(checked[idx]) ==> event == None && checked[..] == old(checked[..]) && disabled[..] == old(disabled[..])
      ensures !old(checked[idx]) ==>
                && (forall j :: 0 <= j < |records| ==> (checked[j] <==> j == idx))
                && (forall j :: 0 <= j < |records| ==> (disabled[j] <==> j != idx))
                && event == Some(ValueChanged(records[idx].key, values[idx]))
      ensures old(AtMostOneChecked()) ==> AtMostOneChecked()
    {
      if checked[idx] {
        return None;
      }
      checked[idx] := true;
      var e := OptionChecked(idx);
      event := Some(e);
    }

    /** A user edit in widget `idx` (`on_input_changed`, then `watch_value`
        posts ValueChanged). Only the string and int widgets hold a text
        input; fixed-value and model widgets have no input handler, and a
        disabled widget receives no input. What is stored is the input's
        text, for the int widget too. */
    method WidgetInput(idx: nat, text: string) returns (event: Option<ValueChanged>)
      requires Valid() && idx < |records|
      modifies values
      ensures TakesInput(idx) <==> event.Some?
      ensures !TakesInput(idx) ==> values[..] == old(values[..])
      ensures TakesInput(idx) ==> (values[..] == old(values[..])[idx := StrVal(text)]
                                  && event == Some(ValueChanged(records[idx].key, StrVal(text))))
    {
      if disabled[idx] || !HasTextInput(records[idx]) {
        return None;
      }
      values[idx] := StrVal(text);
      event := Some(ValueChanged(records[idx].key, StrVal(text)));
    }

    /** Widget `idx` is enabled and has a text input. */
    predicate TakesInput(idx: nat)
      reads this, disabled
      requires Valid() && idx < |records|
    {
      !disabled[idx] && HasTextInput(records[idx])
    }
  }

  /** The widgets with an `on_input_changed` handler: those for `str` and `int`. */
  predicate HasTextInput(fd: FieldData)
  {
    fd.Widget() == StringWidget || fd.Widget() == IntWidget
  }

  // ---------------------------------------------------------------------
  // The form screen

  datatype Button = OkButton | CancelButton

  /** What the screen is dismissed with; `AssertionFailed` is the
      `assert self._instance is not NO_VALUE` of the OK branch failing. */
  datatype Dismissal = Dismissed(result: Option<Value>) | AssertionFailed

  /** The parent's `form_close_callback`: no result leaves the model widget
      alone; a result becomes the widget's value, whose watcher posts it. */
  function CloseCallback(key: string, result: Option<Value>): (event: Option<ValueChanged>)
    ensures result.None? <==> event.None?
    ensures result.Some? ==> event.value == ValueChanged(key, result.value)
  {
    match result
    case None => None
    case Some(v) => Some(ValueChanged(key, v))
  }

  /** `Form`: the working object, the last instantiation, and the error
      state of each field's label. */
  class Form {
    /** The model's field names, in declaration order. */
    const fields: seq<string>
    /** The id of each field's label. */
    const labelIds: seq<string>
    /** Whether each field's label carries the `field_error` class. */
    const labelError: array<bool>
    var obj: map<string, Value>
    var instance: Value
    const oldInstance: Value

    ghost predicate Valid()
      reads this
    {
      && |labelIds| == |fields| && labelError.Length == |fields|
      && forall i :: 0 <= i < |fields| ==> labelIds[i] == LabelId(fields[i])
    }

    /** Instance and label marks show `outcome`. */
    ghost predicate Shows(outcome: Instantiation)
      reads this, labelError
      requires Valid()
    {
      && instance == (if outcome.Instantiated? then outcome.instance else NoValue)
      && forall i :: 0 <= i < |fields| ==> labelError[i] == HasErrorFor(fields[i], ErrorsOf(outcome))
    }

    /** `Form.__init__`: the working object starts empty. */
    constructor (fields: seq<string>, instance: Value)
      ensures Valid() && this.fields == fields
      ensures obj == map[] && this.instance == instance && oldInstance == instance
      ensures fresh(labelError) && forall i :: 0 <= i < |fields| ==> !labelError[i]
    {
      this.fields := fields;
      labelIds := seq(|fields|, i requires 0 <= i < |fields| => LabelId(fields[i]));
      labelError := new bool[|fields|](_ => false);
      obj := map[];
      this.instance := instance;
      oldInstance := instance;
    }

    /** `_display_issues`: a label is marked exactly when some error's
        location contains the key recovered from the label's id. */
    method DisplayIssues(errors: seq<ErrorDetails>)
      requires Valid()
      modifies labelError
      ensures forall i :: 0 <= i < |fields| ==> labelError[i] == HasErrorFor(KeyOfLabelId(labelIds[i]), errors)
      ensures forall i :: 0 <= i < |fields| ==> labelError[i] == HasErrorFor(fields[i], errors)
    {
      var i := 0;
      while i < labelError.Length
        invariant 0 <= i <= labelError.Length
        invariant forall k :: 0 <= k < i ==> labelError[k] == HasErrorFor(fields[k], errors)
      {
        LabelIdRoundTrip(fields[i]);
        var found := FindErrorFor(KeyOfLabelId(labelIds[i]), errors);
        labelError[i] := found;
        i := i + 1;
      }
      forall i | 0 <= i < |fields| ensures KeyOfLabelId(labelIds[i]) == fields[i] {
        LabelIdRoundTrip(fields[i]);
      }
    }

    /** `_instantiate`: build the model from `obj`; on success keep the
        instance, on failure reset it to the sentinel; mark labels either way. */
    method Instantiate(validate: map<string, Value> -> Instantiation) returns (ok: bool)
      requires Valid()
      modifies this`instance, labelError
      ensures ok == validate(obj).Instantiated?
      ensures Shows(validate(obj))
    {
      var outcome := validate(obj);
      if outcome.Instantiated? {
        instance := outcome.instance;
        ok := true;
      } else {
        instance := NoValue;
        ok := false;
      }
      DisplayIssues(ErrorsOf(outcome));
    }

    /** `_field_widget_value_changed`: update `obj`, then re-validate. */
    method FieldWidgetValueChanged(event: ValueChanged, validate: map<string, Value> -> Instantiation)
      requires Valid()
      modifies this`obj, this`instance, labelError
      ensures obj == ApplyValueChanged(old(obj), event)
      ensures Shows(validate(obj))
    {
      obj := ApplyValueChanged(obj, event);
      var _ := Instantiate(validate);
    }

    /** `on_button_pressed`: re-validate; CANCEL dismisses with no result,
        OK with the instance. */
    method ButtonPressed(button: Button, validate: map<string, Value> -> Instantiation) returns (d: Dismissal)
      requires Valid()
      modifies this`instance, labelError
      ensures Shows(validate(obj))
      ensures button == CancelButton ==> d == Dismissed(None)
      ensures button == OkButton ==>
                d == if validate(obj).Instantiated? && validate(obj).instance != NoValue
                     then Dismissed(Some(validate(obj).instance)) else AssertionFailed
    {
      var _ := Instantiate(validate);
      if button == CancelButton {
        d := Dismissed(None);
      } else if instance == NoValue {
        d := AssertionFailed;
      } else {
        d := Dismissed(Some(instance));
      }
    }

    /** `_on_edit_model`'s callback, once the nested form is dismissed: no
        result leaves everything as it was; a result goes through the same
        path as any other ValueChanged. */
    method NestedFormClosed(key: string, result: Option<Value>, validate: map<string, Value> -> Instantiation)
      requires Valid()
      modifies this`obj, this`instance, labelError
      ensures result.None? ==> obj == old(obj) && instance == old(instance) && labelError[..] == old(labelError[..])
      ensures result.Some? ==> obj == ApplyValueChanged(old(obj), ValueChanged(key, result.value)) && Shows(validate(obj))
    {
      var event := CloseCallback(key, result);
      if event.Some? {
        FieldWidgetValueChanged(event.value, validate);
      }
    }
  }

  /** Editing a nested model, changing values in the nested form and then
      cancelling it leaves the parent's working object exactly as it was. */
  method EditNestedThenCancel(parent: Form, child: Form, key: string, edits: seq<ValueChanged>,
                              validateParent: map<string, Value> -> Instantiation,
                              validateChild: map<string, Value> -> Instantiation)
    requires parent.Valid() && child.Valid()
    requires parent != child && parent.labelError != child.labelError
    modifies parent, parent.labelError, child, child.labelError
    ensures parent.obj == old(parent.obj) && parent.instance == old(parent.instance)
  {
    var i := 0;
    while i < |edits|
      invariant 0 <= i <= |edits|
      invariant child.Valid()
      invariant parent.obj == old(parent.obj) && parent.instance == old(parent.instance)
    {
      child.FieldWidgetValueChanged(edits[i], validateChild);
      i := i + 1;
    }
    var d := child.ButtonPressed(CancelButton, validateChild);
    parent.NestedFormClosed(key, d.result, validateParent);
  }

  /** A field declared `Literal["A", "B"]` without default, on a new form:
      no option starts active, and picking "A" puts "A" into the working
      object. */
  method SelectLiteralScenario(validate: map<string, Value> -> Instantiation)
    returns (initiallyChecked: seq<bool>, obj: map<string, Value>)
    ensures initiallyChecked == [false, false]
    ensures obj == map["my_value" := StrVal("A")]
  {
    var ctx := Context("my_value", NoValue, Opaque("no default"));
    LiteralABResolves(ctx);
    var a := LiteralRecord("A", ctx);
    var b := LiteralRecord("B", ctx);
    assert !a.active && !b.active && a.value == StrVal("A") && a.key == "my_value";
    var form := new Form(["my_value"], NoValue);
    var group := new OptionGroup([a, b]);
    initiallyChecked := group.checked[..];
    assert initiallyChecked == [false, false];
    var event := group.Click(0);
    assert event == Some(ValueChanged("my_value", StrVal("A")));
    form.FieldWidgetValueChanged(event.value, validate);
    obj := form.obj;
  }
}
