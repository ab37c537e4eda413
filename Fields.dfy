/**
  Field-data records and value reconciliation (src/ticklist/field_data.py).

  A `FieldData` record is one terminal alternative of a field: the terminal it
  stands for, the field's key, its effective value, whether it is active, and
  its display label. `EvaluateValues` decides value and `active` from a
  default, a prior value and a kind-specific check; each `Parse...` function
  is one subclass's `parse` classmethod.
 */
module Fields {
  import opened Types
  import opened Ticks

  /** The terminal a record represents (the record's `model` attribute); the
      constructor is the record's kind, i.e. its Python subclass. */
  datatype Terminal =
    | StrTerminal                       // FieldDataForString: the `str` type
    | IntTerminal                       // FieldDataForInt: the `int` type
    | EnumTerminal(member: EnumMember)  // FieldDataForEnumValue: one enum member
    | LiteralTerminal(text: string)     // FieldDataForLiteralValue: one literal string
    | NoneTerminal                      // FieldDataForNoneValue: `None`
    | BoolTerminal(b: bool)             // FieldDataForBooleanValue: `True` or `False`
    | ModelTerminal(model: string)      // FieldDataForModel: a data-model class

  /** The widget class that renders a record (`field_widget`). */
  datatype WidgetKind = StringWidget | IntWidget | FixedValueWidget | ModelWidget

  datatype FieldData = FieldData(annotation: Terminal, key: string, value: Value, active: bool, labelText: string)
  {
    /** `field_widget`: free-text widgets for `str` and `int`, an edit button
        for models, a fixed-value widget for every single-value kind. */
    function Widget(): (w: WidgetKind)
      ensures w == StringWidget <==> annotation.StrTerminal?
      ensures w == IntWidget <==> annotation.IntTerminal?
      ensures w == ModelWidget <==> annotation.ModelTerminal?
      ensures w == FixedValueWidget <==> annotation.EnumTerminal? || annotation.LiteralTerminal?
                                          || annotation.NoneTerminal? || annotation.BoolTerminal?
    {
      match annotation
      case StrTerminal => StringWidget
      case IntTerminal => IntWidget
      case ModelTerminal(_) => ModelWidget
      case _ => FixedValueWidget
    }
  }

  /** The kind-specific `check(value, annotation)` of each `parse`:
      `isinstance` for str, int and models (a Python `bool` is an instance of
      `int`), `==` for enum members and literal strings, `is` for `None` and
      the two booleans. */
  predicate Check(v: Value, t: Terminal)
    ensures Check(v, t) ==> v != NoValue
    ensures IsFixed(t) ==> (Check(v, t) <==> v == FixedValue(t))
  {
    match t
    case StrTerminal => v.StrVal?
    case IntTerminal => v.IntVal? || v.BoolVal?
    case EnumTerminal(m) => v == EnumVal(m)
    case LiteralTerminal(s) => v == StrVal(s)
    case NoneTerminal => v == NoneVal
    case BoolTerminal(b) => v == BoolVal(b)
    case ModelTerminal(m) => v.ModelVal? && v.model == m
  }

  /** The single-value kinds: an enum member, a literal string, `None`, a boolean. */
  predicate IsFixed(t: Terminal)
  {
    t.EnumTerminal? || t.LiteralTerminal? || t.NoneTerminal? || t.BoolTerminal?
  }

  /** The value a single-value record stores (its `value=annotation`). */
  function FixedValue(t: Terminal): (v: Value)
    requires IsFixed(t)
  {
    match t
    case EnumTerminal(m) => EnumVal(m)
    case LiteralTerminal(s) => StrVal(s)
    case NoneTerminal => NoneVal
    case BoolTerminal(b) => BoolVal(b)
  }

  /** `_evaluate_values`: start from (NO_VALUE, false); a matching default
      sets the value, and activates only when no prior value was supplied; a
      matching prior value then overrides both. */
  function EvaluateValues(annotation: Terminal, default: Value, value: Value,
                          check: (Value, Terminal) -> bool): (r: (Value, bool))
    ensures check(value, annotation) ==> r == (value, true)
    ensures !check(value, annotation) && check(default, annotation) ==> r == (default, value == NoValue)
    ensures !check(value, annotation) && !check(default, annotation) ==> r == (NoValue, false)
    ensures r.1 <==> check(value, annotation) || (check(default, annotation) && value == NoValue)
  {
    var (fromDefault, activeFromDefault) :=
      if check(default, annotation) then (default, value == NoValue) else (NoValue, false);
    if check(value, annotation) then (value, true) else (fromDefault, activeFromDefault)
  }

  /** The nine-row table documented with `_evaluate_values`, stated on its own. */
  datatype Incoming = Match | Absent | NoMatch
  datatype Source = FromValue | FromDefault | Nothing

  function Classify(x: Value, annotation: Terminal, check: (Value, Terminal) -> bool): (r: Incoming)
  {
    if x == NoValue then Absent else if check(x, annotation) then Match else NoMatch
  }

  function Table(default: Incoming, value: Incoming): (r: (Source, bool))
  {
    match (default, value)
    case (Match, Match) => (FromValue, true)
    case (Match, Absent) => (FromDefault, true)
    case (Match, NoMatch) => (FromDefault, false)
    case (NoMatch, Match) => (FromValue, true)
    case (NoMatch, Absent) => (Nothing, false)
    case (NoMatch, NoMatch) => (Nothing, false)
    case (Absent, Match) => (FromValue, true)
    case (Absent, Absent) => (Nothing, false)
    case (Absent, NoMatch) => (Nothing, false)
  }

  function Pick(s: Source, default: Value, value: Value): (v: Value)
  {
    match s
    case FromValue => value
    case FromDefault => default
    case Nothing => NoValue
  }

  /** `_evaluate_values` agrees with the documented table on all nine rows,
      for every check that rejects the sentinel. */
  lemma EvaluateValuesFollowsTable(annotation: Terminal, default: Value, value: Value,
                                   check: (Value, Terminal) -> bool)
    requires !check(NoValue, annotation)
    ensures var (source, active) := Table(Classify(default, annotation, check), Classify(value, annotation, check));
            EvaluateValues(annotation, default, value, check) == (Pick(source, default, value), active)
  {
  }

  /** The label of a boolean alternative: the `boolean_labels` caption when
      that metadata is present, else `str(True)` / `str(False)`. */
  function BooleanLabel(b: bool, metadata: TickAnnotations): (text: string)
    requires WellTyped(metadata)
    ensures BooleanLabelsKey !in metadata ==> text == (if b then "True" else "False")
    ensures BooleanLabelsKey in metadata && b ==> text == metadata[BooleanLabelsKey].labels.labelForTrue
    ensures BooleanLabelsKey in metadata && !b ==> text == metadata[BooleanLabelsKey].labels.labelForFalse
  {
    if BooleanLabelsKey in metadata then
      var labels := metadata[BooleanLabelsKey].labels;
      if b then labels.labelForTrue else labels.labelForFalse
    else if b then "True" else "False"
  }

  /** The label of a model alternative: the `label` metadata when present,
      else "define". */
  function ModelLabel(metadata: TickAnnotations): (text: string)
    requires WellTyped(metadata)
    ensures LabelKey in metadata ==> text == metadata[LabelKey].caption.value
    ensures LabelKey !in metadata ==> text == "define"
  {
    if LabelKey in metadata then metadata[LabelKey].caption.value else "define"
  }

  /** `FieldDataForString.parse`. */
  function ParseString(key: string, value: Value, default: Value, metadata: TickAnnotations): (fd: FieldData)
    ensures fd.annotation == StrTerminal && fd.key == key && fd.labelText == "manual input"
    ensures fd.active <==> value.StrVal? || (default.StrVal? && value == NoValue)
    ensures fd.value == if value.StrVal? then value else if default.StrVal? then default else NoValue
  {
    var (v, active) := EvaluateValues(StrTerminal, default, value, Check);
    FieldData(StrTerminal, key, v, active, "manual input")
  }

  /** `FieldDataForInt.parse`. */
  function ParseInt(key: string, value: Value, default: Value, metadata: TickAnnotations): (fd: FieldData)
    ensures fd.annotation == IntTerminal && fd.key == key && fd.labelText == "manual input"
    ensures fd.active <==> Check(value, IntTerminal) || (Check(default, IntTerminal) && value == NoValue)
    ensures fd.value == if value.IntVal? || value.BoolVal? then value
                        else if default.IntVal? || default.BoolVal? then default else NoValue
  {
    var (v, active) := EvaluateValues(IntTerminal, default, value, Check);
    FieldData(IntTerminal, key, v, active, "manual input")
  }

  /** `FieldDataForEnumValue.parse`: the record always holds the member itself. */
  function ParseEnumValue(member: EnumMember, key: string, value: Value, default: Value,
                          metadata: TickAnnotations): (fd: FieldData)
    ensures fd.annotation == EnumTerminal(member) && fd.key == key
    ensures fd.value == EnumVal(member) && fd.labelText == member.storedText
    ensures fd.active <==> value == EnumVal(member) || (default == EnumVal(member) && value == NoValue)
  {
    var (_, active) := EvaluateValues(EnumTerminal(member), default, value, Check);
    FieldData(EnumTerminal(member), key, EnumVal(member), active, member.storedText)
  }

  /** `FieldDataForLiteralValue.parse`: value and label are the literal itself. */
  function ParseLiteralValue(text: string, key: string, value: Value, default: Value,
                             metadata: TickAnnotations): (fd: FieldData)
    ensures fd.annotation == LiteralTerminal(text) && fd.key == key
    ensures fd.value == StrVal(text) && fd.labelText == text
    ensures fd.active <==> value == StrVal(text) || (default == StrVal(text) && value == NoValue)
  {
    var (_, active) := EvaluateValues(LiteralTerminal(text), default, value, Check);
    FieldData(LiteralTerminal(text), key, StrVal(text), active, text)
  }

  /** `FieldDataForNoneValue.parse`: the record holds `None`, labelled "None". */
  function ParseNoneValue(key: string, value: Value, default: Value, metadata: TickAnnotations): (fd: FieldData)
    ensures fd.annotation == NoneTerminal && fd.key == key
    ensures fd.value == NoneVal && fd.labelText == "None"
    ensures fd.active <==> value == NoneVal || (default == NoneVal && value == NoValue)
  {
    var (_, active) := EvaluateValues(NoneTerminal, default, value, Check);
    FieldData(NoneTerminal, key, NoneVal, active, "None")
  }

  /** `FieldDataForBooleanValue.parse`: the record holds the boolean itself. */
  function ParseBooleanValue(b: bool, key: string, value: Value, default: Value,
                             metadata: TickAnnotations): (fd: FieldData)
    requires WellTyped(metadata)
    ensures fd.annotation == BoolTerminal(b) && fd.key == key && fd.value == BoolVal(b)
    ensures fd.labelText == BooleanLabel(b, metadata)
    ensures fd.active <==> value == BoolVal(b) || (default == BoolVal(b) && value == NoValue)
  {
    var (_, active) := EvaluateValues(BoolTerminal(b), default, value, Check);
    FieldData(BoolTerminal(b), key, BoolVal(b), active, BooleanLabel(b, metadata))
  }

  /** `FieldDataForModel.parse`. */
  function ParseModel(model: string, key: string, value: Value, default: Value,
                      metadata: TickAnnotations): (fd: FieldData)
    requires WellTyped(metadata)
    ensures fd.annotation == ModelTerminal(model) && fd.key == key && fd.labelText == ModelLabel(metadata)
    ensures fd.active <==> (value.ModelVal? && value.model == model)
                           || (default.ModelVal? && default.model == model && value == NoValue)
    ensures fd.value == if value.ModelVal? && value.model == model then value
                        else if default.ModelVal? && default.model == model then default else NoValue
  {
    var (v, active) := EvaluateValues(ModelTerminal(model), default, value, Check);
    FieldData(ModelTerminal(model), key, v, active, ModelLabel(metadata))
  }

  /** The `parse` of the subclass that `t` belongs to. */
  function ParseFor(t: Terminal, key: string, value: Value, default: Value, metadata: TickAnnotations): (fd: FieldData)
    requires WellTyped(metadata)
    ensures fd.annotation == t && fd.key == key
    ensures fd.active <==> Check(value, t) || (Check(default, t) && value == NoValue)
  {
    match t
    case StrTerminal => ParseString(key, value, default, metadata)
    case IntTerminal => ParseInt(key, value, default, metadata)
    case EnumTerminal(m) => ParseEnumValue(m, key, value, default, metadata)
    case LiteralTerminal(s) => ParseLiteralValue(s, key, value, default, metadata)
    case NoneTerminal => ParseNoneValue(key, value, default, metadata)
    case BoolTerminal(b) => ParseBooleanValue(b, key, value, default, metadata)
    case ModelTerminal(m) => ParseModel(m, key, value, default, metadata)
  }

  /** Two different terminals accept a common value only for the pairs
      str / literal string and int / boolean. */
  lemma SharedMatch(v: Value, t1: Terminal, t2: Terminal)
    requires t1 != t2 && Check(v, t1) && Check(v, t2)
    ensures || (t1.StrTerminal? && t2.LiteralTerminal?) || (t1.LiteralTerminal? && t2.StrTerminal?)
            || (t1.IntTerminal? && t2.BoolTerminal?) || (t1.BoolTerminal? && t2.IntTerminal?)
  {
  }
}
