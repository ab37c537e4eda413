/**
  Tick annotations (src/ticklist/tick_annotations.py): the payloads of an
  `Annotated[...]` declaration that the engine recognises, filtered into a
  map with at most the two keys `label` and `boolean_labels`.
 */
module Ticks {
  import opened Wrappers

  /** `Label(value)`: a custom caption for a widget. */
  datatype Label = Label(value: string)

  /** `BooleanLabels(label_for_true, label_for_false)`: captions for the two
      boolean alternatives. */
  datatype BooleanLabels = BooleanLabels(labelForTrue: string, labelForFalse: string)

  /** One element of a declaration's metadata list; `Foreign` is any payload
      the engine does not recognise. */
  datatype Payload =
    | LabelPayload(caption: Label)
    | BooleanLabelsPayload(labels: BooleanLabels)
    | Foreign(description: string)

  /** The two keys of the `TickAnnotations` typed dictionary. */
  datatype TickKey = LabelKey | BooleanLabelsKey

  type TickAnnotations = map<TickKey, Payload>

  /** The typed-dictionary discipline: `label` holds a `Label`,
      `boolean_labels` a `BooleanLabels`. */
  ghost predicate WellTyped(m: TickAnnotations)
  {
    && (LabelKey in m ==> m[LabelKey].LabelPayload?)
    && (BooleanLabelsKey in m ==> m[BooleanLabelsKey].BooleanLabelsPayload?)
  }

  /** The key a payload is filed under, if it is a recognised kind. */
  function KeyOf(p: Payload): (k: Option<TickKey>)
    ensures k == Some(LabelKey) <==> p.LabelPayload?
    ensures k == Some(BooleanLabelsKey) <==> p.BooleanLabelsPayload?
    ensures k == None <==> p.Foreign?
  {
    match p
    case LabelPayload(_) => Some(LabelKey)
    case BooleanLabelsPayload(_) => Some(BooleanLabelsKey)
    case Foreign(_) => None
  }

  /** One step of the filtering loop: file `p` under its key, or ignore it. */
  function Step(m: TickAnnotations, p: Payload): (r: TickAnnotations)
  {
    match KeyOf(p)
    case Some(k) => m[k := p]
    case None => m
  }

  /** The map the filtering loop has built after the whole of `annotations`. */
  function TickAnnotationsOf(annotations: seq<Payload>): (m: TickAnnotations)
    ensures WellTyped(m)
    decreases |annotations|
  {
    if annotations == [] then map[]
    else Step(TickAnnotationsOf(annotations[..|annotations| - 1]), annotations[|annotations| - 1])
  }

  /** `to_tick_annotations`: a loop that assigns each recognised payload into
      the dictionary, so the last payload of each kind wins. */
  method ToTickAnnotations(annotations: seq<Payload>) returns (tickAnnotations: TickAnnotations)
    ensures tickAnnotations == TickAnnotationsOf(annotations)
    ensures WellTyped(tickAnnotations)
    ensures annotations == [] ==> tickAnnotations == map[]
  {
    tickAnnotations := map[];
    for i := 0 to |annotations|
      invariant tickAnnotations == TickAnnotationsOf(annotations[..i])
    {
      assert annotations[..i + 1][..i] == annotations[..i];
      match annotations[i]
      case LabelPayload(_) =>
        tickAnnotations := tickAnnotations[LabelKey := annotations[i]];
      case BooleanLabelsPayload(_) =>
        tickAnnotations := tickAnnotations[BooleanLabelsKey := annotations[i]];
      case Foreign(_) =>
    }
    assert annotations[..|annotations|] == annotations;
  }

  /** A key is present exactly when some payload of that kind occurs. */
  lemma {:induction false} KeyPresentIff(annotations: seq<Payload>, k: TickKey)
    ensures k in TickAnnotationsOf(annotations)
        <==> exists i :: 0 <= i < |annotations| && KeyOf(annotations[i]) == Some(k)
    decreases |annotations|
  {
    if annotations != [] {
      var n := |annotations| - 1;
      var init := annotations[..n];
      KeyPresentIff(init, k);
      if k in TickAnnotationsOf(annotations) && KeyOf(annotations[n]) != Some(k) {
        var i :| 0 <= i < |init| && KeyOf(init[i]) == Some(k);
        assert annotations[i] == init[i];
      }
      if j :| 0 <= j < n && KeyOf(annotations[j]) == Some(k) {
        assert init[j] == annotations[j];
      }
    }
  }

  /** When several payloads of one kind occur, the map holds the last one. */
  lemma {:induction false} LastWins(annotations: seq<Payload>, i: nat, k: TickKey)
    requires i < |annotations| && KeyOf(annotations[i]) == Some(k)
    requires forall j :: i < j < |annotations| ==> KeyOf(annotations[j]) != Some(k)
    ensures k in TickAnnotationsOf(annotations)
    ensures TickAnnotationsOf(annotations)[k] == annotations[i]
    decreases |annotations|
  {
    var n := |annotations| - 1;
    if i < n {
      var init := annotations[..n];
      LastWins(init, i, k);
    }
  }

  /** Removing an unrecognised payload does not change the result. */
  lemma {:induction false} ForeignIgnored(annotations: seq<Payload>, i: nat)
    requires i < |annotations| && annotations[i].Foreign?
    ensures TickAnnotationsOf(annotations) == TickAnnotationsOf(annotations[..i] + annotations[i + 1..])
    decreases |annotations|
  {
    var n := |annotations| - 1;
    var rest := annotations[..i] + annotations[i + 1..];
    if i == n {
      assert rest == annotations[..n];
    } else {
      var init := annotations[..n];
      ForeignIgnored(init, i);
      assert rest[..|rest| - 1] == init[..i] + init[i + 1..];
      assert rest[|rest| - 1] == annotations[n];
    }
  }
}
