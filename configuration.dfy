/** What the detector's constructor computes from its arguments: the model
    path list, one sensitivity string per model, and the `enabled` flag; and
    the label handed to callbacks for a detected model index. */
module Configuration {
  import opened Wrappers
  import opened Rendering

  /** A scalar sensitivity as the caller may pass it. `bool` is a subtype of
      `int` in Python, so it takes the scalar path too; a float is carried by
      the text `str` gives for it. */
  datatype Number = Int(i: int) | Float(repr: string) | Bool(b: bool)

  /** The `sensitivity` argument: a scalar, a sequence of scalars, or a string
      (which is iterable and so takes the sequence path, one item per char). */
  datatype SensitivityArg = Scalar(n: Number) | Items(items: seq<Number>) | Chars(text: string)

  /** `str` of a scalar. */
  function Str(n: Number): string {
    match n
    case Int(i) => IntDecimal(i)
    case Float(r) => r
    case Bool(b) => if b then "True" else "False"
  }

  /** `model_paths or []`: an absent argument gives the empty list. */
  function ModelPaths(arg: Option<seq<string>>): seq<string> {
    match arg
    case None => []
    case Some(ps) => ps
  }

  /** The sensitivity list: a scalar is repeated once per model path, a
      sequence is converted item by item; its length is not checked. */
  function Sensitivities(paths: seq<string>, arg: SensitivityArg): seq<string> {
    match arg
    case Scalar(n) => seq(|paths|, _ => Str(n))
    case Items(items) => seq(|items|, k requires 0 <= k < |items| => Str(items[k]))
    case Chars(text) => seq(|text|, k requires 0 <= k < |text| => [text[k]])
  }

  /** Detection can start only when the engine library is present and at
      least one model is configured. */
  predicate Enabled(engineAvailable: bool, paths: seq<string>) {
    engineAvailable && |paths| > 0
  }

  /** The single string of sensitivities the engine is constructed with. */
  function EngineSensitivity(sensitivities: seq<string>): string {
    Join(',', sensitivities)
  }

  /** The label passed to callbacks beside the model path. */
  const LabelPrefix: string := "唤醒词索引: "

  function Label(index: nat): string {
    LabelPrefix + Decimal(index)
  }

  lemma ScalarBroadcast(paths: seq<string>, n: Number)
    ensures |Sensitivities(paths, Scalar(n))| == |paths|
    ensures forall k :: 0 <= k < |paths| ==> Sensitivities(paths, Scalar(n))[k] == Str(n)
  {
  }

  lemma ItemsConverted(paths: seq<string>, items: seq<Number>)
    ensures |Sensitivities(paths, Items(items))| == |items|
    ensures forall k :: 0 <= k < |items| ==> Sensitivities(paths, Items(items))[k] == Str(items[k])
  {
  }

  lemma EnabledIff(engineAvailable: bool, paths: seq<string>)
    ensures Enabled(engineAvailable, paths) <==> engineAvailable && paths != []
    ensures Enabled(engineAvailable, ModelPaths(None)) == false
  {
  }

  /** The text `str` gives for a float is digits, a sign, a point, an
      exponent, `inf` or `nan`, never a comma. */
  predicate FloatText(n: Number) {
    n.Float? ==> ',' !in n.repr
  }

  /** No scalar sensitivity renders with a comma. */
  lemma StrCommaFree(n: Number)
    requires FloatText(n)
    ensures ',' !in Str(n)
  {
    if n.Int? {
      IntDecimalHasNo(n.i, ',');
    }
  }

  /** Splitting the joined string on commas gives back exactly the
      sensitivity list, when the list is not empty and no item contains a
      comma. */
  lemma EngineSensitivityRoundTrip(paths: seq<string>, arg: SensitivityArg)
    requires |Sensitivities(paths, arg)| > 0
    requires forall k :: 0 <= k < |Sensitivities(paths, arg)| ==> ',' !in Sensitivities(paths, arg)[k]
    ensures Split(',', EngineSensitivity(Sensitivities(paths, arg))) == Sensitivities(paths, arg)
  {
    SplitJoin(',', Sensitivities(paths, arg));
  }

  /** For a scalar sensitivity on at least one model, splitting the joined
      string on commas gives one copy of the scalar's text per model. */
  lemma ScalarSplitsPerModel(paths: seq<string>, n: Number)
    requires |paths| > 0 && FloatText(n)
    ensures Split(',', EngineSensitivity(Sensitivities(paths, Scalar(n)))) == seq(|paths|, _ => Str(n))
  {
    StrCommaFree(n);
    EngineSensitivityRoundTrip(paths, Scalar(n));
  }

  /** Different indices give different labels, so a callback can tell which
      model fired from the label alone. */
  lemma {:induction false} LabelInjective(i: nat, j: nat)
    requires Label(i) == Label(j)
    ensures i == j
  {
    assert Label(i)[|LabelPrefix|..] == Decimal(i);
    assert Label(j)[|LabelPrefix|..] == Decimal(j);
    DecimalInjective(i, j);
  }

  lemma LabelEndsWithIndex(i: nat)
    ensures |Label(i)| > |LabelPrefix|
    ensures Label(i)[..|LabelPrefix|] == LabelPrefix
    ensures ParseDecimal(Label(i)[|LabelPrefix|..]) == i
  {
    assert Label(i)[|LabelPrefix|..] == Decimal(i);
    DecimalRoundTrip(i);
  }
}
