/** Experiences and the payload that carries a batch of them: keys, metadata, frame and normalisation. */
module ExperienceModel {
  import opened Common
  import opened Decimal
  import opened Bytes

  datatype EidPart = Number(n: int) | Text(s: string)

  datatype Eid = Eid(batch: EidPart, task: EidPart, run: int, step: int, suffix: string)

  datatype Tensor = Tensor(length: nat, data: seq<Byte>)

  datatype TensorField =
    | Tokens | Logprobs | TokenLevelReward | Advantages | Returns
    | ActionMask | Chosen | Rejected | TeacherLogprobs | RoutedExperts

  const TENSOR_FIELDS: seq<TensorField> :=
    [Tokens, Logprobs, TokenLevelReward, Advantages, Returns, ActionMask, Chosen, Rejected, TeacherLogprobs,
     RoutedExperts]

  function FieldName(f: TensorField): string {
    match f
    case Tokens => "tokens"
    case Logprobs => "logprobs"
    case TokenLevelReward => "token_level_reward"
    case Advantages => "advantages"
    case Returns => "returns"
    case ActionMask => "action_mask"
    case Chosen => "chosen"
    case Rejected => "rejected"
    case TeacherLogprobs => "teacher_logprobs"
    case RoutedExperts => "routed_experts"
  }

  datatype Kind = SingleTurn | MultiTurn | Dpo

  /** `dtype` is the name of a torch dtype, such as "float32". */
  datatype CustomField = CustomField(source: string, destination: string, dtype: string)

  /** The non-tensor fields that are stored as they are; V is any value that can be pickled. */
  datatype Plain<V> = Plain(
    reward: V, truncateStatus: Option<string>, info: map<string, V>, metrics: map<string, V>,
    responseText: V, promptText: V, messages: V, tools: V, chosenMessages: V, rejectedMessages: V)

  /** The keyword arguments of the constructor, and the stored fields. Dicts keep their order. */
  datatype Fields<V> = Fields(
    eid: Eid, promptLength: int, plain: Plain<V>, tensors: map<TensorField, Tensor>,
    inputs: Option<seq<(string, Tensor)>>, custom: seq<CustomField>)

  datatype Experience<V> = Experience(fields: Fields<V>, kind: Kind)

  // ---- the constructor's normalisation ------------------------------------------------------

  datatype Error =
    | PromptLength | TokensTooShort | NoTokens | NoLogprobs
    | BadVersion | Truncated | BadMetadata | BadTensors | MissingTensor | TooLong | NotSingle

  function Filled(b: Byte, n: nat): Tensor {
    Tensor(n, Fill(b, n))
  }

  function Construct<V>(a: Fields<V>): Result<Experience<V>, Error> {
    if ActionMask in a.tensors then
      if Tokens !in a.tensors then Err(NoTokens) else Ok(Experience(a, MultiTurn))
    else if Chosen in a.tensors && Rejected in a.tensors then
      if Tokens !in a.tensors then Err(NoTokens)
      else Ok(Experience(a.(promptLength := a.tensors[Tokens].length), Dpo))
    else if a.promptLength <= 0 then Err(PromptLength)
    else if a.plain.truncateStatus != Some("prompt_truncated") then
      if Tokens !in a.tensors then Err(NoTokens)
      else if a.tensors[Tokens].length <= a.promptLength then Err(TokensTooShort)
      else
        Ok(Experience(a.(tensors := a.tensors[ActionMask := Filled(1, a.tensors[Tokens].length - a.promptLength)]),
                      SingleTurn))
    else if Logprobs !in a.tensors then Err(NoLogprobs)
    else if Tokens !in a.tensors then Err(NoTokens)
    else Ok(Experience(a.(tensors := a.tensors[ActionMask := Filled(0, a.tensors[Logprobs].length)]), SingleTurn))
  }

  predicate IsTruncated<V>(a: Fields<V>) {
    a.plain.truncateStatus == Some("prompt_truncated")
  }

  /** What is built from fields without an action mask that are not those of a comparison. */
  predicate IsSingleTurn<V>(a: Fields<V>) {
    ActionMask !in a.tensors && (Chosen !in a.tensors || Rejected !in a.tensors)
  }

  /**
   A single-turn experience is what was given plus an action mask: one for each token behind the prompt, or, when the
   prompt was truncated, zero for each log probability, so that nothing of it is trained on.
   */
  lemma SingleTurnMask<V>(a: Fields<V>)
    requires IsSingleTurn(a) && Construct(a).Ok?
    ensures var e := Construct(a).value;
            && e.kind == SingleTurn && ActionMask in e.fields.tensors
            && e.fields.(tensors := e.fields.tensors - {ActionMask}) == a
            && var mask := e.fields.tensors[ActionMask];
            && |mask.data| == mask.length
            && (forall i :: 0 <= i < |mask.data| ==> mask.data[i] == if IsTruncated(a) then 0 else 1)
            && (if IsTruncated(a) then mask.length == a.tensors[Logprobs].length
                else mask.length > 0 && a.promptLength + mask.length == a.tensors[Tokens].length)
  {
    var t := Construct(a).value.fields.tensors;
    assert t - {ActionMask} == a.tensors;
  }

  /** The other kinds keep what was given; the prompt of a comparison is all its tokens. */
  lemma OtherKinds<V>(a: Fields<V>)
    requires !IsSingleTurn(a)
    ensures Construct(a).Ok? <==> Tokens in a.tensors
    ensures Construct(a).Ok? ==>
              var e := Construct(a).value;
              if ActionMask in a.tensors then e.kind == MultiTurn && e.fields == a
              else
                && e.kind == Dpo && e.fields.promptLength == a.tensors[Tokens].length
                && e.fields.(promptLength := a.promptLength) == a
  {
  }

  /** When a single-turn experience is refused. */
  lemma SingleTurnRefusedIff<V>(a: Fields<V>)
    requires IsSingleTurn(a)
    ensures Construct(a).Err? <==>
              || Tokens !in a.tensors || a.promptLength <= 0
              || (if IsTruncated(a) then Logprobs !in a.tensors else a.tensors[Tokens].length <= a.promptLength)
  {
  }

  /** Fields that the constructor leaves alone. */
  predicate Settled<V>(a: Fields<V>) {
    && Tokens in a.tensors
    && (ActionMask in a.tensors
        || (Chosen in a.tensors && Rejected in a.tensors && a.promptLength == a.tensors[Tokens].length))
  }

  function KindOf<V>(a: Fields<V>): Kind {
    if ActionMask in a.tensors then MultiTurn else Dpo
  }

  /** Constructing again keeps every field exactly for settled fields, and what a constructor returns is settled. */
  lemma ConstructKeepsIff<V>(a: Fields<V>)
    ensures Settled(a) <==> Construct(a).Ok? && Construct(a).value.fields == a
    ensures Construct(a).Ok? ==> Settled(Construct(a).value.fields)
    ensures Settled(a) ==> Construct(a).value.kind == KindOf(a)
  {
    if ActionMask !in a.tensors && Construct(a).Ok? && Construct(a).value.kind == SingleTurn {
      assert ActionMask in Construct(a).value.fields.tensors;
    }
  }

  // ---- tensor keys --------------------------------------------------------------------------

  /** One entry of the payload's tensor table. */
  datatype Slot = FieldSlot(index: nat, field: TensorField) | InputSlot(index: nat, input: string)

  function Tail(s: Slot): string {
    match s
    case FieldSlot(_, f) => FieldName(f)
    case InputSlot(_, key) => "multi_modal_inputs:" + key
  }

  function Key(s: Slot): string {
    Decimal.Decimal(s.index) + (":" + Tail(s))
  }

  lemma FieldNamesDiffer(f: TensorField, g: TensorField)
    ensures FieldName(f) == FieldName(g) ==> f == g
    ensures |FieldName(f)| < 19
  {
    var a, b := FieldName(f), FieldName(g);
    assert a == b ==> |a| == |b| && a[0] == b[0] && a[2] == b[2];
  }

  /** Different slots never share a key, whatever the names of multi-modal inputs. */
  lemma KeysInjective(s: Slot, t: Slot)
    requires Key(s) == Key(t)
    ensures s == t
  {
    DecimalPrefixInjective(s.index, t.index, ":" + Tail(s), ":" + Tail(t));
    assert (":" + Tail(s))[1..] == Tail(s) && (":" + Tail(t))[1..] == Tail(t);
    match (s, t)
    case (FieldSlot(_, f), FieldSlot(_, g)) => FieldNamesDiffer(f, g);
    case (FieldSlot(_, f), InputSlot(_, k)) => FieldNamesDiffer(f, f);
    case (InputSlot(_, k), FieldSlot(_, f)) => FieldNamesDiffer(f, f);
    case (InputSlot(_, j), InputSlot(_, k)) =>
      var p := "multi_modal_inputs:";
      assert (p + j)[|p|..] == j && (p + k)[|p|..] == k;
  }
}
