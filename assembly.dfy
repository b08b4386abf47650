/** The multi-input model and the composition in `main` of
    tools/create_multi_input_model.py: each checkpoint's backbone parameters go
    to the backbone slot at its position, the head parameters come from the one
    checkpoint at the head-weights index, the body muxer's post-assembly hook
    runs, and the state is wrapped under the key `model`. */
module Assembly {
  import opened Results
  import opened ParamKeys
  import opened Partition

  /** The class of the model's `Conv_Body`: `BodyMuxer_ConcatenateConv` or any other muxer. */
  datatype BodyKind = OtherMuxer | ConcatenateConv

  /** The key under which the saved checkpoint holds the model state. */
  const OUTPUT_KEY: string := "model"

  /** The parameters of one submodule, by name. */
  type StateDict<T> = map<string, T>

  /** The parameter state of the target model: one state dict per backbone slot,
      one per head child (every submodule other than `Conv_Body`), and the index
      the muxer's selection conv was initialised to pick, if it was. */
  datatype ModelState<T> = ModelState(
    bodies: seq<StateDict<T>>,
    children: map<string, StateDict<T>>,
    selectIndex: Option<int>)

  /** Strict `load_state_dict`, on parameter names: a submodule accepts a dict
      whose names are exactly its own. */
  predicate Loadable<T>(current: StateDict<T>, loaded: StateDict<T>) {
    loaded.Keys == current.Keys
  }

  /** Lines 77-78: load each child's dict into `model._modules[child]`, in the
      order the children were first met. */
  function LoadChildren<T>(children: map<string, StateDict<T>>, order: seq<string>,
                           dicts: map<string, StateDict<T>>): Result<map<string, StateDict<T>>, ComposeError>
    requires forall child :: child in order ==> child in dicts
  {
    if |order| == 0 then Ok(children)
    else match LoadChildren(children, order[..|order| - 1], dicts)
      case Err(e) => Err(e)
      case Ok(loaded) =>
        var child := order[|order| - 1];
        if child !in loaded then Err(UnknownChild(child))
        else if !Loadable(loaded[child], dicts[child]) then Err(ChildKeyMismatch(child))
        else Ok(loaded[child := dicts[child]])
  }

  /** Lines 68-78 for the checkpoint at the head-weights index: partition its
      head keys, then load every child. */
  function LoadHeads<T>(children: map<string, StateDict<T>>, c: Checkpoint<T>)
    : Result<map<string, StateDict<T>>, ComposeError>
  {
    match HeadPartition(c)
    case Err(e) => Err(e)
    case Ok(h) =>
      HeadPartitionWellFormed(c);
      LoadChildren(children, h.order, h.dicts)
  }

  /** One iteration of the loop at lines 60-78, for the checkpoint at position `i`. */
  function AssembleSlot<T>(st: ModelState<T>, i: nat, c: Checkpoint<T>, headWeightsIndex: int)
    : Result<ModelState<T>, ComposeError>
  {
    if i >= |st.bodies| then Err(SlotOutOfRange(i))
    else
      var body := BodyStateDict(c);
      if !Loadable(st.bodies[i], body) then Err(BodyKeyMismatch(i))
      else
        var st1 := st.(bodies := st.bodies[i := body]);
        if i != headWeightsIndex then Ok(st1)
        else match LoadHeads(st1.children, c)
          case Err(e) => Err(e)
          case Ok(children) => Ok(st1.(children := children))
  }

  /** The loop at lines 60-78 over the checkpoints in order; the first failure aborts. */
  function Assemble<T>(st: ModelState<T>, checkpoints: seq<Checkpoint<T>>, headWeightsIndex: int)
    : Result<ModelState<T>, ComposeError>
  {
    if |checkpoints| == 0 then Ok(st)
    else match Assemble(st, checkpoints[..|checkpoints| - 1], headWeightsIndex)
      case Err(e) => Err(e)
      case Ok(s) => AssembleSlot(s, |checkpoints| - 1, checkpoints[|checkpoints| - 1], headWeightsIndex)
  }

  /** Lines 80-84: only a `BodyMuxer_ConcatenateConv` is re-initialised, to select the
      backbone at the head-weights index. */
  function PostAssembly<T>(kind: BodyKind, st: ModelState<T>, headWeightsIndex: int): ModelState<T> {
    if kind == ConcatenateConv then st.(selectIndex := Some(headWeightsIndex)) else st
  }

  /** Lines 60-88: what the script saves, or the error that stops it first.
      `--body-checkpoints` takes one or more paths (lines 30-36), so there is
      at least one checkpoint. */
  function ComposeSpec<T>(kind: BodyKind, st: ModelState<T>, checkpoints: seq<Checkpoint<T>>, headWeightsIndex: int)
    : Result<map<string, ModelState<T>>, ComposeError>
    requires |checkpoints| > 0
  {
    match Assemble(st, checkpoints, headWeightsIndex)
    case Err(e) => Err(e)
    case Ok(s) => Ok(map[OUTPUT_KEY := PostAssembly(kind, s, headWeightsIndex)])
  }

  /** Every child dict of a head partition can be loaded into the model's children. */
  ghost predicate HeadsLoadable<T>(c: Checkpoint<T>, children: map<string, StateDict<T>>) {
    && HeadPartition(c).Ok?
    && forall child :: child in HeadPartition(c).value.dicts ==>
         child in children && Loadable(children[child], HeadPartition(c).value.dicts[child])
  }

  // ---------------------------------------------------------------------------
  // Loading the head children

  lemma {:induction false} LoadChildrenErrSticks<T>(children: map<string, StateDict<T>>, order: seq<string>,
                                                    k: nat, dicts: map<string, StateDict<T>>)
    requires forall child :: child in order ==> child in dicts
    requires k <= |order| && LoadChildren(children, order[..k], dicts).Err?
    ensures LoadChildren(children, order, dicts) == LoadChildren(children, order[..k], dicts)
    decreases |order|
  {
    if k < |order| {
      assert order[..|order| - 1][..k] == order[..k];
      LoadChildrenErrSticks(children, order[..|order| - 1], k, dicts);
    } else {
      assert order[..k] == order;
    }
  }

  /** Loading succeeds exactly when every listed child exists with the same
      parameter names, and then each listed child holds its loaded dict and
      every other child is untouched. */
  lemma {:induction false} LoadChildrenResult<T>(children: map<string, StateDict<T>>, order: seq<string>,
                                                 dicts: map<string, StateDict<T>>)
    requires forall child :: child in order ==> child in dicts
    ensures LoadChildren(children, order, dicts).Ok? <==>
      forall child :: child in order ==> child in children && Loadable(children[child], dicts[child])
    ensures LoadChildren(children, order, dicts).Ok? ==>
      var loaded := LoadChildren(children, order, dicts).value;
      && loaded.Keys == children.Keys
      && forall child :: child in loaded ==> loaded[child] == if child in order then dicts[child] else children[child]
  {
    if |order| > 0 {
      var front := order[..|order| - 1];
      LoadChildrenResult(children, front, dicts);
      var child := order[|order| - 1];
      assert forall c :: c in order <==> c in front || c == child;
    }
  }

  /** The designated checkpoint's heads load exactly when its partition
      succeeds and fits the existing children, and then they overwrite exactly
      the children the partition names. */
  lemma LoadHeadsResult<T>(children: map<string, StateDict<T>>, c: Checkpoint<T>)
    ensures LoadHeads(children, c).Ok? <==> HeadsLoadable(c, children)
    ensures LoadHeads(children, c).Ok? ==> LoadHeads(children, c).value == children + HeadPartition(c).value.dicts
  {
    if HeadPartition(c).Ok? {
      var h := HeadPartition(c).value;
      HeadPartitionWellFormed(c);
      LoadChildrenResult(children, h.order, h.dicts);
      if LoadHeads(children, c).Ok? {
        var loaded := LoadHeads(children, c).value;
        assert loaded == children + h.dicts;
      }
    }
  }

  // ---------------------------------------------------------------------------
  // Properties of the assembly loop

  lemma {:induction false} AssembleErrSticks<T>(st: ModelState<T>, checkpoints: seq<Checkpoint<T>>, i: nat,
                                                headWeightsIndex: int)
    requires i <= |checkpoints| && Assemble(st, checkpoints[..i], headWeightsIndex).Err?
    ensures Assemble(st, checkpoints, headWeightsIndex) == Assemble(st, checkpoints[..i], headWeightsIndex)
    decreases |checkpoints|
  {
    if i < |checkpoints| {
      assert checkpoints[..|checkpoints| - 1][..i] == checkpoints[..i];
      AssembleErrSticks(st, checkpoints[..|checkpoints| - 1], i, headWeightsIndex);
    } else {
      assert checkpoints[..i] == checkpoints;
    }
  }

  /** After a successful assembly, backbone slot `j` holds exactly the body
      parameters of checkpoint `j`, the slots past the last checkpoint are
      untouched, and the head children were written by the checkpoint at the
      head-weights index alone, or by none when that index is out of range. */
  lemma {:induction false} AssembleResult<T>(st: ModelState<T>, checkpoints: seq<Checkpoint<T>>, headWeightsIndex: int)
    requires Assemble(st, checkpoints, headWeightsIndex).Ok?
    ensures var s := Assemble(st, checkpoints, headWeightsIndex).value;
      && |checkpoints| <= |st.bodies| == |s.bodies|
      && (forall j :: 0 <= j < |checkpoints| ==> s.bodies[j] == BodyStateDict(checkpoints[j]))
      && (forall j :: |checkpoints| <= j < |st.bodies| ==> s.bodies[j] == st.bodies[j])
      && s.selectIndex == st.selectIndex
      && if 0 <= headWeightsIndex < |checkpoints| then
           && HeadPartition(checkpoints[headWeightsIndex]).Ok?
           && s.children == st.children + HeadPartition(checkpoints[headWeightsIndex]).value.dicts
         else s.children == st.children
  {
    if |checkpoints| > 0 {
      var n := |checkpoints| - 1;
      var front := checkpoints[..n];
      AssembleResult(st, front, headWeightsIndex);
      assert forall j :: 0 <= j < n ==> front[j] == checkpoints[j];
      if n == headWeightsIndex {
        LoadHeadsResult(st.children, checkpoints[n]);
      }
    }
  }

  /** The assembly succeeds exactly when there are no more checkpoints than
      backbone slots, each checkpoint's body parameters match its slot's names,
      and, when the head-weights index names a checkpoint, that checkpoint's
      head partition succeeds and fits the model's existing children. */
  lemma {:induction false} AssembleOkIff<T>(st: ModelState<T>, checkpoints: seq<Checkpoint<T>>, headWeightsIndex: int)
    ensures Assemble(st, checkpoints, headWeightsIndex).Ok? <==>
      && |checkpoints| <= |st.bodies|
      && (forall j :: 0 <= j < |checkpoints| ==> Loadable(st.bodies[j], BodyStateDict(checkpoints[j])))
      && (0 <= headWeightsIndex < |checkpoints| ==> HeadsLoadable(checkpoints[headWeightsIndex], st.children))
  {
    if |checkpoints| > 0 {
      var n := |checkpoints| - 1;
      var front := checkpoints[..n];
      var c := checkpoints[n];
      AssembleOkIff(st, front, headWeightsIndex);
      assert forall j :: 0 <= j < n ==> front[j] == checkpoints[j];
      if Assemble(st, front, headWeightsIndex).Ok? {
        AssembleResult(st, front, headWeightsIndex);
        var s0 := Assemble(st, front, headWeightsIndex).value;
        assert s0.children == st.children || n != headWeightsIndex;
        LoadHeadsResult(s0.children, c);
      }
    }
  }

  /** The assembled state loads back, under strict loading, into a model of
      the same configuration: it has as many backbone slots, each with the
      parameter names of the original slot, and the same head children, each
      with its original parameter names. */
  lemma AssembledStateReloads<T>(st: ModelState<T>, checkpoints: seq<Checkpoint<T>>, headWeightsIndex: int)
    requires Assemble(st, checkpoints, headWeightsIndex).Ok?
    ensures var s := Assemble(st, checkpoints, headWeightsIndex).value;
      && |s.bodies| == |st.bodies|
      && (forall j :: 0 <= j < |st.bodies| ==> Loadable(st.bodies[j], s.bodies[j]))
      && s.children.Keys == st.children.Keys
      && (forall child :: child in st.children ==> Loadable(st.children[child], s.children[child]))
  {
    AssembleResult(st, checkpoints, headWeightsIndex);
    AssembleOkIff(st, checkpoints, headWeightsIndex);
  }

  /** Checkpoints other than the one at the head-weights index contribute only
      their body parameters: changing anything else in them changes nothing. */
  lemma {:induction false} OnlyHeadCheckpointSuppliesHeads<T>(st: ModelState<T>, cps1: seq<Checkpoint<T>>,
                                                             cps2: seq<Checkpoint<T>>, headWeightsIndex: int)
    requires |cps1| == |cps2|
    requires forall j :: 0 <= j < |cps1| ==> BodyStateDict(cps1[j]) == BodyStateDict(cps2[j])
    requires 0 <= headWeightsIndex < |cps1| ==> cps1[headWeightsIndex] == cps2[headWeightsIndex]
    ensures Assemble(st, cps1, headWeightsIndex) == Assemble(st, cps2, headWeightsIndex)
  {
    if |cps1| > 0 {
      var n := |cps1| - 1;
      OnlyHeadCheckpointSuppliesHeads(st, cps1[..n], cps2[..n], headWeightsIndex);
    }
  }

  /** The saved object has the single key `model`, bound to the assembled state
      after the post-assembly hook: slot `j` holds checkpoint `j`'s backbone
      parameters and later slots their initial ones, the head children are the
      initial ones overridden by the head-weights checkpoint's partition (when
      that index names a checkpoint), and the selection index is set to the
      head-weights index exactly for a `BodyMuxer_ConcatenateConv`. */
  lemma SavedCheckpoint<T>(kind: BodyKind, st: ModelState<T>, checkpoints: seq<Checkpoint<T>>, headWeightsIndex: int)
    requires |checkpoints| > 0 && ComposeSpec(kind, st, checkpoints, headWeightsIndex).Ok?
    ensures var out := ComposeSpec(kind, st, checkpoints, headWeightsIndex).value;
      && out.Keys == {OUTPUT_KEY}
      && |out[OUTPUT_KEY].bodies| == |st.bodies|
      && (forall j :: 0 <= j < |checkpoints| ==> out[OUTPUT_KEY].bodies[j] == BodyStateDict(checkpoints[j]))
      && (forall j :: |checkpoints| <= j < |st.bodies| ==> out[OUTPUT_KEY].bodies[j] == st.bodies[j])
      && out[OUTPUT_KEY].children ==
           (if 0 <= headWeightsIndex < |checkpoints| && HeadPartition(checkpoints[headWeightsIndex]).Ok?
            then st.children + HeadPartition(checkpoints[headWeightsIndex]).value.dicts
            else st.children)
      && out[OUTPUT_KEY].selectIndex == if kind == ConcatenateConv then Some(headWeightsIndex) else st.selectIndex
  {
    AssembleResult(st, checkpoints, headWeightsIndex);
  }

  // ---------------------------------------------------------------------------
  // The model object and the script

  /** The `Generalized_RCNN` the script builds, reduced to its parameter state. */
  class MultiInputModel<T> {
    const kind: BodyKind
    /** `Conv_Body.bodies`: one state dict per backbone slot. */
    const bodies: array<StateDict<T>>
    /** `model._modules` other than `Conv_Body`. */
    var children: map<string, StateDict<T>>
    var selectIndex: Option<int>

    function State(): ModelState<T>
      reads this, bodies
    {
      ModelState(bodies[..], children, selectIndex)
    }

    constructor (kind: BodyKind, initialBodies: seq<StateDict<T>>, initialChildren: map<string, StateDict<T>>)
      ensures this.kind == kind && fresh(bodies)
      ensures State() == ModelState(initialBodies, initialChildren, None)
    {
      this.kind := kind;
      bodies := new StateDict<T>[|initialBodies|](j requires 0 <= j < |initialBodies| => initialBodies[j]);
      children := initialChildren;
      selectIndex := None;
    }

    /** Line 66: `bodies[i].load_state_dict(loaded)`. */
    method LoadBody(i: nat, loaded: StateDict<T>) returns (r: Outcome<ComposeError>)
      modifies bodies
      ensures r == if i >= bodies.Length then Fail(SlotOutOfRange(i))
                   else if !Loadable(old(bodies[i]), loaded) then Fail(BodyKeyMismatch(i))
                   else Pass
      ensures bodies[..] == if r.Pass? then old(bodies[..])[i := loaded] else old(bodies[..])
    {
      if i >= bodies.Length {
        return Fail(SlotOutOfRange(i));
      }
      if !Loadable(bodies[i], loaded) {
        return Fail(BodyKeyMismatch(i));
      }
      bodies[i] := loaded;
      return Pass;
    }

    /** Line 78: `model._modules[child].load_state_dict(loaded)`. */
    method LoadChild(child: string, loaded: StateDict<T>) returns (r: Outcome<ComposeError>)
      modifies this`children
      ensures r == if child !in old(children) then Fail(UnknownChild(child))
                   else if !Loadable(old(children)[child], loaded) then Fail(ChildKeyMismatch(child))
                   else Pass
      ensures children == if r.Pass? then old(children)[child := loaded] else old(children)
    {
      if child !in children {
        return Fail(UnknownChild(child));
      }
      if !Loadable(children[child], loaded) {
        return Fail(ChildKeyMismatch(child));
      }
      children := children[child := loaded];
      return Pass;
    }

    /** `init_conv_select_index_`: the selection conv is set to pass through the
        given backbone; its tensor values are not modelled. */
    method InitConvSelectIndex(index: int)
      requires kind == ConcatenateConv
      modifies this`selectIndex
      ensures selectIndex == Some(index)
    {
      selectIndex := Some(index);
    }

    /** Lines 80-84: the `isinstance` dispatch on the body muxer's class. */
    method PostAssemblyHook(headWeightsIndex: int)
      modifies this`selectIndex
      ensures State() == PostAssembly(kind, old(State()), headWeightsIndex)
    {
      if kind == ConcatenateConv {
        InitConvSelectIndex(headWeightsIndex);
      }
    }
  }

  /** Lines 77-78: the loop over the children, in insertion order. */
  method LoadChildrenInOrder<T>(model: MultiInputModel<T>, order: seq<string>, dicts: map<string, StateDict<T>>)
    returns (r: Outcome<ComposeError>)
    requires forall child :: child in order ==> child in dicts
    modifies model`children
    ensures r.Pass? <==> LoadChildren(old(model.children), order, dicts).Ok?
    ensures r.Pass? ==> model.children == LoadChildren(old(model.children), order, dicts).value
    ensures r.Fail? ==> r.error == LoadChildren(old(model.children), order, dicts).error
  {
    ghost var childrenBefore := model.children;
    var k := 0;
    while k < |order|
      invariant 0 <= k <= |order|
      invariant LoadChildren(childrenBefore, order[..k], dicts) == Ok(model.children)
    {
      assert order[..k + 1][..k] == order[..k];
      var childLoaded := model.LoadChild(order[k], dicts[order[k]]);
      if childLoaded.Fail? {
        LoadChildrenErrSticks(childrenBefore, order, k + 1, dicts);
        return childLoaded;
      }
      k := k + 1;
    }
    assert order[..k] == order;
    return Pass;
  }

  /** Lines 69-78: partition the head keys of the designated checkpoint and
      load each child of the model from its dict. */
  method LoadHeadWeights<T>(model: MultiInputModel<T>, c: Checkpoint<T>) returns (r: Outcome<ComposeError>)
    modifies model`children
    ensures r.Pass? <==> LoadHeads(old(model.children), c).Ok?
    ensures r.Pass? ==> model.children == LoadHeads(old(model.children), c).value
    ensures r.Fail? ==> r.error == LoadHeads(old(model.children), c).error
  {
    var heads := PartitionHeads(c);
    if heads.Err? {
      return Fail(heads.error);
    }
    HeadPartitionWellFormed(c);
    r := LoadChildrenInOrder(model, heads.value.order, heads.value.dicts);
  }

  /** Lines 60-89 of `main`, from the loaded checkpoints to the object passed to
      `torch.save`: the model's own state after the hook; a failure returns the
      error and saves nothing. */
  method Compose<T>(model: MultiInputModel<T>, checkpoints: seq<Checkpoint<T>>, headWeightsIndex: int)
    returns (r: Result<map<string, ModelState<T>>, ComposeError>)
    requires |checkpoints| > 0
    modifies model, model.bodies
    ensures r == ComposeSpec(model.kind, old(model.State()), checkpoints, headWeightsIndex)
    ensures r.Ok? ==> model.State() == r.value[OUTPUT_KEY]
  {
    ghost var initial := model.State();
    var i := 0;
    while i < |checkpoints|
      invariant 0 <= i <= |checkpoints|
      invariant Assemble(initial, checkpoints[..i], headWeightsIndex) == Ok(model.State())
    {
      var checkpoint := checkpoints[i];
      assert checkpoints[..i + 1][..i] == checkpoints[..i];
      var bodyStateDict := BodyStateDict(checkpoint);
      var bodyLoaded := model.LoadBody(i, bodyStateDict);
      if bodyLoaded.Fail? {
        AssembleErrSticks(initial, checkpoints, i + 1, headWeightsIndex);
        return Err(bodyLoaded.error);
      }
      if i == headWeightsIndex {
        var headsLoaded := LoadHeadWeights(model, checkpoint);
        if headsLoaded.Fail? {
          AssembleErrSticks(initial, checkpoints, i + 1, headWeightsIndex);
          return Err(headsLoaded.error);
        }
      }
      i := i + 1;
    }
    assert checkpoints[..i] == checkpoints;
    model.PostAssemblyHook(headWeightsIndex);
    r := Ok(map[OUTPUT_KEY := model.State()]);
  }
}
