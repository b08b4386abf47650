/** How one source checkpoint is split between a backbone slot and the head
    submodules (tools/create_multi_input_model.py, lines 61-75). */
module Partition {
  import opened Results
  import opened ParamKeys

  /** A loaded checkpoint: its (parameter path, tensor) entries in the dict's
      insertion order. Tensors are opaque. */
  type Checkpoint<T> = seq<(string, T)>

  /** Every failure of the composition, one per exception the script can raise
      while routing parameters. */
  datatype ComposeError =
    | SlotOutOfRange(slot: nat)                      // IndexError on `bodies[i]`
    | BodyKeyMismatch(slot: nat)                     // strict `load_state_dict` into a backbone slot
    | HeadKeyWithoutDot(key: string)                 // the two-way unpack of `key.split('.', 1)`
    | DuplicateChildKey(child: string, childKey: string)  // the duplicate-key assertion
    | UnknownChild(child: string)                    // KeyError on `model._modules[child]`
    | ChildKeyMismatch(child: string)                // strict `load_state_dict` into a head child

  /** A dict has unique keys; a sequence of entries need not. */
  ghost predicate UniqueKeys<T>(c: Checkpoint<T>) {
    forall i, j :: 0 <= i < j < |c| ==> c[i].0 != c[j].0
  }

  /** Entry `j` is a body entry and no later body entry has the same sub-key. */
  ghost predicate LastForSubKey<T>(c: Checkpoint<T>, j: int)
    requires 0 <= j < |c|
  {
    IsBodyKey(c[j].0) &&
    forall k :: j < k < |c| && IsBodyKey(c[k].0) ==> BodySubKey(c[k].0) != BodySubKey(c[j].0)
  }

  /** The dict comprehension of lines 62-65: body entries under their sub-key,
      a later entry overwriting an earlier one with the same sub-key. */
  function BodyStateDict<T>(c: Checkpoint<T>): map<string, T> {
    if |c| == 0 then map[]
    else
      var (key, value) := c[|c| - 1];
      var rest := BodyStateDict(c[..|c| - 1]);
      if IsBodyKey(key) then rest[BodySubKey(key) := value] else rest
  }

  /** The body dict has a sub-key exactly when some body entry of the
      checkpoint strips to it. */
  lemma {:induction false} BodyStateDictKeys<T>(c: Checkpoint<T>, subKey: string)
    ensures subKey in BodyStateDict(c) <==>
      exists j :: 0 <= j < |c| && IsBodyKey(c[j].0) && BodySubKey(c[j].0) == subKey
  {
    if |c| > 0 {
      var front := c[..|c| - 1];
      BodyStateDictKeys(front, subKey);
      if subKey in BodyStateDict(front) {
        var j :| 0 <= j < |front| && IsBodyKey(front[j].0) && BodySubKey(front[j].0) == subKey;
        assert c[j] == front[j];
      }
      if exists j :: 0 <= j < |c| && IsBodyKey(c[j].0) && BodySubKey(c[j].0) == subKey {
        var j :| 0 <= j < |c| && IsBodyKey(c[j].0) && BodySubKey(c[j].0) == subKey;
        if j < |front| {
          assert front[j] == c[j];
        }
      }
    }
  }

  /** The last body entry with a given sub-key supplies that sub-key's tensor. */
  lemma {:induction false} BodyStateDictValue<T>(c: Checkpoint<T>, j: int)
    requires 0 <= j < |c| && LastForSubKey(c, j)
    ensures BodySubKey(c[j].0) in BodyStateDict(c)
    ensures BodyStateDict(c)[BodySubKey(c[j].0)] == c[j].1
  {
    var front := c[..|c| - 1];
    if j < |front| {
      assert front[j] == c[j];
      assert LastForSubKey(front, j) by {
        forall k | j < k < |front| && IsBodyKey(front[k].0)
          ensures BodySubKey(front[k].0) != BodySubKey(front[j].0)
        {
          assert front[k] == c[k];
        }
      }
      BodyStateDictValue(front, j);
    }
  }

  /** The head partition built so far: `children_state_dicts` and the order in
      which its children were first inserted. */
  datatype Heads<T> = Heads(order: seq<string>, dicts: map<string, map<string, T>>)

  /** One iteration of the loop at lines 70-75. */
  function AddHeadEntry<T>(h: Heads<T>, key: string, value: T): Result<Heads<T>, ComposeError> {
    if IsBodyKey(key) then Ok(h)
    else match SplitChild(key)
      case None => Err(HeadKeyWithoutDot(key))
      case Some((child, childKey)) =>
        var d := if child in h.dicts then h.dicts[child] else map[];
        if childKey in d then Err(DuplicateChildKey(child, childKey))
        else Ok(Heads(if child in h.dicts then h.order else h.order + [child],
                      h.dicts[child := d[childKey := value]]))
  }

  /** The whole loop at lines 69-75, over the entries in order; the first failure aborts. */
  function HeadPartition<T>(c: Checkpoint<T>): Result<Heads<T>, ComposeError> {
    if |c| == 0 then Ok(Heads([], map[]))
    else match HeadPartition(c[..|c| - 1])
      case Err(e) => Err(e)
      case Ok(h) => AddHeadEntry(h, c[|c| - 1].0, c[|c| - 1].1)
  }

  /** Once a prefix of the entries has failed, the whole checkpoint fails the same way. */
  lemma {:induction false} HeadPartitionErrSticks<T>(c: Checkpoint<T>, i: nat)
    requires i <= |c| && HeadPartition(c[..i]).Err?
    ensures HeadPartition(c) == HeadPartition(c[..i])
    decreases |c|
  {
    if i < |c| {
      assert c[..|c| - 1][..i] == c[..i];
      HeadPartitionErrSticks(c[..|c| - 1], i);
    } else {
      assert c[..i] == c;
    }
  }

  /** Lines 69-75 as the loop they are. */
  method PartitionHeads<T>(c: Checkpoint<T>) returns (r: Result<Heads<T>, ComposeError>)
    ensures r == HeadPartition(c)
  {
    var order: seq<string> := [];
    var dicts: map<string, map<string, T>> := map[];
    var i := 0;
    while i < |c|
      invariant 0 <= i <= |c|
      invariant HeadPartition(c[..i]) == Ok(Heads(order, dicts))
    {
      var (key, value) := c[i];
      assert c[..i + 1][..i] == c[..i];
      if !IsBodyKey(key) {
        var split := SplitChild(key);
        if split.None? {
          HeadPartitionErrSticks(c, i + 1);
          return Err(HeadKeyWithoutDot(key));
        }
        var (child, childKey) := split.value;
        // `children_state_dicts[child]` of a defaultdict: the existing dict or a new empty one
        var childDict := if child in dicts then dicts[child] else map[];
        if childKey in childDict {
          HeadPartitionErrSticks(c, i + 1);
          return Err(DuplicateChildKey(child, childKey));
        }
        if child !in dicts {
          order := order + [child];
        }
        dicts := dicts[child := childDict[childKey := value]];
      }
      i := i + 1;
    }
    assert c[..i] == c;
    return Ok(Heads(order, dicts));
  }

  /** The children of a successful partition are listed once each, in insertion
      order, and are dot-free names other than the backbone's. */
  lemma {:induction false} HeadPartitionWellFormed<T>(c: Checkpoint<T>)
    requires HeadPartition(c).Ok?
    ensures var h := HeadPartition(c).value;
      && (forall i, j :: 0 <= i < j < |h.order| ==> h.order[i] != h.order[j])
      && (forall child :: child in h.dicts <==> child in h.order)
      && (forall child :: child in h.dicts ==> '.' !in child && child != BODY_MODULE)
  {
    if |c| > 0 {
      var front := c[..|c| - 1];
      HeadPartitionWellFormed(front);
      var (key, value) := c[|c| - 1];
      if !IsBodyKey(key) {
        HeadChildIsNotBody(key);
      }
    }
  }

  /** Every entry of a successful head partition comes from a head entry of the
      checkpoint whose path is `child.childKey`, with that entry's tensor. */
  lemma {:induction false} HeadPartitionSound<T>(c: Checkpoint<T>, child: string, childKey: string)
    requires HeadPartition(c).Ok?
    requires child in HeadPartition(c).value.dicts && childKey in HeadPartition(c).value.dicts[child]
    ensures exists j :: 0 <= j < |c| && !IsBodyKey(c[j].0) && c[j].0 == Join(child, childKey)
                        && c[j].1 == HeadPartition(c).value.dicts[child][childKey]
  {
    var front := c[..|c| - 1];
    var h0 := HeadPartition(front).value;
    var h := HeadPartition(c).value;
    var (key, value) := c[|c| - 1];
    if !IsBodyKey(key) && SplitChild(key).value == (child, childKey) {
      assert c[|c| - 1].0 == Join(child, childKey);
    } else {
      assert child in h0.dicts && childKey in h0.dicts[child] && h.dicts[child][childKey] == h0.dicts[child][childKey];
      HeadPartitionSound(front, child, childKey);
      var j :| 0 <= j < |front| && !IsBodyKey(front[j].0) && front[j].0 == Join(child, childKey)
               && front[j].1 == h0.dicts[child][childKey];
      assert c[j] == front[j];
    }
  }

  /** Every head entry of the checkpoint lands in a successful partition under
      its split, with its own tensor. */
  lemma {:induction false} HeadPartitionComplete<T>(c: Checkpoint<T>, j: int)
    requires HeadPartition(c).Ok? && 0 <= j < |c| && !IsBodyKey(c[j].0)
    ensures '.' in c[j].0
    ensures var (child, childKey) := SplitChild(c[j].0).value;
      var h := HeadPartition(c).value;
      child in h.dicts && childKey in h.dicts[child] && h.dicts[child][childKey] == c[j].1
  {
    var front := c[..|c| - 1];
    var (key, value) := c[|c| - 1];
    if j < |c| - 1 {
      assert front[j] == c[j];
      HeadPartitionComplete(front, j);
    }
  }

  /** A failed partition names its cause: a head key without '.', or two
      entries of the checkpoint with one and the same path. */
  lemma {:induction false} HeadPartitionErrors<T>(c: Checkpoint<T>)
    requires HeadPartition(c).Err?
    ensures match HeadPartition(c).error
      case HeadKeyWithoutDot(key) =>
        exists j :: 0 <= j < |c| && c[j].0 == key && !IsBodyKey(key) && '.' !in key
      case DuplicateChildKey(child, childKey) =>
        exists i, j :: 0 <= i < j < |c| && c[i].0 == c[j].0 == Join(child, childKey)
      case _ => false
  {
    var front := c[..|c| - 1];
    var (key, value) := c[|c| - 1];
    if HeadPartition(front).Err? {
      HeadPartitionErrors(front);
      match HeadPartition(c).error {
        case HeadKeyWithoutDot(k) =>
          var j :| 0 <= j < |front| && front[j].0 == k && !IsBodyKey(k) && '.' !in k;
          assert c[j] == front[j];
        case DuplicateChildKey(child, childKey) =>
          var i, j :| 0 <= i < j < |front| && front[i].0 == front[j].0 == Join(child, childKey);
          assert c[i] == front[i] && c[j] == front[j];
      }
    } else {
      var h0 := HeadPartition(front).value;
      match HeadPartition(c).error {
        case HeadKeyWithoutDot(k) =>
          assert c[|c| - 1].0 == k;
        case DuplicateChildKey(child, childKey) =>
          HeadPartitionSound(front, child, childKey);
          var i :| 0 <= i < |front| && !IsBodyKey(front[i].0) && front[i].0 == Join(child, childKey)
                   && front[i].1 == h0.dicts[child][childKey];
          assert c[i] == front[i];
          assert c[i].0 == c[|c| - 1].0;
      }
    }
  }

  /** For a checkpoint with unique keys (any real state dict), the partition
      fails exactly when some head key has no '.': the duplicate-key assertion
      of line 74 can never fire. */
  lemma HeadPartitionOkIff<T>(c: Checkpoint<T>)
    requires UniqueKeys(c)
    ensures HeadPartition(c).Ok? <==> forall j :: 0 <= j < |c| && !IsBodyKey(c[j].0) ==> '.' in c[j].0
    ensures HeadPartition(c).Err? ==> HeadPartition(c).error.HeadKeyWithoutDot?
  {
    if HeadPartition(c).Ok? {
      forall j | 0 <= j < |c| && !IsBodyKey(c[j].0) ensures '.' in c[j].0 {
        HeadPartitionComplete(c, j);
      }
    } else {
      HeadPartitionErrors(c);
    }
  }

  /** Body and head entries are told apart by one test, and both kinds reach
      their destination: every body key's sub-key is in the body dict, holding
      that entry's tensor when no later body entry strips to the same sub-key;
      every head key lands under its (child, childKey) split, which rebuilds
      the key. */
  lemma EveryKeyRouted<T>(c: Checkpoint<T>, j: int)
    requires HeadPartition(c).Ok? && 0 <= j < |c|
    ensures IsBodyKey(c[j].0) ==> BodySubKey(c[j].0) in BodyStateDict(c)
    ensures LastForSubKey(c, j) ==> BodyStateDict(c)[BodySubKey(c[j].0)] == c[j].1
    ensures !IsBodyKey(c[j].0) ==> '.' in c[j].0
    ensures !IsBodyKey(c[j].0) ==>
      var (child, childKey) := SplitChild(c[j].0).value;
      && Join(child, childKey) == c[j].0
      && child in HeadPartition(c).value.dicts
      && childKey in HeadPartition(c).value.dicts[child]
      && HeadPartition(c).value.dicts[child][childKey] == c[j].1
  {
    if !IsBodyKey(c[j].0) {
      HeadPartitionComplete(c, j);
    } else {
      BodyStateDictKeys(c, BodySubKey(c[j].0));
      if LastForSubKey(c, j) {
        BodyStateDictValue(c, j);
      }
    }
  }
}
