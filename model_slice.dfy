/** The model slice of the store: the configured endpoints and the id of the active
    one, updated in place by its reducers. */
module ModelSlice {
  import opened Wrappers
  import opened Seqs
  import opened Types

  /** `models.map(model => ({ ...model, isActive: model.id === id }))`. */
  function MarkActive(models: seq<ModelConfig>, id: string): (r: seq<ModelConfig>)
    ensures |r| == |models|
    ensures forall k :: 0 <= k < |r| ==> r[k] == models[k].(isActive := models[k].id == id)
  {
    Map(models, (m: ModelConfig) => m.(isActive := m.id == id))
  }

  /** `models.map((model, index) => ({ ...model, isActive: index === 0 }))`. */
  function MarkFirstActive(models: seq<ModelConfig>): (r: seq<ModelConfig>)
    ensures |r| == |models|
    ensures forall k :: 0 <= k < |r| ==> r[k] == models[k].(isActive := k == 0)
  {
    seq(|models|, k requires 0 <= k < |models| => models[k].(isActive := k == 0))
  }

  /** `models.filter(m => m.id !== id)`. */
  function WithoutModel(models: seq<ModelConfig>, id: string): (r: seq<ModelConfig>)
    ensures forall k :: 0 <= k < |r| ==> r[k].id != id && r[k] in models
    ensures forall m :: m in models && m.id != id ==> m in r
    ensures IsSubsequence(r, models)
  {
    var r := Filter(models, (m: ModelConfig) => m.id != id);
    FilterSpec(models, (m: ModelConfig) => m.id != id);
    r
  }

  /** `models.find(model => model.isActive)`, as an index. */
  function FirstActive(models: seq<ModelConfig>): (r: Option<nat>)
    ensures r.Some? ==> r.value < |models| && models[r.value].isActive
    ensures r.Some? ==> forall k :: 0 <= k < r.value ==> !models[k].isActive
    ensures r.None? <==> forall k :: 0 <= k < |models| ==> !models[k].isActive
  {
    if models == [] then None
    else if models[0].isActive then Some(0)
    else match FirstActive(models[1..])
      case None => None
      case Some(i) => Some(i + 1)
  }

  /** The flags agree with the active id: a model is marked active exactly when its id
      is the active one. */
  predicate FlagsAgree(models: seq<ModelConfig>, activeModelId: Option<string>)
  {
    forall k :: 0 <= k < |models| ==> (models[k].isActive <==> activeModelId == Some(models[k].id))
  }

  /** Marking one id active makes the flags agree with it, and a second marking by
      another id wins. */
  lemma MarkActiveLaws(models: seq<ModelConfig>, x: string, y: string)
    ensures FlagsAgree(MarkActive(models, x), Some(x))
    ensures MarkActive(MarkActive(models, x), y) == MarkActive(models, y)
    ensures forall k :: 0 <= k < |models| ==> MarkActive(models, x)[k].id == models[k].id
  {
    var once, twice := MarkActive(models, x), MarkActive(MarkActive(models, x), y);
    assert forall k :: 0 <= k < |models| ==> twice[k] == MarkActive(models, y)[k];
  }

  /** After a load with no active model, the first model is the only one marked, and the
      flags agree with it when its id is unique. */
  lemma FirstActiveAfterLoad(models: seq<ModelConfig>)
    requires models != [] && FirstActive(models).None?
    requires forall k :: 0 < k < |models| ==> models[k].id != models[0].id
    ensures FirstActive(MarkFirstActive(models)) == Some(0)
    ensures FlagsAgree(MarkFirstActive(models), Some(models[0].id))
  {
  }

  /** Removing a model that is not the active one keeps the flags in agreement; so
      does updating a model with one whose flag agrees. */
  lemma AgreementPreserved(models: seq<ModelConfig>, activeModelId: Option<string>, id: string,
                            i: nat, m: ModelConfig)
    requires FlagsAgree(models, activeModelId)
    ensures activeModelId != Some(id) ==> FlagsAgree(WithoutModel(models, id), activeModelId)
    ensures i < |models| && (m.isActive <==> activeModelId == Some(m.id)) ==>
      FlagsAgree(models[i := m], activeModelId)
  {
    var r := WithoutModel(models, id);
    forall k | 0 <= k < |r|
      ensures r[k].isActive <==> activeModelId == Some(r[k].id)
    {
      var j :| 0 <= j < |models| && models[j] == r[k];
    }
  }

  class ModelStore {
    var models: seq<ModelConfig>
    var activeModelId: Option<string>

    /** Lines 9-12. */
    constructor ()
      ensures models == [] && activeModelId == None
    {
      models, activeModelId := [], None;
    }

    /** Lines 18-25: the model goes last; it becomes active exactly when it is the only
        model. */
    method AddModel(model: ModelConfig)
      modifies this
      ensures models == old(models) + [model]
      ensures activeModelId == if |models| == 1 then Some(model.id) else old(activeModelId)
    {
      models := models + [model];
      if |models| == 1 {
        activeModelId := Some(model.id);
      }
    }

    /** Lines 26-32: the first model with the payload's id is replaced by it; a missing
        id changes nothing. */
    method UpdateModel(model: ModelConfig)
      modifies this
      ensures match FirstIndex(old(models), ModelKey, model.id)
        case None => models == old(models)
        case Some(i) => models == old(models)[i := model]
      ensures activeModelId == old(activeModelId)
    {
      var index := FirstIndex(models, ModelKey, model.id);
      if index.Some? {
        models := models[index.value := model];
      }
    }

    /** Lines 33-39: every model with the id goes; if it was the active one, the first
        remaining model becomes active, or none. */
    method RemoveModel(id: string)
      modifies this
      ensures models == WithoutModel(old(models), id)
      ensures activeModelId == if old(activeModelId) == Some(id) then FirstKeyOrNull(models, ModelKey)
                               else old(activeModelId)
    {
      models := WithoutModel(models, id);
      if activeModelId == Some(id) {
        activeModelId := FirstKeyOrNull(models, ModelKey);
      }
    }

    /** Lines 40-49: the id becomes active and the flags are set to agree with it; the
        order and every other field are kept. */
    method SetActiveModel(id: string)
      modifies this
      ensures activeModelId == Some(id)
      ensures models == MarkActive(old(models), id)
      ensures FlagsAgree(models, activeModelId)
    {
      activeModelId := Some(id);
      models := MarkActive(models, id);
      MarkActiveLaws(old(models), id, id);
    }

    /** Lines 50-70: the list is replaced; the first model marked active gives the active
        id; with none marked, the first model becomes the only one marked and active;
        with no models, none is active. */
    method LoadModels(list: seq<ModelConfig>)
      modifies this
      ensures FirstActive(list).Some? ==>
        models == list && activeModelId == Some(list[FirstActive(list).value].id)
      ensures FirstActive(list).None? && list != [] ==>
        models == MarkFirstActive(list) && activeModelId == Some(list[0].id)
      ensures list == [] ==> models == [] && activeModelId == None
    {
      models := list;
      var active := FirstActive(list);
      if active.Some? {
        activeModelId := Some(list[active.value].id);
      } else if |list| > 0 {
        activeModelId := Some(list[0].id);
        models := MarkFirstActive(models);
      } else {
        activeModelId := None;
      }
    }
  }
}
