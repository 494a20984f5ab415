/** The two weight sources every extractor is written against.

    `WeightCursor` is the state behind `extractWeightsFactory(weights)` together with the
    `paramMappings` array the builders push onto: `extractWeights(n)` hands out the next `n`
    values of the flat buffer and `getRemainingWeights()` what has not been handed out yet.

    `WeightMapLoader` is the state behind `extractWeightEntryFactory(weightMap, paramMappings)` and
    `disposeUnusedWeightTensors(weightMap, paramMappings)`: tensors are looked up by path and
    expected rank, every claimed path is recorded, and at the end every entry of the map that no
    recorded path claims is released. */
module Sources {
  import opened Common
  import opened Params

  class WeightCursor {
    const weights: seq<real>
    var pos: nat
    var paramMappings: seq<string>

    ghost predicate Valid()
      reads this
    {
      pos <= |weights|
    }

    constructor(weights: seq<real>)
      ensures this.weights == weights && pos == 0 && paramMappings == []
      ensures Valid()
    {
      this.weights := weights;
      pos := 0;
      paramMappings := [];
    }

    /** `getRemainingWeights().length` */
    function Remaining(): nat
      reads this
      requires Valid()
    {
      |weights| - pos
    }

    /** `extractWeights(n)`: the next `n` values, or `WeightsExhausted` when fewer remain. */
    method ExtractWeights(n: nat) returns (r: Result<seq<real>>)
      requires Valid()
      modifies this
      ensures Valid() && paramMappings == old(paramMappings)
      ensures r.Success? <==> n <= old(Remaining())
      ensures r.Success? ==> pos == old(pos) + n && r.value == weights[old(pos)..pos]
      ensures r.Failure? ==> pos == old(pos) && r.error == WeightsExhausted(n, old(Remaining()))
    {
      if n > |weights| - pos {
        return Failure(WeightsExhausted(n, |weights| - pos));
      }
      r := Success(weights[pos..pos + n]);
      pos := pos + n;
    }

    /** `paramMappings.push({ paramPath: path })` */
    method Push(path: string)
      modifies this
      ensures paramMappings == old(paramMappings) + [path] && pos == old(pos)
    {
      paramMappings := paramMappings + [path];
    }
  }

  class WeightMapLoader {
    const weightMap: map<string, Tensor>
    var paramMappings: seq<string>
    var released: set<string>

    constructor(weightMap: map<string, Tensor>)
      ensures this.weightMap == weightMap && paramMappings == [] && released == {}
    {
      this.weightMap := weightMap;
      paramMappings := [];
      released := {};
    }

    /** `extractWeightEntry(path, rank)`: the tensor stored at `path`, recorded in `paramMappings`;
        `UnexpectedTensor` when there is none or it has another rank. */
    method ExtractWeightEntry(path: string, rank: nat) returns (r: Result<Tensor>)
      modifies this
      ensures released == old(released)
      ensures r.Success? <==> HasTensor(weightMap, path, rank)
      ensures r.Success? ==> r.value == weightMap[path] && paramMappings == old(paramMappings) + [path]
      ensures r.Failure? ==> r.error == UnexpectedTensor(path, rank) && paramMappings == old(paramMappings)
    {
      if !HasTensor(weightMap, path, rank) {
        return Failure(UnexpectedTensor(path, rank));
      }
      paramMappings := paramMappings + [path];
      r := Success(weightMap[path]);
    }

    /** `paramMappings.push({ originalPath: path, paramPath: path })` */
    method Push(path: string)
      modifies this
      ensures paramMappings == old(paramMappings) + [path] && released == old(released)
    {
      paramMappings := paramMappings + [path];
    }

    /** `disposeUnusedWeightTensors(weightMap, paramMappings)`: releases every entry of the map whose
        path has not been recorded. */
    method DisposeUnused()
      modifies this
      ensures paramMappings == old(paramMappings)
      ensures released == old(released) + Unclaimed(weightMap, paramMappings)
    {
      released := released + Unclaimed(weightMap, paramMappings);
    }
  }

  /** A `params` object under construction from a flat buffer: the entries built so far conform to
      the members laid out so far, and the cursor has recorded exactly their paths. */
  ghost predicate Assembled(c: WeightCursor, es: seq<Entry>, ms: seq<Member>)
    reads c
  {
    c.Valid() && Conforms(Obj(es), Group(ms)) && c.paramMappings == LayoutPaths(None, Group(ms))
  }

  /** A `params` object under construction from a weight map: the entries built so far conform to
      the members laid out so far, every tensor is the one the map holds at its path, and the
      loader has recorded exactly their paths. */
  ghost predicate Gathered(l: WeightMapLoader, es: seq<Entry>, ms: seq<Member>)
    reads l
  {
    Conforms(Obj(es), Group(ms)) && FromMap(l.weightMap, None, Obj(es)) && l.paramMappings == LayoutPaths(None, Group(ms))
  }

  /** The entries of `m` that no recorded path claims. */
  function Unclaimed(m: map<string, Tensor>, claimed: seq<string>): (u: set<string>)
    ensures u <= m.Keys
    ensures forall k :: k in m && k !in claimed <==> k in u
  {
    set k | k in m && k !in claimed
  }
}
