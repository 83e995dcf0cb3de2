/**
 * Filling a dictionary in a loop. Every loop of the collection cycle that writes into a
 * dictionary (`output[name] = plugin.run()`, `result[dd.key] = ...`, `events[key] = data`,
 * `resources[RESOURCE_KEY] = value`) does, per element, one of three things: nothing, one
 * assignment `container[key] = value`, or raise. `Populate` runs such a sequence of steps
 * against a container value.
 */
module DictFill {
  import opened Wrappers
  import opened PyValues

  /** What one loop iteration does to the container. */
  datatype Step = Skip | Put(key: string, val: Value) | Raise(exc: Exc)

  predicate Puts(s: Step, k: string) {
    s.Put? && s.key == k
  }

  /** The keys that some step assigns. */
  function PutKeys(steps: seq<Step>): set<string> {
    set i | 0 <= i < |steps| && steps[i].Put? :: steps[i].key
  }

  /** Step `i` assigns a key that no later step assigns again: its value is the one that stays. */
  predicate LastPut(steps: seq<Step>, i: int) {
    0 <= i < |steps| && steps[i].Put? && forall j :: i < j < |steps| ==> !Puts(steps[j], steps[i].key)
  }

  lemma PutKeysSnoc(steps: seq<Step>, s: Step)
    ensures PutKeys(steps + [s]) == PutKeys(steps) + (if s.Put? then {s.key} else {})
  {
    var all := steps + [s];
    forall k | k in PutKeys(all)
      ensures k in PutKeys(steps) + (if s.Put? then {s.key} else {})
    {
      var i :| 0 <= i < |all| && all[i].Put? && all[i].key == k;
      if i < |steps| {
        assert steps[i] == all[i];
      }
    }
    forall k | k in PutKeys(steps)
      ensures k in PutKeys(all)
    {
      var i :| 0 <= i < |steps| && steps[i].Put? && steps[i].key == k;
      assert all[i] == steps[i];
    }
    if s.Put? {
      assert all[|steps|] == s;
    }
  }

  /**
   * Runs the steps in order against `base`. A dictionary collects every assignment, a later
   * assignment of a key replacing an earlier one, and the first raising step aborts; any other
   * container survives only when no step assigns into it.
   */
  function Populate(base: Value, steps: seq<Step>): (r: Result<Value, Exc>)
    decreases |steps|
    ensures base.Dict? ==> (r.Success? <==> forall i :: 0 <= i < |steps| ==> !steps[i].Raise?)
    ensures !base.Dict? ==> (r.Success? <==> forall i :: 0 <= i < |steps| ==> steps[i].Skip?)
    ensures r.Success? && !base.Dict? ==> r.value == base
    ensures r.Success? && base.Dict? ==>
      r.value.Dict? && r.value.fields.Keys == base.fields.Keys + PutKeys(steps)
    ensures r.Success? && base.Dict? ==>
      forall k :: k in base.fields && k !in PutKeys(steps) ==> r.value.fields[k] == base.fields[k]
    ensures r.Success? && base.Dict? ==>
      forall i :: LastPut(steps, i) ==> r.value.fields[steps[i].key] == steps[i].val
  {
    if |steps| == 0 then Success(base)
    else
      var init := steps[..|steps| - 1];
      var last := steps[|steps| - 1];
      assert steps == init + [last];
      PutKeysSnoc(init, last);
      var acc :- Populate(base, init);
      match last
      case Skip => Success(acc)
      case Raise(e) => Failure(e)
      case Put(k, x) => SetItem(acc, k, x)
  }
}
