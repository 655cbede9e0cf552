/**
 * The record normalizer of wx.py (`WeatherAPI._transform`) as a function
 * on values: the first unit-system key present, in the fixed order
 * `imperial`, `metric`, `uk_hybrid`, has its nested object merged into the
 * top level (nested entries win) and is then removed; nothing else moves.
 */
module Normalize {
  import opened Wrappers
  import opened Json

  /** The reserved keys, in the order they are checked. */
  const Reserved: seq<string> := ["imperial", "metric", "uk_hybrid"]

  /** The index in `Reserved` of the first reserved key the record has. */
  function FirstReserved(r: Record): (k: Option<nat>)
    ensures k.Some? ==> k.value < |Reserved| && Reserved[k.value] in r
    ensures k.Some? ==> forall j :: 0 <= j < k.value ==> Reserved[j] !in r
    ensures k.None? <==> forall j :: 0 <= j < |Reserved| ==> Reserved[j] !in r
  {
    if Reserved[0] in r then Some(0)
    else if Reserved[1] in r then Some(1)
    else if Reserved[2] in r then Some(2)
    else None
  }

  /** The record after `_transform`, or the failure `dict.update` raises. */
  function Flattened(r: Record): (out: Result<Record, Failure>)
    ensures FirstReserved(r).None? ==> out == Ok(r)
    ensures FirstReserved(r).Some? ==>
      var key := Reserved[FirstReserved(r).value];
      && (out.Err? <==> !r[key].Obj?)
      && (out.Err? ==> out.error == NotAMapping(key))
      && (out.Ok? ==> key !in out.value && forall k :: k in r && k != key ==> k in out.value)
  {
    match FirstReserved(r)
    case None => Ok(r)
    case Some(i) =>
      var key := Reserved[i];
      match r[key]
      case Obj(nested) => Ok((r + nested) - {key})
      case _ => Err(NotAMapping(key))
  }

  /** Exactly the first reserved key present is merged, overwriting, and removed. */
  lemma FlattenedFirstMatchWins(r: Record, i: nat)
    requires i < |Reserved| && Reserved[i] in r && r[Reserved[i]].Obj?
    requires forall j :: 0 <= j < i ==> Reserved[j] !in r
    ensures Flattened(r).Ok?
    ensures var out, key, nested := Flattened(r).value, Reserved[i], r[Reserved[i]].fields;
      && key !in out
      && (forall k :: k in out <==> k != key && (k in r || k in nested))
      && (forall k :: k in nested && k != key ==> out[k] == nested[k])
      && (forall k :: k in r && k !in nested && k != key ==> out[k] == r[k])
    ensures forall j :: i < j < |Reserved| && Reserved[j] in r && Reserved[j] !in r[Reserved[i]].fields ==>
      Reserved[j] in Flattened(r).value && Flattened(r).value[Reserved[j]] == r[Reserved[j]]
  {
    assert FirstReserved(r) == Some(i);
  }

  /** Without a reserved key the record comes back unchanged. */
  lemma FlattenedNoReservedKey(r: Record)
    requires forall j :: 0 <= j < |Reserved| ==> Reserved[j] !in r
    ensures Flattened(r) == Ok(r)
  {
  }

  /** The normalizer fails exactly when the first reserved key present does not hold an object. */
  lemma FlattenedFails(r: Record)
    ensures Flattened(r).Err? <==>
      exists i :: 0 <= i < |Reserved| && Reserved[i] in r && !r[Reserved[i]].Obj? &&
                  forall j :: 0 <= j < i ==> Reserved[j] !in r
    ensures Flattened(r).Err? ==> Flattened(r).error.NotAMapping? && Flattened(r).error.key in Reserved
  {
    if Flattened(r).Err? {
      var i := FirstReserved(r).value;
      assert Reserved[i] in r && !r[Reserved[i]].Obj?;
    }
  }

  /**
   * A key that is not reserved and is not in any reserved key's nested
   * object keeps its value, whichever key was merged.
   */
  lemma FlattenedKeepsUnrelatedKeys(r: Record, k: string)
    requires Flattened(r).Ok?
    requires k in r && k !in Reserved
    requires forall j :: 0 <= j < |Reserved| && Reserved[j] in r && r[Reserved[j]].Obj? ==>
      k !in r[Reserved[j]].fields
    ensures k in Flattened(r).value && Flattened(r).value[k] == r[k]
  {
    match FirstReserved(r)
    case None =>
    case Some(i) =>
      assert r[Reserved[i]].Obj?;
      assert k != Reserved[i];
  }

  /** At most one reserved key, and the nested object it names carries none. */
  predicate SingleUnitSystem(r: Record) {
    && (forall i, j :: 0 <= i < j < |Reserved| && Reserved[i] in r ==> Reserved[j] !in r)
    && (forall i :: 0 <= i < |Reserved| && Reserved[i] in r ==>
          r[Reserved[i]].Obj? && forall j :: 0 <= j < |Reserved| ==> Reserved[j] !in r[Reserved[i]].fields)
  }

  /** On a record of the shape the API promises, normalizing twice is normalizing once. */
  lemma FlattenedIdempotent(r: Record)
    requires SingleUnitSystem(r)
    ensures Flattened(r).Ok?
    ensures Flattened(Flattened(r).value) == Flattened(r)
  {
    match FirstReserved(r)
    case None =>
    case Some(i) =>
      var out := Flattened(r).value;
      var nested := r[Reserved[i]].fields;
      forall j | 0 <= j < |Reserved|
        ensures Reserved[j] !in out
      {
        if j != i {
          assert Reserved[j] !in r by {
            if j < i { } else { assert Reserved[i] in r; }
          }
        }
        assert Reserved[j] !in nested;
      }
      FlattenedNoReservedKey(out);
  }

  /** Without that shape, normalizing is not idempotent: a second reserved key survives the first pass. */
  lemma FlattenedNotIdempotentInGeneral()
    ensures exists r: Record :: Flattened(r).Ok? && Flattened(Flattened(r).value) != Flattened(r)
  {
    var r: Record := map["imperial" := Obj(map[]), "metric" := Obj(map["temp" := Num(22.0)])];
    assert FirstReserved(r) == Some(0);
    var once := Flattened(r).value;
    assert once == map["metric" := Obj(map["temp" := Num(22.0)])];
    assert FirstReserved(once) == Some(1);
    assert (once + map["temp" := Num(22.0)]) - {"metric"} == map["temp" := Num(22.0)];
    assert Flattened(once) == Ok(map["temp" := Num(22.0)]);
    assert map["temp" := Num(22.0)] != once by {
      assert "metric" !in map["temp" := Num(22.0)];
    }
  }

  /** A record with imperial readings has them lifted to the top level. */
  lemma FlattenedImperialExample(t: string)
    ensures Flattened(map["obsTimeUtc" := Str(t), "imperial" := Obj(map["temp" := Num(72.0)])])
         == Ok(map["obsTimeUtc" := Str(t), "temp" := Num(72.0)])
  {
    var r := map["obsTimeUtc" := Str(t), "imperial" := Obj(map["temp" := Num(72.0)])];
    assert FirstReserved(r) == Some(0);
    assert (r + map["temp" := Num(72.0)]) - {"imperial"} == map["obsTimeUtc" := Str(t), "temp" := Num(72.0)];
  }

  /**
   * `[self._transform(o) for o in observations]`: every record normalized,
   * in order; the first failure is raised.
   */
  function FlattenAll(rs: seq<Record>): (out: Result<seq<Record>, Failure>)
    ensures out.Ok? <==> forall i :: 0 <= i < |rs| ==> Flattened(rs[i]).Ok?
    ensures out.Ok? ==> |out.value| == |rs| && forall i :: 0 <= i < |rs| ==> Flattened(rs[i]) == Ok(out.value[i])
    ensures out.Err? ==>
      exists i :: 0 <= i < |rs| && Flattened(rs[i]) == Err(out.error) &&
                  forall j :: 0 <= j < i ==> Flattened(rs[j]).Ok?
  {
    if rs == [] then Ok([])
    else match Flattened(rs[0])
      case Err(e) => Err(e)
      case Ok(first) =>
        match FlattenAll(rs[1..])
        case Err(e) =>
          assert forall i :: 1 <= i < |rs| ==> rs[i] == rs[1..][i - 1];
          Err(e)
        case Ok(rest) =>
          assert forall i :: 1 <= i < |rs| ==> rs[i] == rs[1..][i - 1];
          Ok([first] + rest)
  }
}
