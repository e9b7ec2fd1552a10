/** The phase name of a raw phase record. Three places in the code read it the
    same way: `phase.name`, then `name`, then `phase_name`, then
    `production_phase.name`, then a fallback, taking the first truthy value.
    They differ only in how the nested look-up treats a missing or null
    nested record and in the fallback. */
module PhaseRecords {
  import opened Basics
  import opened JsonValues
  import opened PyDict

  /** How a call site spells the nested look-up of `key.name`. */
  datatype NestedStyle =
    | GetDefault   // `p.get(key, {}).get("name")`: a present `None` (or other non-dict) raises
    | OrEmpty      // `(p.get(key) or {}).get("name", "")`: a falsy value reads as `{}`

  function NameUnder(p: Record, key: string, style: NestedStyle): (r: Result<Json>)
  {
    match style
    case GetDefault => GetOn(GetOr(p, key, JObj([])), "name", JNull)
    case OrEmpty => GetOn(Or(GetOr(p, key, JNull), JObj([])), "name", JStr(""))
  }

  /** `a or b or ... or fallback` over already evaluated candidates. */
  function FirstTruthy(cands: seq<Json>, fallback: Json): (r: Json)
  {
    if cands == [] then fallback else Or(cands[0], FirstTruthy(cands[1..], fallback))
  }

  /** The first truthy candidate, or the fallback when there is none. */
  lemma {:induction false} FirstTruthyIsFirst(cands: seq<Json>, fallback: Json)
    ensures var r := FirstTruthy(cands, fallback);
      || (r == fallback && forall i :: 0 <= i < |cands| ==> !Truthy(cands[i]))
      || exists k :: 0 <= k < |cands| && r == cands[k] && Truthy(r) && forall i :: 0 <= i < k ==> !Truthy(cands[i])
  {
    if cands != [] && !Truthy(cands[0]) {
      FirstTruthyIsFirst(cands[1..], fallback);
      var r := FirstTruthy(cands, fallback);
      if r != fallback || exists i :: 0 <= i < |cands| && Truthy(cands[i]) {
        var k :| 0 <= k < |cands[1..]| && r == cands[1..][k] && Truthy(r) && forall i :: 0 <= i < k ==> !Truthy(cands[1..][i]);
        assert r == cands[k + 1];
      }
    }
  }

  /** The phase name, lazily: the production-phase look-up is evaluated (and
      may raise) only when the three earlier candidates are all falsy. */
  function PhaseName(p: Record, style: NestedStyle, fallback: string): (r: Result<Json>)
  {
    var nested := NameUnder(p, "phase", style);
    if nested.Err? then nested
    else if Truthy(nested.value) then nested
    else if Truthy(GetOr(p, "name", JNull)) then Ok(GetOr(p, "name", JNull))
    else if Truthy(GetOr(p, "phase_name", JNull)) then Ok(GetOr(p, "phase_name", JNull))
    else
      var last := NameUnder(p, "production_phase", style);
      if last.Err? then last else Ok(Or(last.value, JStr(fallback)))
  }

  /** When neither nested look-up raises, the name is the first truthy of the
      four candidates in precedence order, else the fallback. */
  lemma PhaseNamePrecedence(p: Record, style: NestedStyle, fallback: string)
    requires NameUnder(p, "phase", style).Ok? && NameUnder(p, "production_phase", style).Ok?
    ensures PhaseName(p, style, fallback) == Ok(FirstTruthy(
      [NameUnder(p, "phase", style).value, GetOr(p, "name", JNull),
       GetOr(p, "phase_name", JNull), NameUnder(p, "production_phase", style).value],
      JStr(fallback)))
  {
    var a, b, c, d := NameUnder(p, "phase", style).value, GetOr(p, "name", JNull),
                      GetOr(p, "phase_name", JNull), NameUnder(p, "production_phase", style).value;
    var f := JStr(fallback);
    assert FirstTruthy([d], f) == Or(d, f) by { assert [d][1..] == []; }
    assert FirstTruthy([c, d], f) == Or(c, Or(d, f)) by { assert [c, d][1..] == [d]; }
    assert FirstTruthy([b, c, d], f) == Or(b, Or(c, Or(d, f))) by { assert [b, c, d][1..] == [c, d]; }
    assert [a, b, c, d][1..] == [b, c, d];
  }

  /** The name raises exactly when the nested `phase` look-up raises, or when
      every earlier candidate is falsy and the `production_phase` one raises. */
  lemma PhaseNameRaises(p: Record, style: NestedStyle, fallback: string)
    ensures PhaseName(p, style, fallback).Err? <==>
      || NameUnder(p, "phase", style).Err?
      || (&& !Truthy(NameUnder(p, "phase", style).value)
          && !Truthy(GetOr(p, "name", JNull)) && !Truthy(GetOr(p, "phase_name", JNull))
          && NameUnder(p, "production_phase", style).Err?)
  {
  }

  /** The `OrEmpty` spelling never raises on a missing or null nested record. */
  lemma OrEmptyToleratesNull(p: Record, key: string)
    requires !Truthy(GetOr(p, key, JNull))
    ensures NameUnder(p, key, OrEmpty) == Ok(JStr(""))
  {
  }

  /** The `GetDefault` spelling raises on a nested record that is present but null. */
  lemma GetDefaultRejectsNull(p: Record, key: string)
    requires Get(p, key) == Some(JNull)
    ensures NameUnder(p, key, GetDefault).Err?
  {
  }

  /** A returned name is truthy, or it is the fallback itself. */
  lemma PhaseNameTruthyOrFallback(p: Record, style: NestedStyle, fallback: string)
    requires PhaseName(p, style, fallback).Ok?
    ensures var r := PhaseName(p, style, fallback).value; Truthy(r) || r == JStr(fallback)
  {
  }

  /** The name as text, when it is a string. */
  function PhaseNameText(p: Record, style: NestedStyle, fallback: string): Option<string> {
    var r := PhaseName(p, style, fallback);
    if r.Ok? then Text(r.value) else None
  }
}
