/**
 * The custom-variables route: the reshaping of the server's record
 * `{ [name]: { t, v, meta: { persist? } } }` into a list of
 * `{ name, data, ttl, persist }`, and the failure condition of setting a variable.
 * The HTTP requests around them are outside the model.
 */
module CustomVariables {
  import opened Wrappers
  import opened JsonValues

  datatype Meta = Meta(persist: Option<Json>)

  /** A variable as the server stores it: time to live `t`, value `v`, metadata. */
  datatype FirebotCustomVariable = FirebotCustomVariable(t: int, v: Option<Json>, meta: Meta)

  /** A variable as the client returns it. */
  datatype CustomVariable = CustomVariable(name: string, data: Option<Json>, ttl: int, persist: bool)

  /** A decoded record, as `Object.entries` lists it: name/variable pairs in entry order. */
  type Record = seq<(string, FirebotCustomVariable)>

  /** The names of a decoded JSON object are distinct. */
  predicate DistinctKeys(rec: Record) {
    forall i, j | 0 <= i < j < |rec| :: rec[i].0 != rec[j].0
  }

  /** The mapping applied to one entry. */
  function ToCustomVariable(name: string, variable: FirebotCustomVariable): (c: CustomVariable)
    ensures c.name == name && c.data == variable.v && c.ttl == variable.t
    ensures c.persist <==> variable.meta.persist.Some? && Truthy(variable.meta.persist.value)
  {
    CustomVariable(name, variable.v, variable.t,
                   variable.meta.persist.Some? && Truthy(variable.meta.persist.value))
  }

  /** `Object.entries(response).map(...)` in `getCustomVariables`. */
  function ToCustomVariables(rec: Record): (vars: seq<CustomVariable>)
    ensures |vars| == |rec|
    ensures forall i | 0 <= i < |rec| :: vars[i] == ToCustomVariable(rec[i].0, rec[i].1)
  {
    if rec == [] then [] else [ToCustomVariable(rec[0].0, rec[0].1)] + ToCustomVariables(rec[1..])
  }

  /** An absent `persist` reads as false; a boolean one is taken as it is. */
  lemma PersistDefaultsToFalse(name: string, t: int, v: Option<Json>, b: bool)
    ensures !ToCustomVariable(name, FirebotCustomVariable(t, v, Meta(None))).persist
    ensures ToCustomVariable(name, FirebotCustomVariable(t, v, Meta(Some(JBool(b))))).persist == b
  {
  }

  /**
   * Each name of the record names exactly one variable of the result, the one made
   * from that entry, so looking a variable up by name gives the record's `v` and `t`.
   */
  lemma LookupByName(rec: Record, i: nat, j: nat)
    requires DistinctKeys(rec) && i < |rec| && j < |rec|
    ensures ToCustomVariables(rec)[j].name == rec[i].0 <==> j == i
    ensures ToCustomVariables(rec)[i].data == rec[i].1.v && ToCustomVariables(rec)[i].ttl == rec[i].1.t
  {
  }

  /** The record a list of variables would be read back from: `persist` stored as a boolean. */
  function ToRecord(vars: seq<CustomVariable>): (rec: Record)
    ensures |rec| == |vars|
  {
    if vars == [] then []
    else [(vars[0].name, FirebotCustomVariable(vars[0].ttl, vars[0].data, Meta(Some(JBool(vars[0].persist)))))]
         + ToRecord(vars[1..])
  }

  /** Every list of variables is the result of some record: the mapping loses no combination of fields. */
  lemma {:induction false} ToCustomVariablesOfToRecord(vars: seq<CustomVariable>)
    ensures ToCustomVariables(ToRecord(vars)) == vars
  {
    if vars != [] {
      ToCustomVariablesOfToRecord(vars[1..]);
      assert ToRecord(vars)[1..] == ToRecord(vars[1..]);
    }
  }

  const SetFailurePrefix := "Failed to set custom variable: "

  /**
   * The completion of `setCustomVariable` given whether the response was `ok` and its
   * status text: it throws exactly when the response is not ok, with a message naming
   * the variable and then the status text in parentheses.
   */
  function SetCustomVariableOutcome(variableName: string, ok: bool, statusText: string): (r: Outcome)
    ensures r.Pass? <==> ok
    ensures r.Fail? ==>
      && |r.error| == |SetFailurePrefix| + |variableName| + |statusText| + 3
      && r.error[..|SetFailurePrefix|] == SetFailurePrefix
      && r.error[|SetFailurePrefix|..|SetFailurePrefix| + |variableName|] == variableName
      && r.error[|r.error| - |statusText| - 3..] == " (" + statusText + ")"
  {
    if ok then Pass
    else
      var head := SetFailurePrefix + variableName;
      var tail := " (" + statusText + ")";
      assert (head + tail)[|head|..] == tail;
      Fail(head + tail)
  }
}
