/**
 * The two output-schema filters side by side: the output section hides
 * only what the schema switches off, the route handler shows only what the
 * schema switches on.
 */
module SchemaFilters {
  import opened Js
  import OutputSection
  import OutputRoute

  /** On a schema that gives every output a boolean, the two filters agree. */
  lemma {:induction false} AgreeOnBooleans(data: Fields, schema: Fields)
    requires forall i :: 0 <= i < |data| ==> Get(schema, data[i].0).Bool?
    ensures OutputSection.KeepNotFalse(data, schema) == OutputRoute.KeepTrue(data, schema)
  {
    if data != [] {
      AgreeOnBooleans(data[1..], schema);
    }
  }

  /** An output the schema does not list is shown by the output section and
      left out by the route handler. */
  lemma DisagreeOnUnlisted(data: Fields, schema: Fields, k: string)
    requires HasKey(data, k) && !HasKey(schema, k)
    ensures HasKey(OutputSection.KeepNotFalse(data, schema), k)
    ensures !HasKey(OutputRoute.KeepTrue(data, schema), k)
  {
    OutputSection.KeepNotFalseGet(data, schema, k);
    OutputRoute.KeepTrueGet(data, schema, k);
  }
}
