/**
 * The movement labels of
 * src/app/features/dashboard/components/transaction-history/transaction-history.component.ts.
 */
module TransactionHistory {
  import opened Wrappers
  import Language

  /** `getTypeLabel`: the Spanish text of the four known kinds; any other kind is shown as it is. */
  function TypeLabel(kind: string): (shown: string)
    ensures kind != "buy" && kind != "sell" && kind != "update" && kind != "delete" ==> shown == kind
  {
    if kind == "buy" then "Compra"
    else if kind == "sell" then "Venta"
    else if kind == "update" then "Ajuste"
    else if kind == "delete" then "Eliminación"
    else kind
  }

  /** The four labels are the Spanish dictionary's `dashboard.<kind>` texts. */
  lemma LabelsAreTheSpanishDictionary(kind: string)
    requires kind == "buy" || kind == "sell" || kind == "update" || kind == "delete"
    ensures Language.Resolve(Language.ES, ["dashboard", kind]) == Some(Language.Str(TypeLabel(kind)))
  {
    var section := Language.ES_DASHBOARD;
    var text := Language.Str(TypeLabel(kind));
    SpanishDashboard();
    SpanishDashboardEntry(kind);
    StepFound(section, kind, text);
    assert Language.Resolve(text, []) == Some(text);
    assert [kind][1..] == [];
    assert Language.Resolve(Language.Obj(section), [kind]) == Some(text);
    assert ["dashboard", kind][1..] == [kind];
  }

  lemma SpanishDashboardEntry(kind: string)
    requires kind == "buy" || kind == "sell" || kind == "update" || kind == "delete"
    ensures Language.Lookup(Language.ES_DASHBOARD, kind) == Some(Language.Str(TypeLabel(kind)))
  {
    var section := Language.ES_DASHBOARD;
    var i := if kind == "buy" then 20 else if kind == "sell" then 21 else if kind == "update" then 22 else 23;
    assert section[i].key == kind;
    assert forall j :: 0 <= j < i ==> section[j].key != kind;
    LookupFirst(section, i, kind);
  }

  lemma StepFound(fields: seq<Language.Field>, k: string, v: Language.Json)
    requires Language.Lookup(fields, k) == Some(v) && Language.Truthy(v)
    ensures Language.Step(Language.Obj(fields), k) == Some(v)
  {
  }

  lemma SpanishDashboard()
    ensures Language.Step(Language.ES, "dashboard") == Some(Language.Obj(Language.ES_DASHBOARD))
  {
    var f := Language.ES.fields;
    assert f[0].key == "auth";
    assert f[1] == Language.Field("dashboard", Language.Obj(Language.ES_DASHBOARD));
    assert Language.Lookup(f, "dashboard") == Language.Lookup(f[1..], "dashboard");
  }

  /** The first member with a key is the one found. */
  lemma {:induction false} LookupFirst(fields: seq<Language.Field>, i: nat, k: string)
    requires i < |fields| && fields[i].key == k
    requires forall j :: 0 <= j < i ==> fields[j].key != k
    ensures Language.Lookup(fields, k) == Some(fields[i].value)
  {
    if i > 0 {
      LookupFirst(fields[1..], i - 1, k);
    }
  }

  /** Known kinds get labels that differ from each other and from every raw kind they name. */
  lemma LabelsAreDistinct(a: string, b: string)
    requires a in ["buy", "sell", "update", "delete"] && b in ["buy", "sell", "update", "delete"]
    ensures TypeLabel(a) == TypeLabel(b) <==> a == b
    ensures TypeLabel(a) != a
  {
  }
}
