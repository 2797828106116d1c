/** Main-agent deliveries and their re-validation before the success transaction (run_execution.py). */
module MainDelivery {
  import opened Wrappers
  import opened TextCompare
  import opened MainInput
  import opened Capabilities

  datatype Grounding = Grounding(capabilityId: string, capabilityVersion: int, skillId: string, skillVersion: int)

  datatype Delivery =
    | Answer(text: string, grounding: Option<Grounding>)
    | NeedsInput(missing: seq<Slot>)
    | ComparisonDelivery(comparison: Comparison)

  /** The sides a snapshot has no material for, A before B. */
  function MissingSides(s: Snapshot): seq<Slot> {
    (if s.textA.None? then [TextA] else []) + (if s.textB.None? then [TextB] else [])
  }

  function SlotSet(slots: seq<Slot>): set<Slot> { set slot | slot in slots }

  predicate GroundingAccepted(g: Grounding, definitions: map<Key, Definition>) {
    var key := (g.capabilityId, g.capabilityVersion);
    && key in definitions
    && definitions[key].kind == Knowledge
    && definitions[key].skill == Some(SkillDeclaration(g.skillId, g.skillVersion))
  }

  /** `validate_main_delivery`: true when it returns, false when it raises. */
  predicate DeliveryAccepted(d: Delivery, runId: Id, s: Snapshot, definitions: Option<map<Key, Definition>>) {
    match d
    case NeedsInput(missing) => SlotSet(missing) == SlotSet(MissingSides(s))
    case Answer(_, None) => true
    case Answer(_, Some(g)) => definitions.Some? && GroundingAccepted(g, definitions.value)
    case ComparisonDelivery(c) =>
      s.textA.Some? && s.textB.Some? && Compare(runId, s.textA.value, s.textB.value) == Ok(c)
  }

  /** A request for input is accepted exactly when it names the open sides, no other and none left out. */
  lemma AcceptedNeedsInputNamesOpenSides(missing: seq<Slot>, runId: Id, s: Snapshot, definitions: Option<map<Key, Definition>>)
    ensures DeliveryAccepted(NeedsInput(missing), runId, s, definitions)
            <==> (TextA in missing <==> s.textA.None?) && (TextB in missing <==> s.textB.None?)
  {
    var named, open := SlotSet(missing), SlotSet(MissingSides(s));
    assert (TextA in open <==> s.textA.None?) && (TextB in open <==> s.textB.None?);
    assert (TextA in named <==> TextA in missing) && (TextB in named <==> TextB in missing);
    if (TextA in named <==> TextA in open) && (TextB in named <==> TextB in open) {
      forall slot: Slot
        ensures slot in named <==> slot in open
      {
        match slot case TextA => case TextB =>
      }
    }
  }

  /**
   An accepted comparison is a patch of the frozen texts, in both directions, and passes every
   validator of the typed result.
   */
  lemma AcceptedComparisonIsAPatch(c: Comparison, runId: Id, s: Snapshot, definitions: Option<map<Key, Definition>>)
    requires ValidSnapshot(s) && DeliveryAccepted(ComparisonDelivery(c), runId, s, definitions)
    ensures ValidComparison(c) && c.runId == runId
    ensures c.aMaterialId == s.textA.value.id && c.bMaterialId == s.textB.value.id
    ensures Patch(s.textA.value.Lines(), c.blocks) == Some(s.textB.value.Lines())
    ensures Patch(s.textB.value.Lines(), Inverse(c.blocks)) == Some(s.textA.value.Lines())
    ensures c.status == NoDifference <==> s.textA.value.normalized == s.textB.value.normalized
  {
    var a, b := s.textA.value, s.textB.value;
    CompareAlwaysValidates(runId, a, b);
    DiffIsAPatch(a.Lines(), b.Lines());
    NoDifferenceIffEqual(runId, a, b);
  }
}
