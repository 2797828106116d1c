/**
 The frozen input of a main-agent run: building it at acceptance, copying it for a rerun and
 the fingerprints that decide whether two requests are the same
 (backend/src/domain/main_agent.py, backend/src/application/run_execution.py).
 */
module MainInput {
  import opened Wrappers
  import opened Whitespace
  import opened MaterialText
  import opened TextCompare

  const MAX_MAIN_QUERY_CODEPOINTS := 200
  const MAX_CONTEXT_MESSAGES := 4
  const MAX_CONTEXT_CODEPOINTS := 2_000

  type Id = nat

  datatype Slot = TextA | TextB

  datatype Role = User | Assistant

  datatype ContextMessage = ContextMessage(id: Id, role: Role, content: string)

  datatype Input = Input(query: string, textA: Option<string>, textB: Option<string>)

  datatype Snapshot = Snapshot(
    query: string, textA: Option<Material>, textB: Option<Material>, ruleVersion: string,
    context: seq<ContextMessage>)

  datatype InputError = MaterialInvalid | SnapshotInvalid | RuleUnsupported

  function ContextSize(context: seq<ContextMessage>): nat {
    if context == [] then 0 else |context[0].content| + ContextSize(context[1..])
  }

  predicate ValidContext(context: seq<ContextMessage>) {
    && |context| <= MAX_CONTEXT_MESSAGES
    && ContextSize(context) <= MAX_CONTEXT_CODEPOINTS
    && forall i | 0 <= i < |context| :: 1 <= |context[i].content| <= MAX_CONTEXT_CODEPOINTS
  }

  predicate ValidQuery(query: string) { Strip(query) != [] && |query| <= MAX_MAIN_QUERY_CODEPOINTS }

  predicate ValidMaterial(m: Option<Material>) { m.Some? ==> m.value.Valid() }

  /** The snapshot's own validators. */
  predicate ValidSnapshot(s: Snapshot) {
    && ValidQuery(s.query)
    && ValidMaterial(s.textA) && ValidMaterial(s.textB)
    && s.ruleVersion == RULE_VERSION
    && (s.textA.Some? && s.textB.Some? ==> s.textA.value.id != s.textB.value.id)
    && ValidContext(s.context)
  }

  function Checked(s: Snapshot): Result<Snapshot, InputError> {
    if ValidSnapshot(s) then Ok(s) else Err(SnapshotInvalid)
  }

  /** A missing side stays missing; an explicit empty text is a material of its own. */
  function MaterialOf(text: Option<string>, id: Id): Result<Option<Material>, InputError> {
    match text
    case None => Ok(None)
    case Some(original) =>
      match ValidateMaterialText(original)
      case Err(_) => Err(MaterialInvalid)
      case Ok(normalized) => Ok(Some(Material(id, original, normalized, Sha256(normalized))))
  }

  /** `build_main_input_snapshot`; `idA` and `idB` are the two fresh UUIDs. */
  function BuildSnapshot(input: Input, context: seq<ContextMessage>, idA: Id, idB: Id): Result<Snapshot, InputError> {
    var a := MaterialOf(input.textA, idA);
    var b := MaterialOf(input.textB, idB);
    if a.Err? then Err(a.error)
    else if b.Err? then Err(b.error)
    else Checked(Snapshot(input.query, a.value, b.value, RULE_VERSION, context))
  }

  function CopyMaterial(m: Option<Material>, id: Id): Option<Material> {
    match m case None => None case Some(value) => Some(value.(id := id))
  }

  /** `rebuild_main_input_snapshot`: same content, new material ids, the same frozen context. */
  function RebuildSnapshot(s: Snapshot, idA: Id, idB: Id): Result<Snapshot, InputError> {
    if s.ruleVersion != RULE_VERSION then Err(RuleUnsupported)
    else Checked(Snapshot(s.query, CopyMaterial(s.textA, idA), CopyMaterial(s.textB, idB), s.ruleVersion, s.context))
  }

  /** Everything a snapshot says, its material ids left out. */
  datatype Content = Content(
    query: string, textA: Option<(string, string, Digest)>, textB: Option<(string, string, Digest)>,
    ruleVersion: string, context: seq<ContextMessage>)

  function MaterialContent(m: Option<Material>): Option<(string, string, Digest)> {
    match m case None => None case Some(v) => Some((v.original, v.normalized, v.digest))
  }

  function ContentOf(s: Snapshot): Content {
    Content(s.query, MaterialContent(s.textA), MaterialContent(s.textB), s.ruleVersion, s.context)
  }

  /** What the hashed payloads hold; SHA-256 (over canonical JSON for main-agent runs) is taken as injective. */
  datatype Fingerprint =
    | CreateText(text: string)
    | RerunText(source: Id, text: string)
    | CreateMain(query: string, textA: Option<string>, textB: Option<string>)
    | RerunMain(source: Id, ruleVersion: string, query: string, textA: Option<string>, textB: Option<string>,
                context: seq<ContextMessage>)

  function Original(m: Option<Material>): Option<string> {
    match m case None => None case Some(v) => Some(v.original)
  }

  function CreateFingerprint(input: Input): Fingerprint {
    CreateMain(input.query, input.textA, input.textB)
  }

  function RerunFingerprint(source: Id, s: Snapshot): Fingerprint {
    RerunMain(source, s.ruleVersion, s.query, Original(s.textA), Original(s.textB), s.context)
  }

  predicate HasIds(s: Snapshot, idA: Id, idB: Id) {
    (s.textA.Some? ==> s.textA.value.id == idA) && (s.textB.Some? ==> s.textB.value.id == idB)
  }

  /** A rebuilt snapshot differs from its source in the material ids and in nothing else. */
  lemma RebuildKeepsContent(s: Snapshot, idA: Id, idB: Id)
    requires RebuildSnapshot(s, idA, idB).Ok?
    ensures ContentOf(RebuildSnapshot(s, idA, idB).value) == ContentOf(s)
    ensures ValidSnapshot(RebuildSnapshot(s, idA, idB).value) && HasIds(RebuildSnapshot(s, idA, idB).value, idA, idB)
  {
  }

  /** Distinct fresh ids are all a valid snapshot needs to be rebuilt. */
  lemma RebuildSucceeds(s: Snapshot, idA: Id, idB: Id)
    requires ValidSnapshot(s)
    ensures RebuildSnapshot(s, idA, idB).Ok? <==> !(s.textA.Some? && s.textB.Some? && idA == idB)
  {
  }

  /**
   For valid snapshots the rerun fingerprint is equal exactly when source and content are equal:
   it ignores the material ids and nothing else.
   */
  lemma RerunFingerprintIsContent(source1: Id, s1: Snapshot, source2: Id, s2: Snapshot)
    requires ValidSnapshot(s1) && ValidSnapshot(s2)
    ensures RerunFingerprint(source1, s1) == RerunFingerprint(source2, s2)
            <==> source1 == source2 && ContentOf(s1) == ContentOf(s2)
  {
    if RerunFingerprint(source1, s1) == RerunFingerprint(source2, s2) {
      SameOriginal(s1.textA, s2.textA);
      SameOriginal(s1.textB, s2.textB);
    }
  }

  lemma SameOriginal(m: Option<Material>, n: Option<Material>)
    requires ValidMaterial(m) && ValidMaterial(n) && Original(m) == Original(n)
    ensures MaterialContent(m) == MaterialContent(n)
  {
  }

  /** A snapshot holds the input as it was given: an open side stays open, an empty text stays a text. */
  lemma BuildKeepsInput(input: Input, context: seq<ContextMessage>, idA: Id, idB: Id)
    requires BuildSnapshot(input, context, idA, idB).Ok?
    ensures var s := BuildSnapshot(input, context, idA, idB).value;
            && ValidSnapshot(s) && HasIds(s, idA, idB)
            && s.query == input.query && Original(s.textA) == input.textA && Original(s.textB) == input.textB
            && s.context == context
  {
  }

  /** The create fingerprint of an input says as much as the snapshot built from it, the context left out. */
  lemma CreateFingerprintIsInput(input1: Input, context1: seq<ContextMessage>, input2: Input, context2: seq<ContextMessage>,
                                 idA: Id, idB: Id)
    requires BuildSnapshot(input1, context1, idA, idB).Ok? && BuildSnapshot(input2, context2, idA, idB).Ok?
    ensures CreateFingerprint(input1) == CreateFingerprint(input2)
            <==> ContentOf(BuildSnapshot(input1, context1, idA, idB).value).(context := [])
                 == ContentOf(BuildSnapshot(input2, context2, idA, idB).value).(context := [])
  {
    BuildKeepsInput(input1, context1, idA, idB);
    BuildKeepsInput(input2, context2, idA, idB);
    if CreateFingerprint(input1) == CreateFingerprint(input2) {
      SameOriginal(BuildSnapshot(input1, context1, idA, idB).value.textA, BuildSnapshot(input2, context2, idA, idB).value.textA);
      SameOriginal(BuildSnapshot(input1, context1, idA, idB).value.textB, BuildSnapshot(input2, context2, idA, idB).value.textB);
    }
  }
}
