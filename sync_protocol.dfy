/**
 * DCPSyncEngine (sync-engine draft): one differential sync round. The
 * prepared patches go out in an envelope, and each patch of the reply is
 * applied, or handed to conflict handling when applying it throws.
 */
module SyncProtocol {
  import opened Wrappers
  import opened JsValues

  datatype PatchOpKind = Add | Replace | Remove

  datatype PatchOperation = PatchOperation(op: PatchOpKind, path: string, value: Option<Value>)

  /** IDiffPatch: `patchType` is the draft's `type` field. */
  datatype DiffPatch = DiffPatch(id: string, patchType: string, operations: seq<PatchOperation>, baseVersion: int)

  datatype SyncEnvelope = SyncEnvelope(
    protocolVersion: string,
    clientId: string,
    patches: seq<DiffPatch>,
    timestamp: int,
    signature: Option<string>)

  datatype TransportError = TransportError

  /** What became of one patch of the reply. */
  datatype PatchOutcome = Applied(patch: DiffPatch) | Conflicted(patch: DiffPatch)

  const ProtocolVersion: string := "1.0"
  const ClientId: string := "client-123"

  /** `preparePatches` as drafted: no dirty records are collected yet. */
  function PreparePatches(): seq<DiffPatch> {
    []
  }

  /** `applyPatch` as drafted: its body is empty, so it never throws. */
  function DraftApplyThrows(p: DiffPatch): bool {
    false
  }

  /** The request of one round: protocol "1.0", the fixed client id, the given patches in order, no signature. */
  function Envelope(patches: seq<DiffPatch>, now: int): (e: SyncEnvelope)
    ensures e.protocolVersion == ProtocolVersion && e.clientId == ClientId
    ensures e.patches == patches && e.timestamp == now && e.signature.None?
  {
    SyncEnvelope(ProtocolVersion, ClientId, patches, now, None)
  }

  /** The fate of `p` when `applyThrows` says whether applying it throws. */
  function OutcomeOf(p: DiffPatch, applyThrows: DiffPatch -> bool): (o: PatchOutcome)
    ensures o.patch == p
    ensures o.Conflicted? <==> applyThrows(p)
  {
    if applyThrows(p) then Conflicted(p) else Applied(p)
  }

  /**
   * `sync()`: `transport` stands for ISyncTransport.sendSyncRequest and
   * `applyThrows` for whether applyPatch rejects a patch; `now` is Date.now().
   * A transport failure ends the round before any reply patch is looked at;
   * otherwise every reply patch is visited once, in order.
   */
  method Sync(transport: SyncEnvelope -> Result<SyncEnvelope, TransportError>, applyThrows: DiffPatch -> bool, now: int)
    returns (sent: SyncEnvelope, r: Result<seq<PatchOutcome>, TransportError>)
    ensures sent == Envelope(PreparePatches(), now)
    ensures transport(sent).Err? ==> r == Err(transport(sent).error)
    ensures transport(sent).Ok? ==> r.Ok? && |r.value| == |transport(sent).value.patches|
    ensures transport(sent).Ok? ==> forall i :: 0 <= i < |r.value| ==>
      r.value[i] == OutcomeOf(transport(sent).value.patches[i], applyThrows)
  {
    var patches := PreparePatches();
    sent := SyncEnvelope(ProtocolVersion, ClientId, patches, now, None);
    var response := transport(sent);
    if response.Err? {
      return sent, Err(response.error);
    }
    var reply := response.value.patches;
    var outcomes: seq<PatchOutcome> := [];
    for i := 0 to |reply|
      invariant |outcomes| == i
      invariant forall j :: 0 <= j < i ==> outcomes[j] == OutcomeOf(reply[j], applyThrows)
    {
      var remotePatch := reply[i];
      if applyThrows(remotePatch) {
        // handleConflict(remotePatch) has an empty body.
        outcomes := outcomes + [Conflicted(remotePatch)];
      } else {
        outcomes := outcomes + [Applied(remotePatch)];
      }
    }
    return sent, Ok(outcomes);
  }

  /** As drafted, a round sends no patches. */
  lemma DraftSendsNothing(now: int)
    ensures Envelope(PreparePatches(), now).patches == []
  {
  }

  /** With the drafted applyPatch, no reply patch ever reaches conflict handling. */
  lemma DraftNeverConflicts(p: DiffPatch)
    ensures OutcomeOf(p, DraftApplyThrows) == Applied(p)
  {
  }
}
