/**
 command_apply and command_restore: three source documents, a rollback bundle and a receipt.

 Documents are their bytes and a digest is symbolic, so equal digests mean equal content. The
 mutation, the candidate validator and the handoff checks are parameters of the workspace.
 */
module ModelProfileReceipts {
  import opened Wrappers

  datatype Documents = Documents(registry: string, plane: string, runtime: string)

  /** source_state: the digests of the documents, and a version label. */
  datatype SourceState = SourceState(documents: Documents, version: string)

  datatype Request = Request(id: string, revision: nat)

  datatype Bundle = Bundle(
    request: string, decision: string, base: SourceState, result: SourceState, documents: Documents)

  /** A file that carries the digest of its own content. */
  datatype Sealed = Sealed(body: Bundle, digest: Bundle)

  datatype Receipt = Receipt(
    request: Request, decision: string, base: SourceState, result: SourceState, bundle: Bundle)

  datatype Answer = Refused | Interrupted | Applied(receipt: Receipt) | Restored

  /** The derived version label of a result. */
  function DerivedVersion(documents: Documents): string {
    "platform-source:" + documents.registry + documents.plane + documents.runtime
  }

  class Workspace {
    const mutate: (Documents, string) -> Option<Documents>
    const valid: Documents -> bool
    var documents: Documents
    var bundle: Option<Sealed>
    var receipt: Option<Receipt>

    constructor (documents: Documents, mutate: (Documents, string) -> Option<Documents>, valid: Documents -> bool)
      ensures this.documents == documents && this.mutate == mutate && this.valid == valid
      ensures bundle == None && receipt == None
    {
      this.documents, this.mutate, this.valid := documents, mutate, valid;
      bundle, receipt := None, None;
    }

    /** The idempotency branch accepts exactly the same request and decision, over the sources it left. */
    predicate SameInput(request: Request, decision: string)
      reads this
    {
      && bundle.Some? && receipt.Some?
      && bundle.value.digest == bundle.value.body
      && receipt.value.decision == decision && receipt.value.request == request
      && receipt.value.bundle == bundle.value.digest
      && documents == receipt.value.result.documents
    }

    /** The receipt and bundle that an apply over these documents produces. */
    ghost predicate Produced(request: Request, decision: string, head: string, base: Documents)
      reads this
    {
      && mutate(base, decision).Some?
      && var after := mutate(base, decision).value;
      && var from, to := SourceState(base, head), SourceState(after, DerivedVersion(after));
      && var body := Bundle(request.id, decision, from, to, base);
      && bundle == Some(Sealed(body, body))
      && receipt == Some(Receipt(request, decision, from, to, body))
      && documents == after && valid(after)
    }

    /** command_apply. A repeated apply answers with the prior receipt and changes nothing; a first one
        either leaves the sources as they were, or applies all of it, unless the process dies. */
    method Apply(request: Request, decision: string, head: string, handoff: bool) returns (answer: Answer)
      modifies this
      ensures old(bundle).Some? || old(receipt).Some? ==>
                && documents == old(documents) && bundle == old(bundle) && receipt == old(receipt)
                && answer == if old(SameInput(request, decision)) then Applied(old(receipt).value) else Refused
      ensures old(bundle) == None && old(receipt) == None && answer.Applied? ==>
                handoff && Produced(request, decision, head, old(documents)) && answer == Applied(receipt.value)
      ensures answer.Refused? ==> documents == old(documents) && receipt == old(receipt)
      ensures old(bundle) == None && old(receipt) == None && !answer.Refused? ==>
                mutate(old(documents), decision).Some? && valid(mutate(old(documents), decision).value)
      ensures answer.Interrupted? ==>
                receipt == old(receipt) && bundle.Some? && bundle.value.body.documents == old(documents)
      ensures old(bundle).Some? || old(receipt).Some? ==>
                (answer.Applied? <==>
                   && bundle.Some? && receipt.Some? && bundle.value.digest == bundle.value.body
                   && receipt.value.decision == decision && receipt.value.request.id == request.id
                   && receipt.value.request.revision == request.revision
                   && receipt.value.bundle == bundle.value.digest && documents == receipt.value.result.documents)
      ensures old(bundle) == None && old(receipt) == None && answer.Applied? ==>
                && handoff && mutate(old(documents), decision) == Some(documents) && valid(documents)
                && receipt.value.request == request && receipt.value.decision == decision
                && receipt.value.base == SourceState(old(documents), head)
                && receipt.value.result.documents == documents
                && bundle.value.digest == bundle.value.body == receipt.value.bundle
                && bundle.value.body.request == request.id && bundle.value.body.decision == decision
                && bundle.value.body.documents == old(documents)
                && bundle.value.body.base == receipt.value.base && bundle.value.body.result == receipt.value.result
      ensures answer.Interrupted? && mutate(old(documents), decision).Some? ==>
                var was, now := old(documents), mutate(old(documents), decision).value;
                || documents == was || documents == now
                || documents == was.(registry := now.registry)
                || documents == was.(registry := now.registry, plane := now.plane)
    {
      if receipt.Some? || bundle.Some? {
        if receipt == None || bundle == None { return Refused; }
        var prior, rollback := receipt.value, bundle.value;
        if rollback.digest != rollback.body { return Refused; }
        if prior.decision != decision || prior.request != request || prior.bundle != rollback.digest { return Refused; }
        if documents != prior.result.documents { return Refused; }
        return Applied(prior);
      }
      if !handoff { return Refused; }
      var base := SourceState(documents, head);
      var mutated := mutate(documents, decision);
      if mutated == None || !valid(mutated.value) { return Refused; }
      var rendered := mutated.value;
      var result := SourceState(rendered, DerivedVersion(rendered));
      var body := Bundle(request.id, decision, base, result, documents);
      bundle := Some(Sealed(body, body));
      if * { return Interrupted; }
      var backups := documents;
      documents := documents.(registry := rendered.registry);
      if * { return Interrupted; }
      if * { documents := backups; return Refused; }
      documents := documents.(plane := rendered.plane);
      if * { return Interrupted; }
      if * { documents := backups; return Refused; }
      documents := documents.(runtime := rendered.runtime);
      if * { return Interrupted; }
      if * { documents := backups; return Refused; }
      receipt := Some(Receipt(request, decision, base, result, body));
      answer := Applied(receipt.value);
    }

    /** What command_restore demands of the files: an intact, matching bundle; the applied result still
        in place; and a baseline that is valid and exact. */
    predicate Restorable()
      reads this
    {
      && bundle.Some? && receipt.Some?
      && bundle.value.digest == bundle.value.body
      && receipt.value.bundle == bundle.value.digest
      && documents == receipt.value.result.documents
      && valid(bundle.value.body.documents)
      && bundle.value.body.documents == receipt.value.base.documents
    }

    /** A restore that died between two document writes: the plane is the baseline's, and the registry may
        be. The bundle is written with sorted keys, so its documents come back plane, registry, runtime. */
    predicate PartlyRestored(now: Documents, result: Documents, base: Documents) {
      && now.plane == base.plane && now.runtime == result.runtime
      && (now.registry == result.registry || now.registry == base.registry)
    }

    /** command_restore: on anything but restorable files it refuses and changes nothing. */
    method Restore() returns (answer: Answer)
      modifies this`documents
      ensures answer.Refused? <==> !old(Restorable())
      ensures answer.Refused? ==> documents == old(documents)
      ensures answer.Restored? ==> documents == receipt.value.base.documents
      ensures answer.Interrupted? ==>
                PartlyRestored(documents, receipt.value.result.documents, receipt.value.base.documents)
      ensures answer.Restored? || answer.Refused? || answer.Interrupted?
      ensures answer.Refused? <==>
                || bundle == None || receipt == None || bundle.value.digest != bundle.value.body
                || receipt.value.bundle != bundle.value.digest || old(documents) != receipt.value.result.documents
                || !valid(bundle.value.body.documents)
                || bundle.value.body.documents != receipt.value.base.documents
      ensures answer.Interrupted? ==>
                var was, base := old(documents), receipt.value.base.documents;
                || documents == was.(plane := base.plane)
                || documents == was.(plane := base.plane, registry := base.registry)
    {
      if bundle == None || receipt == None { return Refused; }
      var sealed, prior := bundle.value, receipt.value;
      if sealed.digest != sealed.body || prior.bundle != sealed.digest { return Refused; }
      if documents != prior.result.documents { return Refused; }
      var rendered := sealed.body.documents;
      if !valid(rendered) || rendered != prior.base.documents { return Refused; }
      documents := documents.(plane := rendered.plane);
      if * { return Interrupted; }
      documents := documents.(registry := rendered.registry);
      if * { return Interrupted; }
      documents := documents.(runtime := rendered.runtime);
      answer := Restored;
    }

    /** Restore undoes apply: after an apply the restore is refused exactly when the baseline itself is
        not a valid candidate, and otherwise the three original documents are back. */
    method ApplyThenRestore(request: Request, decision: string, head: string, handoff: bool)
      returns (applied: Answer, restored: Answer)
      requires bundle == None && receipt == None
      modifies this
      ensures applied.Applied? ==> (restored.Refused? <==> !valid(old(documents)))
      ensures applied.Applied? && restored.Restored? ==> documents == old(documents)
      ensures !applied.Applied? ==> restored == applied
    {
      applied := Apply(request, decision, head, handoff);
      restored := applied;
      if applied.Applied? { restored := Restore(); }
    }

    /** After an interrupted restore, the next restore and any apply are refused, and the mixed documents
        stay, exactly when they are not by chance the applied result again. */
    method RestoreAgain(request: Request, decision: string, head: string, handoff: bool)
      returns (first: Answer, between: Documents, second: Answer, third: Answer)
      modifies this
      ensures first.Interrupted? ==>
                && receipt.Some?
                && PartlyRestored(between, receipt.value.result.documents, receipt.value.base.documents)
                && (second.Refused? <==> between != receipt.value.result.documents)
                && (second.Refused? ==> third.Refused? && documents == between)
    {
      first := Restore();
      between := documents;
      second, third := first, first;
      if first.Interrupted? {
        second := Restore();
        if second.Refused? { third := Apply(request, decision, head, handoff); }
      }
    }

    /** Applying the same decision twice is applying it once. */
    method ApplyTwice(request: Request, decision: string, head: string, later: string, handoff: bool)
      returns (first: Answer, second: Answer)
      requires bundle == None && receipt == None
      modifies this
      ensures first.Applied? ==> second == first && Produced(request, decision, head, old(documents))
    {
      first := Apply(request, decision, head, handoff);
      second := first;
      if first.Applied? { second := Apply(request, decision, later, handoff); }
    }
  }
}
